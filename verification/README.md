# OpenNFM, verified

OpenNFM makes a disk out of raw NAND flash in three layers.  This project models each layer as
the C code runs it and proves that a layer is, for its user, the simple thing it claims to be.

| layer | sources | for its user it is |
|---|---|---|
| sector front end | `core/onfm.c`, `core/buf` | an array of sectors |
| FTL | `core/ftl` | an array of pages |
| UBI | `core/ubi` | an array of erasable blocks whose pages are programmed in order |
| NAND | `core/mtd` | pages that are programmed once between two block erases |

The layers are classes whose fields are the static variables of the C files (`Onfm.Onfm`,
`Buffers.Pool`, `FtlState.Ftl`, `UbiState.Ubi`, `Nand.Nand`); their methods follow the C functions
step by step and are proved against functions on values.  `Ubi.Ubi` is the block layer with its
tables hidden: its contracts are all the FTL knows.  Nothing in the FTL is proved over an assumed
device: `Device.RunOnNand` and `Device.DiskOnNand` put the layers on top of each other, from a NAND
device with arbitrary contents through formatting and mounting to any run of operations.

## How to read it

* `Geometry` has the numbers: journal width J, pages per block P, M = P - 1, page-map sizes, and
  the arithmetic of FTL_Capacity.  They stay symbolic; `ValidConfig` is what the source asserts or
  needs of a build.  `PmNode` has the bit layout of page-map words, which the rest uses decoded.
* Page map: `PmtSpec`, `PageMap` (values), `Pmt`, `Commit` (methods); what a power loss does to it:
  `ListLoss`, `ClusterLoss`, `CommitCut`.
* Journals and reclaim: `DataSpec`, `Victims`, `Reclaim` (values), `Data`, `DataReclaim` (methods).
* The three ping-pong logs: `RootSpec`, `Logs`.  The volume: `FtlApi`, `FtlRuns`.
* Power loss above the block layer: `ReplaySpec`, `Lanes`, `ReplayData`, `Replay`, `Mount`,
  `Recovery`, `Sessions`; power-on after a cut is `PowerLoss`.  `Durable` follows whole runs: what was
  done since the last commit is its `Trail`, and a power loss costs no more than the replay of it.
  From an empty device: `Format`, `Volume`.  Runs that end badly: `ReplayCost`.
* Block layer: `FreeTable` (arrays in place), `Table`, `UbiSpec` (who owns a block), `UbiFlash`
  (what a mount finds on flash), `UbiWear` (the erase counts all tables keep), `UbiIndex`, `UbiAnchor`, `UbiArea`, `UbiCommit`, `UbiErase`
  (crash atomicity), `UbiMount`, `UbiRestart` (UBI_Erase, power losses, mounts), `UbiWrite` (bad
  blocks), `UbiFormat`.
* Sectors: `Buffers`, `Sectors`, `Onfm`, `SectorRuns`.  All together: `Device`.

A power loss in the block layer is a countdown of NAND steps in `Nand.Nand`: every method is proved
for every value of it, so "after any number of steps" is part of each contract.  It ends the call it
hits, also where the source ignores the status of that step.  A bad block is a status that
`Nand.Nand` may report a bounded number of times.  The tables a mount can find on a flash are the
predicate `UbiFlash.Leads`: one anchor block leads to them (`Boots`), or, when power failed while the
anchor block was being replaced, two (`BootsTwice`).  ANCHOR_Init may keep the older of two, and may
load the record of the one it erases; `UbiMount.FindAnchor` shows that both records lead to the same
index table, so nothing is lost.  `UbiMount.UbiInit` finds the tables from there, or fails if an area
table is gone (`UbiMount.Before` has both cases), and
`UbiRestart.EraseAndRestart` composes UBI_Erase, a power loss in it, power losses in the mounts that
follow, and the last mount.

In the FTL, `Ftl.listed` is the list of clusters that the page-map block being filled ought to have,
and `Ftl.pmtMeta` the list in RAM (`meta_data`), which is zero after power-on.  `FtlApi.Mounted` is a
state in order but for that list, `FtlApi.Valid` one in which the two agree.  Reads and writes are
right in either as long as they need no commit (`FtlApi.FtlRead`, `FtlApi.FtlWrite`).

A commit is `Commit.JustCommitted`: root, dirty table and page map in RAM are those a mount would
read from flash.  `Commit.Saved` says the same of the data region alone, when a cluster was cached
since.  The commits the source makes on its own, of a full cache and after a reclaim, are stated with
these two wherever they may happen, and `Durable.Next` says what each call leaves to be replayed.  Its
one unknown case is a page write that commits in its middle (`ReplayCost.OwnCommitMisleads`).

In the block layer, `UbiWear.Place` is all that the index table and RAM say of blocks and erase
counts.  `Committed` is what a commit makes of it, and UBI_Erase and the bad-block reclaim are proved
to leave exactly that; `EveryCount` then gives conservation: the count kept for a block grows by one
each time it is taken, and never otherwise.

## Where the code does not do what one would expect

These properties are false of the code as it stands.  Each is stated with the condition under which
it holds, for all states, and most with a run from a formatted device on which it fails.

* DATA_Replay ends where the session ended if and only if the journals whose lists are on flash come
  before the others (`ReplaySpec.ReplayEndsExactly`).  Otherwise it takes a list page for a page of
  logical address 0xFFFFFFFF (`core/ftl/ftl_data.c:524-575`).  DATA_Write on idle dice keeps the
  order (`StaysListedFirst`).  Pages that pass a busy die break it: from a freshly formatted volume,
  `ReplayCost.BusyDieMisleads` fills journal 1 before journal 0, in every geometry with two journals
  or more.
* DATA_Replay restores the edition counter if and only if one journal of the set is left to write to
  (`ReplaySpec.CounterRestored`).  Otherwise pages written before the next commit start at edition
  0xFFFFFFFF, which a replay never looks for.  So it is after FTL_Format already, when a set has two
  journals or more (`ReplayCost.CounterLost`).
* Replay restores the map of the moment of the power loss at an address if and only if the address
  survives in the sense of `ReplaySpec.Survives`: hot pages are replayed before cold ones, and trims
  leave no trace (`Sessions.PowerLossCost`).  A page written cold and then hot comes back as the older
  one (`ReplayCost.OlderPageWins`), and a page written and trimmed comes back
  (`ReplayCost.TrimUndone`).
* A commit inside DATA_Write, when the address's cluster does not fit in the cache, comes between the
  page and its entry in the map (`core/ftl/ftl_data.c:163-191`, `core/ftl/ftl_pmt.c:267-279`).  The
  root then has the journal's cursor on that page still, and its editions start again at 0.  The next
  replay finds the page if and only if it was the first of its set since the commit before; otherwise
  it ends without the page, or, if the page went to the last journal of the set, repeats the same pass
  for ever (`ReplayCost.OwnCommitMisleads`).
* DATA_Reclaim erases its victims before DATA_Commit writes the root that names the copies of their
  pages (`core/ftl/ftl_data.c:443-488`, `core/ftl/ftl_api.c:174-180`).  After a power loss in between,
  the addresses that a replay recovers are lost if and only if their page was in an erased victim
  (`ReplayCost.ErasedTooEarly`).
* PMT_Init does not rebuild the list of the page-map block being filled
  (`core/ftl/ftl_pmt.c:144-160`).  After power-on the page map is in order if and only if no cluster
  but the first has its home in that block (`ListLoss.ForgottenIsStable`), as when nothing has been
  written to it yet (`FreshBlockIsStable`).  If there is one, the volume is still recovered
  (`Recovery.FtlInit`), but the list that is later written does not name the cluster, and the reclaim
  of the block then erases it (`KeptIfListed`).  In the build of `ClusterLoss.LostCluster` that
  happens 27 commits after FTL_Format and a power loss.
* A power loss inside PMT_Commit leaves every address as the last root has it, but the page map is in
  order if and only if no cluster was written yet (`CommitCut.CutCommit`): the page that the root
  names for the next cluster is already programmed (`core/ftl/ftl_pmt.c:307-403`).  The first commit
  after FTL_Format, cut after one page, is such a case (`CommitCut.FirstCommitCut`).
* A remap is atomic if and only if the index table does not move to an area block released in the
  same commit, which takes an area block and an index block that are both full
  (`UbiErase.EraseOk`).  If it does, a power loss after four steps of UBI_Erase leaves a flash whose
  index table names an erased area block (`UbiErase.EraseBlock`; `core/ubi/ubi_index.c:273-312`), and
  UBI_Init fails on it (`UbiMount.UbiInit`).  The device of `UbiRestart.TinyDevice` is in that state,
  and `TinyLoss` loses it and mounts it in vain.

UBI_Format counts DATA_BLOCK_COUNT as an absolute block number and spends one block on each area
table; `UbiFormat.PlanIs` gives the number of areas and of logical blocks that result.  A mount
needs as many areas as AREA_COUNT says (`UbiFormat.Planned`).

## Model

| member | source | states |
|---|---|---|
| Geometry.ConfigGivesGeometry | core/ftl/ftl_api.c:240-256 | the arithmetic of FTL_Capacity, PMT_BLOCK_COUNT and the cluster count implies every sizing condition the FTL proofs use, for every configuration that meets the source's own assertions |
| Geometry.DataSizing | core/ftl/ftl_api.c:244-255 | the volume is never larger than the data blocks outside the three journal sets can hold, and never empty |
| Geometry.ClusterCount | core/ftl/ftl_inc.h:62-65 | every page address has a cluster, and the clusters number at most M for each five page-map blocks |
| Geometry.PmtSizing | core/ftl/ftl_inc.h:79 | five-fold sizing: the clusters cannot fill all page-map blocks but one beyond a quarter |
| Geometry.SimNandIsValid | cfg.h:87-99 | the simulated device meets the source's assertions; its volume has 28737 pages |
| PmNode.EntryRoundTrip | core/ftl/ftl_inc.h:43-51 | a page-map word is read back if and only if the page is one of the block's and the page number fits in 30 bits; no place is ever encoded as the invalid word or as a RAM pointer |
| PmNode.EveryPlaceFits | core/ftl/ftl_inc.h:46-50 | on a volume of at most 2^30 pages every place is read back |
| PmNode.NodeRoundTrip | core/ftl/ftl_inc.h:43-50 | RAM pointers and places are never confused, both are read back, and setting the dirty bit changes nothing else |
| PmtSpec.VictimExists | core/ftl/ftl_pmt.c:416-448 | sizing theorem: with the open block full, some other block than the reclaim block is at least three quarters dirty |
| PmtSpec.SomeBlockIsSparse | core/ftl/ftl_inc.h:79 | the pigeonhole behind it: some block is home to at most a quarter of M clusters |
| PmtSpec.FlushKeeps | core/ftl/ftl_pmt.c:331-370 | writing one dirty slot keeps the page-map invariant, with dirty-count conservation, and the address map |
| PmtSpec.DropKeeps | core/ftl/ftl_pmt.c:323-329 | giving a clean slot back to flash keeps invariant and map |
| PmtSpec.CloseKeeps | core/ftl/ftl_pmt.c:372-381 | writing the list of clusters of a full block keeps invariant and map |
| PmtSpec.BeginKeeps | core/ftl/ftl_pmt.c:460-463 | a reclaim begins in a state of its copy loop: nothing lives in the reclaim block, the victim's list is on flash |
| PmtSpec.MoveKeeps | core/ftl/ftl_pmt.c:499-529 | copying one live page keeps the copy loop's invariant and the map, whether the cluster is cached or not |
| PmtSpec.PassKeeps | core/ftl/ftl_pmt.c:473-501 | a page that is not passed on is no cluster's valid page, or its cluster is dirty in RAM |
| PmtSpec.StaleBound | core/ftl/ftl_pmt.c:475-479 | at most one cluster left behind for each slot still to be visited |
| PmtSpec.EndKeeps | core/ftl/ftl_pmt.c:534-550 | after the erase the map is unchanged, and the new open block has room for every slot still to be written |
| PmtSpec.RecycleKeeps | core/ftl/ftl_pmt.c:552-567 | erasing a victim without live pages keeps invariant and map |
| PmtSpec.LoadKeeps | core/ftl/ftl_pmt.c:281-300 | loading a cluster keeps invariant and map |
| PmtSpec.SetKeeps | core/ftl/ftl_pmt.c:191-208 | replacing an entry of a cached cluster keeps the invariant |
| PmtSpec.ClearKeeps | core/ftl/ftl_pmt.c:396-400 | emptying the cache after the last slot leaves a stable page map |
| PmtSpec.StableDepends | core/ftl/ftl_pmt.c:215-249 | the page map depends on its own blocks, nodes and counts only: no other commit disturbs it |
| PageMap.SetMapOf | core/ftl/ftl_pmt.c:191-208 | the entry set is the entry of exactly one address |
| PageMap.SameAddress | core/ftl/ftl_inc.h:64-65 | cluster and place in it determine the address |
| PageMap.SameMapOf | core/ftl/ftl_pmt.c:215-249 | equal clusters give equal address maps |
| Pmt.FindVictim | core/ftl/ftl_pmt.c:416-448 | the search ends, with the first of the dirtiest blocks of the region |
| Pmt.ChooseVictim | core/ftl/ftl_pmt.c:416-448 | the block found is that one, is not the reclaim block, and is three quarters dirty |
| Pmt.FlushOne | core/ftl/ftl_pmt.c:337-369 | one slot is written out of place, as the specification says |
| Pmt.Locate | core/ftl/ftl_pmt.c:468-497 | the node, or the slot's origin, is the cluster's valid page unless it is dirty in RAM |
| Pmt.CopyOne | core/ftl/ftl_pmt.c:504-529 | page, node, list entry and cache slot change exactly as MovePage says |
| Pmt.MoveOne | core/ftl/ftl_pmt.c:466-531 | one page of the copy loop keeps the loop's invariant and the map |
| Pmt.MoveLoop | core/ftl/ftl_pmt.c:466-531 | after the loop nothing but stale clusters lives in the victim; the loop is the specification's Sweep |
| Pmt.ReclaimBlocks | core/ftl/ftl_pmt.c:407-571 | the new state is that of the specification; the address map is unchanged, whatever slots are flushed, clean or dirty, and the open block has room for the rest |
| Pmt.CommitSlot | core/ftl/ftl_pmt.c:314-394 | one slot of a commit, reclaim included, keeps the map, and the slot's node is no RAM pointer afterwards; a block is reclaimed only when the open one has one page left, and then the rest of the cache fits in the next |
| Pmt.PmtCommit | core/ftl/ftl_pmt.c:307-403 | page-map transparency: the map is unchanged, no node is a RAM pointer, the cache is empty; at most one block is reclaimed; the new state is a function of the old one, which the runs after a power loss use too |
| ListLoss.ForgottenIsStable | core/ftl/ftl_pmt.c:144-160 | a mount leaves the list of the page-map block being filled at zeros: the page map is in order then if and only if no cluster but the first has its home in that block |
| ListLoss.FreshBlockIsStable | core/ftl/ftl_pmt.c:144-160 | which is so while nothing has been written to that block |
| ListLoss.KeptIfListed | core/ftl/ftl_pmt.c:466-550 | a reclaim keeps a cluster that lives in its victim if and only if the victim's list names it at its page; otherwise its entries are gone with the erase |
| ClusterLoss.LostCluster | core/ftl/ftl_pmt.c:307-571 | a build, and a run of it, on which this happens: PMT_Format, a power loss, and 27 commits of one changed cluster each, the last of which reclaims the first block and loses cluster 1 |
| CommitCut.CutCommit | core/ftl/ftl_pmt.c:307-403 | a power loss inside PMT_Commit, before a reclaim: every address reads as at the last root, and the page map of that root is in order if and only if no dirty slot was visited |
| CommitCut.FirstCommitCut | core/ftl/ftl_pmt.c:307-403 | the first commit after FTL_Format, cut after its first page: the page map is not in order |
| Commit.PmtLoad | core/ftl/ftl_pmt.c:252-303 | loading never changes the address map; if no slot was empty, everything has been committed before the load: root, dirty table and page map as a mount reads them are those of the data region, the editions are 0 (`Commit.Saved`), so a power loss right after it loses nothing |
| Commit.FindEmpty | core/ftl/ftl_pmt.c:258-265 | the first empty slot, if there is one |
| Commit.FullCache | core/ftl/ftl_pmt.c:258-265 | a full cache holds as many different clusters as it has slots |
| Commit.RoomInCache | core/ftl/ftl_pmt.c:258-279 | so no commit is needed while no more clusters than that are used |
| Commit.PmtSearch | core/ftl/ftl_pmt.c:215-249 | the entry returned is the address map's; with room in the cache nothing is committed or released, without it everything has been committed |
| Commit.PmtUpdate | core/ftl/ftl_pmt.c:163-212 | exactly one entry of the address map changes, and the page it left counts as one more dirty page of its block; a commit, made if and only if the cluster has no room, has what was there before the update |
| Commit.DataCommit | core/ftl/ftl_data.c:204-231 | the address map and the data region are unchanged; root, dirty table, logs and page map in RAM are those a mount reads from flash, no node is a RAM pointer, the cache is empty and both editions are 0 (`Commit.JustCommitted`) |
| Commit.CommittedIsSaved | core/ftl/ftl_data.c:204-231 | right after a commit the flash holds the tables of the data region in RAM |
| Commit.RecordDepends | core/ftl/ftl_data.c:163-191 | they stay there as long as nothing outside the data region is written |
| Commit.StoredDepends | core/ftl/ftl_data.c:163-191 | writing to the data region alone leaves what a mount reads |
| Logs.HdiCommit | core/ftl/ftl_hdi.c:157-194 | one more page of the current block of its log or the first of the other one, and nothing else; a mount finds it |
| Logs.BdtCommit | core/ftl/ftl_bdt.c:119-160 | the newest copy of the dirty table is where root_table says, on whole multiples of its length; a mount finds it; no page but that copy is written, after the other block was erased if this one was full |
| Logs.BdtPages | core/ftl/ftl_bdt.c:132-147 | the pages of the table are written in order, each on the first unwritten page |
| Logs.CopyStays | core/ftl/ftl_bdt.c:119-160 | appending one copy of the dirty table leaves the stored one, unless its block had to be erased for it |
| Logs.RootAppend | core/ftl/ftl_root.c:144-186 | the log afterwards is the specification's, and a mount loads the root just written |
| Logs.RootCommit | core/ftl/ftl_root.c:144-186 | the same in a running FTL, with the other logs kept in order |
| RootSpec.LoadsLast | core/ftl/ftl_root.c:67-133 | mounting a log in order loads the last root written and finds where the next goes |
| RootSpec.TurnKeepsLast | core/ftl/ftl_root.c:150-165 | a power loss between erasing the other block and writing it loses nothing |
| RootSpec.TurnKeeps | core/ftl/ftl_root.c:144-186 | the log stays in order over a change of blocks, and the edition grows |
| RootSpec.EveryRunRecovers | core/ftl/ftl_root.c:67-186 | along every run of commits, re-mounts and power losses after an erase, the last root written is the one loaded, and editions strictly increase |
| DataSpec.AppendKeeps | core/ftl/ftl_data.c:165-185 | a page write keeps the data invariant: lists, RAM lists, map, and dirty-count conservation for every block |
| DataSpec.AppendCounts | core/ftl/ftl_data.c:177-185 | dirty pages plus mapped addresses: the cursor for a journal, 0 for a reclaim block, M otherwise, before and after a write |
| DataSpec.TrimKeeps | core/ftl/ftl_data.c:193-198 | the same for a trim |
| DataSpec.CloseKeeps | core/ftl/ftl_data.c:187-191 | after its list is written, a full block's last page lists the address of each of its pages |
| DataSpec.Transfer | core/ftl/ftl_pmt.c:183-205 | a remapping moves one mapped page to one dirty page and nothing else |
| DataSpec.UpdatedPages | core/ftl/ftl_data.c:117-201 | the reader of the volume sees exactly one page changed |
| DataSpec.WrittenOutcome | core/ftl/ftl_data.c:163-191 | the outcome of a whole page write, list included |
| Data.IsFull | core/ftl/ftl_data.c:234-260 | true exactly when every journal of the temperature is full |
| Data.PickJournal | core/ftl/ftl_data.c:143-160 | the loop ends with an idle journal that has room; with idle dice the first such one |
| Data.AppendPage | core/ftl/ftl_data.c:165-185 | page, spare words, map, RAM list and cursor change as Append says |
| Data.CloseJournal | core/ftl/ftl_data.c:187-191 | the RAM list reaches the last page of its block |
| Data.DataWrite | core/ftl/ftl_data.c:117-201 | one logical page reads differently, the other temperature's journals keep their cursors, and the page goes to the first open journal when every die is idle |
| Victims.Pass | core/ftl/ftl_data.c:320-357 | one pass takes the eligible blocks of the target dirty count and finds the next lower count |
| Victims.SelectVictims | core/ftl/ftl_data.c:315-363 | the selection ends with J distinct eligible blocks, dirtiest first, and no dirtier eligible block left out |
| Reclaim.EnoughDirtyBlocks | core/ftl/ftl_api.c:240-256 | capacity theorem: when a journal set is full, at least J eligible blocks have a dirty page |
| Reclaim.CrammedFew | core/ftl/ftl_api.c:244-255 | at most the volume's worth of blocks can be free of dirty pages |
| Reclaim.VictimCounts | core/ftl/ftl_data.c:320-351 | a chosen block is never a reclaim block, and its pages are dirty or live |
| Reclaim.ChosenAreVictims | core/ftl/ftl_data.c:315-363 | the loop's result has all a reclaim needs of its victims |
| Reclaim.DirtyBounded | core/ftl/ftl_pmt.c:186-188 | no dirty count exceeds M |
| Reclaim.CopyKeeps | core/ftl/ftl_data.c:394-435 | copying one live page changes no logical page and keeps the invariant |
| Reclaim.CopyTally | core/ftl/ftl_data.c:409-434 | each reclaim block holds what its victim's dirty count has grown by |
| Reclaim.SkipKeeps | core/ftl/ftl_data.c:390-392 | a page whose listed address has moved away holds nothing live |
| Reclaim.UnlistedKeeps | core/ftl/ftl_data.c:378-379 | a victim whose last page cannot be read holds nothing live |
| Reclaim.DrainedVictim | core/ftl/ftl_data.c:381-437 | a victim that has been gone through is wholly dirty |
| Reclaim.RenewKeeps | core/ftl/ftl_data.c:447-487 | erasing spent blocks and rearranging journals changes no logical page and keeps counts conserved |
| Reclaim.RotateKeeps | core/ftl/ftl_data.c:443-467 | after a copying reclaim: map unchanged, journals pairwise distinct with room, reclaim blocks empty |
| Reclaim.RecycleKeeps | core/ftl/ftl_data.c:469-488 | after a reclaim without live pages: the same |
| Reclaim.LastVictimListed | core/ftl/ftl_data.c:367-379 | some victim page is live exactly when the last victim is not wholly dirty, and then its list is readable, so no failure status survives the copy loops |
| DataReclaim.CopyOnePage | core/ftl/ftl_data.c:381-437 | one page of the copy loop keeps the copying state and every logical page |
| DataReclaim.CopyVictims | core/ftl/ftl_data.c:369-441 | total_reclaimed_page equals total_valid_page: exactly the live pages are copied |
| DataReclaim.CountValid | core/ftl/ftl_data.c:337-342 | total_valid_page adds up, over the victims, M minus the dirty count |
| DataReclaim.ValidAreLive | core/ftl/ftl_data.c:337-342 | that sum is the number of live pages of the victims |
| DataReclaim.Select | core/ftl/ftl_data.c:315-363 | in a running FTL the selection finds its J victims, and total_valid_page is the number of addresses mapped into them |
| DataReclaim.Reclaim | core/ftl/ftl_data.c:263-497 | every logical page keeps its contents; the victims are the dirtiest blocks there are, each renewed journal holds the live pages of one of them and has room, the edition is the number of pages copied, the victims are erased and serve next, and the other temperature's cursors stay |
| FtlApi.Renew | core/ftl/ftl_api.c:174-180 | a reclaim and the commit after it: no logical page changes, and the flash holds the renewed journals |
| FtlApi.LastFills | core/ftl/ftl_data.c:234-260 | a page for a set that has room for one page only fills it, whichever journal it goes to |
| FtlApi.FtlWrite | core/ftl/ftl_api.c:166-185 | exactly one page of the volume changes, whatever the heuristic answers; the page goes to a journal of its set at its edition, on idle dice the first open one; if the set had room for this page only, it is then reclaimed and everything is committed, with renewed journals and editions 0; otherwise nothing is committed unless the cluster does not fit in the cache, and then what was there before the page; right after a mount that lost the list, too, as long as there is no commit |
| FtlApi.FtlRead | core/ftl/ftl_api.c:188-201 | the page of the volume, which stays as it is; with room in the cache nothing is written, without it everything has been committed; right after a mount that lost the list, too, as long as there is no commit |
| FtlApi.FtlTrim | core/ftl/ftl_api.c:204-219 | the pages of the range read as zeros, no other changes |
| FtlApi.FtlFlush | core/ftl/ftl_api.c:259-269 | volume and data region are unchanged; root, dirty table and page map in RAM are those a mount reads from flash, no node is a RAM pointer, editions are 0, every die is idle |
| FtlRuns.Step | core/ftl/ftl_api.c:166-281 | each operation changes exactly the pages it names, and after a flush everything is committed |
| FtlRuns.Run | core/ftl/ftl_api.c:166-281 | whole-run refinement: every read of every run returns the last page written, or zeros after a trim |
| ReplaySpec.NextPage | core/ftl/ftl_data.c:165-185 | at the first lane with room after i writes stands page i, or an erased page |
| ReplaySpec.PushTidy | core/ftl/ftl_data.c:165-191 | a write keeps a lane's pages below its cursor and its list in place |
| ReplaySpec.ScanFinds | core/ftl/ftl_data.c:524-557 | while pages are left, a pass over the journals finds the next one in edition order |
| ReplaySpec.ScanStops | core/ftl/ftl_data.c:559-575 | when none is left, the pass ends the replay, even if the last list is missing, if the session began with the full journals first |
| ReplaySpec.ReplayEndsExactly | core/ftl/ftl_data.c:524-575 | for every session: the pass after the last page ends the replay if and only if the journals whose lists are on flash come first; otherwise it takes a list for a page of edition 0xFFFFFFFF and remaps address 0xFFFFFFFF |
| ReplaySpec.StaysListedFirst | core/ftl/ftl_data.c:143-191 | writes on idle dice keep that order, also when the last list is missing |
| ReplaySpec.CounterRestored | core/ftl/ftl_data.c:559-574 | a replay restores the edition counter if and only if one journal is left to write to; otherwise it is 0xFFFFFFFF |
| ReplaySpec.OverriddenAt | core/ftl/ftl_data.c:546-553 | replayed pages override the map at exactly their addresses, the last one winning |
| ReplaySpec.RecoveredAt | core/ftl/ftl_api.c:124-132 | what both replays make of an address: hot writes first, then cold ones over them |
| ReplaySpec.ReplayExact | core/ftl/ftl_data.c:500-577 | replay meaning: the replayed map agrees with the running one on exactly the addresses whose last act survives |
| Lanes.WrittenPushes | core/ftl/ftl_data.c:143-191 | DATA_Write on idle dice pushes one page on the first open lane |
| Lanes.LanesTidy | core/ftl/ftl_data.c:187-191 | the journals between calls are tidy lanes |
| ReplayData.ReplayStep | core/ftl/ftl_data.c:546-556 | one replayed page keeps the data invariant |
| ReplayData.RebuiltKeeps | core/ftl/ftl_data.c:587-613 | rebuilding a list, and writing a missing one, keeps the invariant and every logical page |
| Replay.ScanPass | core/ftl/ftl_data.c:524-576 | one pass is the specification's scan |
| Replay.ReplayPages | core/ftl/ftl_data.c:522-577 | the loop ends, having replayed exactly the pages written since the commit |
| Replay.ReadRow | core/ftl/ftl_data.c:587-613 | the spare words of the readable pages of a block |
| Replay.BuildRow | core/ftl/ftl_data.c:580-614 | the RAM list is that of the block, and a missing list page is written |
| Replay.DataReplay | core/ftl/ftl_data.c:500-617 | map, cursors and lists are those of the session that was cut short; the edition counter is that session's if one journal is left to write to, and 0xFFFFFFFF otherwise; nothing outside the data region is written if the cache has room, and nothing at all unless a list is missing |
| Mount.ChooseRootBlock | core/ftl/ftl_root.c:73-100 | the block whose first image is newer |
| Mount.LoadRoot | core/ftl/ftl_root.c:67-130 | the newest image is loaded and the statics are those of the log |
| Mount.RootInit | core/ftl/ftl_root.c:67-141 | the stored root is in RAM, and exactly one more copy of it is in the log |
| Mount.ReadTable | core/ftl/ftl_bdt.c:74-88 | the dirty table in RAM is the stored one |
| Mount.ScanTables | core/ftl/ftl_bdt.c:90-106 | the first erased copy of the table |
| Mount.BdtInit | core/ftl/ftl_bdt.c:68-116 | the stored dirty table is loaded and written once more, to the copy after the newest; the copy the root names stays |
| Mount.HdiInit | core/ftl/ftl_hdi.c:76-116 | the next page of the hot-data log is found; what is committed is the dirty table, once more |
| Mount.MountTables | core/ftl/ftl_api.c:104-122 | root, dirty table, empty cache and logs are those stored, and the address map is the committed one, whatever is in the RAM list of the page-map block being filled; the flash still holds what a mount reads, so a second power loss finds the same tables |
| Recovery.ReplayBoth | core/ftl/ftl_api.c:124-132 | hot pages, then cold pages, override the committed map, and both sets have room |
| Recovery.ReclaimIfFull | core/ftl/ftl_api.c:141-159 | a full set is reclaimed and everything committed, no logical page changes; a set with room is left alone |
| Recovery.FtlInit | core/ftl/ftl_api.c:98-163 | after a power loss in a session of page writes the volume is the committed one overridden by the pages written since; the state is valid again if zeros will do for the lost list, and valid but for that list otherwise; if the session fits in the cache nothing is committed, and the flash is still one that FTL_Init recovers in the same way |
| Sessions.SessionIsReplayable | core/ftl/ftl_data.c:117-201 | every session on idle dice, cut anywhere between page writes or before a last list, leaves the journals as DATA_Replay needs them |
| Sessions.PowerLossCost | core/ftl/ftl_data.c:500-577 | after a power loss an address is mapped as before if and only if it survives: last written cold, or hot with no cold write in the session, or trimmed and never written |
| Sessions.SurvivorsRead | core/ftl/ftl_api.c:188-201 | and then it reads as before |
| PowerLoss.SessionInterrupted | core/ftl/ftl_api.c:98-163 | wherever power fails between or in the page writes since a commit, the device is one FTL_Init recovers |
| PowerLoss.MountAgain | core/ftl/ftl_api.c:98-163 | power-on and FTL_Init: the recovered volume, and a valid state if no cluster but the first lives in the page-map block that was being filled; if the session fits in the cache, the flash is afterwards one that FTL_Init recovers in the same way |
| Durable.OrderAfter | core/ftl/ftl_data.c:143-191 | page writes on idle dice, reclaims included, keep full journals before open ones |
| Durable.GoesOn | core/ftl/ftl_api.c:166-185 | an act without a commit: the flash still holds the last commit's tables, and the act follows the others since |
| Durable.DropRestarts | core/ftl/ftl_pmt.c:163-212 | a trim whose cluster did not fit in the cache is the first act since the commit it caused |
| Durable.Perform | core/ftl/ftl_api.c:166-281 | one call on idle dice: the volume changes as an array of pages does, and what was done since the last commit is exactly known afterwards, in every case but a page write that commits in its middle |
| Durable.Run | core/ftl/ftl_api.c:166-281 | whole runs: every read is answered right, the acts since the last commit are the acts of the last calls, no flush is among them, and they are known after a flush if the clusters used fit in the cache |
| Durable.CacheBound | core/ftl/ftl_pmt.c:252-303 | the cached clusters are no more than the cache has slots, so the acts since a commit never need more |
| Durable.CutNow | core/ftl/ftl_api.c:98-163 | a power loss between two calls of any run leaves the tables of the last commit and the pages of the acts since |
| Durable.CutCommitted | core/ftl/ftl_api.c:98-163 | right after a commit it leaves the tables in RAM |
| Durable.CutWrite | core/ftl/ftl_data.c:163-191 | a power loss in a page write, between the page and the list it makes due: the page counts as one more act |
| Durable.Recover | core/ftl/ftl_api.c:98-163 | power-on and FTL_Init on what is left: every address that survives the acts reads as before, and another power loss finds the same again |
| Durable.NothingLost | core/ftl/ftl_api.c:98-163 | with no act since the commit the volume is as it was |
| ReplayCost.BusyDieMisleads | core/ftl/ftl_data.c:143-160 | from a freshly formatted volume, for every geometry with J >= 2 and any M pages: written to journal 1 past a busy die, they leave a state in order, but after a power loss the replay ends before the first of them, and after a commit and a power loss it takes the journal's list for a page |
| ReplayCost.CounterLost | core/ftl/ftl_data.c:559-574 | on a freshly formatted volume with two or more journals a set, a replay without pages sets the edition counter to 0xFFFFFFFF |
| ReplayCost.OlderPageWins | core/ftl/ftl_api.c:124-132 | a page written cold and then hot on a fresh volume is not the one recovered |
| ReplayCost.TrimUndone | core/ftl/ftl_api.c:124-132 | a page written and then trimmed on a fresh volume is mapped again |
| ReplayCost.OwnCommitMisleads | core/ftl/ftl_data.c:163-191 | a commit that DATA_Write causes between its page and the map update: the next replay finds the page if and only if it was the first of its set since the commit before; otherwise it ends before the page, or never, if the page went to the last journal |
| ReplayCost.ErasedTooEarly | core/ftl/ftl_data.c:443-467 | a power loss between the erase of a victim and the next commit: for every session, an address that a replay recovers is lost if and only if its page was in the erased block |
| Format.DataFormat | core/ftl/ftl_data.c:55-114 | whatever the device held: the three journal sets are the first data blocks, exactly these are erased and clean; every other block counts as dirty |
| Format.HdiFormat | core/ftl/ftl_hdi.c:52-73 | the log holds one page |
| Format.BdtFormat | core/ftl/ftl_bdt.c:50-65 | the log holds one copy of the table |
| Format.RootFormat | core/ftl/ftl_root.c:47-63 | the log holds one image, which a mount loads |
| Format.PmtFormat | core/ftl/ftl_pmt.c:71-141 | every cluster has its page, list and node in the region |
| Format.FormattedIsStable | core/ftl/ftl_pmt.c:86-138 | what PMT_Format leaves is a stable page map in which nothing is mapped |
| Volume.FtlFormat | core/ftl/ftl_api.c:69-92 | the formatted device holds what FTL_Init needs |
| Volume.FormatAndInit | core/ftl/ftl_api.c:59-163 | FTL_Format and FTL_Init: a valid FTL over a volume of zeros |
| Volume.FormatAndRun | core/ftl/ftl_api.c:59-281 | every run from FTL_Format on answers as an array of pages |
| Nand.Nand.Read | core/mtd/mtd_nand_sim.c:242-272 | an erased page cannot be read |
| Nand.Nand.Program | core/mtd/mtd_nand_sim.c:211-239 | only an erased page is programmed; one page changes; power may have failed before it, or the block be reported bad after it |
| Nand.Nand.Erase | core/mtd/mtd_nand_sim.c:188-208 | a whole block is erased, with the same two failures |
| Table.FindNewest | core/ubi/ubi_table.c:59-123 | the newest page of any block whose written pages form a prefix; failure exactly for an empty block |
| FreeTable.PutKeepsSorted | core/ubi/ubi_index.c:510-555 | the table stays sorted by erase count, invalid entries last |
| FreeTable.PutAddsOne | core/ubi/ubi_index.c:510-555 | exactly one entry is added when the last one was invalid |
| FreeTable.RemoveKeepsSorted | core/ubi/ubi_index.c:484-497 | the table stays sorted when a block is taken |
| FreeTable.RemoveTakesOne | core/ubi/ubi_index.c:484-497 | exactly the chosen entry leaves |
| FreeTable.PickIsLeastWorn | core/ubi/ubi_index.c:434-456 | a least-worn block of the die, or of all if the die has none |
| FreeTable.SwapKeepsSorted | core/ubi/ubi_index.c:351-417 | the swap for wear leveling keeps the table sorted |
| FreeTable.SwapReplacesMax | core/ubi/ubi_index.c:361-415 | with two valid entries and a gap above the threshold the swap replaces a most worn entry; otherwise nothing changes |
| FreeTable.InsertInPlace | core/ubi/ubi_index.c:514-554 | the downward scan inserts behind the entries that are not heavier |
| FreeTable.PutInPlace | core/ubi/ubi_index.c:510-555 | INDEX_FreeBlock_Put in the array is Put |
| FreeTable.Search | core/ubi/ubi_index.c:434-456 | the search is Pick |
| FreeTable.RemoveInPlace | core/ubi/ubi_index.c:484-497 | moving the rest forward removes one entry |
| FreeTable.SwapMaxInPlace | core/ubi/ubi_index.c:351-417 | INDEX_FreeBlock_SwapMaxECBlock in the array is SwapMax |
| UbiIndex.TryGet | core/ubi/ubi_index.c:434-497 | one try: a block is erased and leaves the table, or is logged as bad |
| UbiIndex.Get | core/ubi/ubi_index.c:425-507 | the block is erased, gets the count of its entry plus one, and is a least-worn one of the requested die, or of all free blocks if the die has none, also when bad blocks were met before it; failed blocks are dropped, and logged while the table of bad blocks has room, and the search ends because each failure shrinks the table |
| UbiIndex.ChoiceIsLeastWorn | core/ubi/ubi_index.c:434-456 | in a sorted table the entry searched for is a least-worn one of the die, or of all if the die has none |
| UbiIndex.EveryTryLeastWorn | core/ubi/ubi_index.c:425-507 | however many blocks turn out bad, each block tried is a least-worn one of those left |
| UbiSpec.Apart | core/ubi/ubi_index.c:223-246 | from the partition: the mapping is injective, and mapped blocks, area tables and index table are pairwise different |
| UbiSpec.FreeApart | core/ubi/ubi_index.c:425-507 | a free block belongs to nobody else |
| UbiSpec.TableHasRoom | core/ubi/ubi_index.c:510-529 | the last entry of the free table is invalid, so no real block is ever dropped |
| UbiSpec.ExchangeBlocks | core/ubi/ubi_index.c:425-555 | taking one block and putting another changes the table by exactly these two |
| UbiSpec.MapExchange | core/ubi/ubi_api.c:381-405 | the partition survives the remap of a logical block |
| UbiSpec.AreaExchange | core/ubi/ubi_index.c:223-232 | and an area table's move |
| UbiSpec.HolderExchange | core/ubi/ubi_index.c:584-604 | and the index table's move |
| UbiIndex.FailuresKeepPartition | core/ubi/ubi_index.c:458-497 | failed erases move blocks from the free table to the lost ones, and no others |
| UbiIndex.OneOwnerOrLost | core/ubi/ubi_index.c:458-497 | every data block has exactly one owner or is lost, never both |
| UbiArea.AreaRead | core/ubi/ubi_area.c:316-338 | the cache holds the newest table of the area; if its block is erased, the read fails |
| UbiArea.AreaIsFull | core/ubi/ubi_area.c:156-173 | true exactly when the newest table is on the block's last page |
| UbiArea.AreaGet | core/ubi/ubi_area.c:276-313 | block and count are those of the mapping |
| UbiArea.AreaUpdate | core/ubi/ubi_area.c:232-273 | one entry changes, on the next page of the area's block |
| UbiFlash.MapDepends | core/ubi/ubi_area.c:276-313 | the mapping depends on the area tables only |
| UbiFlash.TouchKeeps | core/ubi/ubi_index.c:458-466 | erasing or writing a block that holds no table changes nothing a mount recovers |
| UbiFlash.AnchorKeeps | core/ubi/ubi_anchor.c:286-295 | announcing a blank index block, on whatever anchor page, changes nothing a mount recovers |
| UbiFlash.AnchorTwice | core/ubi/ubi_anchor.c:246-272 | a second written anchor block changes nothing a mount recovers either |
| UbiFlash.IndexWritten | core/ubi/ubi_index.c:606-614 | writing the index table makes what it describes the mapping a mount recovers |
| UbiFlash.AreaWritten | core/ubi/ubi_area.c:253-264 | the area table's next page carries out the announced update |
| UbiFlash.AreaMoved | core/ubi/ubi_index.c:273-290 | so does its first page on a new block |
| UbiAnchor.FindNextBlock | core/ubi/ubi_anchor.c:299-338 | the next anchor block in the ring that is not logged as bad and could be erased: every block passed over is logged, unless the table of bad blocks is full; the search ends, and fails only if no other block is left or power is off |
| UbiAnchor.AnchorUpdate | core/ubi/ubi_anchor.c:240-283 | the record is on one more page, or on the first page of the next block with the old one erased; a power loss leaves the old record, or both |
| UbiAnchor.AdvancedHeld | core/ubi/ubi_anchor.c:240-283 | one anchor block holds the newest record before and after |
| UbiAnchor.CutHeld | core/ubi/ubi_anchor.c:240-283 | a power loss in ANCHOR_Update leaves the record as it was, or a second one on the next block |
| UbiCommit.MoveIndex | core/ubi/ubi_index.c:584-604 | a full index block is replaced by a least-worn free block of its die, or of any if the die has none, and goes back to the free table at its own count, with both announced in the anchor record; a power loss in between, also while the anchor block is replaced, still recovers what was there |
| UbiCommit.WriteIndex | core/ubi/ubi_index.c:606-614 | the flash boots the mapping of the index table just written, or what it booted before |
| UbiCommit.IndexStep | core/ubi/ubi_index.c:559-625 | index_update as a whole: the block of the index table and the free table afterwards are those of `UbiWear.Relocated` |
| UbiCommit.CommitInPlace | core/ubi/ubi_index.c:292-312 | with room in the area block: old mapping or new one at every power loss, without further condition; on success only the index table may have moved |
| UbiCommit.MoveArea | core/ubi/ubi_index.c:273-290 | the area table moves to a block no table on flash names yet |
| UbiCommit.CommitMoved | core/ubi/ubi_index.c:273-312 | with a full area block: old mapping or new one at every power loss, unless the index block is full too and moves to the block just released; what is erased after three steps then.  On success the free table and the counts of both table blocks are those of `UbiWear.Committed` |
| UbiCommit.Commit | core/ubi/ubi_index.c:250-329 | on success RAM and flash agree on the new mapping, mapped blocks are untouched, and free table and table blocks are those of `UbiWear.Committed`; a power loss leaves the old mapping or the new one, never a mixture, under the same exception |
| UbiErase.EraseBlock | core/ubi/ubi_api.c:381-405 | on success only the erased logical block changes, and is erased; its new block is a least-worn one of the requested die with its count plus one, the old block is free again at its own count, and area tables, index table, free table and erase counts are exactly those of the model of the commit.  Crash atomicity: after a power loss a mount finds the old mapping, with all other blocks untouched, or the new one, if and only if the index table does not move to the area block released in the same commit: if it does, a loss after four steps leaves a flash on which UBI_Init fails |
| UbiWear.CommittedAges | core/ubi/ubi_index.c:250-329 | a commit keeps the erase count of every block, plus one for each time it was taken |
| UbiWear.EveryCount | core/ubi/ubi_index.c:250-329 | conservation of counts over a commit: what the mapping, the table blocks and the free table say of a block afterwards is what they said before plus the number of its erases |
| UbiWear.RemapRecorded | core/ubi/ubi_api.c:381-405 | the same for a remap and the commit after it |
| UbiErase.TakenBoots | core/ubi/ubi_index.c:425-507 | taking and erasing a free block loses nothing |
| UbiErase.AreaLossIsFatal | core/ubi/ubi_area.c:51-65 | a flash that has lost an area table its index table names: no tables can be found on it, and UBI_Init fails on it |
| UbiErase.BothFullLosesAll | core/ubi/ubi_index.c:273-312 | the flash the exception leads to is such a one: area block and index block both full, and the index table's new block is the released area block |
| UbiErase.NothingLeft | core/ubi/ubi_index.c:273-312 | no record leads to any mapping on that flash, and UBI_Init fails on it |
| UbiMount.AnchorInit | core/ubi/ubi_anchor.c:101-195 | of one or two written anchor blocks, the one that is kept and the record that is loaded, which need not be its own |
| UbiMount.OneLeft | core/ubi/ubi_anchor.c:121-166 | whichever of the two blocks is kept, its record leads to the same tables |
| UbiMount.FindAnchor | core/ubi/ubi_anchor.c:101-195 | ANCHOR_Init on whatever a power loss left: one block is left, and both records lead to the same index table |
| UbiMount.FindIndex | core/ubi/ubi_index.c:182-212 | the index table is found on the new block, or on the old one if the move was cut short, through either record, with the erase count that belongs to that block and the page that comes next |
| UbiMount.NeedsUpdate | core/ubi/ubi_area.c:205-229 | an update is needed if and only if the area table does not agree with the announcement |
| UbiMount.IndexInit | core/ubi/ubi_index.c:173-220 | the table found is written once more, or to a new block; every erase count is kept; a power loss leaves it to be found; a table that names an erased area block is taken like any other |
| UbiMount.InitArea | core/ubi/ubi_api.c:179-200 | an update that was cut short is finished, and every erase count kept; a power loss leaves it announced; the read of a lost area table fails |
| UbiMount.UbiInit | core/ubi/ubi_api.c:148-217 | exactly the mapping on flash is in RAM afterwards, with every erase count, RAM and flash agree, no logical block changed; if power fails in the mount, the mapping is still on flash; if the index table names an erased area block, UBI_Init fails |
| UbiRestart.Restart | core/ubi/ubi_api.c:148-217 | however often power fails during UBI_Init, the next one finds the same mapping and the same logical blocks |
| UbiRestart.EraseAndRestart | core/ubi/ubi_api.c:148-405 | UBI_Erase under any power loss, then mounts under any power losses: the last one finds the old mapping or the new one, with the logical blocks that belong to it |
| UbiRestart.MountLost | core/ubi/ubi_api.c:148-217 | power-on and UBI_Init on a flash that has lost an area table: it fails |
| UbiRestart.TinyLoss | core/ubi/ubi_index.c:273-312 | a device on which the exception occurs: four steps of UBI_Erase, no tables to be found, and the UBI_Init that follows fails |
| UbiWrite.ReadBlock | core/ubi/ubi_api.c:220-242 | the page of the mapped block |
| UbiWrite.ReclaimBadBlock | core/ubi/ubi_api.c:521-590 | the logical block is on a least-worn block of the bad block's die with its earlier pages, the others untouched; the bad block goes back into the free table at its count plus the threshold, and every other erase count is kept by the tables |
| UbiWrite.Retry | core/ubi/ubi_api.c:319-337 | after the reclaim the page is programmed on the new block |
| UbiWrite.WriteBlock | core/ubi/ubi_api.c:312-341 | with one bad-block status: earlier pages and the new page readable at the same addresses, other logical blocks unchanged, the bad block back in the tables at its count plus the threshold; without one, no block moves |
| UbiFormat.PlanIs | core/ubi/ubi_api.c:104-122 | in closed form, how many areas and logical blocks the loop makes |
| UbiFormat.AreaFormat | core/ubi/ubi_area.c:68-153 | without bad blocks: the area's blocks are erased and its table is the first page of the block behind them |
| UbiFormat.AreaAdded | core/ubi/ubi_api.c:104-122 | one more area keeps every block with one owner |
| UbiFormat.IndexFormat | core/ubi/ubi_index.c:69-170 | without bad blocks: the first block left holds the index table, the others are free and unworn |
| UbiFormat.AnchorFormat | core/ubi/ubi_anchor.c:69-98 | without bad blocks: the record is the first page of the first anchor block |
| UbiFormat.FreshPartition | core/ubi/ubi_index.c:81-124 | every physical block has exactly one owner |
| UbiFormat.UbiFormat | core/ubi/ubi_api.c:73-145 | without bad blocks: whatever the flash held, it then boots a mapping in which every logical block is erased, and every block is unworn |
| Ubi.Ubi.constructor | core/ubi/ubi_api.c:148-217 | a mounted device shows its logical blocks as an array of blocks of pages |
| Ubi.Ubi.Init | core/ubi/ubi_api.c:148-217 | UBI_Init on a mounted device changes no logical block |
| Ubi.Ubi.Read | core/ubi/ubi_api.c:220-242 | the page of the logical block |
| Ubi.Ubi.Write | core/ubi/ubi_api.c:245-356 | the first unwritten page of the logical block is programmed and nothing else, and its die may be busy for any time; the precondition is the program discipline, met by every caller |
| Ubi.Ubi.Erase | core/ubi/ubi_api.c:381-405 | the logical block is erased and nothing else changes |
| Ubi.Ubi.ReadStatus | core/ubi/ubi_api.c:497-517 | a die is found idle, or busy once more |
| Ubi.Ubi.Flush | core/ubi/ubi_api.c:359-378 | afterwards every die is idle |
| Buffers.Pool.Allocate | core/buf/buf_api.c:208-232 | a buffer nobody has, or none exactly when all are taken |
| Buffers.Pool.Free | core/buf/buf_api.c:187-205 | exactly that buffer is free again |
| Buffers.Pool.SomeFree | core/buf/buf_api.c:208-232 | there is a free buffer as long as owners are fewer than buffers |
| Buffers.Pool.Init | core/buf/buf_api.c:65-85 | one buffer is in use, as the write buffer |
| Buffers.Pool.PutSector | core/buf/buf_api.c:88-111 | exactly one sector of the page being collected changes |
| Buffers.Pool.GetPage | core/buf/buf_api.c:114-184 | the page given out is the volume's page overridden by the sectors collected; it comes in a buffer of its own and another write buffer is taken |
| Buffers.Pool.Merge | core/buf/buf_api.c:139-150 | the written sectors replace those read back |
| Buffers.Pool.WritePage | core/ubi/ubi_api.c:287-352 | the buffer passes to the device, which lets go of the one before |
| Sectors.OneSector | core/onfm.c:133-136 | a sector belongs to one page |
| Sectors.WholePage | core/onfm.c:175-186 | a page is a whole run of sectors |
| Onfm.PutPending | core/buf/buf_api.c:98-105 | collecting a sector changes one sector of the array |
| Onfm.Onfm.WriteSector | core/onfm.c:273-339 | the sector array, with what is still collected in RAM, changes at exactly one sector, or not at all when flushed |
| Onfm.Onfm.Write | core/onfm.c:164-211 | exactly the given sectors change, for any alignment and length; the pool owes what it owed before, less a whole-page buffer passed on |
| Onfm.Onfm.ReadSector | core/onfm.c:234-269 | the sector of the array, from the read buffer if its page is there, which then equals the FTL page |
| Onfm.Onfm.Read | core/onfm.c:124-161 | the sectors of the array, for any alignment and length |
| Onfm.Onfm.Unmount | core/onfm.c:214-230 | the array is unchanged, no buffer is held for a program, every die is idle, and everything is committed: root, dirty table and page map in RAM are those a mount reads from flash |
| SectorRuns.Run | core/onfm.c:124-230 | every read of every run returns the sectors last written |
| Device.NewUbi | core/ubi/ubi_api.c:73-217 | formatting and mounting any flash gives erased logical blocks |
| Device.NewVolume | core/ftl/ftl_api.c:59-163 | from a NAND device with any contents to a valid FTL over zeros |
| Device.RunOnNand | core/ftl/ftl_api.c:59-281 | both layers over the NAND model: every run of FTL operations answers as an array of pages |
| Device.DiskOnNand | core/onfm.c:74-230 | all three layers over the NAND model: every run answers as an array of sectors |
| Device.RestartUbi | core/ubi/ubi_api.c:148-217 | after power losses, also during the mount, the logical blocks are shown as before |
| Device.PowerOn | core/ftl/ftl_api.c:98-163 | both layers: power losses during UBI_Init, then FTL_Init on what the first one left |
| Device.PowerOnOften | core/ftl/ftl_api.c:98-163 | power losses during each UBI_Init and after each FTL_Init: every mount recovers the same volume |
| Device.SurvivePowerLoss | core/ftl/ftl_api.c:98-269 | both layers: any run of reads, writes, trims and flushes on idle dice, with reclaims and commits wherever they fall, that uses no more clusters than the cache holds and has a flush in it; then any number of power losses, during UBI_Init or between FTL_Init and the next call: every read was answered right, every address that survives the acts since the last commit reads as it did when power failed, and with no such act the volume is as it was |
| Device.SurviveTornWrite | core/ftl/ftl_data.c:163-191 | the same when power fails inside a page write |
| Device.MountCommitted | core/ftl/ftl_api.c:98-269 | a power loss or power-off right after a commit: nothing is lost |
| Device.UnmountAndMount | core/onfm.c:104-230 | ONFM_Unmount, power-off, UBI_Init under power losses, FTL_Init: the sectors are what they were |
| Device.MountDisk | core/onfm.c:104-121 | the mounted disk is in order again if no cluster but the first lives in the page-map block that was being filled |

## Left out

* Drivers and platform (`sys`), the image tool (`mpt`) and the tests (`test`).
* Die interleaving and time.  In the FTL and UBI models a program has ended when UBI_Write returns;
  `Buffers.Pool` still keeps the buffer UBI_Write holds meanwhile.  The loops that poll a die are
  kept, over a counter of how often dice will yet be busy.
- Ubi.Ubi.Write: repeated bad blocks and those of programs still under way are not modelled, because the source loses track of the held buffer there (`core/ubi/ubi_api.c:258-291`); one failure of a synchronous write is, in `UbiWrite.WriteBlock`.  Bad blocks found while a table is written are left out as well.
- UbiWrite.WriteBlock: one failure only, and not at the same time as a power loss.
- Ubi.Ubi.ReadStatus: a die is busy as often as a counter says, which every program sets anew; which program it is at work on is not modelled.
- UbiFormat.UbiFormat: formats devices without bad blocks; the search of ANCHOR_Init that precedes it is the parameter `unknown`.
- UbiFormat.AreaFormat: no block of the area is bad.
- UbiFormat.IndexFormat: no block is bad.
- UbiFormat.AnchorFormat: no anchor block is bad.
- UbiMount.AnchorInit: no anchor block is bad; an erase of one fails only for lack of power.
- UbiAnchor.AnchorUpdate: the retry on another block after a bad-block status; on a power loss the method stops where the source's loop would try again for ever.
- UbiMount.UbiInit: AREA_Init's reset of the page offsets is done once before the loop, and the entry AREA_CheckUpdatePLR puts into the cache is put there by AREA_Update.  The areas are read by `UbiMount.InitAreas`.
- UbiErase.EraseBlock: when the area's block is full, the block that held the erased logical block's old contents may already hold the area table when the old mapping is recovered.
* UBI_SWL.  Its exchange on the free table is modelled (`FreeTable.SwapMaxInPlace`); the copy of a block is not, since it programs pages that were erased.
- FtlApi.FtlFlush: without the wear leveling that a simulator build adds (`core/ftl/ftl_api.c:268-279`).
- Recovery.FtlInit: the session since the commit consists of page writes and trims on idle dice that cause no further commit (`Durable.Next` has all commits but the one of `ReplayCost.OwnCommitMisleads`).  With a lost list and more clusters than the cache holds, the replay itself commits, and may write the wrong list.  A power loss inside FTL_Init is not modelled, one between it and the next call is (`Device.PowerOnOften`).  UBI_Init runs on a block layer that is mounted already: that of a device just powered on is `UbiRestart.Mount`, and `Device.PowerOn` has both.
- CommitCut.CutCommit: the slots of a commit up to the first reclaim.  A power loss in the writes of the three logs or between the tables of one DATA_Commit is not modelled beyond the root log of `RootSpec.EveryRunRecovers`.
- ReplayCost.ErasedTooEarly: victims that are journals of the full set themselves, whose pages the replay would look for, are not covered.
- Durable.Run: calls are made when every die is idle, as the replay needs (`ReplayCost.BusyDieMisleads`); after a page write that commits in its middle the acts since are unknown until the next commit.
- Device.SurvivePowerLoss: runs that use no more clusters than the cache holds, so that no page write commits in its middle; beyond that, `Durable.CutNow` and `Durable.Recover` hold wherever the acts since the last commit are known.
- Replay.DataReplay: replays the session since the last commit only; what a session between a mount and its first commit leaves is not replayed by the source where the edition counter was not restored.
* The hot-data heuristic: its answer is an arbitrary boolean, and its table on flash an opaque page.
- Mount.HdiInit: commits the dirty table where its comment says the hot-data table, as the source does.
- PmtSpec.EndKeeps: the dirty count of the page-map reclaim block is reset, not derived.
- PmtSpec.MovingCounts: no exact count for the reclaim block while it is filled.
* Wrap-around of editions, erase counts and dirty counts in 32 or 8 bits; the byte layout of tables.
  `PmNode` treats the words of the page map.
- Ubi.Ubi.Read: a read never fails with an ECC error; erased pages read as such.
* Error statuses in the FTL: with a device whose operations succeed, the branches on failure are
  not taken, and are left out.  The one that is, a victim whose last page cannot be read, is there.
* Static arrays are sequences held in fields, except the free block table, the buffer flags and the
  pool, which are arrays.  DATA_Format's three loops share one method.  DATA_Reclaim's
  total_valid_page is summed after the selection instead of during it.
- Onfm.Onfm.Read: the return code; a failure of the FTL cannot occur in the model.  onfm_read_sector without a buffer is never called and left out.
- Buffers.Pool.Init: BUFFER_COUNT is a parameter, even and at least four; its definition is not part of the sources.
