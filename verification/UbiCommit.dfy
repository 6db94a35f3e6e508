/** INDEX_Update_Commit and index_update: the index table and the area table reach flash in the
    order that makes a remap atomic. */
module UbiCommit {
  import opened Flash
  import opened Nand
  import opened FreeTable
  import opened UbiSpec
  import opened UbiFlash
  import opened UbiState
  import opened UbiIndex
  import opened UbiAnchor
  import opened UbiArea
  import opened UbiWear

  /** The index table in RAM gives every block its owner, and has its place. */
  ghost predicate Standing(s: Ubi, mapped: seq<AreaEntry>)
    reads s, s.nand, s.free
  {
    && s.Sound() && s.nand.faults == 0
    && Owners(s.g, s.Index(), s.holder, mapped)
    && AnchorSpot(s.g, s.nand.cells, s.ancBlock, s.ancNext) && AnchorsGood(s.g, s.anc.bad)
    && s.next <= s.g.P && DataLo(s.g) <= s.holder < s.g.T
    && (s.next < s.g.P ==>
          && AnchorHeld(s.g, s.nand.cells, s.ancBlock, s.ancNext, s.anc)
          && s.anc.newBlock == s.holder && s.anc.newEc == s.holderEc && Prefix(s.nand.cells[s.holder], s.next))
  }

  /** The tables in RAM describe the mapping `mapped`, and the index table has its place. */
  ghost predicate Staged(s: Ubi, at: seq<nat>, mapped: seq<AreaEntry>)
    reads s, s.nand, s.free
  {
    Standing(s, mapped) && Laid(s.g, s.nand.cells, s.Index(), at, s.holder, mapped)
  }

  /** The flash still boots r, whose anchor page and index block are those in RAM.  The record in
      RAM may be another: then the index table is about to move. */
  ghost predicate OnDisk(s: Ubi, r: Rec)
    reads s, s.nand
  {
    && Boots(s.g, s.nand.cells, r) && r.ancBlock == s.ancBlock && r.ancNext == s.ancNext && r.holder == s.holder && r.holderEc == s.holderEc
    && (s.next == s.g.P && r.anc.newBlock == r.holder ==> r.next == s.g.P)
  }

  /** The block chosen for a die, if the table has one. */
  ghost function ChosenBlock(g: Device, free: seq<FreeSlot>, die: nat, other: nat): nat {
    if |free| == 0 then other
    else
      var k := Choice(g, free, die);
      if free[k].Free? then free[k].block else other
  }

  /** Where the index table goes next: its block is full, or it stays. */
  ghost function HolderChoice(g: Device, free: seq<FreeSlot>, holder: nat, next: nat): nat {
    if next < g.P then holder else ChosenBlock(g, free, holder, holder)
  }

  ghost function NextHolder(s: Ubi): nat
    reads s, s.free
  {
    HolderChoice(s.g, s.free[..], s.holder, s.next)
  }

  /** The index table in RAM and its place. */
  ghost function PlaceOf(s: Ubi): Place
    reads s, s.free
  {
    Place(s.Index(), s.holder, s.holderEc)
  }

  /** The index table does not move to a block that still holds an area table on flash. */
  ghost predicate CrashOk(s: Ubi, r: Rec)
    reads s, s.free
  {
    s.next == s.g.P ==> NextHolder(s) !in r.ix.areaBlock
  }

  /** The same tables and mapping, whatever anchor record leads there. */
  ghost predicate SameTables(r: Rec, w: Rec) {
    w.ix == r.ix && w.at == r.at && w.holder == r.holder && w.holderEc == r.holderEc && w.next == r.next && w.mapped == r.mapped
  }

  /** A mount finds r's tables and mapping. */
  ghost predicate StillBoots(g: Device, cells: seq<PhysBlock>, r: Rec) {
    exists w :: Leads(g, cells, w) && SameTables(r, w)
  }

  /** Among the data blocks only z may differ, and then it is erased. */
  ghost predicate OnlyErased(g: Device, cells: seq<PhysBlock>, now: seq<PhysBlock>, z: nat) {
    && |now| == |cells| == g.T
    && (forall x :: DataLo(g) <= x < g.T && x != z ==> now[x] == cells[x])
    && (z < g.T ==> now[z] == cells[z] || now[z] == ClearBlock(g.P))
  }

  lemma StagedFree(s: Ubi, mapped: seq<AreaEntry>)
    requires Standing(s, mapped)
    ensures InFlash(s.g, s.free[..]) && s.free.Length >= 2
    ensures forall die :: s.free[Choice(s.g, s.free[..], die)].Free?
  {
    var free := s.free[..];
    hide Sorted, Choice, AnchorHeld, AnchorSpot;
    TableHasRoom(s.g, mapped, s.areaBlock, s.holder, free);
    forall i | 0 <= i < |free| && free[i].Free?
      ensures free[i].block < s.g.T
    {
      FreeApart(s.g, mapped, s.areaBlock, s.holder, free, i);
    }
    hide Partition;
    forall die: nat
      ensures free[Choice(s.g, free, die)].Free?
    {
      ChoiceFree(s.g, free, die);
    }
  }

  lemma ChoiceFree(g: Device, free: seq<FreeSlot>, die: nat)
    requires |free| >= 1 && free[0].Free?
    ensures free[Choice(g, free, die)].Free?
  {
    PickFree(free, DieOf(g, die), g.D, 0);
  }

  lemma LaidParts(g: Device, cells: seq<PhysBlock>, ix: IndexTable, at: seq<nat>, holder: nat, mapped: seq<AreaEntry>)
    requires Laid(g, cells, ix, at, holder, mapped)
    ensures Partition(g, mapped, ix.areaBlock, holder, ix.free) && Sorted(ix.free) && ShapedCells(cells, g.T, g.P)
    ensures |at| == g.A && |ix.areaBlock| == g.A && |ix.areaEc| == g.A
  {
  }

  // ---------------------------------------------------------------- index_update

  /** The index table changes places with free block k. */
  lemma MovedOwners(g: Device, ix: IndexTable, holder: nat, mapped: seq<AreaEntry>, k: nat, ec: nat)
    requires Owners(g, ix, holder, mapped) && k < |ix.free| && ix.free[k].Free?
    ensures Owners(g, ix.(free := Exchange(ix.free, k, holder, ec)), ix.free[k].block, mapped) && |ix.free| == g.F >= 2
    ensures DataLo(g) <= ix.free[k].block < g.T && ix.free[k].block != holder
  {
    hide Sorted, Exchange;
    HolderExchange(g, mapped, ix.areaBlock, holder, ix.free, k, ec);
    FreeApart(g, mapped, ix.areaBlock, holder, ix.free, k);
    hide Partition;
  }

  /** Where the area tables are untouched, the tables describe what they did. */
  lemma LaidStill(g: Device, cells: seq<PhysBlock>, now: seq<PhysBlock>, ix: IndexTable, u: IndexTable, at: seq<nat>, holder: nat, h: nat, mapped: seq<AreaEntry>)
    requires Laid(g, cells, ix, at, holder, mapped) && Owners(g, u, h, mapped) && u.areaBlock == ix.areaBlock && u.plr == ix.plr
    requires ShapedCells(now, g.T, g.P) && forall a :: 0 <= a < g.A ==> now[ix.areaBlock[a]] == cells[ix.areaBlock[a]]
    ensures Laid(g, now, u, at, h, mapped)
  {
    hide Sorted, MapOf, Partition;
    LaidDepends(g, cells, now, ix, at, holder, mapped);
  }

  /** Erasing the block chosen for the index table keeps what is on disk. */
  lemma ChosenLoose(g: Device, cells: seq<PhysBlock>, ix: IndexTable, holder: nat, mapped: seq<AreaEntry>, r: Rec, k: nat)
    requires Owners(g, ix, holder, mapped) && k < |ix.free| && ix.free[k].Free?
    requires Boots(g, cells, r) && r.holder == holder && ix.free[k].block !in r.ix.areaBlock
    ensures ix.free[k].block < |cells| && Boots(g, cells[ix.free[k].block := ClearBlock(g.P)], r)
  {
    hide Sorted, MapOf;
    FreeApart(g, mapped, ix.areaBlock, holder, ix.free, k);
    hide Partition;
    TouchKeeps(g, cells, r, ix.free[k].block, ClearBlock(g.P));
  }

  /** The first half of an index reclaim: a block is taken and erased. */
  method TakeHolder(s: Ubi, ghost mapped: seq<AreaEntry>, ghost k: nat) returns (st: Status, block: nat, ec: nat)
    requires Standing(s, mapped) && s.next == s.g.P
    requires k == Choice(s.g, s.free[..], s.holder) && k < s.free.Length && s.free[k].Free?
    modifies s`anc, s.nand, s.free
    ensures s.Sound() && s.nand.faults == 0 && (st == Success ==> s.anc == old(s.anc))
    ensures st == Success ==> block == old(s.free[k].block) == old(NextHolder(s)) && ec == CountOnce(old(s.free[..]), k)
    ensures st == Success ==> s.free[..] == RemoveAt(old(s.free[..]), k)
    ensures st == Success ==> BlockErased(s.g, old(s.nand.cells), block, s.nand.cells) && s.nand.power == Spent(old(s.nand.power), 1)
    ensures st != Success ==> st == PowerLoss && s.nand.cells == old(s.nand.cells)
    ensures s.nand.power.Some? == old(s.nand.power).Some?
    ensures st != Success <==> old(s.nand.power) == Some(0)
  {
    hide Owners, AnchorHeld, AnchorSpot, Choice, RemoveAt;
    StagedFree(s, mapped);
    ghost var free := s.free[..];
    ghost var m;
    st, block, ec, m := Get(s, s.holder);
    assert Drained(free, DieOf(s.g, s.holder), s.g.D, 0) == free;
  }

  /** The anchor record that announces the new index block. */
  function Announcing(anc: AnchorTable, holder: nat, holderEc: nat, block: nat, ec: nat): AnchorTable {
    anc.(newBlock := block, newEc := ec, oldBlock := Some(holder), oldEc := holderEc)
  }

  /** The anchor page and index block of r, and that block's erase count, are those given. */
  ghost predicate OnFlash(g: Device, cells: seq<PhysBlock>, r: Rec, ancBlock: nat, ancNext: nat, holder: nat, holderEc: nat) {
    && Boots(g, cells, r) && r.ancBlock == ancBlock && r.ancNext == ancNext && r.holder == holder && r.holderEc == holderEc
    && (r.anc.newBlock == r.holder ==> r.next == g.P)
  }

  /** Announcing a blank index block keeps what is on disk. */
  lemma AnnouncedBoots(g: Device, cells: seq<PhysBlock>, r: Rec, t: Ram, now: seq<PhysBlock>, u: Ram)
    requires OnFlash(g, cells, r, t.ancBlock, t.ancNext, r.holder, r.holderEc) && AnchorAdvanced(g, cells, t, now, u)
    requires Announces(g, cells, t.anc, r.holder, r.holderEc)
    ensures StillBoots(g, now, r)
  {
    assert AnchorSpot(g, cells, t.ancBlock, t.ancNext) by { BootsParts(g, cells, r); }
    AdvancedHeld(g, cells, t, now, u);
    AnchorKeeps(g, cells, r, now, u.anc, u.ancBlock, u.ancNext);
    hide Boots;
    assert Leads(g, now, r.(anc := u.anc, ancBlock := u.ancBlock, ancNext := u.ancNext));
  }

  /** So does a power loss while it is announced. */
  lemma CutBoots(g: Device, cells: seq<PhysBlock>, r: Rec, t: Ram, now: seq<PhysBlock>)
    requires OnFlash(g, cells, r, t.ancBlock, t.ancNext, r.holder, r.holderEc) && AnchorCut(g, cells, t, now)
    requires Announces(g, cells, t.anc, r.holder, r.holderEc)
    ensures StillBoots(g, now, r)
  {
    BootsParts(g, cells, r);
    hide AnchorCut;
    CutHeld(g, cells, t, now, r.anc);
    if AnchorHeld(g, now, t.ancBlock, t.ancNext, r.anc) {
      AnchorSame(g, cells, r, now);
      hide Boots;
      assert Leads(g, now, r);
    } else {
      AnchorTwice(g, cells, r, TurnedRecord(t));
      hide Boots, BootsTwice;
      assert Leads(g, now, r);
    }
  }

  /** The anchor record is still there. */
  lemma AnchorSame(g: Device, cells: seq<PhysBlock>, r: Rec, now: seq<PhysBlock>)
    requires Boots(g, cells, r) && ShapedCells(now, g.T, g.P) && forall x :: DataLo(g) <= x < g.T ==> now[x] == cells[x]
    requires AnchorHeld(g, now, r.ancBlock, r.ancNext, r.anc)
    ensures Boots(g, now, r)
  {
    hide AreaOf, MapOf, Sorted;
    TablesStay(g, cells, now, r);
    hide Laid, UpdateFits;
  }

  lemma DiskStillBoots(g: Device, cells: seq<PhysBlock>, r: Rec)
    requires Boots(g, cells, r)
    ensures StillBoots(g, cells, r)
  {
    hide Boots, BootsTwice;
    assert Leads(g, cells, r) && SameTables(r, r);
  }

  /** Erasing a free block leaves the anchor blocks alone. */
  lemma AnchorAfterErase(g: Device, cells: seq<PhysBlock>, ix: IndexTable, holder: nat, mapped: seq<AreaEntry>, k: nat, ancBlock: nat, ancNext: nat)
    requires Owners(g, ix, holder, mapped) && k < |ix.free| && ix.free[k].Free? && AnchorSpot(g, cells, ancBlock, ancNext)
    ensures var z := ix.free[k].block;
            && DataLo(g) <= z < g.T && z != holder
            && var now := cells[z := ClearBlock(g.P)];
               && ShapedCells(now, g.T, g.P) && AnchorSpot(g, now, ancBlock, ancNext) && Prefix(now[z], 0)
  {
    hide Sorted, MapOf;
    FreeApart(g, mapped, ix.areaBlock, holder, ix.free, k);
    hide Partition;
  }

  /** The anchor record announces the new index block. */
  method Announce(s: Ubi, block: nat, ec: nat, ghost r: Rec)
    returns (st: Status)
    requires s.Sound() && s.nand.faults == 0 && AnchorsGood(s.g, s.anc.bad) && AnchorSpot(s.g, s.nand.cells, s.ancBlock, s.ancNext)
    requires DataLo(s.g) <= block < s.g.T && Prefix(s.nand.cells[block], 0)
    modifies s`anc, s`ancBlock, s`ancNext, s.nand
    ensures s.Sound() && s.nand.faults == 0 && |s.nand.cells| == |old(s.nand.cells)|
    ensures st == Success ==>
              && AnchorHeld(s.g, s.nand.cells, s.ancBlock, s.ancNext, s.anc) && AnchorsGood(s.g, s.anc.bad)
              && s.anc == Announcing(old(s.anc), s.holder, s.holderEc, block, ec).(previous := s.anc.previous)
    ensures OnFlash(s.g, old(s.nand.cells), r, old(s.ancBlock), old(s.ancNext), s.holder, s.holderEc) ==> StillBoots(s.g, s.nand.cells, r)
    ensures forall x :: DataLo(s.g) <= x < s.g.T ==> s.nand.cells[x] == old(s.nand.cells)[x]
    ensures st == Success || st == PowerLoss || st == Failure
    ensures s.nand.power.Some? == old(s.nand.power).Some?
    ensures old(s.nand.power) == None ==> st == Success
    ensures old(s.nand.power) == Some(0) ==> st != Success && s.nand.cells == old(s.nand.cells)
  {
    hide Boots, OnFlash, StillBoots, AnchorAdvanced, AnchorCut, AnchorSpot;
    ghost var cells := s.nand.cells;
    SpotIs(s.g, cells, s.ancBlock, s.ancNext);
    s.anc := Announcing(s.anc, s.holder, s.holderEc, block, ec);
    ghost var t := s.Tables();
    assert Announces(s.g, cells, t.anc, s.holder, s.holderEc);
    st := AnchorUpdate(s);
    ghost var u, now := s.Tables(), s.nand.cells;
    if st == Success {
      AdvancedHeld(s.g, cells, t, now, u);
      AdvancedRecord(s.g, cells, t, now, u);
      if OnFlash(s.g, cells, r, t.ancBlock, t.ancNext, s.holder, s.holderEc) {
        OnFlashHolder(s.g, cells, r, t.ancBlock, t.ancNext, s.holder, s.holderEc);
        AnnouncedBoots(s.g, cells, r, t, now, u);
      }
    } else {
      CutShape(s.g, cells, t, now);
      if OnFlash(s.g, cells, r, t.ancBlock, t.ancNext, s.holder, s.holderEc) {
        OnFlashHolder(s.g, cells, r, t.ancBlock, t.ancNext, s.holder, s.holderEc);
        CutBoots(s.g, cells, r, t, now);
      }
    }
  }

  lemma SpotIs(g: Device, cells: seq<PhysBlock>, ancBlock: nat, ancNext: nat)
    requires AnchorSpot(g, cells, ancBlock, ancNext)
    ensures ShapedCells(cells, g.T, g.P) && g.aLo <= ancBlock <= g.aHi && ancNext <= g.P && Prefix(cells[ancBlock], ancNext)
  {
  }

  lemma AdvancedRecord(g: Device, cells: seq<PhysBlock>, t: Ram, now: seq<PhysBlock>, u: Ram)
    requires AnchorAdvanced(g, cells, t, now, u)
    ensures u.anc == t.anc.(previous := u.anc.previous)
  {
  }

  lemma CutShape(g: Device, cells: seq<PhysBlock>, t: Ram, now: seq<PhysBlock>)
    requires ShapedCells(cells, g.T, g.P) && AnchorCut(g, cells, t, now) && g.aLo <= t.ancBlock <= g.aHi
    ensures |now| == |cells| && forall x :: DataLo(g) <= x < g.T ==> now[x] == cells[x]
  {
  }

  lemma OnFlashHolder(g: Device, cells: seq<PhysBlock>, r: Rec, ancBlock: nat, ancNext: nat, holder: nat, holderEc: nat)
    requires OnFlash(g, cells, r, ancBlock, ancNext, holder, holderEc)
    ensures r.holder == holder && r.holderEc == holderEc && OnFlash(g, cells, r, ancBlock, ancNext, r.holder, r.holderEc)
  {
    hide Boots;
  }

  /** The old index block is released. */
  method Release(s: Ubi, block: nat, ec: nat, ghost mapped: seq<AreaEntry>, ghost ix: IndexTable, ghost k: nat)
    requires Owners(s.g, ix, s.holder, mapped) && k < |ix.free| && ix.free[k].Free? && ix.free[k].block == block
    requires s.Sound() && s.nand.faults == 0 && AnchorsGood(s.g, s.anc.bad) && AnchorHeld(s.g, s.nand.cells, s.ancBlock, s.ancNext, s.anc)
    requires ShapedCells(s.nand.cells, s.g.T, s.g.P)
    requires s.anc.newBlock == block && s.anc.newEc == ec && s.Index() == ix.(free := RemoveAt(ix.free, k))
    requires block < s.g.T && Prefix(s.nand.cells[block], 0)
    modifies s`holder, s`holderEc, s`next, s.free
    ensures Standing(s, mapped) && s.next == 0
    ensures PlaceOf(s) == Place(ix.(free := Exchange(ix.free, k, old(s.holder), old(s.holderEc))), block, ec)
  {
    hide Owners, Put, RemoveAt, AnchorHeld, AnchorSpot;
    HeldSpot(s.g, s.nand.cells, s.ancBlock, s.ancNext, s.anc);
    MovedOwners(s.g, ix, s.holder, mapped, k, s.holderEc);
    PutInPlace(s.free, s.holder, s.holderEc);
    s.holder, s.holderEc, s.next := block, ec, 0;
  }

  lemma HeldSpot(g: Device, cells: seq<PhysBlock>, ancBlock: nat, ancNext: nat, anc: AnchorTable)
    requires ShapedCells(cells, g.T, g.P) && AnchorHeld(g, cells, ancBlock, ancNext, anc)
    ensures AnchorSpot(g, cells, ancBlock, ancNext)
  {
  }

  lemma TableLength(g: Device, cells: seq<PhysBlock>, ix: IndexTable, at: seq<nat>, holder: nat, mapped: seq<AreaEntry>)
    requires Laid(g, cells, ix, at, holder, mapped)
    ensures |ix.free| == g.F >= 2
  {
  }

  /** The free block taken for the index table is erased; what is on disk stays. */
  lemma ChosenOnFlash(s: Ubi, mapped: seq<AreaEntry>, r: Rec, k: nat)
    requires Standing(s, mapped) && s.next == s.g.P && k == Choice(s.g, s.free[..], s.holder) && k < s.free.Length && s.free[k].Free?
    requires OnDisk(s, r) && CrashOk(s, r)
    ensures s.free[k].block < |s.nand.cells|
    ensures OnFlash(s.g, s.nand.cells[s.free[k].block := ClearBlock(s.g.P)], r, s.ancBlock, s.ancNext, s.holder, s.holderEc)
  {
    hide Owners, AnchorHeld, AnchorSpot, Choice, Boots;
    ChosenLoose(s.g, s.nand.cells, s.Index(), s.holder, mapped, r, k);
  }

  /** index_update when the index block is full: another block is taken, the anchor record
      announces it, and the old one is released. */
  method MoveIndex(s: Ubi, ghost mapped: seq<AreaEntry>, ghost r: Rec) returns (st: Status)
    requires Standing(s, mapped) && s.next == s.g.P
    modifies s, s.nand, s.free
    ensures s.Sound() && s.nand.faults == 0
    ensures st == Success ==>
              && Standing(s, mapped) && s.next == 0 && PlaceOf(s) == Relocated(s.g, old(PlaceOf(s)), old(s.next))
              && s.anc == Announcing(old(s.anc), old(s.holder), old(s.holderEc), s.holder, s.holderEc).(previous := s.anc.previous)
    ensures st == Success ==> s.holder == old(NextHolder(s)) && s.Index() == old(s.Index()).(free := s.free[..])
    ensures s.offset == old(s.offset) && s.cached == old(s.cached) && s.cachedArea == old(s.cachedArea) && s.updating == old(s.updating)
    ensures OnlyErased(s.g, old(s.nand.cells), s.nand.cells, old(NextHolder(s)))
    ensures old(OnDisk(s, r) && CrashOk(s, r)) ==> StillBoots(s.g, s.nand.cells, r)
    ensures st == Success || st == PowerLoss || st == Failure
    ensures s.nand.power.Some? == old(s.nand.power).Some?
    ensures old(s.nand.power) == None ==> st == Success
    ensures old(s.nand.power) == Some(1) ==> st != Success && BlockErased(s.g, old(s.nand.cells), old(NextHolder(s)), s.nand.cells)
  {
    hide Owners, Choice, RemoveAt, Boots, AnchorHeld, AnchorSpot, NextHolder, StillBoots, OnFlash;
    StagedFree(s, mapped);
    ghost var k, ix, cells := Choice(s.g, s.free[..], s.holder), s.Index(), s.nand.cells;
    ghost var kept := OnDisk(s, r) && CrashOk(s, r);
    AnchorAfterErase(s.g, cells, ix, s.holder, mapped, k, s.ancBlock, s.ancNext);
    if kept {
      DiskStillBoots(s.g, cells, r);
      ChosenOnFlash(s, mapped, r, k);
    }
    var block, ec;
    st, block, ec := TakeHolder(s, mapped, k);
    if st == Success {
      st := Announce(s, block, ec, r);
      if st == Success {
        Release(s, block, ec, mapped, ix, k);
      }
    }
  }

  /** What a mount would find, were the index table in RAM the one on flash. */
  ghost function RecOf(s: Ubi, at: seq<nat>, mapped: seq<AreaEntry>): Rec
    reads s, s.free
  {
    Rec(s.anc, s.ancBlock, s.ancNext, s.holder, s.holderEc, s.next, s.Index(), at, mapped)
  }

  /** All data blocks but x are untouched. */
  ghost predicate AllBut(g: Device, cells: seq<PhysBlock>, now: seq<PhysBlock>, z: nat) {
    |now| == |cells| == g.T && forall x :: DataLo(g) <= x < g.T && x != z ==> now[x] == cells[x]
  }

  /** TABLE_Write of the index table. */
  method WriteIndex(s: Ubi, ghost at: seq<nat>, ghost mapped: seq<AreaEntry>) returns (st: Status)
    requires Standing(s, mapped) && s.next < s.g.P
    modifies s`next, s.nand
    ensures s.Sound() && s.nand.faults == 0
    ensures st == Success ==>
              Standing(s, mapped) && s.next == old(s.next) + 1 && s.anc.newBlock == s.holder && AllBut(s.g, old(s.nand.cells), s.nand.cells, s.holder)
    ensures st == Success && old(Described(s, at, mapped)) ==> Staged(s, at, mapped) && Boots(s.g, s.nand.cells, RecOf(s, at, mapped))
    ensures st != Success ==> st == PowerLoss && s.nand.cells == old(s.nand.cells)
    ensures s.nand.power.Some? == old(s.nand.power).Some?
    ensures old(s.nand.power) == None ==> st == Success
  {
    hide Laid, Owners, AnchorHeld, AnchorSpot, Boots, IndexHeld, UpdateFits;
    ghost var described := Described(s, at, mapped);
    ghost var cells := s.nand.cells;
    PageOnIndex(s.g, cells, s.ancBlock, s.ancNext, s.anc, s.holder, s.next, Index(s.Index()));
    if described {
      IndexWritten(s.g, s.nand.cells, s.anc, s.ancBlock, s.ancNext, s.holder, s.holderEc, s.next, s.Index(), at, mapped);
    }
    st := s.nand.Program(s.holder, s.next, Index(s.Index()));
    if st == Success {
      s.next := s.next + 1;
      if described {
        BootsParts(s.g, s.nand.cells, RecOf(s, at, mapped));
      }
    }
  }

  /** The tables in RAM describe the mapping, but for the place of the index table. */
  ghost predicate Described(s: Ubi, at: seq<nat>, mapped: seq<AreaEntry>)
    reads s, s.nand, s.free
  {
    Laid(s.g, s.nand.cells, s.Index(), at, s.holder, mapped) && UpdateFits(s.g, s.nand.cells, s.Index(), at, mapped)
  }

  /** One more page of the index block. */
  lemma PageOnIndex(g: Device, cells: seq<PhysBlock>, ancBlock: nat, ancNext: nat, anc: AnchorTable, holder: nat, next: nat, page: Page)
    requires ShapedCells(cells, g.T, g.P) && AnchorHeld(g, cells, ancBlock, ancNext, anc) && AnchorSpot(g, cells, ancBlock, ancNext)
    requires DataLo(g) <= holder < g.T && next < g.P && Prefix(cells[holder], next) && !page.Clear?
    ensures var now := cells[holder := cells[holder][next := page]];
            && ShapedCells(now, g.T, g.P) && AnchorHeld(g, now, ancBlock, ancNext, anc) && AnchorSpot(g, now, ancBlock, ancNext)
            && Prefix(now[holder], next + 1)
  {
  }

  lemma BootsParts(g: Device, cells: seq<PhysBlock>, r: Rec)
    requires Boots(g, cells, r)
    ensures Laid(g, cells, r.ix, r.at, r.holder, r.mapped) && ShapedCells(cells, g.T, g.P) && AnchorHeld(g, cells, r.ancBlock, r.ancNext, r.anc)
    ensures AnchorSpot(g, cells, r.ancBlock, r.ancNext) && AnchorsGood(g, r.anc.bad)
    ensures DataLo(g) <= r.holder < g.T && 1 <= r.next <= g.P && Prefix(cells[r.holder], r.next)
    ensures r.anc.newBlock == r.holder ==> r.anc.newEc == r.holderEc
  {
  }

  /** The area tables stay where they are while the index table moves. */
  lemma FitsStill(g: Device, cells: seq<PhysBlock>, now: seq<PhysBlock>, ix: IndexTable, ix': IndexTable, at: seq<nat>, mapped: seq<AreaEntry>)
    requires UpdateFits(g, cells, ix, at, mapped) && ix'.areaBlock == ix.areaBlock && ix'.plr == ix.plr && |now| == |cells|
    requires forall a :: 0 <= a < g.A && ix.areaBlock[a] < |cells| ==> now[ix.areaBlock[a]] == cells[ix.areaBlock[a]]
    ensures UpdateFits(g, now, ix', at, mapped)
  {
    MapDepends(g, ix.areaBlock, at, cells, now);
    hide MapOf, AreaOf;
  }

  /** index_next_page after index_update: one page more, or one page of the next block. */
  function PageAfter(g: Device, next: nat): nat {
    if next == g.P then 1 else next + 1
  }

  /** index_update. */
  method IndexUpdate(s: Ubi, ghost at: seq<nat>, ghost mapped: seq<AreaEntry>, ghost r: Rec) returns (st: Status)
    requires Standing(s, mapped)
    modifies s, s.nand, s.free
    ensures s.Sound() && s.nand.faults == 0
    ensures st == Success && old(Described(s, at, mapped)) ==> Staged(s, at, mapped) && Boots(s.g, s.nand.cells, RecOf(s, at, mapped))
    ensures st == Success ==>
              && Standing(s, mapped) && s.next == PageAfter(s.g, old(s.next)) && s.anc.newBlock == s.holder
              && s.holder == old(NextHolder(s)) && s.Index() == old(s.Index()).(free := s.free[..])
              && PlaceOf(s) == Relocated(s.g, old(PlaceOf(s)), old(s.next))
              && AllBut(s.g, old(s.nand.cells), s.nand.cells, s.holder)
    ensures s.offset == old(s.offset) && s.cached == old(s.cached) && s.cachedArea == old(s.cachedArea) && s.updating == old(s.updating)
    ensures st != Success ==> OnlyErased(s.g, old(s.nand.cells), s.nand.cells, old(NextHolder(s)))
    ensures st != Success && old(OnDisk(s, r) && CrashOk(s, r)) ==> StillBoots(s.g, s.nand.cells, r)
    ensures st == Success || st == PowerLoss || st == Failure
    ensures s.nand.power.Some? == old(s.nand.power).Some?
    ensures old(s.nand.power) == None ==> st == Success
    ensures old(s.next) == s.g.P && old(s.nand.power) == Some(1) ==>
              st != Success && BlockErased(s.g, old(s.nand.cells), old(NextHolder(s)), s.nand.cells)
  {
    hide Laid, Owners, Boots, AnchorHeld, AnchorSpot, NextHolder, StillBoots, UpdateFits;
    ghost var cells, ix, holder, described := s.nand.cells, s.Index(), s.holder, Described(s, at, mapped);
    if OnDisk(s, r) {
      DiskStillBoots(s.g, cells, r);
    }
    StayingHolder(s);
    TablesApart(s, mapped);
    st := Success;
    if s.next == s.g.P {
      st := MoveIndex(s, mapped, r);
      if st == Success && described {
        FitsParts(s.g, cells, ix, at, mapped);
        SpotIs(s.g, s.nand.cells, s.ancBlock, s.ancNext);
        LaidStill(s.g, cells, s.nand.cells, ix, s.Index(), at, holder, s.holder, mapped);
        FitsStill(s.g, cells, s.nand.cells, ix, s.Index(), at, mapped);
      }
    }
    if st == Success {
      st := WriteIndex(s, at, mapped);
    }
  }

  lemma FitsParts(g: Device, cells: seq<PhysBlock>, ix: IndexTable, at: seq<nat>, mapped: seq<AreaEntry>)
    requires UpdateFits(g, cells, ix, at, mapped)
    ensures |ix.areaBlock| == |at| == g.A
  {
  }

  lemma StayingHolder(s: Ubi)
    ensures s.next < s.g.P ==> NextHolder(s) == s.holder
  {
  }

  // ---------------------------------------------------------------- INDEX_Update_Commit

  /** The tables in RAM and on flash agree, and describe the mapping `mapped`. */
  ghost predicate Steady(s: Ubi, at: seq<nat>, mapped: seq<AreaEntry>)
    reads s, s.nand, s.free
  {
    && Staged(s, at, mapped) && Boots(s.g, s.nand.cells, RecOf(s, at, mapped))
    && s.next >= 1 && s.anc.newBlock == s.holder
    && CacheOk(s.g, s.Tables(), s.nand.cells, at) && |s.cached| == s.g.R
    && MapOf(s.g, s.areaBlock, at, s.nand.cells) == mapped
  }

  /** An update of logical block b to e is announced in RAM, and the flash still boots r. */
  ghost predicate Updating(s: Ubi, at: seq<nat>, mapped: seq<AreaEntry>, r: Rec, b: nat, e: AreaEntry)
    reads s, s.nand, s.free
  {
    && Staged(s, at, mapped) && OnDisk(s, r) && CacheOk(s.g, s.Tables(), s.nand.cells, at) && |s.cached| == s.g.R
    && b < s.g.U && s.plr == Plr(b, e) && s.updating && r.ix.areaBlock == s.areaBlock && r.at == at
    && s.anc.newBlock == s.holder && r.anc.newBlock == s.holder
  }

  /** The mapped blocks are untouched. */
  ghost predicate MappedKept(cells: seq<PhysBlock>, now: seq<PhysBlock>, mapped: seq<AreaEntry>) {
    |now| == |cells| && forall c :: 0 <= c < |mapped| && mapped[c].block < |cells| ==> now[mapped[c].block] == cells[mapped[c].block]
  }

  /** Blocks that belong to no table are untouched or erased, but for block n. */
  ghost predicate Spared(g: Device, cells: seq<PhysBlock>, now: seq<PhysBlock>, r: Rec, n: nat) {
    && |now| == |cells| == g.T
    && forall x :: DataLo(g) <= x < g.T && x != r.holder && x !in r.ix.areaBlock && x != n ==>
         now[x] == cells[x] || now[x] == ClearBlock(g.P)
  }

  ghost predicate Finds(g: Device, now: seq<PhysBlock>, mapped: seq<AreaEntry>) {
    exists w :: Leads(g, now, w) && w.mapped == mapped
  }

  /** What is left when power fails in the commit: the old mapping, with nothing lost but what
      was released, or the new one. */
  ghost predicate EitherMapping(g: Device, cells: seq<PhysBlock>, now: seq<PhysBlock>, r: Rec, mapped: seq<AreaEntry>, n: nat) {
    (StillBoots(g, now, r) && Spared(g, cells, now, r, n)) || Finds(g, now, mapped)
  }

  /** The area table's next page is written behind the index table's back. */
  lemma AreaBoots(g: Device, cells: seq<PhysBlock>, r: Rec, b: nat, e: AreaEntry)
    requires Boots(g, cells, r) && r.ix.plr == Plr(b, e) && r.at[AreaOf(g, b)] + 1 < g.P
    ensures var a := AreaOf(g, b);
            var n := r.ix.areaBlock[a];
            var t := TableAt(cells, n, r.at[a]);
            && |t| == g.R && DataLo(g) <= n < g.T && n != r.holder && cells[n][r.at[a] + 1].Clear?
            && var w := cells[n := cells[n][r.at[a] + 1 := Area(Updated(g, t, b, e))]];
               Boots(g, w, r.(at := r.at[a := r.at[a] + 1]))
               && MapOf(g, r.ix.areaBlock, r.at[a := r.at[a] + 1], w) == r.mapped
  {
    hide AreaOf, OffsetOf, Sorted, Partition, MapOf;
    AreaWritten(g, cells, r.ix, r.at, r.holder, r.mapped, b, e);
    hide Laid, Updated;
  }

  /** Mapped blocks and area tables are apart from what an index update writes. */
  lemma TablesApart(s: Ubi, mapped: seq<AreaEntry>)
    requires Standing(s, mapped)
    ensures |mapped| == s.g.U && |s.areaBlock| == s.g.A && DataLo(s.g) <= NextHolder(s) < s.g.T
    ensures forall c :: 0 <= c < s.g.U ==>
              DataLo(s.g) <= mapped[c].block < s.g.T && mapped[c].block != s.holder && mapped[c].block !in s.areaBlock && mapped[c].block != NextHolder(s)
    ensures forall a :: 0 <= a < s.g.A ==>
              DataLo(s.g) <= s.areaBlock[a] < s.g.T && s.areaBlock[a] != s.holder && s.areaBlock[a] != NextHolder(s)
  {
    var free := s.free[..];
    hide AnchorHeld, AnchorSpot, Sorted, Choice;
    Apart(s.g, mapped, s.areaBlock, s.holder, free);
    var k := Choice(s.g, free, s.holder);
    if free[k].Free? {
      FreeApart(s.g, mapped, s.areaBlock, s.holder, free, k);
    }
  }

  lemma CacheDepends(g: Device, t: Ram, u: Ram, cells: seq<PhysBlock>, now: seq<PhysBlock>, at: seq<nat>)
    requires CacheOk(g, t, cells, at) && u.offset == t.offset && u.cached == t.cached && u.cachedArea == t.cachedArea && u.ix.areaBlock == t.ix.areaBlock
    requires |now| == |cells| && forall a :: 0 <= a < g.A && t.ix.areaBlock[a] < |cells| ==> now[t.ix.areaBlock[a]] == cells[t.ix.areaBlock[a]]
    ensures CacheOk(g, u, now, at)
  {
  }

  /** index_update, seen from the mapping. */
  method IndexStep(s: Ubi, ghost at: seq<nat>, ghost mapped: seq<AreaEntry>, ghost r: Rec) returns (st: Status)
    requires Staged(s, at, mapped) && UpdateFits(s.g, s.nand.cells, s.Index(), at, mapped) && CacheOk(s.g, s.Tables(), s.nand.cells, at)
    requires |at| == s.g.A && |s.areaBlock| == s.g.A
    modifies s, s.nand, s.free
    ensures s.Sound() && s.nand.faults == 0
    ensures st == Success ==>
              && Staged(s, at, mapped) && Boots(s.g, s.nand.cells, RecOf(s, at, mapped)) && s.next == PageAfter(s.g, old(s.next)) && s.anc.newBlock == s.holder
              && CacheOk(s.g, s.Tables(), s.nand.cells, at) && s.areaBlock == old(s.areaBlock) && s.plr == old(s.plr)
              && PlaceOf(s) == Relocated(s.g, old(PlaceOf(s)), old(s.next))
              && |s.areaBlock| == |at| == s.g.A && MapOf(s.g, s.areaBlock, at, s.nand.cells) == old(MapOf(s.g, s.areaBlock, at, s.nand.cells))
    ensures s.offset == old(s.offset) && s.cached == old(s.cached) && s.cachedArea == old(s.cachedArea) && s.updating == old(s.updating)
    ensures st != Success ==> Spared(s.g, old(s.nand.cells), s.nand.cells, r, r.holder)
    ensures st != Success && old(OnDisk(s, r) && CrashOk(s, r)) ==> StillBoots(s.g, s.nand.cells, r)
    ensures MappedKept(old(s.nand.cells), s.nand.cells, mapped)
    ensures st == Success || st == PowerLoss || st == Failure
    ensures s.nand.power.Some? == old(s.nand.power).Some?
    ensures old(s.nand.power) == None ==> st == Success
    ensures old(s.next) == s.g.P && old(s.nand.power) == Some(1) ==>
              st != Success && BlockErased(s.g, old(s.nand.cells), old(NextHolder(s)), s.nand.cells)
  {
    hide Laid, AnchorHeld, AnchorSpot, Boots, Choice, NextHolder, StillBoots, Standing, CrashOk, CacheOk, UpdateFits, OnDisk;
    ghost var cells, t := s.nand.cells, s.Tables();
    TablesApart(s, mapped);
    st := IndexUpdate(s, at, mapped, r);
    if st == Success {
      CacheDepends(s.g, t, s.Tables(), cells, s.nand.cells, at);
      MapDepends(s.g, s.areaBlock, at, cells, s.nand.cells);
    }
  }

  /** With the area tables where they are, the index table moves to none of their blocks. */
  lemma InPlaceOk(s: Ubi, b: nat, e: AreaEntry, at: seq<nat>, mapped: seq<AreaEntry>, r: Rec)
    requires Updating(s, at, mapped, r, b, e)
    ensures CrashOk(s, r)
  {
    hide Standing, OnDisk, CacheOk, NextHolder;
    TablesApart(s, mapped);
  }

  lemma RoomFits(s: Ubi, b: nat, e: AreaEntry, at: seq<nat>, mapped: seq<AreaEntry>)
    requires Staged(s, at, mapped) && b < s.g.U && s.plr == Plr(b, e)
    requires |at| == s.g.A && |s.areaBlock| == s.g.A && at[AreaOf(s.g, b)] + 1 < s.g.P
    ensures UpdateFits(s.g, s.nand.cells, s.Index(), at, mapped)
  {
    hide Standing, AreaOf;
  }

  /** The commit when the area's block has room: the index table announces the update, then the
      area table takes it up. */
  method CommitInPlace(s: Ubi, b: nat, e: AreaEntry, ghost at: seq<nat>, ghost mapped: seq<AreaEntry>, ghost r: Rec)
    returns (st: Status, ghost at': seq<nat>)
    requires Updating(s, at, mapped, r, b, e)
    requires s.cachedArea == Some(AreaOf(s.g, b)) && at[AreaOf(s.g, b)] + 1 < s.g.P
    modifies s, s.nand, s.free
    ensures s.Sound() && s.nand.faults == 0
    ensures st == Success ==> Steady(s, at', mapped) && PlaceOf(s) == Relocated(s.g, old(PlaceOf(s)), old(s.next)) && s.next == PageAfter(s.g, old(s.next))
    ensures st != Success ==> EitherMapping(s.g, old(s.nand.cells), s.nand.cells, r, mapped, r.holder)
    ensures MappedKept(old(s.nand.cells), s.nand.cells, mapped)
    ensures st == Success || st == PowerLoss || st == Failure
    ensures s.nand.power.Some? == old(s.nand.power).Some?
    ensures old(s.nand.power) == None ==> st == Success
  {
    hide Laid, AnchorHeld, AnchorSpot, Boots, BootsTwice, AreaOf, OffsetOf, StillBoots, Standing, CrashOk, Spared, OnDisk, UpdateFits;
    at' := at;
    InPlaceOk(s, b, e, at, mapped, r);
    RoomFits(s, b, e, at, mapped);
    st := IndexStep(s, at, mapped, r);
    if st == Success {
      TablesApart(s, mapped);
      ghost var w := RecOf(s, at, mapped);
      st, at' := AreaStep(s, b, e, at, mapped);
      assert st != Success ==> Leads(s.g, s.nand.cells, w) && w.mapped == mapped;
    }
  }

  /** AREA_Update after the index table has announced it. */
  method AreaStep(s: Ubi, b: nat, e: AreaEntry, ghost at: seq<nat>, ghost mapped: seq<AreaEntry>) returns (st: Status, ghost at': seq<nat>)
    requires Staged(s, at, mapped) && Boots(s.g, s.nand.cells, RecOf(s, at, mapped)) && s.next >= 1 && s.anc.newBlock == s.holder
    requires CacheOk(s.g, s.Tables(), s.nand.cells, at) && |s.cached| == s.g.R && b < s.g.U && s.plr == Plr(b, e)
    requires s.cachedArea == Some(AreaOf(s.g, b)) && at[AreaOf(s.g, b)] + 1 < s.g.P
    modifies s`offset, s`cached, s.nand
    ensures s.Sound() && s.nand.faults == 0
    ensures st == Success ==> Steady(s, at', mapped)
    ensures st == Success ==> AllBut(s.g, old(s.nand.cells), s.nand.cells, s.areaBlock[AreaOf(s.g, b)])
    ensures st != Success ==> st == PowerLoss && s.nand.cells == old(s.nand.cells)
    ensures s.nand.power.Some? == old(s.nand.power).Some?
    ensures old(s.nand.power) == None ==> st == Success
  {
    hide AnchorHeld, AnchorSpot, Boots, AreaOf, OffsetOf, AreasHeld, Partition, Sorted, MapOf;
    ghost var a := AreaOf(s.g, b);
    ghost var cells, r, t := s.nand.cells, RecOf(s, at, mapped), s.Tables();
    AreaBoots(s.g, cells, r, b, e);
    at' := at[a := at[a] + 1];
    st := AreaUpdate(s, b, e, at[a] + 1);
    if st == Success {
      BootsParts(s.g, s.nand.cells, RecOf(s, at', mapped));
      CacheStep(s.g, t, s.Tables(), cells, s.nand.cells, at, a, at[a] + 1);
    }
  }

  lemma CacheStep(g: Device, t: Ram, u: Ram, cells: seq<PhysBlock>, now: seq<PhysBlock>, at: seq<nat>, a: nat, page: nat)
    requires CacheOk(g, t, cells, at) && a < g.A && t.cachedArea == Some(a) && u.cachedArea == t.cachedArea && u.ix.areaBlock == t.ix.areaBlock
    requires u.offset == t.offset[a := Some(page)] && u.ix.areaBlock[a] < |now|
    requires TableAt(now, u.ix.areaBlock[a], page) == u.cached
    ensures CacheOk(g, u, now, at[a := page])
  {
    hide TableAt;
  }

  // ---------------------------------------------------------------- the commit when the area's block is full

  /** The block an area reclaim would take. */
  ghost function NextArea(s: Ubi, b: nat): nat
    requires b < s.g.U
    reads s, s.free
  {
    if |s.areaBlock| != s.g.A then 0 else ChosenBlock(s.g, s.free[..], s.areaBlock[AreaOf(s.g, b)], 0)
  }

  /** The free table after an area reclaim. */
  ghost function FreeAfterArea(s: Ubi, b: nat): seq<FreeSlot>
    requires b < s.g.U && |s.areaBlock| == |s.areaEc| == s.g.A
    reads s, s.free
  {
    var a := AreaOf(s.g, b);
    var k := Choice(s.g, s.free[..], s.areaBlock[a]);
    if k < s.free.Length then Exchange(s.free[..], k, s.areaBlock[a], s.areaEc[a]) else []
  }

  /** If both the area's block and the index block are full, the index table does not move to the
      area block just released. */
  ghost predicate BothFullOk(s: Ubi, b: nat)
    requires b < s.g.U && |s.areaBlock| == |s.areaEc| == s.g.A
    reads s, s.free
  {
    s.next == s.g.P ==> HolderChoice(s.g, FreeAfterArea(s, b), s.holder, s.next) != s.areaBlock[AreaOf(s.g, b)]
  }

  /** The new area block holds the updated table; nothing on flash names it yet. */
  lemma MovedOnDisk(g: Device, cells: seq<PhysBlock>, ix: IndexTable, at: seq<nat>, holder: nat, mapped: seq<AreaEntry>, r: Rec, k: nat, b: PhysBlock)
    requires Laid(g, cells, ix, at, holder, mapped) && k < g.F && ix.free[k].Free? && |b| == g.P
    requires Boots(g, cells, r) && r.holder == holder && r.ix.areaBlock == ix.areaBlock && r.anc.newBlock == holder
    ensures ix.free[k].block < |cells| && Boots(g, cells[ix.free[k].block := b], r)
    ensures MappedKept(cells, cells[ix.free[k].block := b], mapped)
    ensures Spared(g, cells, cells[ix.free[k].block := b], r, ix.free[k].block)
  {
    hide Sorted, MapOf;
    FreeApart(g, mapped, ix.areaBlock, holder, ix.free, k);
    hide Partition;
    TouchKeeps(g, cells, r, ix.free[k].block, b);
  }

  ghost predicate SlotErased(g: Device, ix: IndexTable, k: nat, cells: seq<PhysBlock>, now: seq<PhysBlock>) {
    k < |ix.free| && ix.free[k].Free? && BlockErased(g, cells, ix.free[k].block, now)
  }

  /** INDEX_FreeBlock_Get and INDEX_Update_AreaReclaim. */
  method TakeArea(s: Ubi, b: nat, ghost at: seq<nat>, ghost mapped: seq<AreaEntry>, ghost k: nat) returns (st: Status, ghost newEc: nat)
    requires Staged(s, at, mapped) && b < s.g.U
    requires |s.areaBlock| == |s.areaEc| == s.g.A && k == Choice(s.g, s.free[..], s.areaBlock[AreaOf(s.g, b)])
    modifies s`anc, s`areaBlock, s`areaEc, s.nand, s.free
    ensures s.Sound() && s.nand.faults == 0
    ensures st == Success ==> s.anc == old(s.anc) && s.Index() == AreaReclaimed(s.g, old(s.Index()), b, k, newEc) && newEc == CountOnce(old(s.free[..]), k)
    ensures st == Success ==> SlotErased(s.g, old(s.Index()), k, old(s.nand.cells), s.nand.cells) && s.nand.power == Spent(old(s.nand.power), 1)
    ensures st != Success ==> st == PowerLoss && s.nand.cells == old(s.nand.cells)
    ensures s.nand.power.Some? == old(s.nand.power).Some?
    ensures st != Success <==> old(s.nand.power) == Some(0)
  {
    hide Laid, AnchorHeld, AnchorSpot, Choice, RemoveAt, Put, AreaOf;
    StagedFree(s, mapped);
    var a := AreaOf(s.g, b);
    ghost var free := s.free[..];
    var block, ec;
    ghost var m;
    st, block, ec, m := Get(s, s.areaBlock[a]);
    assert Drained(free, DieOf(s.g, s.areaBlock[a]), s.g.D, 0) == free;
    newEc := ec;
    if st == Success {
      PutInPlace(s.free, s.areaBlock[a], s.areaEc[a]);
      s.areaBlock, s.areaEc := s.areaBlock[a := block], s.areaEc[a := ec];
    }
  }

  /** AREA_Update on the block just taken. */
  lemma MovedStaged(g: Device, cells: seq<PhysBlock>, ix: IndexTable, at: seq<nat>, holder: nat, mapped: seq<AreaEntry>, b: nat, e: AreaEntry, k: nat, ec: nat,
                    now: seq<PhysBlock>, ancBlock: nat, ancNext: nat, anc: AnchorTable, next: nat)
    requires Laid(g, cells, ix, at, holder, mapped) && ix.plr == Plr(b, e) && k < g.F && ix.free[k].Free? && b < g.U
    requires AnchorSpot(g, cells, ancBlock, ancNext)
    requires next < g.P ==> holder < g.T && Prefix(cells[holder], next) && AnchorHeld(g, cells, ancBlock, ancNext, anc)
    requires |at| == g.A && |ix.areaBlock| == g.A && ix.free[k].block < |cells|
    requires now == cells[ix.free[k].block := ClearBlock(g.P)[0 := Area(Updated(g, TableAt(cells, ix.areaBlock[AreaOf(g, b)], at[AreaOf(g, b)]), b, e))]]
    ensures var ix1 := AreaReclaimed(g, ix, b, k, ec);
            && Laid(g, now, ix1, at[AreaOf(g, b) := 0], holder, mapped) && Owners(g, ix1, holder, mapped) && |ix1.areaBlock| == g.A
            && MapOf(g, ix1.areaBlock, at[AreaOf(g, b) := 0], now) == mapped
    ensures ShapedCells(now, g.T, g.P) && AnchorSpot(g, now, ancBlock, ancNext)
    ensures next < g.P ==> holder < g.T && Prefix(now[holder], next) && AnchorHeld(g, now, ancBlock, ancNext, anc)
  {
    hide Sorted, Partition, AreaOf, OffsetOf, MapOf, Exchange, Updated;
    AreaMoved(g, cells, ix, at, holder, mapped, b, e, k, ec);
    LaidParts(g, cells, ix, at, holder, mapped);
    hide Laid;
  }

  lemma CacheMoved(g: Device, t: Ram, u: Ram, cells: seq<PhysBlock>, now: seq<PhysBlock>, at: seq<nat>, a: nat, n: nat)
    requires CacheOk(g, t, cells, at) && a < g.A && t.cachedArea == Some(a) && u.cachedArea == t.cachedArea
    requires u.ix.areaBlock == t.ix.areaBlock[a := n] && u.offset == t.offset[a := Some(0)] && TableAt(now, n, 0) == u.cached
    ensures CacheOk(g, u, now, at[a := 0])
  {
    hide TableAt;
  }

  lemma KeptTrans(g: Device, cells: seq<PhysBlock>, mid: seq<PhysBlock>, now: seq<PhysBlock>, mapped: seq<AreaEntry>)
    requires MappedKept(cells, mid, mapped) && MappedKept(mid, now, mapped)
    ensures MappedKept(cells, now, mapped)
  {
  }

  lemma SparedTrans(g: Device, cells: seq<PhysBlock>, mid: seq<PhysBlock>, now: seq<PhysBlock>, r: Rec, n: nat)
    requires Spared(g, cells, mid, r, n) && Spared(g, mid, now, r, r.holder)
    ensures Spared(g, cells, now, r, n)
  {
  }

  /** After the area reclaim the index table may move to any free block but the old area block. */
  lemma MovedCrashOk(s: Ubi, at: seq<nat>, mapped: seq<AreaEntry>, r: Rec, b: nat, o: nat)
    requires Staged(s, at, mapped) && b < s.g.U
    requires |r.ix.areaBlock| == |s.areaBlock| == s.g.A && s.areaBlock == r.ix.areaBlock[AreaOf(s.g, b) := s.areaBlock[AreaOf(s.g, b)]]
    requires s.next == s.g.P ==> NextHolder(s) != r.ix.areaBlock[AreaOf(s.g, b)]
    ensures CrashOk(s, r)
  {
    hide NextHolder, Standing, AreaOf;
    TablesApart(s, mapped);
    var a := AreaOf(s.g, b);
    assert forall c :: 0 <= c < s.g.A && c != a ==> r.ix.areaBlock[c] == s.areaBlock[c];
  }

  lemma AreaChoice(s: Ubi, b: nat, at: seq<nat>, mapped: seq<AreaEntry>)
    requires Staged(s, at, mapped) && b < s.g.U && |s.areaBlock| == |s.areaEc| == s.g.A
    ensures var k := Choice(s.g, s.free[..], s.areaBlock[AreaOf(s.g, b)]);
            && k < s.free.Length && s.free[k].Free? && s.free[k].block == NextArea(s, b)
            && FreeAfterArea(s, b) == Exchange(s.free[..], k, s.areaBlock[AreaOf(s.g, b)], s.areaEc[AreaOf(s.g, b)])
  {
    hide AreaOf, Choice, Exchange;
    StagedFree(s, mapped);
  }

  lemma NothingMoved(g: Device, cells: seq<PhysBlock>, r: Rec, n: nat, mapped: seq<AreaEntry>)
    requires |cells| == g.T
    ensures Spared(g, cells, cells, r, n) && MappedKept(cells, cells, mapped)
  {
  }

  /** The new area block with the updated table on its first page. */
  ghost function NewAreaBlock(g: Device, cells: seq<PhysBlock>, ix: IndexTable, at: seq<nat>, b: nat, e: AreaEntry): PhysBlock
    requires b < g.U && |ix.areaBlock| == |at| == g.A
  {
    ClearBlock(g.P)[0 := Area(Updated(g, TableAt(cells, ix.areaBlock[AreaOf(g, b)], at[AreaOf(g, b)]), b, e))]
  }

  lemma ReclaimedAt(g: Device, ix: IndexTable, b: nat, k: nat, ec: nat)
    requires b < g.U && |ix.areaBlock| == |ix.areaEc| == g.A && k < |ix.free| && ix.free[k].Free?
    ensures var a, u := AreaOf(g, b), AreaReclaimed(g, ix, b, k, ec);
            && u.areaBlock == ix.areaBlock[a := ix.free[k].block] && |u.areaEc| == g.A && u.plr == ix.plr
            && u.free == Exchange(ix.free, k, ix.areaBlock[a], ix.areaEc[a])
  {
    hide AreaOf, Exchange;
  }

  /** AREA_Update, once the area's table has a new block. */
  method PlaceArea(s: Ubi, b: nat, e: AreaEntry, ghost at: seq<nat>, ghost mapped: seq<AreaEntry>,
                   ghost cells: seq<PhysBlock>, ghost ix: IndexTable, ghost k: nat, ghost ec: nat)
    returns (st: Status)
    requires s.Sound() && s.nand.faults == 0 && AnchorsGood(s.g, s.anc.bad) && s.next <= s.g.P && DataLo(s.g) <= s.holder < s.g.T
    requires Laid(s.g, cells, ix, at, s.holder, mapped) && ix.plr == Plr(b, e) && b < s.g.U
    requires k < s.g.F && s.Index() == AreaReclaimed(s.g, ix, b, k, ec) && SlotErased(s.g, ix, k, cells, s.nand.cells)
    requires AnchorSpot(s.g, cells, s.ancBlock, s.ancNext)
    requires s.next < s.g.P ==>
               && s.anc.newBlock == s.holder && s.anc.newEc == s.holderEc && s.holder < |cells| && Prefix(cells[s.holder], s.next)
               && AnchorHeld(s.g, cells, s.ancBlock, s.ancNext, s.anc)
    requires CacheOk(s.g, s.Tables().(ix := ix), cells, at) && s.cachedArea == Some(AreaOf(s.g, b)) && at[AreaOf(s.g, b)] == s.g.P - 1 && |s.cached| == s.g.R
    requires |at| == |ix.areaBlock| == |ix.areaEc| == s.g.A
    modifies s`offset, s`cached, s.nand
    ensures s.Sound() && s.nand.faults == 0
    ensures st == Success ==>
              && Staged(s, at[AreaOf(s.g, b) := 0], mapped) && CacheOk(s.g, s.Tables(), s.nand.cells, at[AreaOf(s.g, b) := 0])
              && |s.areaBlock| == s.g.A && MapOf(s.g, s.areaBlock, at[AreaOf(s.g, b) := 0], s.nand.cells) == mapped
              && s.plr == ix.plr && |s.cached| == s.g.R
              && ix.free[k].block < |cells| && s.nand.cells == cells[ix.free[k].block := NewAreaBlock(s.g, cells, ix, at, b, e)]
              && s.nand.power == Spent(old(s.nand.power), 1)
    ensures st != Success ==> st == PowerLoss && s.nand.cells == old(s.nand.cells)
    ensures s.nand.power.Some? == old(s.nand.power).Some?
    ensures st != Success <==> old(s.nand.power) == Some(0)
  {
    hide Laid, AnchorHeld, AnchorSpot, AreaOf, OffsetOf, Exchange, MapOf, Updated, AreaReclaimed;
    ghost var a, n, t := AreaOf(s.g, b), ix.free[k].block, s.Tables().(ix := ix);
    ReclaimedAt(s.g, ix, b, k, ec);
    st := AreaUpdate(s, b, e, 0);
    if st == Success {
      MovedStaged(s.g, cells, ix, at, s.holder, mapped, b, e, k, ec, s.nand.cells, s.ancBlock, s.ancNext, s.anc, s.next);
      CacheMoved(s.g, t, s.Tables(), cells, s.nand.cells, at, a, n);
    }
  }

  /** The area's table moves to a free block; nothing on flash names that block yet. */
  method MoveArea(s: Ubi, b: nat, e: AreaEntry, ghost at: seq<nat>, ghost mapped: seq<AreaEntry>, ghost r: Rec)
    returns (st: Status)
    requires Updating(s, at, mapped, r, b, e) && |s.areaEc| == s.g.A && at[AreaOf(s.g, b)] == s.g.P - 1
    requires s.cachedArea == Some(AreaOf(s.g, b))
    modifies s, s.nand, s.free
    ensures s.Sound() && s.nand.faults == 0
    ensures st == Success ==>
              && Staged(s, at[AreaOf(s.g, b) := 0], mapped) && CacheOk(s.g, s.Tables(), s.nand.cells, at[AreaOf(s.g, b) := 0])
              && OnDisk(s, r) && |s.areaBlock| == s.g.A && MapOf(s.g, s.areaBlock, at[AreaOf(s.g, b) := 0], s.nand.cells) == mapped
              && s.plr == Plr(b, e) && |s.cached| == s.g.R
              && (old(BothFullOk(s, b)) ==> CrashOk(s, r))
              && s.holder == old(s.holder) && s.next == old(s.next) && s.free[..] == old(FreeAfterArea(s, b))
              && PlaceOf(s) == Reclaimed(s.g, old(PlaceOf(s)), b)
              && s.nand.power == Spent(old(s.nand.power), 2) && Rewritten(old(s.nand.cells), old(NextArea(s, b)), s.nand.cells)
    ensures st != Success ==> st == PowerLoss && old(s.nand.power).Some? && old(s.nand.power).value < 2
    ensures Boots(s.g, s.nand.cells, r) && Spared(s.g, old(s.nand.cells), s.nand.cells, r, old(NextArea(s, b)))
    ensures MappedKept(old(s.nand.cells), s.nand.cells, mapped)
    ensures s.nand.power.Some? == old(s.nand.power).Some?
  {
    hide Owners, CacheOk, CrashOk, Laid, AnchorHeld, AnchorSpot, Boots, Choice, AreaOf, Exchange, NextArea, FreeAfterArea, Spared, MappedKept, MapOf, HolderChoice, NewAreaBlock, AreaReclaimed;
    ghost var a, cells, ix := AreaOf(s.g, b), s.nand.cells, s.Index();
    LaidParts(s.g, cells, ix, at, s.holder, mapped);
    ghost var k := Choice(s.g, s.free[..], s.areaBlock[a]);
    AreaChoice(s, b, at, mapped);
    NewAreaSize(s.g, cells, ix, at, b, e);
    MovedOnDisk(s.g, cells, ix, at, s.holder, mapped, r, k, ClearBlock(s.g.P));
    MovedOnDisk(s.g, cells, ix, at, s.holder, mapped, r, k, NewAreaBlock(s.g, cells, ix, at, b, e));
    NothingMoved(s.g, cells, r, ix.free[k].block, mapped);
    ghost var ec;
    st, ec := TakeArea(s, b, at, mapped, k);
    if st == Success {
      ReclaimedAt(s.g, ix, b, k, ec);
      st := PlaceArea(s, b, e, at, mapped, cells, ix, k, ec);
      if st == Success && old(BothFullOk(s, b)) {
        MovedCrashOk(s, at[a := 0], mapped, r, b, ix.areaBlock[a]);
      }
    }
  }

  /** Only block n differs. */
  ghost predicate Rewritten(cells: seq<PhysBlock>, n: nat, now: seq<PhysBlock>) {
    n < |cells| == |now| && |now[n]| == |cells[n]| && now == cells[n := now[n]]
  }

  /** Block n was written, then block h erased. */
  ghost predicate BothTouched(g: Device, cells: seq<PhysBlock>, n: nat, h: nat, now: seq<PhysBlock>) {
    exists mid :: Rewritten(cells, n, mid) && BlockErased(g, mid, h, now)
  }

  lemma NewAreaSize(g: Device, cells: seq<PhysBlock>, ix: IndexTable, at: seq<nat>, b: nat, e: AreaEntry)
    requires b < g.U && |ix.areaBlock| == |at| == g.A
    ensures |NewAreaBlock(g, cells, ix, at, b, e)| == g.P
  {
  }

  lemma MapFits(s: Ubi, at: seq<nat>, mapped: seq<AreaEntry>)
    requires |at| == |s.areaBlock| == s.g.A && MapOf(s.g, s.areaBlock, at, s.nand.cells) == mapped
    ensures UpdateFits(s.g, s.nand.cells, s.Index(), at, mapped)
  {
    hide MapOf, AreaOf;
  }

  /** The commit when the area's block is full: the table moves to another block, which the index
      table names only afterwards.  If power fails after three steps while the index block is full
      as well, the block the index table was to move to has been erased. */
  method CommitMoved(s: Ubi, b: nat, e: AreaEntry, ghost at: seq<nat>, ghost mapped: seq<AreaEntry>, ghost r: Rec)
    returns (st: Status, ghost at': seq<nat>)
    requires Updating(s, at, mapped, r, b, e) && |s.areaEc| == s.g.A && at[AreaOf(s.g, b)] == s.g.P - 1
    requires s.cachedArea == Some(AreaOf(s.g, b))
    modifies s, s.nand, s.free
    ensures s.Sound() && s.nand.faults == 0
    ensures st == Success ==>
              Steady(s, at', mapped) && PlaceOf(s) == Committed(s.g, old(PlaceOf(s)), b, true, old(s.next)) && s.next == PageAfter(s.g, old(s.next))
    ensures st != Success && old(BothFullOk(s, b)) ==> EitherMapping(s.g, old(s.nand.cells), s.nand.cells, r, mapped, old(NextArea(s, b)))
    ensures MappedKept(old(s.nand.cells), s.nand.cells, mapped)
    ensures st == Success || st == PowerLoss || st == Failure
    ensures s.nand.power.Some? == old(s.nand.power).Some?
    ensures old(s.nand.power) == None ==> st == Success
    ensures old(s.next) == s.g.P && old(s.nand.power) == Some(3) ==>
              && st != Success
              && BothTouched(s.g, old(s.nand.cells), old(NextArea(s, b)),
                             old(HolderChoice(s.g, FreeAfterArea(s, b), s.holder, s.next)), s.nand.cells)
  {
    hide Laid, AnchorHeld, AnchorSpot, Boots, AreaOf, StillBoots, Standing, CrashOk, Spared, MappedKept, NextArea, BothFullOk, MapOf, TableAt, OnDisk, UpdateFits, FreeAfterArea, HolderChoice, Rewritten, BlockErased;
    at' := at;
    ghost var cells, n := s.nand.cells, NextArea(s, b);
    ghost var a := AreaOf(s.g, b);
    st := MoveArea(s, b, e, at, mapped, r);
    DiskStillBoots(s.g, s.nand.cells, r);
    if st == Success {
      ghost var mid := s.nand.cells;
      at' := at[a := 0];
      MapFits(s, at', mapped);
      st := IndexStep(s, at', mapped, r);
      KeptTrans(s.g, cells, mid, s.nand.cells, mapped);
      if st != Success {
        SparedTrans(s.g, cells, mid, s.nand.cells, r, n);
      }
    }
  }

  /** AREA_IsFull changes the cache only. */
  method CheckArea(s: Ubi, b: nat, e: AreaEntry, ghost at: seq<nat>, ghost mapped: seq<AreaEntry>, ghost r: Rec) returns (full: bool)
    requires Updating(s, at, mapped, r, b, e) && |s.areaEc| == s.g.A
    modifies s`offset, s`cached, s`cachedArea
    ensures Updating(s, at, mapped, r, b, e) && s.cachedArea == Some(AreaOf(s.g, b))
    ensures |at| == |s.areaBlock| == s.g.A && full == (at[AreaOf(s.g, b)] == s.g.P - 1) && (!full ==> at[AreaOf(s.g, b)] + 1 < s.g.P)
    ensures BothFullOk(s, b) == old(BothFullOk(s, b)) && NextArea(s, b) == old(NextArea(s, b)) && FreeAfterArea(s, b) == old(FreeAfterArea(s, b))
  {
    hide Laid, AnchorHeld, AnchorSpot, Boots, AreaOf, ChosenBlock, HolderChoice, Exchange, MapOf, TableAt;
    AreasOnFlash(s, at, mapped, b);
    full := AreaIsFull(s, b, at);
  }

  /** INDEX_Update_Commit with an area update pending.  If power fails, a mount finds the old
      mapping or the new one, unless both blocks are full and the index table moves to the area
      block just released. */
  method Commit(s: Ubi, b: nat, e: AreaEntry, ghost at: seq<nat>, ghost mapped: seq<AreaEntry>, ghost r: Rec)
    returns (st: Status, ghost at': seq<nat>)
    requires Updating(s, at, mapped, r, b, e) && |s.areaEc| == s.g.A
    modifies s, s.nand, s.free
    ensures s.Sound() && s.nand.faults == 0
    ensures st == Success ==> Steady(s, at', mapped) && !s.updating && s.next == PageAfter(s.g, old(s.next))
    ensures st == Success && |at| == s.g.A ==> PlaceOf(s) == Committed(s.g, old(PlaceOf(s)), b, at[AreaOf(s.g, b)] == s.g.P - 1, old(s.next))
    ensures st != Success && |at| == s.g.A && (at[AreaOf(s.g, b)] == s.g.P - 1 ==> old(BothFullOk(s, b))) ==>
              EitherMapping(s.g, old(s.nand.cells), s.nand.cells, r, mapped,
                            if at[AreaOf(s.g, b)] == s.g.P - 1 then old(NextArea(s, b)) else r.holder)
    ensures MappedKept(old(s.nand.cells), s.nand.cells, mapped)
    ensures st == Success || st == PowerLoss || st == Failure
    ensures s.nand.power.Some? == old(s.nand.power).Some?
    ensures old(s.nand.power) == None ==> st == Success
    ensures |at| == s.g.A && at[AreaOf(s.g, b)] == s.g.P - 1 && old(s.next) == s.g.P && old(s.nand.power) == Some(3) ==>
              && st != Success
              && BothTouched(s.g, old(s.nand.cells), old(NextArea(s, b)),
                             old(HolderChoice(s.g, FreeAfterArea(s, b), s.holder, s.next)), s.nand.cells)
  {
    hide Updating, Steady, AreaOf, EitherMapping, MappedKept, HolderChoice, BothTouched, BothFullOk, NextArea, FreeAfterArea, OnDisk;
    var full := CheckArea(s, b, e, at, mapped, r);
    if full {
      st, at' := CommitMoved(s, b, e, at, mapped, r);
    } else {
      st, at' := CommitInPlace(s, b, e, at, mapped, r);
    }
    if st == Success {
      EndUpdate(s, at', mapped);
    }
  }

  /** is_updating_area is cleared. */
  method EndUpdate(s: Ubi, ghost at: seq<nat>, ghost mapped: seq<AreaEntry>)
    requires Steady(s, at, mapped)
    modifies s`updating
    ensures Steady(s, at, mapped) && !s.updating
  {
    hide Laid, AnchorHeld, AnchorSpot, Boots, MapOf, TableAt;
    s.updating := false;
  }

  lemma AreasOnFlash(s: Ubi, at: seq<nat>, mapped: seq<AreaEntry>, b: nat)
    requires Staged(s, at, mapped) && b < s.g.U
    ensures |at| == |s.areaBlock| == s.g.A
    ensures AreaHeld(s.g, s.nand.cells, s.areaBlock[AreaOf(s.g, b)], at[AreaOf(s.g, b)])
    ensures at[AreaOf(s.g, b)] < s.g.P
  {
    hide AreaOf;
  }
}
