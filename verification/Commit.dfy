/** DATA_Commit, and the page-map calls that may trigger it: PMT_Load, PMT_Search, PMT_Update. */
module Commit {
  import opened Geometry
  import opened Flash
  import opened PmtSpec
  import DataSpec
  import opened FtlState
  import opened PageMap
  import opened Pmt
  import opened Logs
  import opened RootSpec
  import opened Counting

  /** The page map is stable and the logs are in order. */
  ghost predicate Ready(s: Ftl)
    reads s, s.ubi, s.ubi.Repr
  {
    && s.Sound() && Stable(s.g, s.Pmt()) && LogsOk(s.g, s.ubi.blk, s.Logs())
    && |s.dirty| == s.g.bdtPages * s.g.pageBytes
  }

  /** The data region and its journals are untouched. */
  twostate predicate DataKept(s: Ftl)
    reads s, s.ubi, s.ubi.Repr
  {
    && s.Journals() == old(s.Journals())
    && |s.ubi.blk| == |old(s.ubi.blk)| && |s.dirty| == |old(s.dirty)|
    && (forall b :: s.g.dataLo <= b < |s.ubi.blk| ==> s.ubi.blk[b] == old(s.ubi.blk)[b])
    && (forall b :: s.g.dataLo <= b < |s.dirty| ==> s.dirty[b] == old(s.dirty)[b])
  }

  ghost predicate AllOnFlash(g: Geometry, r: Root) {
    |r.nodes| == g.K && forall c :: 0 <= c < g.K ==> r.nodes[c].OnFlash?
  }

  // ---------------------------------------------------------------- what is on flash

  /** The journals and their lists have their numbers. */
  ghost predicate Arrays(s: Ftl)
    reads s
  {
    && |s.root.hot| == s.g.J && |s.root.cold| == s.g.J && |s.root.reclaim| == s.g.J
    && |s.hotMeta| == s.g.J && |s.coldMeta| == s.g.J
  }

  /** The root, the dirty table and the page map on flash are those in RAM, no node is a RAM
      pointer, and both editions begin at 0 again. */
  ghost predicate JustCommitted(s: Ftl)
    reads s, s.ubi
  {
    && Logs.Stored(s.g, s.ubi.blk, s.root, s.dirty, s.listed) && s.Pmt() == StoredMap(s.g, s.ubi.blk, s.root, s.dirty, s.listed)
    && AllOnFlash(s.g, s.root) && s.hotEdition == 0 && s.coldEdition == 0
  }

  /** The data region as root r and dirty table d describe it. */
  ghost predicate CommittedData(g: Geometry, v: DataSpec.View, blk: seq<Block>, r: Root, d: seq<nat>, list: seq<nat>) {
    && |r.hot| == g.J && |r.cold| == g.J && |r.reclaim| == g.J && |r.nodes| == g.K
    && v.js == r.hot + r.cold + r.reclaim && v.dirty == DataDirty(g, d)
    && v.pm == MapOf(g, StoredMap(g, blk, r, d, list))
  }

  ghost predicate RecordIs(g: Geometry, v: DataSpec.View, blk: seq<Block>, list: seq<nat>, r: Root, d: seq<nat>) {
    Logs.Stored(g, blk, r, d, list) && CommittedData(g, v, blk, r, d, list)
  }

  /** A mount of this flash finds the journals, the dirty counts and the address map of v. */
  ghost predicate OnRecord(g: Geometry, v: DataSpec.View, blk: seq<Block>, list: seq<nat>) {
    exists r: Root, d: seq<nat> :: RecordIs(g, v, blk, list, r, d)
  }

  /** The last commit is that of v, and no page was written since. */
  ghost predicate Saved(s: Ftl, v: DataSpec.View)
    reads s, s.ubi
  {
    OnRecord(s.g, v, s.ubi.blk, s.listed) && s.hotEdition == 0 && s.coldEdition == 0
  }

  lemma CommittedIsSaved(s: Ftl)
    requires Ready(s) && Arrays(s) && JustCommitted(s)
    ensures Saved(s, s.Data())
  {
    hide Logs.Stored, LogsOk, StoredMap, MapOf;
    StableShape(s.g, s.Pmt());
    hide Stable;
    assert RecordIs(s.g, s.Data(), s.ubi.blk, s.listed, s.root, s.dirty);
  }

  /** Outside the data region nothing differs. */
  ghost predicate BelowKept(g: Geometry, blk: seq<Block>, now: seq<Block>) {
    |now| == |blk| && forall b :: 0 <= b < |now| && b < g.dataLo ==> now[b] == blk[b]
  }

  /** Writing to the data region alone leaves what a mount reads. */
  lemma StoredDepends(g: Geometry, blk: seq<Block>, now: seq<Block>, r: Root, d: seq<nat>, list: seq<nat>)
    requires Logs.Stored(g, blk, r, d, list) && BelowKept(g, blk, now) && Shaped(now, g.U, g.P) && |r.nodes| == g.K
    ensures Logs.Stored(g, now, r, d, list)
    ensures MapOf(g, StoredMap(g, now, r, d, list)) == MapOf(g, StoredMap(g, blk, r, d, list))
  {
    hide Stable, SameMap, BdtStored, HdiStored, MapOf;
    PmtSpec.StableDepends(g, StoredMap(g, blk, r, d, list), StoredMap(g, now, r, d, list));
    SameMapOf(g, StoredMap(g, blk, r, d, list), StoredMap(g, now, r, d, list));
    PmtRoom(g);
    hide StoredMap, ValidDims;
    BdtDepends(g, blk, now, r.bdt, d);
    var n :| HdiStored(g, blk, r.hdi, n);
    HdiDepends(g, blk, now, r.hdi, n);
  }

  /** So the record of v stays, whatever is written there. */
  lemma RecordDepends(g: Geometry, v: DataSpec.View, u: DataSpec.View, blk: seq<Block>, now: seq<Block>, list: seq<nat>)
    requires OnRecord(g, v, blk, list) && BelowKept(g, blk, now) && Shaped(now, g.U, g.P)
    requires u.js == v.js && u.dirty == v.dirty && u.pm == v.pm
    ensures OnRecord(g, u, now, list)
  {
    hide Logs.Stored, StoredMap, MapOf, BelowKept, DataDirty;
    var r: Root, d: seq<nat> :| RecordIs(g, v, blk, list, r, d);
    StoredDepends(g, blk, now, r, d, list);
    assert RecordIs(g, u, now, list, r, d);
  }

  // ---------------------------------------------------------------- DATA_Commit

  /** The logs depend on their own blocks. */
  lemma LogsDepend(g: Geometry, blk: seq<Block>, l: LogView, blk': seq<Block>)
    requires LogsOk(g, blk, l) && Shaped(blk', g.U, g.P)
    requires forall b :: 0 <= b < PMT_START_BLOCK ==> blk'[b] == blk[b]
    ensures LogsOk(g, blk', l)
  {
    assert RootLog(blk', l) == RootLog(blk, l);
    hide LogOk;
  }

  lemma LogsAfterHdi(g: Geometry, blk: seq<Block>, l: LogView, blk': seq<Block>, l': LogView)
    requires LogsOk(g, blk, l) && Shaped(blk', g.U, g.P)
    requires forall b :: 0 <= b < 4 ==> blk'[b] == blk[b]
    requires HdiOk(g, blk', l') && l' == l.(hdiBlock := l'.hdiBlock, hdiPage := l'.hdiPage)
    ensures LogsOk(g, blk', l')
  {
    assert RootLog(blk', l') == RootLog(blk, l);
    hide LogOk;
  }

  lemma LogsAfterBdt(g: Geometry, blk: seq<Block>, l: LogView, blk': seq<Block>, l': LogView)
    requires LogsOk(g, blk, l) && Shaped(blk', g.U, g.P)
    requires forall b :: 2 <= b < PMT_START_BLOCK ==> blk'[b] == blk[b]
    requires BdtOk(g, blk', l') && l' == l.(bdtBlock := l'.bdtBlock, bdtPage := l'.bdtPage)
    ensures LogsOk(g, blk', l')
  {
    assert RootLog(blk', l') == RootLog(blk, l);
    hide LogOk;
  }

  /** DATA_Commit: the page map, the dirty table and the root reach flash, the root last.  The
      address map is unchanged, the root on flash holds no RAM pointer, and a mount finds all of
      it again. */
  method DataCommit(s: Ftl)
    requires Ready(s) && s.listKept
    modifies s, s.ubi.Repr
    ensures Ready(s) && DataKept(s) && SameMap(old(s.Pmt()), s.Pmt())
    ensures JustCommitted(s) && forall i :: 0 <= i < s.g.C ==> s.slots[i] == EMPTY_SLOT
  {
    hide SameMap, LogsOk, Stable, RootStored, BdtStored, HdiStored;
    ghost var v := s.Pmt();
    CommitHdi(s);
    ghost var u := s.Pmt();
    CommitPmt(s);
    SameMapTrans(v, u, s.Pmt());
    u := s.Pmt();
    CommitBdtRoot(s);
    SameMapTrans(v, u, s.Pmt());
    ReadyShape(s);
    s.hotEdition, s.coldEdition := 0, 0;
    assert s.slots == NoSlots(s.g);
  }

  lemma ReadyShape(s: Ftl)
    requires Ready(s)
    ensures Shaped(s.ubi.blk, s.g.U, s.g.P) && |s.slots| == s.g.C && |s.dirty| == s.g.bdtPages * s.g.pageBytes
  {
    StableShape(s.g, s.Pmt());
  }

  method CommitHdi(s: Ftl)
    requires Ready(s)
    modifies s, s.ubi.Repr
    ensures Ready(s) && DataKept(s) && SameMap(old(s.Pmt()), s.Pmt())
    ensures HdiStored(s.g, s.ubi.blk, s.root.hdi, s.hdiPage)
  {
    hide Inv, SameMap, LogOk, BdtOk, HdiStored;
    ghost var v, l, blk := s.Pmt(), s.Logs(), s.ubi.blk;
    StableShape(s.g, v);
    HdiCommit(s);
    LogsAfterHdi(s.g, blk, l, s.ubi.blk, s.Logs());
    StableDepends(s.g, v, s.Pmt());
    hide Stable, LogsOk;
  }

  method CommitPmt(s: Ftl)
    requires Ready(s) && s.listKept && HdiStored(s.g, s.ubi.blk, s.root.hdi, s.hdiPage)
    modifies s, s.ubi.Repr
    ensures Ready(s) && DataKept(s) && SameMap(old(s.Pmt()), s.Pmt())
    ensures AllOnFlash(s.g, s.root) && |s.slots| == s.g.C && forall i :: 0 <= i < s.g.C ==> s.slots[i] == EMPTY_SLOT
    ensures HdiStored(s.g, s.ubi.blk, s.root.hdi, s.hdiPage)
  {
    hide Inv, SameMap, LogsOk, HdiStored;
    ghost var l, blk := s.Logs(), s.ubi.blk;
    StableShape(s.g, s.Pmt());
    ghost var reclaims := PmtCommit(s);
    StableShape(s.g, s.Pmt());
    hide Stable;
    LogsDepend(s.g, blk, l, s.ubi.blk);
    HdiDepends(s.g, blk, s.ubi.blk, s.root.hdi, s.hdiPage);
  }

  method CommitBdtRoot(s: Ftl)
    requires Ready(s) && AllOnFlash(s.g, s.root) && HdiStored(s.g, s.ubi.blk, s.root.hdi, s.hdiPage)
    modifies s, s.ubi.Repr
    ensures Ready(s) && DataKept(s) && SameMap(old(s.Pmt()), s.Pmt()) && AllOnFlash(s.g, s.root)
    ensures s.slots == old(s.slots)
    ensures HdiStored(s.g, s.ubi.blk, s.root.hdi, s.hdiPage) && BdtStored(s.g, s.ubi.blk, s.root.bdt, s.dirty)
    ensures RootStored(s.g.P, s.ubi.blk, s.root)
  {
    hide SameMap, LogsOk, Stable, HdiStored, BdtStored, RootStored;
    ghost var v := s.Pmt();
    CommitBdt(s);
    ghost var u := s.Pmt();
    CommitRoot(s);
    SameMapTrans(v, u, s.Pmt());
  }

  method CommitBdt(s: Ftl)
    requires Ready(s) && AllOnFlash(s.g, s.root) && HdiStored(s.g, s.ubi.blk, s.root.hdi, s.hdiPage)
    modifies s, s.ubi.Repr
    ensures Ready(s) && DataKept(s) && SameMap(old(s.Pmt()), s.Pmt()) && AllOnFlash(s.g, s.root)
    ensures s.slots == old(s.slots)
    ensures HdiStored(s.g, s.ubi.blk, s.root.hdi, s.hdiPage) && BdtStored(s.g, s.ubi.blk, s.root.bdt, s.dirty)
  {
    hide Inv, SameMap, LogOk, TableAt, HdiOk, HdiStored, BdtStored;
    ghost var v, l, blk := s.Pmt(), s.Logs(), s.ubi.blk;
    StableShape(s.g, v);
    BdtCommit(s);
    HdiDepends(s.g, blk, s.ubi.blk, s.root.hdi, s.hdiPage);
    LogsAfterBdt(s.g, blk, l, s.ubi.blk, s.Logs());
    StableDepends(s.g, v, s.Pmt());
    hide Stable, LogsOk;
  }

  method CommitRoot(s: Ftl)
    requires Ready(s) && AllOnFlash(s.g, s.root)
    requires HdiStored(s.g, s.ubi.blk, s.root.hdi, s.hdiPage) && BdtStored(s.g, s.ubi.blk, s.root.bdt, s.dirty)
    modifies s, s.ubi.Repr
    ensures Ready(s) && DataKept(s) && SameMap(old(s.Pmt()), s.Pmt()) && AllOnFlash(s.g, s.root)
    ensures s.slots == old(s.slots)
    ensures HdiStored(s.g, s.ubi.blk, s.root.hdi, s.hdiPage) && BdtStored(s.g, s.ubi.blk, s.root.bdt, s.dirty)
    ensures RootStored(s.g.P, s.ubi.blk, s.root)
  {
    hide Inv, SameMap, Chunk, Loaded, LogsOk, HdiStored, BdtStored, RootStored;
    ghost var v, blk := s.Pmt(), s.ubi.blk;
    StableShape(s.g, v);
    RootCommit(s);
    StableDepends(s.g, v, s.Pmt());
    hide Stable;
    HdiDepends(s.g, blk, s.ubi.blk, s.root.hdi, s.hdiPage);
    BdtDepends(s.g, blk, s.ubi.blk, s.root.bdt, s.dirty);
  }

  // ---------------------------------------------------------------- calls that need no commit

  /** A cache slot is empty. */
  ghost predicate HasSlot(s: Ftl)
    reads s
  {
    exists i :: 0 <= i < s.g.C && i < |s.slots| && s.slots[i].cluster.None?
  }

  /** Cluster c is cached, or can be without a commit. */
  ghost predicate Roomy(s: Ftl, c: nat)
    reads s
  {
    HasSlot(s) || InCache(s, c)
  }

  ghost predicate InCache(s: Ftl, c: nat)
    reads s
  {
    c < |s.root.nodes| && s.root.nodes[c].Cached?
  }

  /** No commit: outside the data region the flash is as it was, at most cluster c is newly
      cached, none is released, and the editions have grown by the pages written. */
  twostate predicate Calm(s: Ftl, c: nat, hots: nat, colds: nat)
    reads s, s.ubi
  {
    && |s.ubi.blk| == |old(s.ubi.blk)| && (forall b :: 0 <= b < |s.ubi.blk| && b < s.g.dataLo ==> s.ubi.blk[b] == old(s.ubi.blk)[b])
    && s.listed == old(s.listed) && s.hotEdition == old(s.hotEdition) + hots && s.coldEdition == old(s.coldEdition) + colds
    && |s.root.nodes| == |old(s.root.nodes)|
    && forall k :: 0 <= k < |s.root.nodes| ==>
         && (k != c && s.root.nodes[k].Cached? ==> old(s.root.nodes)[k].Cached?)
         && (old(s.root.nodes)[k].Cached? ==> s.root.nodes[k].Cached?)
  }

  /** Every cached cluster is one of T, and the cache has a slot for each of those. */
  ghost predicate CachedIn(s: Ftl, T: set<nat>)
    reads s
  {
    |T| <= s.g.C && forall c: nat :: c < |s.root.nodes| && s.root.nodes[c].Cached? ==> c in T
  }

  /** The address belongs to one of the clusters T. */
  ghost predicate Among(g: Geometry, T: set<nat>, a: nat) {
    a < g.cap ==> ClusterIndex(g, a) in T
  }

  /** n different things need room for n. */
  lemma Crowd(n: nat, f: nat -> int, held: set<int>)
    requires forall i :: 0 <= i < n ==> f(i) in held
    requires forall i, j :: 0 <= i < n && 0 <= j < n && f(i) == f(j) ==> i == j
    ensures n <= |held|
  {
    var all: set<nat> := Range(0, n);
    ImageSize(all, f);
    RangeSize(0, n);
    SubsetSize(set i | i in all :: f(i), held);
  }

  function ClusterIn(v: View, i: nat): int {
    if i < |v.slots| && v.slots[i].cluster.Some? then v.slots[i].cluster.value else -1
  }

  lemma SlotCluster(g: Geometry, v: View, i: nat)
    requires Shape(g, v) && SlotsOk(g, v, 0) && i < g.C && v.slots[i].cluster.Some?
    ensures var d := ClusterIn(v, i); 0 <= d < g.K == |v.nodes| && v.nodes[d].Cached? && v.nodes[d].slot == i
  {
    assert SlotOk(g, v, 0, i);
  }

  /** A full cache holds C different clusters. */
  lemma FullCache(g: Geometry, v: View, T: set<nat>, c: nat)
    requires Shape(g, v) && SlotsOk(g, v, 0) && |T| <= g.C && c in T && c < g.K && v.nodes[c].OnFlash?
    requires forall d: nat :: d < g.K && v.nodes[d].Cached? ==> d in T
    ensures exists i :: 0 <= i < g.C && v.slots[i].cluster.None?
  {
    if forall i :: 0 <= i < g.C ==> v.slots[i].cluster.Some? {
      var held: set<int> := T - {c};
      forall i: nat | i < g.C
        ensures ClusterIn(v, i) in held
      {
        SlotCluster(g, v, i);
      }
      forall i: nat, j: nat | i < g.C && j < g.C && ClusterIn(v, i) == ClusterIn(v, j)
        ensures i == j
      {
        SlotCluster(g, v, i);
        SlotCluster(g, v, j);
      }
      hide ClusterIn, SlotsOk;
      Crowd(g.C, (i: nat) => ClusterIn(v, i), held);
      assert false;
    }
  }

  lemma RoomInCache(s: Ftl, T: set<nat>, c: nat)
    requires Ready(s) && CachedIn(s, T) && c in T && c < s.g.K
    ensures Roomy(s, c)
  {
    hide LogsOk, SlotsOk;
    StableShape(s.g, s.Pmt());
    StableSlots(s.g, s.Pmt());
    hide Stable;
    if s.root.nodes[c].OnFlash? {
      FullCache(s.g, s.Pmt(), T, c);
    }
  }

  // ---------------------------------------------------------------- loading, searching, updating

  /** The first empty cache slot, or C. */
  method FindEmpty(s: Ftl) returns (i: nat)
    requires Shape(s.g, s.Pmt()) && SlotsOk(s.g, s.Pmt(), 0)
    ensures i <= s.g.C && (i < s.g.C ==> s.slots[i].cluster.None?) && (HasSlot(s) ==> i < s.g.C)
  {
    i := 0;
    while i < s.g.C && s.slots[i].origin.At?
      invariant i <= s.g.C && forall k :: 0 <= k < i ==> s.slots[k].cluster.Some?
    {
      assert SlotOk(s.g, s.Pmt(), 0, i);
      i := i + 1;
    }
    if i < s.g.C {
      assert SlotOk(s.g, s.Pmt(), 0, i);
    }
  }

  lemma StableSlots(g: Geometry, v: View)
    requires Stable(g, v)
    ensures SlotsOk(g, v, 0)
  {
  }

  /** PMT_Load: cluster c gets a cache slot.  A full cache is committed and released first. */
  method PmtLoad(s: Ftl, c: nat)
    requires Ready(s) && c < s.g.K && s.root.nodes[c].OnFlash? && (s.listKept || HasSlot(s))
    modifies s, s.ubi.Repr
    ensures Ready(s) && DataKept(s) && SameMap(old(s.Pmt()), s.Pmt())
    ensures s.root.nodes[c].Cached? && (old(HasSlot(s)) ==> Calm(s, c, 0, 0))
    ensures Arrays(s) && !old(HasSlot(s)) ==> Saved(s, s.Data())
  {
    hide Inv, SameMap, LogsOk, SlotsOk, Stable, HasSlot, OnRecord, JustCommitted, Ftl.Data, MapOf;
    ghost var v := s.Pmt();
    var i := EmptySlot(s, c);
    ghost var u := s.Pmt();
    if Arrays(s) && !old(HasSlot(s)) {
      CommittedIsSaved(s);
    }
    LoadInto(s, c, i);
    SameMapTrans(v, u, s.Pmt());
  }

  /** An empty cache slot; a full cache is committed first. */
  method EmptySlot(s: Ftl, c: nat) returns (i: nat)
    requires Ready(s) && c < s.g.K && s.root.nodes[c].OnFlash? && (s.listKept || HasSlot(s))
    modifies s, s.ubi.Repr
    ensures Ready(s) && DataKept(s) && SameMap(old(s.Pmt()), s.Pmt())
    ensures c < |s.root.nodes| && s.root.nodes[c].OnFlash? && i < s.g.C && i < |s.slots| && s.slots[i].cluster.None?
    ensures if old(HasSlot(s)) then s.root == old(s.root) && Calm(s, c, 0, 0) else JustCommitted(s)
  {
    hide Inv, SameMap, LogsOk, SlotsOk, Logs.Stored, StoredMap;
    ghost var v := s.Pmt();
    StableShape(s.g, v);
    StableSlots(s.g, v);
    SameMapDepends(v, v, v, v);
    i := FindEmpty(s);
    if i == s.g.C {
      i := 0;
      DataCommit(s);
      StableShape(s.g, s.Pmt());
    }
  }

  /** The cluster's page is read into slot i, and its node points there. */
  method FillSlot(s: Ftl, c: nat, i: nat)
    requires Ready(s) && c < s.g.K && s.root.nodes[c].OnFlash? && i < s.g.C && s.slots[i].cluster.None?
    modifies s, s.ubi.Repr
    ensures Ready(s) && DataKept(s) && SameMap(old(s.Pmt()), s.Pmt())
    ensures s.root.nodes[c].Cached? && Calm(s, c, 0, 0)
    ensures s.ubi.blk == old(s.ubi.blk) && s.dirty == old(s.dirty) && s.root == old(s.root).(nodes := s.root.nodes)
  {
    hide SlotsOk, NodesOk, ListsOk, CountsOk, SlackOk, Live, SameMap, LogsOk;
    ghost var v := s.Pmt();
    assert HomeOk(s.g, v, c);
    StableHome(s.g, v, c);
    LoadKeeps(s.g, v, c, i);
    hide HomesOk, Stable;
    var l := s.root.nodes[c].loc;
    var cell := s.ubi.Read(l.block, l.page);
    s.slots := s.slots[i := Slot(cell.content.entries, At(l), Some(c))];
    s.root := s.root.(nodes := s.root.nodes[c := Cached(i, false)]);
    assert s.Pmt() == LoadSlot(v, c, i);
  }

  /** The same, seen from the data region. */
  method LoadInto(s: Ftl, c: nat, i: nat)
    requires Ready(s) && c < s.g.K && s.root.nodes[c].OnFlash? && i < s.g.C && s.slots[i].cluster.None?
    modifies s, s.ubi.Repr
    ensures Ready(s) && DataKept(s) && SameMap(old(s.Pmt()), s.Pmt())
    ensures s.root.nodes[c].Cached? && Calm(s, c, 0, 0)
    ensures s.ubi.blk == old(s.ubi.blk) && s.Data() == old(s.Data())
  {
    hide SameMap, LogsOk, Stable, MapOf, DataBlocks, DataDirty, SlotsOk;
    ghost var v := s.Pmt();
    MapShape(s);
    FillSlot(s, c, i);
    SameMapOf(s.g, v, s.Pmt());
    MapShape(s);
  }

  /** What a call that only looks leaves alone. */
  lemma MapShape(s: Ftl)
    requires Ready(s)
    ensures |s.Map()| == s.g.cap && |s.root.nodes| == s.g.K
  {
  }

  /** The address's cluster is cached. */
  method EnsureCached(s: Ftl, a: nat)
    requires Ready(s) && a < s.g.cap && (s.listKept || Roomy(s, ClusterIndex(s.g, a)))
    modifies s, s.ubi.Repr
    ensures Ready(s) && DataKept(s) && s.Map() == old(s.Map())
    ensures InCache(s, ClusterIndex(s.g, a))
    ensures old(Roomy(s, ClusterIndex(s.g, a))) ==> Calm(s, ClusterIndex(s.g, a), 0, 0)
    ensures Arrays(s) && !old(Roomy(s, ClusterIndex(s.g, a))) ==> Saved(s, s.Data())
  {
    hide Inv, SameMap, LogsOk, Stable, ClusterIndex, MapOf, Saved, Ftl.Data;
    ghost var v := s.Pmt();
    MapShape(s);
    var c := ClusterIndex(s.g, a);
    if s.root.nodes[c].OnFlash? {
      PmtLoad(s, c);
      SameMapOf(s.g, v, s.Pmt());
      MapShape(s);
    }
  }

  /** PMT_Search. */
  method PmtSearch(s: Ftl, a: nat) returns (e: Entry)
    requires Ready(s) && a < s.g.cap && (s.listKept || Roomy(s, ClusterIndex(s.g, a)))
    modifies s, s.ubi.Repr
    ensures Ready(s) && DataKept(s) && s.Map() == old(s.Map())
    ensures |s.Map()| == s.g.cap && e == s.Map()[a]
    ensures old(Roomy(s, ClusterIndex(s.g, a))) ==> Calm(s, ClusterIndex(s.g, a), 0, 0)
    ensures Arrays(s) && !old(Roomy(s, ClusterIndex(s.g, a))) ==> Saved(s, s.Data())
    ensures InCache(s, ClusterIndex(s.g, a))
  {
    hide Inv, SameMap, LogsOk, Stable, MapOf, DataKept, Saved, Ftl.Data, ClusterIndex;
    EnsureCached(s, a);
    MapShape(s);
    e := CachedEntry(s, a);
  }

  /** The entry of an address whose cluster is cached. */
  method CachedEntry(s: Ftl, a: nat) returns (e: Entry)
    requires Ready(s) && a < s.g.cap && s.root.nodes[ClusterIndex(s.g, a)].Cached?
    ensures |s.Map()| == s.g.cap && e == s.Map()[a]
    ensures s.root.nodes[ClusterIndex(s.g, a)].slot < |s.slots|
    ensures PageInCluster(s.g, a) < |s.slots[s.root.nodes[ClusterIndex(s.g, a)].slot].entries|
  {
    hide HomesOk, SlotsOk, ListsOk, CountsOk, SlackOk, LogsOk, ClusterIndex, PageInCluster;
    var c := ClusterIndex(s.g, a);
    ClusterSize(s.g, s.Pmt(), c);
    hide Stable;
    assert s.root.nodes[c].slot < |s.slots|;
    e := s.slots[s.root.nodes[c].slot].entries[PageInCluster(s.g, a)];
  }

  /** PMT_Update: the address is remapped and the page it leaves becomes dirty. */
  method PmtUpdate(s: Ftl, a: nat, e: Entry)
    requires Ready(s) && a < s.g.cap && |s.Map()| == s.g.cap && (s.listKept || Roomy(s, ClusterIndex(s.g, a)))
    requires s.Map()[a].At? ==> InData(s.g, s.Map()[a].loc.block) && DataDirty(s.g, s.dirty)[s.Map()[a].loc.block] < s.g.M
    modifies s, s.ubi.Repr
    ensures Ready(s) && s.Map() == old(s.Map())[a := e]
    ensures s.Journals() == old(s.Journals())
    ensures DataBlocks(s.g, s.ubi.blk) == old(DataBlocks(s.g, s.ubi.blk))
    ensures DataDirty(s.g, s.dirty) == DataSpec.Bump(old(DataDirty(s.g, s.dirty)), old(s.Map())[a])
    ensures old(Roomy(s, ClusterIndex(s.g, a))) ==> Calm(s, ClusterIndex(s.g, a), 0, 0)
    ensures InCache(s, ClusterIndex(s.g, a))
    ensures Arrays(s) && !old(Roomy(s, ClusterIndex(s.g, a))) ==> Saved(s, old(s.Data()))
  {
    hide Inv, Stable, LogsOk, ClusterIndex, PageInCluster, MapOf, Shape, DataKept, Roomy, DataDirty, DataBlocks, DataSpec.Bump, OnRecord, Ftl.Data, Ftl.Map;
    LoadFor(s, a);
    RemapCached(s, a, e);
  }

  /** The address's cluster is cached, seen from the data region. */
  method LoadFor(s: Ftl, a: nat)
    requires Ready(s) && a < s.g.cap && (s.listKept || Roomy(s, ClusterIndex(s.g, a)))
    modifies s, s.ubi.Repr
    ensures Ready(s) && s.Map() == old(s.Map()) && s.root.nodes[ClusterIndex(s.g, a)].Cached? && s.Journals() == old(s.Journals())
    ensures DataBlocks(s.g, s.ubi.blk) == old(DataBlocks(s.g, s.ubi.blk)) && DataDirty(s.g, s.dirty) == old(DataDirty(s.g, s.dirty))
    ensures old(Roomy(s, ClusterIndex(s.g, a))) ==> Calm(s, ClusterIndex(s.g, a), 0, 0)
    ensures s.Data() == old(s.Data()) && (Arrays(s) && !old(Roomy(s, ClusterIndex(s.g, a))) ==> Saved(s, old(s.Data())))
  {
    hide Inv, Stable, LogsOk, ClusterIndex, PageInCluster, MapOf, Shape, DataKept, Roomy, DataDirty, DataBlocks, Calm, Saved;
    EnsureCached(s, a);
    DataKeptMasks(s);
  }

  twostate lemma DataKeptMasks(s: Ftl)
    requires DataKept(s) && |s.ubi.blk| == s.g.U && |s.dirty| >= s.g.U
    ensures DataBlocks(s.g, s.ubi.blk) == old(DataBlocks(s.g, s.ubi.blk))
    ensures DataDirty(s.g, s.dirty) == old(DataDirty(s.g, s.dirty))
    ensures s.Journals() == old(s.Journals())
  {
  }

  /** PMT_Update once the cluster is cached. */
  method RemapCached(s: Ftl, a: nat, e: Entry)
    requires Ready(s) && a < s.g.cap && |s.Map()| == s.g.cap && s.root.nodes[ClusterIndex(s.g, a)].Cached?
    requires s.Map()[a].At? ==> InData(s.g, s.Map()[a].loc.block) && DataDirty(s.g, s.dirty)[s.Map()[a].loc.block] < s.g.M
    modifies s`dirty, s`slots, s`root
    ensures Ready(s) && s.Map() == old(s.Map())[a := e] && Calm(s, ClusterIndex(s.g, a), 0, 0)
    ensures s.Journals() == old(s.Journals()) && InCache(s, ClusterIndex(s.g, a))
    ensures DataDirty(s.g, s.dirty) == DataSpec.Bump(old(DataDirty(s.g, s.dirty)), old(s.Map())[a])
  {
    hide Ready, Ftl.Map, ClusterIndex, PageInCluster, DataDirty, DataSpec.Bump;
    var was := CachedEntry(s, a);
    Bumped(s.g, DataDirty(s.g, s.dirty), was);
    if was.At? {
      BumpDirty(s, was.loc.block);
    }
    SetCached(s, a, e);
  }

  lemma Bumped(g: Geometry, dirty: seq<nat>, e: Entry)
    requires e.At? ==> e.loc.block < |dirty|
    ensures DataSpec.Bump(dirty, e) == if e.At? then dirty[e.loc.block := dirty[e.loc.block] + 1] else dirty
  {
  }

  lemma BumpMask(g: Geometry, dirty: seq<nat>, b: nat)
    requires |dirty| >= g.U && InData(g, b)
    ensures DataDirty(g, dirty[b := dirty[b] + 1]) == DataDirty(g, dirty)[b := DataDirty(g, dirty)[b] + 1]
  {
  }

  method BumpDirty(s: Ftl, b: nat)
    requires Ready(s) && InData(s.g, b) && |s.Map()| == s.g.cap
    modifies s`dirty
    ensures Ready(s) && s.Map() == old(s.Map())
    ensures DataDirty(s.g, s.dirty) == old(DataDirty(s.g, s.dirty))[b := old(DataDirty(s.g, s.dirty))[b] + 1]
  {
    hide Stable, LogsOk, MapOf, DataDirty, Shape;
    ghost var v := s.Pmt();
    DirtySize(s);
    BumpMask(s.g, s.dirty, b);
    ghost var w := v.(dirty := s.dirty[b := s.dirty[b] + 1]);
    BumpKeeps(s.g, v, b, w);
    s.dirty := s.dirty[b := s.dirty[b] + 1];
    assert s.Pmt() == w;
  }

  lemma DirtySize(s: Ftl)
    requires Ready(s)
    ensures |s.dirty| >= s.g.U
  {
  }

  lemma BumpKeeps(g: Geometry, v: View, b: nat, w: View)
    requires Stable(g, v) && InData(g, b) && b < |v.dirty| && w == v.(dirty := v.dirty[b := v.dirty[b] + 1])
    ensures Stable(g, w) && |w.nodes| == g.K && MapOf(g, w) == MapOf(g, v)
  {
    hide Inv, SameMap, MapOf;
    StableShape(g, v);
    StableDepends(g, v, w);
    hide Stable, Shape;
    SameMapOf(g, v, w);
  }

  method SetCached(s: Ftl, a: nat, e: Entry)
    requires Ready(s) && a < s.g.cap && |s.Map()| == s.g.cap && s.root.nodes[ClusterIndex(s.g, a)].Cached?
    requires s.root.nodes[ClusterIndex(s.g, a)].slot < |s.slots|
    requires PageInCluster(s.g, a) < |s.slots[s.root.nodes[ClusterIndex(s.g, a)].slot].entries|
    modifies s`slots, s`root
    ensures Ready(s) && s.Map() == old(s.Map())[a := e] && Calm(s, ClusterIndex(s.g, a), 0, 0)
    ensures s.Journals() == old(s.Journals()) && InCache(s, ClusterIndex(s.g, a))
  {
    hide Inv, LogsOk, MapOf, ClusterIndex, PageInCluster, ClusterOf;
    ghost var v := s.Pmt();
    StableShape(s.g, v);
    var c, k := ClusterIndex(s.g, a), PageInCluster(s.g, a);
    var i := s.root.nodes[c].slot;
    SetKeeps(s.g, v, c, k, e);
    ClusterSize(s.g, v, c);
    hide Stable;
    s.slots := s.slots[i := s.slots[i].(entries := s.slots[i].entries[k := e])];
    s.root := s.root.(nodes := s.root.nodes[c := Cached(i, true)]);
    assert s.Pmt() == SetEntry(v, c, k, e);
    SetMapOf(s.g, v, s.Pmt(), a, e);
  }
}