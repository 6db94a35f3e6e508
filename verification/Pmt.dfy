/** ftl_pmt.c: the two-level page map with its write-back cache. */
module Pmt {
  import opened Geometry
  import opened Flash
  import opened PmtSpec
  import opened FtlState
  import U = Ubi

  /** Blocks outside the page-map region keep their pages and their dirty counts. */
  ghost predicate Outside(g: Geometry, v: View, w: View) {
    && |v.blk| == |w.blk| && |v.dirty| == |w.dirty|
    && (forall b :: 0 <= b < |v.blk| && !InPmt(g, b) ==> w.blk[b] == v.blk[b])
    && (forall b :: 0 <= b < |v.dirty| && !InPmt(g, b) ==> w.dirty[b] == v.dirty[b])
  }

  /** What every step of the page map leaves alone: the address map, the other regions, the
      data journals and the logs. */
  twostate predicate PmtStep(s: Ftl)
    reads s, s.ubi, s.ubi.Repr
  {
    && s.Sound() && s.Journals() == old(s.Journals()) && s.Logs() == old(s.Logs()) && s.root.hdi == old(s.root.hdi)
    && s.hotEdition == old(s.hotEdition) && s.coldEdition == old(s.coldEdition)
    && Outside(s.g, old(s.Pmt()), s.Pmt()) && SameMap(old(s.Pmt()), s.Pmt())
  }

  /** Slot i of the cache is written to the open page. */
  method FlushOne(s: Ftl, i: nat)
    requires s.Sound() && Inv(s.g, s.Pmt(), i) && i < s.g.C && s.slots[i].cluster.Some?
    requires Holds(s.g, s.Pmt(), i) && s.root.nodes[s.slots[i].cluster.value].dirty
    requires s.root.pmtCurrent.page < s.g.M && Filled(s.ubi.blk[s.root.pmtCurrent.block], s.root.pmtCurrent.page)
    modifies s, s.ubi.Repr
    ensures PmtStep(s) && Inv(s.g, s.Pmt(), i + 1) && s.Pmt() == FlushSlot(s.g, old(s.Pmt()), i)
    ensures s.root.pmtCurrent == Loc(old(s.root.pmtCurrent.block), old(s.root.pmtCurrent.page) + 1)
    ensures Filled(s.ubi.blk[s.root.pmtCurrent.block], s.root.pmtCurrent.page)
  {
    hide HomesOk, SlotsOk, NodesOk, ListsOk, CountsOk, SlackOk, Live, SameMap;
    ghost var v := s.Pmt();
    FlushKeeps(s.g, v, i);
    FlushOutside(s.g, v, i);
    hide Inv, Outside, FlushSlot;
    PutSlot(s, i);
  }

  lemma FlushOutside(g: Geometry, v: View, i: nat)
    requires Holds(g, v, i) && v.open.page < g.M && Filled(v.blk[v.open.block], v.open.page)
    ensures var w := FlushSlot(g, v, i);
            && Outside(g, v, w) && w.open == Loc(v.open.block, v.open.page + 1)
            && v.open.block < |w.blk| && Filled(w.blk[v.open.block], v.open.page + 1)
  {
  }

  /** The page, the node, the list entry and the dirty count of a slot that is written. */
  method PutSlot(s: Ftl, i: nat)
    requires s.Sound() && Holds(s.g, s.Pmt(), i)
    requires s.root.pmtCurrent.page < s.g.M && Filled(s.ubi.blk[s.root.pmtCurrent.block], s.root.pmtCurrent.page)
    modifies s, s.ubi.Repr
    ensures s.Sound() && s.Journals() == old(s.Journals()) && s.Logs() == old(s.Logs()) && s.root.hdi == old(s.root.hdi)
    ensures s.hotEdition == old(s.hotEdition) && s.coldEdition == old(s.coldEdition)
    ensures s.Pmt() == FlushSlot(s.g, old(s.Pmt()), i)
  {
    ghost var v := s.Pmt();
    var c := s.slots[i].cluster.value;
    var l := s.root.pmtCurrent;
    s.ubi.Write(l.block, l.page, Cluster(s.slots[i].entries), Words(c, 0));
    NoteSlot(s, c, l, s.slots[i].origin.loc.block);
    assert s.Pmt() == FlushSlot(s.g, v, i);
  }

  method NoteSlot(s: Ftl, c: nat, l: Loc, was: nat)
    requires s.Sound() && l.page < |s.listed| && c < |s.root.nodes| && was < |s.dirty|
    modifies s`pmtMeta, s`listed, s`root, s`dirty
    ensures s.Sound() && s.listed == old(s.listed)[l.page := c] && s.dirty == old(s.dirty)[was := old(s.dirty)[was] + 1]
    ensures s.root == old(s.root).(nodes := old(s.root).nodes[c := OnFlash(l)], pmtCurrent := Loc(l.block, l.page + 1))
  {
    s.pmtMeta, s.listed := s.pmtMeta[l.page := c], s.listed[l.page := c];
    s.root := s.root.(nodes := s.root.nodes[c := OnFlash(l)], pmtCurrent := Loc(l.block, l.page + 1));
    s.dirty := s.dirty[was := s.dirty[was] + 1];
  }

  /** The first of the dirtiest blocks of the page-map region.  All dice are idle. */
  method FindVictim(s: Ftl) returns (i: nat)
    requires s.Sound() && s.ubi.polls == 0 && |s.dirty| >= s.g.U
    requires forall b :: InPmt(s.g, b) ==> s.dirty[b] <= s.g.M
    modifies s.ubi.Repr
    ensures s.Sound() && s.ubi.blk == old(s.ubi.blk)
    ensures InPmt(s.g, i) && i == Dirtiest(s.dirty, PMT_START_BLOCK, s.g.dataLo)
    ensures forall b :: InPmt(s.g, b) ==> s.dirty[b] <= s.dirty[i]
  {
    var found, next, target := false, 0, s.g.M;
    i := PMT_START_BLOCK;
    while !found
      invariant s.Sound() && s.ubi.polls == 0 && s.ubi.blk == old(s.ubi.blk)
      invariant found ==> InPmt(s.g, i) && forall b :: InPmt(s.g, b) ==> s.dirty[b] <= s.dirty[i] && (b < i ==> s.dirty[b] < s.dirty[i])
      invariant !found ==> forall b :: InPmt(s.g, b) ==> s.dirty[b] <= target
      invariant !found ==> (next == 0 && target == s.g.M) || (next == target && exists b :: InPmt(s.g, b) && s.dirty[b] == target)
      decreases if found then 0 else 1 + target
    {
      ghost var first := next;
      i := PMT_START_BLOCK;
      while i < s.g.dataLo
        invariant PMT_START_BLOCK <= i <= s.g.dataLo
        invariant s.Sound() && s.ubi.polls == 0 && s.ubi.blk == old(s.ubi.blk)
        invariant !found && forall b :: PMT_START_BLOCK <= b < i ==> s.dirty[b] != target && (s.dirty[b] <= next)
        invariant next == first || (next < target && exists b :: PMT_START_BLOCK <= b < i && s.dirty[b] == next)
      {
        if s.dirty[i] == target {
          var idle := s.ubi.ReadStatus(i);
          if idle {
            found := true;
            break;
          }
        } else if s.dirty[i] < target && s.dirty[i] > next {
          next := s.dirty[i];
        }
        i := i + 1;
      }
      assert !found && next == 0 ==> s.dirty[PMT_START_BLOCK] == 0;
      target := next;
    }
    IsDirtiest(s.dirty, PMT_START_BLOCK, s.g.dataLo, i);
  }

  /** The slot that caches cluster c. */
  method FindSlot(s: Ftl, ghost v: View, from: nat, c: nat) returns (i: nat)
    requires v.nodes == s.root.nodes && v.slots == s.slots
    requires Shape(s.g, v) && NodesOk(s.g, v, from) && SlotsOk(s.g, v, from)
    requires c < s.g.K && s.root.nodes[c].Cached?
    ensures i == s.root.nodes[c].slot < s.g.C
  {
    i := 0;
    while s.slots[i].cluster != Some(c)
      invariant i <= s.root.nodes[c].slot < s.g.C
      decreases s.g.C - i
    {
      i := i + 1;
    }
    assert SlotOk(s.g, v, from, i);
  }

  /** The page map while pmt_reclaim_blocks fills the reclaim block, rp pages so far. */
  ghost function MoveView(s: Ftl, rp: nat): View
    reads s, s.ubi
  {
    s.Pmt().(open := Loc(s.root.pmtReclaim.block, rp), blank := -1)
  }

  /** What one page of the copy loop leaves alone. */
  twostate predicate MoveStep(s: Ftl)
    reads s, s.ubi, s.ubi.Repr
  {
    && s.Sound() && s.Journals() == old(s.Journals()) && s.Logs() == old(s.Logs()) && s.root.hdi == old(s.root.hdi)
    && s.hotEdition == old(s.hotEdition) && s.coldEdition == old(s.coldEdition)
    && s.root.pmtCurrent == old(s.root.pmtCurrent) && s.root.pmtReclaim == old(s.root.pmtReclaim)
    && s.dirty == old(s.dirty)
    && Outside(s.g, old(s.Pmt()), s.Pmt()) && SameMap(old(s.Pmt()), s.Pmt())
  }

  /** Reading a page's list entry: where the cluster's valid page is, unless a newer copy is
      still to be written; and the cache slot to clear if the page is copied. */
  method Locate(s: Ftl, ghost v: View, from: nat, c: nat) returns (e: Entry, cleared: Option<nat>)
    requires v.nodes == s.root.nodes && v.slots == s.slots
    requires Shape(s.g, v) && NodesOk(s.g, v, from) && SlotsOk(s.g, v, from)
    requires c < s.g.K
    ensures e.At? <==> !Stale(v, c)
    ensures e.At? ==> e.loc == HomeOf(s.root.nodes, s.slots, c)
    ensures cleared == if e.At? && s.root.nodes[c].Cached? then Some(s.root.nodes[c].slot) else None
  {
    match s.root.nodes[c]
    case OnFlash(l) =>
      e, cleared := At(l), None;
    case Cached(slot, d) =>
      if d {
        e, cleared := Nowhere, None;
      } else {
        var i := FindSlot(s, v, from, c);
        assert SlotOk(s.g, v, from, i);
        e, cleared := s.slots[i].origin, Some(i);
      }
  }

  /** A valid page is copied to the reclaim block, and a clean cached copy is dropped. */
  method CopyOne(s: Ftl, from: nat, victim: nat, page: nat, rp: nat, c: nat, cleared: Option<nat>)
    requires s.Sound() && MoveReady(s.g, MoveView(s, rp), from, victim, page, c)
    requires cleared == if s.root.nodes[c].Cached? then Some(s.root.nodes[c].slot) else None
    modifies s, s.ubi.Repr
    ensures s.Sound() && s.Journals() == old(s.Journals()) && s.Logs() == old(s.Logs()) && s.root.hdi == old(s.root.hdi)
    ensures s.hotEdition == old(s.hotEdition) && s.coldEdition == old(s.coldEdition)
    ensures s.root.pmtCurrent == old(s.root.pmtCurrent) && s.root.pmtReclaim == old(s.root.pmtReclaim)
    ensures MoveView(s, rp + 1) == MovePage(old(MoveView(s, rp)), c, Loc(victim, page))
  {
    CopyCell(s, from, victim, page, rp, c);
    Rehome(s, c, rp, cleared);
  }

  /** The cluster's node, the list entry and the cache slot of a page just copied. */
  method Rehome(s: Ftl, c: nat, rp: nat, cleared: Option<nat>)
    requires s.Sound() && c < |s.root.nodes| && rp < |s.listed| && (cleared.Some? ==> cleared.value < |s.slots|)
    modifies s`root, s`pmtMeta, s`listed, s`slots
    ensures s.Sound() && s.root == old(s.root).(nodes := old(s.root.nodes)[c := OnFlash(Loc(s.root.pmtReclaim.block, rp))])
    ensures s.listed == old(s.listed)[rp := c]
    ensures s.slots == if cleared.Some? then old(s.slots)[cleared.value := EMPTY_SLOT] else old(s.slots)
  {
    s.root := s.root.(nodes := s.root.nodes[c := OnFlash(Loc(s.root.pmtReclaim.block, rp))]);
    s.pmtMeta, s.listed := s.pmtMeta[rp := c], s.listed[rp := c];
    if cleared.Some? {
      s.slots := s.slots[cleared.value := EMPTY_SLOT];
    }
  }

  /** The page itself. */
  method CopyCell(s: Ftl, ghost from: nat, victim: nat, page: nat, rp: nat, ghost c: nat)
    requires s.Sound() && MoveReady(s.g, MoveView(s, rp), from, victim, page, c)
    modifies s.ubi.Repr
    ensures s.Sound() && s.root.pmtReclaim.block < |s.ubi.blk| && rp < |s.listed|
    ensures var cell := old(s.ubi.blk[victim][page]);
            cell.Programmed? && s.ubi.blk == Program(old(s.ubi.blk), s.root.pmtReclaim.block, rp, Programmed(cell.content, AllOnes))
  {
    hide NodesOk, HomeOf;
    var cell := s.ubi.Read(victim, page);
    s.ubi.Write(s.root.pmtReclaim.block, rp, cell.content, AllOnes);
  }

  /** One page of the copy loop. */
  method MoveOne(s: Ftl, from: nat, victim: nat, page: nat, rp: nat, c: nat) returns (next: nat)
    requires s.Sound() && Moving(s.g, MoveView(s, rp), from, victim, page) && page < s.g.M
    requires HasList(s.g, s.ubi.blk, victim) && s.ubi.blk[victim][s.g.M].content.clusters[page] == c
    modifies s, s.ubi.Repr
    ensures MoveStep(s) && Moving(s.g, MoveView(s, next), from, victim, page + 1)
    ensures MoveView(s, next) == SweepPage(s.g, old(MoveView(s, rp)), victim, page, c)
    ensures s.ubi.blk[victim] == old(s.ubi.blk[victim])
  {
    hide HomesOk, ListsOk, MovingCounts, Swept, Live, SameMap;
    ghost var v := MoveView(s, rp);
    var e, cleared := Locate(s, v, from, c);
    if e == At(Loc(victim, page)) {
      MoveKeeps(s.g, v, from, victim, page, c);
      hide NodesOk, SlotsOk;
      CopyOne(s, from, victim, page, rp, c, cleared);
      next := rp + 1;
    } else {
      PassKeeps(s.g, v, from, victim, page, c);
      next := rp;
    }
    SameMapDepends(v, MoveView(s, next), old(s.Pmt()), s.Pmt());
  }

  /** The copy loop of pmt_reclaim_blocks. */
  method MoveLoop(s: Ftl, from: nat, victim: nat, clusters: seq<nat>) returns (rp: nat)
    requires s.Sound() && Moving(s.g, MoveView(s, 0), from, victim, 0)
    requires HasList(s.g, s.ubi.blk, victim) && s.ubi.blk[victim][s.g.M].content.clusters == clusters
    modifies s, s.ubi.Repr
    ensures MoveStep(s) && Moving(s.g, MoveView(s, rp), from, victim, s.g.M)
    ensures s.g.M <= |clusters| && MoveView(s, rp) == Sweep(s.g, old(MoveView(s, 0)), victim, clusters, s.g.M)
  {
    hide HomesOk, SlotsOk, NodesOk, ListsOk, MovingCounts, Swept, Live, SameMap;
    rp := 0;
    var page := 0;
    SameMapDepends(s.Pmt(), s.Pmt(), s.Pmt(), s.Pmt());
    while page < s.g.M
      invariant page <= s.g.M && Moving(s.g, MoveView(s, rp), from, victim, page)
      invariant MoveStep(s) && s.ubi.blk[victim] == old(s.ubi.blk[victim])
      invariant MoveView(s, rp) == Sweep(s.g, old(MoveView(s, 0)), victim, clusters, page)
    {
      ghost var u := s.Pmt();
      rp := MoveOne(s, from, victim, page, rp, clusters[page]);
      page := page + 1;
      SameMapTrans(old(s.Pmt()), u, s.Pmt());
    }
  }

  /** pmt_reclaim_blocks: the dirtiest block is freed, its live pages moved to the reclaim
      block, and the page map gets a block with room for every slot still to be written. */
  method ReclaimBlocks(s: Ftl, from: nat)
    requires s.Sound() && s.ubi.polls == 0 && Full(s.g, s.Pmt(), from)
    modifies s, s.ubi.Repr
    ensures PmtStep(s) && Inv(s.g, s.Pmt(), from) && s.Pmt() == Reclaimed(s.g, old(s.Pmt()))
    ensures s.root.pmtCurrent.page + (s.g.C - from) < s.g.M
    ensures Filled(s.ubi.blk[s.root.pmtCurrent.block], s.root.pmtCurrent.page)
  {
    hide HomesOk, SlotsOk, NodesOk, ListsOk, SlackOk, Live, SameMap;
    ghost var v := s.Pmt();
    var victim := ChooseVictim(s, from);
    hide CountsOk;
    if s.dirty[victim] == s.g.M {
      RecycleKeeps(s.g, v, from, victim);
      s.ubi.Erase(victim, victim);
      s.root := s.root.(pmtCurrent := Loc(victim, 0));
      s.dirty := s.dirty[victim := 0];
      assert s.Pmt() == Recycle(s.g, v, victim);
    } else {
      MoveAll(s, from, victim);
    }
  }

  /** The block pmt_reclaim_blocks takes is not the reclaim block and is three quarters dirty. */
  method ChooseVictim(s: Ftl, from: nat) returns (victim: nat)
    requires s.Sound() && s.ubi.polls == 0 && Full(s.g, s.Pmt(), from)
    modifies s.ubi.Repr
    ensures s.Sound() && s.ubi.blk == old(s.ubi.blk)
    ensures InPmt(s.g, victim) && victim != s.root.pmtReclaim.block
    ensures victim == Dirtiest(s.dirty, PMT_START_BLOCK, s.g.dataLo) && s.dirty[victim] >= s.g.M - s.g.M / 4
    ensures forall b :: InPmt(s.g, b) ==> s.dirty[b] <= s.dirty[victim] <= s.g.M
  {
    hide HomesOk, SlotsOk, NodesOk, ListsOk, SlackOk, Live;
    ghost var v := s.Pmt();
    VictimExists(s.g, v, from);
    victim := FindVictim(s);
  }

  method MoveAll(s: Ftl, from: nat, victim: nat)
    requires s.Sound() && Full(s.g, s.Pmt(), from)
    requires InPmt(s.g, victim) && victim != s.root.pmtReclaim.block
    requires s.g.M - s.g.M / 4 <= s.dirty[victim] < s.g.M
    modifies s, s.ubi.Repr
    ensures PmtStep(s) && Inv(s.g, s.Pmt(), from) && s.Pmt() == Moved(s.g, old(s.Pmt()), victim) && s.root.pmtReclaim == Loc(victim, 0)
    ensures s.root.pmtCurrent.page + (s.g.C - from) < s.g.M
    ensures Filled(s.ubi.blk[s.root.pmtCurrent.block], s.root.pmtCurrent.page)
  {
    hide HomesOk, SlotsOk, NodesOk, ListsOk, CountsOk, MovingCounts, Swept, SlackOk, Live, SameMap;
    ghost var v := s.Pmt();
    BeginKeeps(s.g, v, from, victim);
    VictimListed(s.g, v, from, victim);
    var cell := s.ubi.Read(victim, s.g.M);
    var rp := MoveLoop(s, from, victim, cell.content.clusters);
    ghost var u := s.Pmt();
    MovingShape(s.g, MoveView(s, rp), from, victim);
    hide Moving, Full;
    EndMoving(s, from, victim, rp);
    SameMapTrans(v, u, s.Pmt());
  }

  /** The victim is erased, and the journals of the page map are updated. */
  method EndMoving(s: Ftl, from: nat, victim: nat, rp: nat)
    requires s.Sound() && Moving(s.g, MoveView(s, rp), from, victim, s.g.M)
    requires s.dirty[victim] >= s.g.M - s.g.M / 4
    modifies s, s.ubi.Repr
    ensures PmtStep(s) && Inv(s.g, s.Pmt(), from) && s.Pmt() == EndMove(s.g, old(MoveView(s, rp)), victim) && s.root.pmtReclaim == Loc(victim, 0)
    ensures s.root.pmtCurrent.page + (s.g.C - from) < s.g.M
    ensures Filled(s.ubi.blk[s.root.pmtCurrent.block], s.root.pmtCurrent.page)
  {
    hide HomesOk, SlotsOk, NodesOk, ListsOk, CountsOk, MovingCounts, Swept, SlackOk, Live, SameMap;
    ghost var u := MoveView(s, rp);
    EndKeeps(s.g, u, from, victim);
    s.ubi.Erase(victim, victim);
    s.dirty := s.dirty[s.root.pmtReclaim.block := 0][victim := 0];
    s.root := s.root.(pmtCurrent := Loc(s.root.pmtReclaim.block, rp), pmtReclaim := Loc(victim, 0));
    assert s.Pmt() == EndMove(s.g, u, victim);
    SameMapDepends(u, s.Pmt(), old(s.Pmt()), s.Pmt());
  }

  lemma MovingShape(g: Geometry, v: View, from: nat, victim: nat)
    requires Moving(g, v, from, victim, g.M)
    ensures Shape(g, v)
  {
  }

  /** PMT_Commit, one slot of the cache.  `reclaims` counts the calls of pmt_reclaim_blocks: there
      is one only if the open block had one page left, and then the slots still to be visited
      cannot fill the next. */
  method CommitSlot(s: Ftl, i: nat) returns (ghost reclaims: nat)
    requires s.Sound() && s.listKept && Inv(s.g, s.Pmt(), i) && i < s.g.C
    requires s.root.pmtCurrent.page < s.g.M && Filled(s.ubi.blk[s.root.pmtCurrent.block], s.root.pmtCurrent.page)
    modifies s, s.ubi.Repr
    ensures PmtStep(s) && Inv(s.g, s.Pmt(), i + 1)
    ensures s.root.pmtCurrent.page < s.g.M && Filled(s.ubi.blk[s.root.pmtCurrent.block], s.root.pmtCurrent.page)
    ensures s.Pmt() == SlotCommitted(s.g, old(s.Pmt()), i)
    ensures if reclaims == 0 then s.root.pmtCurrent.page <= old(s.root.pmtCurrent.page) + 1
            else reclaims == 1 && old(s.root.pmtCurrent.page) + 1 == s.g.M && s.root.pmtCurrent.page + (s.g.C - (i + 1)) < s.g.M
  {
    hide HomesOk, SlotsOk, NodesOk, ListsOk, CountsOk, SlackOk, Live, SameMap;
    reclaims := 0;
    ghost var v := s.Pmt();
    if s.slots[i].cluster.None? {
      SkipKeeps(s.g, v, i);
      SameMapDepends(v, v, v, v);
    } else {
      SlotHolds(s.g, v, i, i);
      var c := s.slots[i].cluster.value;
      if !s.root.nodes[c].dirty {
        DropKeeps(s.g, v, i);
        s.root := s.root.(nodes := s.root.nodes[c := OnFlash(s.slots[i].origin.loc)]);
        assert s.Pmt() == DropSlot(v, i);
      } else {
        reclaims := CommitDirty(s, i);
      }
    }
  }

  /** A slot that is written back. */
  method CommitDirty(s: Ftl, i: nat) returns (ghost reclaims: nat)
    requires s.Sound() && s.listKept && Inv(s.g, s.Pmt(), i) && i < s.g.C && s.slots[i].cluster.Some?
    requires Holds(s.g, s.Pmt(), i) && s.root.nodes[s.slots[i].cluster.value].dirty
    requires s.root.pmtCurrent.page < s.g.M && Filled(s.ubi.blk[s.root.pmtCurrent.block], s.root.pmtCurrent.page)
    modifies s, s.ubi.Repr
    ensures PmtStep(s) && Inv(s.g, s.Pmt(), i + 1)
    ensures s.root.pmtCurrent.page < s.g.M && Filled(s.ubi.blk[s.root.pmtCurrent.block], s.root.pmtCurrent.page)
    ensures s.Pmt() == SlotCommitted(s.g, old(s.Pmt()), i)
    ensures if reclaims == 0 then s.root.pmtCurrent.page <= old(s.root.pmtCurrent.page) + 1
            else reclaims == 1 && old(s.root.pmtCurrent.page) + 1 == s.g.M && s.root.pmtCurrent.page + (s.g.C - (i + 1)) < s.g.M
  {
    hide HomesOk, SlotsOk, NodesOk, ListsOk, CountsOk, SlackOk, Live, SameMap, Shape, Reclaimed, Listing, Outside, Inv, Holds, FlushSlot, U.Ubi.Valid;
    reclaims := 0;
    ghost var v := s.Pmt();
    FlushOne(s, i);
    ghost var u := s.Pmt();
    if s.root.pmtCurrent.page == s.g.M {
      CloseAndReclaim(s, i + 1);
      reclaims := 1;
      StepTrans(s.g, v, u, s.Pmt());
    }
  }

  lemma SameStep(g: Geometry, v: View)
    ensures SameMap(v, v) && Outside(g, v, v)
  {
  }

  lemma SlotsOutside(g: Geometry, v: View, slots: seq<Slot>)
    ensures Outside(g, v, v.(slots := slots))
  {
  }

  lemma StepTrans(g: Geometry, u: View, v: View, w: View)
    requires SameMap(u, v) && SameMap(v, w) && Outside(g, u, v) && Outside(g, v, w)
    ensures SameMap(u, w) && Outside(g, u, w)
  {
  }

  /** The open block is full: its list is written, all dice are flushed, and a block is freed. */
  method CloseAndReclaim(s: Ftl, from: nat)
    requires s.Sound() && s.listKept && Inv(s.g, s.Pmt(), from) && s.root.pmtCurrent.page == s.g.M
    requires Filled(s.ubi.blk[s.root.pmtCurrent.block], s.g.M)
    modifies s, s.ubi.Repr
    ensures PmtStep(s) && Inv(s.g, s.Pmt(), from) && s.Pmt() == Reclaimed(s.g, Listing(s.g, old(s.Pmt())))
    ensures s.root.pmtCurrent.page + (s.g.C - from) < s.g.M && Filled(s.ubi.blk[s.root.pmtCurrent.block], s.root.pmtCurrent.page)
  {
    hide HomesOk, SlotsOk, NodesOk, ListsOk, CountsOk, SlackOk, Live, SameMap;
    ghost var v := s.Pmt();
    CloseKeeps(s.g, v, from);
    s.ubi.Write(s.root.pmtCurrent.block, s.g.M, ClusterList(s.pmtMeta), AllOnes);
    s.ubi.Flush();
    ghost var u := s.Pmt();
    ReclaimBlocks(s, from);
    SameMapTrans(v, u, s.Pmt());
  }

  /** PMT_Commit: every dirty cluster is written back and the cache is emptied.  The address
      map is unchanged and no node is a RAM pointer any more.  A block is reclaimed at most once. */
  method PmtCommit(s: Ftl) returns (ghost reclaims: nat)
    requires s.Sound() && s.listKept && Stable(s.g, s.Pmt())
    modifies s, s.ubi.Repr
    ensures PmtStep(s) && Stable(s.g, s.Pmt()) && s.Pmt() == Committed(s.g, old(s.Pmt()))
    ensures forall c :: 0 <= c < s.g.K ==> s.root.nodes[c].OnFlash?
    ensures forall i :: 0 <= i < s.g.C ==> s.slots[i] == EMPTY_SLOT
    ensures reclaims <= 1
  {
    hide HomesOk, SlotsOk, NodesOk, ListsOk, CountsOk, SlackOk, Live, SameMap, SlotCommitted, Outside, U.Ubi.Valid;
    ghost var v := s.Pmt();
    SameStep(s.g, v);
    reclaims := 0;
    var i := 0;
    while i < s.g.C
      invariant i <= s.g.C && PmtStep(s) && Inv(s.g, s.Pmt(), i) && s.Pmt() == SlotsCommitted(s.g, v, i)
      invariant s.root.pmtCurrent.page < s.g.M && Filled(s.ubi.blk[s.root.pmtCurrent.block], s.root.pmtCurrent.page)
      invariant reclaims <= 1 && (reclaims == 1 ==> s.root.pmtCurrent.page + (s.g.C - i) < s.g.M)
    {
      ghost var u := s.Pmt();
      ghost var more := CommitSlot(s, i);
      reclaims := reclaims + more;
      StepTrans(s.g, v, u, s.Pmt());
      i := i + 1;
    }
    ghost var u := s.Pmt();
    ClearKeeps(s.g, u);
    s.slots := NoSlots(s.g);
    SlotsOutside(s.g, u, NoSlots(s.g));
    StepTrans(s.g, v, u, s.Pmt());
  }
}
