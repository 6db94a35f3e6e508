/** A power loss inside PMT_Commit: what the root written before makes of the flash. */
module CommitCut {
  import opened Geometry
  import opened Flash
  import opened PmtSpec
  import opened ClusterLoss
  import opened Logs
  import F = Format

  /** How many of the first n slots hold changes. */
  function DirtySlots(v: View, n: nat): nat
    requires n <= |v.slots|
  {
    if n == 0 then 0 else DirtySlots(v, n - 1) + if IsDirty(v, n - 1) then 1 else 0
  }

  predicate IsDirty(v: View, i: nat)
    requires i < |v.slots|
  {
    var c := v.slots[i].cluster;
    c.Some? && c.value < |v.nodes| && v.nodes[c.value].Cached? && v.nodes[c.value].dirty
  }

  /** Pages have been appended to the open block and to no other. */
  ghost predicate Appended(g: Geometry, v: View, w: View) {
    && Shape(g, v) && Shape(g, w) && w.open.block == v.open.block && w.open.page >= v.open.page
    && Filled(w.blk[w.open.block], w.open.page)
    && (forall b :: 0 <= b < g.U && b != v.open.block ==> w.blk[b] == v.blk[b])
    && (forall p :: 0 <= p < v.open.page ==> w.blk[v.open.block][p] == v.blk[v.open.block][p])
  }

  /** The slots yet to be visited are as they were. */
  ghost predicate Ahead(v: View, w: View, n: nat) {
    && w.slots == v.slots && |w.nodes| == |v.nodes| && w.blank == v.blank
    && forall c :: 0 <= c < |v.nodes| && v.nodes[c].Cached? && v.nodes[c].slot >= n ==> w.nodes[c] == v.nodes[c]
  }

  lemma SlotAppends(g: Geometry, v: View, w: View, n: nat)
    requires Stable(g, v) && n < g.C && Appended(g, v, w) && Ahead(v, w, n) && w.open.page + 1 < g.M
    ensures var x := SlotCommitted(g, w, n);
            && Appended(g, v, x) && Ahead(v, x, n + 1)
            && x.open.page == w.open.page + if IsDirty(v, n) then 1 else 0
  {
    hide HomesOk, ListsOk, CountsOk, SlackOk, Live, Reclaimed, Listing;
    assert SlotOk(g, v, 0, n);
    if v.slots[n].cluster.Some? {
      SlotHolds(g, v, 0, n);
    }
  }

  lemma {:induction false} SlotsAppend(g: Geometry, v: View, n: nat)
    requires Stable(g, v) && n <= g.C && v.open.page + n < g.M
    ensures var w := SlotsCommitted(g, v, n);
            && n <= |v.slots| && Appended(g, v, w) && Ahead(v, w, n) && w.open.page == v.open.page + DirtySlots(v, n) <= v.open.page + n
  {
    hide Inv, SlotCommitted, Live;
    StableShape(g, v);
    if n > 0 {
      SlotsAppend(g, v, n - 1);
      SlotAppends(g, v, SlotsCommitted(g, v, n - 1), n - 1);
    }
  }

  /** Both have the same page-map blocks. */
  ghost predicate SameBlocks(g: Geometry, v: View, w: View) {
    |v.blk| == |w.blk| && forall b :: PMT_START_BLOCK <= b < g.dataLo && b < |v.blk| ==> w.blk[b] == v.blk[b]
  }

  /** The flash of w under the root, the dirty table and the list of v0. */
  ghost function Under(v0: View, w: View): View {
    v0.(blk := w.blk)
  }

  lemma PagesStay(g: Geometry, v0: View, v: View, w: View)
    requires Stable(g, v0) && SameBlocks(g, v0, v) && v.open == v0.open && Appended(g, v, w)
    ensures SameMap(v0, Under(v0, w))
  {
    hide ListsOk, CountsOk, SlackOk, Live, NodesOk, SlotsOk;
    forall c | 0 <= c < |v0.nodes|
      ensures ClusterOf(v0, c) == ClusterOf(Under(v0, w), c)
    {
      assert HomeOk(g, v0, c);
    }
  }

  lemma NothingAppended(g: Geometry, v0: View, v: View, w: View)
    requires Stable(g, v0) && SameBlocks(g, v0, v) && v.open == v0.open && Appended(g, v, w) && w.open == v.open
    ensures Stable(g, Under(v0, w))
  {
    StableShape(g, v0);
    assert w.blk[v.open.block] == v.blk[v.open.block] by { OpenFilled(g, v0); }
    hide Stable;
    StableDepends(g, v0, Under(v0, w));
  }

  lemma OpenFilled(g: Geometry, v: View)
    requires Stable(g, v)
    ensures Filled(v.blk[v.open.block], v.open.page)
  {
    hide Inv;
  }

  lemma SomethingAppended(g: Geometry, v0: View, v: View, w: View)
    requires v.open == v0.open && Appended(g, v, w) && w.open.page > v.open.page
    ensures !Stable(g, Under(v0, w))
  {
    hide Inv;
    assert w.blk[v.open.block][v.open.page].Programmed?;
  }

  /** Power fails after n slots of PMT_Commit, none of which filled the open block; `v0` is the page
      map of the last root, and v what the commit began with.  A mount reads every address as at that
      root.  But the page map is in order if and only if none of these slots was dirty: the page that
      the root has for the next cluster is written already. */
  lemma CutCommit(g: Geometry, v0: View, v: View, n: nat)
    requires Stable(g, v0) && Stable(g, v) && SameBlocks(g, v0, v) && v.open == v0.open
    requires n <= g.C && v.open.page + n < g.M
    ensures n <= |v.slots| && SameMap(v0, Under(v0, SlotsCommitted(g, v, n)))
    ensures Stable(g, Under(v0, SlotsCommitted(g, v, n))) <==> DirtySlots(v, n) == 0
  {
    hide Stable, SlotsCommitted, SameMap, Appended;
    SlotsAppend(g, v, n);
    var w := SlotsCommitted(g, v, n);
    PagesStay(g, v0, v, w);
    if DirtySlots(v, n) == 0 {
      assert w.open == v.open by { OpenSame(g, v, w); }
      NothingAppended(g, v0, v, w);
    } else {
      SomethingAppended(g, v0, v, w);
    }
  }

  lemma OpenSame(g: Geometry, v: View, w: View)
    requires Appended(g, v, w) && w.open.page == v.open.page
    ensures w.open == v.open
  {
  }

  /** The first commit after FTL_Format, of one changed address, cut after its first page. */
  lemma FirstCommitCut(g: Geometry, r: Root, blk: seq<Block>, dirty: seq<nat>, list: seq<nat>, e: Entry)
    requires F.MapFormatted(g, r, blk, dirty, list) && |r.nodes| == g.K && r.pmtCurrent.page + 1 < g.M
    ensures var v0 := StoredMap(g, blk, r, dirty, list);
            && 0 < |v0.nodes| && Stable(g, v0) && Stable(g, Changed(v0, 0, e))
            && !Stable(g, Under(v0, SlotsCommitted(g, Changed(v0, 0, e), 1)))
  {
    var v0 := StoredMap(g, blk, r, dirty, list);
    F.FormattedIsStable(g, r, blk, dirty, list);
    hide F.MapFormatted, SlotsCommitted;
    FirstChanged(g, v0, e);
    CutCommit(g, v0, Changed(v0, 0, e), 1);
  }

  lemma FirstChanged(g: Geometry, v: View, e: Entry)
    requires Stable(g, v) && 0 < |v.slots| && v.slots[0].cluster.None? && 0 < |v.nodes| && v.nodes[0].OnFlash?
    ensures var w := Changed(v, 0, e);
            Stable(g, w) && w.blk == v.blk && w.open == v.open && 1 <= |w.slots| && DirtySlots(w, 1) == 1
  {
    hide NodesOk, ListsOk, CountsOk, SlackOk, Live;
    assert HomeOk(g, v, 0);
    LoadKeeps(g, v, 0, 0);
    assert |LoadSlot(v, 0, 0).slots[0].entries| == g.N > 0;
    hide Stable;
    SetKeeps(g, LoadSlot(v, 0, 0), 0, 0, e);
    assert DirtySlots(Changed(v, 0, e), 0) == 0;
  }
}
