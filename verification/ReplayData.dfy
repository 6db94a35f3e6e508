/** The replay of a temperature's journals, as steps on the data region: pages are remapped in
    edition order, then the RAM lists are rebuilt and a missing list is written. */
module ReplayData {
  import opened Geometry
  import opened Flash
  import opened ReplaySpec
  import opened Lanes
  import D = DataSpec

  /** The view v0 with the first i pages of ws replayed on the lanes from entry o on. */
  ghost predicate Replayed(g: Geometry, v0: D.View, v: D.View, o: nat, ws: seq<PageWrite>, i: nat) {
    && i <= |ws| && LanesOk(g.M, LanesOf(g, v0, o))
    && D.Inv(g, v) && D.Settled(g, v) && Elsewhere(g, v0, v, o)
    && LanesOf(g, v, o) == PushAll(g.M, LanesOf(g, v0, o), ws, i)
    && v.pm == Overridden(g.M, LanesOf(g, v0, o), v0.pm, ws, i)
  }

  lemma ReplayBegins(g: Geometry, v: D.View, o: nat, ws: seq<PageWrite>)
    requires D.Inv(g, v) && D.Settled(g, v) && Offset(g, o)
    ensures Replayed(g, v, v, o, ws, 0)
  {
    hide D.UserPagesOk, D.ListsOk, D.RowsOk, D.MapOk, D.CountsOk, D.Settled;
    LanesFit(g, v, o);
    assert v.js == v.js;
    forall i | 0 <= i < 3 * g.J
      ensures v.js[i].block < g.U
    {
      assert D.JournalOk(g, v, i);
    }
  }

  ghost predicate Addressed(g: Geometry, ws: seq<PageWrite>) {
    forall i :: 0 <= i < |ws| ==> ws[i].addr < g.cap
  }

  /** The view after one more page. */
  ghost predicate NextReplayed(g: Geometry, v: D.View, x: D.View, k: nat, addr: nat) {
    && k < |v.js| && addr < |v.pm|
    && x.js == v.js[k := Loc(v.js[k].block, v.js[k].page + 1)]
    && x.pm == v.pm[addr := At(v.js[k])] && x.dirty == D.Bump(v.dirty, v.pm[addr])
    && (v.pm[addr].At? ==> InData(g, v.pm[addr].loc.block) && v.pm[addr].loc.block < |v.dirty| && v.dirty[v.pm[addr].loc.block] < g.M)
  }

  lemma ReplayStep(g: Geometry, v0: D.View, v: D.View, o: nat, ws: seq<PageWrite>, i: nat) returns (x: D.View)
    requires Replayed(g, v0, v, o, ws, i) && Offset(g, o) && i < |ws| && Addressed(g, ws)
    requires RoomFor(g.M, LanesOf(g, v0, o), ws)
    ensures Replayed(g, v0, x, o, ws, i + 1)
    ensures NextReplayed(g, v, x, o + Open(g.M, LanesOf(g, v, o)), ws[i].addr)
  {
    hide D.UserPagesOk, D.ListsOk, D.RowsOk, D.MapOk, D.CountsOk, D.Settled, Open, Elsewhere, NextPlace, D.JournalsOk;
    var j := Open(g.M, LanesOf(g, v, o));
    var k := o + j;
    assert LanesOf(g, v, o)[j] == LaneAt(v, k);
    D.AppendReady(g, v, k, k, ws[i].addr);
    D.WrittenOutcome(g, v, k, ws[i].addr, i, ws[i].data);
    x := D.Written(g, v, k, ws[i].addr, i, ws[i].data);
    WrittenPushes(g, v, o, ws[i], i, k);
    WrittenLane(g, v, ws[i], i, k);
    if v.pm[ws[i].addr].At? {
      D.Leaving(g, v, ws[i].addr);
    }
    hide D.Inv, D.Written;
    ElsewhereTrans(g, v0, v, x, o);
  }

  // ---------------------------------------------------------------- rebuilding the lists

  /** The RAM list of journal k is rebuilt, and its list page, if it was missing, is written. */
  ghost function Rebuilt(g: Geometry, v: D.View, k: nat, row: seq<Spare>, relist: bool): D.View
    requires D.Shape(g, v) && k < 2 * g.J && v.js[k].block < g.U
  {
    v.(metas := v.metas[k := row],
       blk := if relist then Program(v.blk, v.js[k].block, g.M, Programmed(DataList(row), AllOnes)) else v.blk)
  }

  /** The row agrees with the pages below the cursor. */
  ghost predicate RowFits(g: Geometry, v: D.View, k: nat, row: seq<Spare>) {
    && k < |v.js| && v.js[k].block < |v.blk| && |row| == g.P && v.js[k].page <= g.M
    && |v.blk[v.js[k].block]| == g.P
    && forall p :: 0 <= p < v.js[k].page ==> v.blk[v.js[k].block][p].Programmed? && row[p] == v.blk[v.js[k].block][p].spare
  }

  lemma RebuiltJournals(g: Geometry, v: D.View, k: nat, row: seq<Spare>, relist: bool)
    requires D.Inv(g, v) && D.Settled(g, v) && k < 2 * g.J && RowFits(g, v, k, row) && (relist ==> v.js[k].page == g.M)
    ensures InData(g, v.js[k].block)
    ensures D.Shape(g, Rebuilt(g, v, k, row, relist)) && D.JournalsOk(g, Rebuilt(g, v, k, row, relist))
    ensures D.Settled(g, Rebuilt(g, v, k, row, relist))
  {
    hide D.UserPagesOk, D.ListsOk, D.RowsOk, D.MapOk, D.CountsOk;
    assert D.JournalOk(g, v, k);
    assert relist ==> v.blk[v.js[k].block][g.M].Programmed?;
    var w := Rebuilt(g, v, k, row, relist);
    forall i: nat | i < 3 * g.J
      ensures D.JournalOk(g, w, i)
    {
      assert D.JournalOk(g, v, i);
    }
  }

  lemma RebuiltPages(g: Geometry, v: D.View, k: nat, row: seq<Spare>, relist: bool)
    requires D.Inv(g, v) && D.Settled(g, v) && k < 2 * g.J && RowFits(g, v, k, row) && (relist ==> v.js[k].page == g.M)
    requires InData(g, v.js[k].block)
    requires var w := Rebuilt(g, v, k, row, relist); D.Shape(g, w) && D.JournalsOk(g, w)
    ensures var w := Rebuilt(g, v, k, row, relist); D.UserPagesOk(g, w) && D.ListsOk(g, w) && D.MapOk(g, w) && D.RowsOk(g, w)
  {
    hide D.CountsOk;
    var w := Rebuilt(g, v, k, row, relist);
    assert D.JournalOk(g, v, k);
    forall b | InData(g, b)
      ensures D.ListOk(g, w, b)
    {
      assert D.ListOk(g, v, b);
    }
    forall a: nat | a < g.cap
      ensures D.EntryOk(g, w, a)
    {
      assert D.EntryOk(g, v, a);
    }
    forall i: nat | i < 2 * g.J && w.blk[w.js[i].block][g.M].Erased?
      ensures D.RowOk(g, w, i, i)
    {
      if i != k {
        assert D.JournalOk(g, v, i) && D.RowOk(g, v, i, i);
      }
    }
  }

  lemma RebuiltKeeps(g: Geometry, v: D.View, k: nat, row: seq<Spare>, relist: bool)
    requires D.Inv(g, v) && D.Settled(g, v) && k < 2 * g.J && RowFits(g, v, k, row) && (relist ==> v.js[k].page == g.M)
    ensures InData(g, v.js[k].block)
    ensures D.Inv(g, Rebuilt(g, v, k, row, relist)) && D.Settled(g, Rebuilt(g, v, k, row, relist))
  {
    RebuiltJournals(g, v, k, row, relist);
    RebuiltPages(g, v, k, row, relist);
    D.CountsDepend(g, v, Rebuilt(g, v, k, row, relist));
    hide D.JournalsOk, D.UserPagesOk, D.ListsOk, D.RowsOk, D.MapOk, D.CountsOk, D.Settled;
  }
}
