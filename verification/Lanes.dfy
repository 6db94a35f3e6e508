/** The lanes of ReplaySpec inside the data region. */
module Lanes {
  import opened Geometry
  import opened Flash
  import opened ReplaySpec
  import D = DataSpec

  ghost predicate Offset(g: Geometry, o: nat) {
    o == 0 || o == g.J
  }

  /** The lanes of the journals from entry o on. */
  ghost function LanesOf(g: Geometry, v: D.View, o: nat): (xs: seq<Lane>)
    ensures |v.js| == 3 * g.J && |v.metas| == 2 * g.J && Offset(g, o) ==> |xs| == g.J
    ensures forall j :: 0 <= j < |xs| ==> xs[j] == LaneAt(v, o + j)
  {
    seq(if |v.js| == 3 * g.J && |v.metas| == 2 * g.J && Offset(g, o) then g.J else 0, j requires 0 <= j => LaneAt(v, o + j))
  }

  ghost function LaneAt(v: D.View, k: nat): Lane {
    if k < |v.js| && k < |v.metas| && v.js[k].block < |v.blk| then Lane(v.js[k], v.metas[k], v.blk[v.js[k].block])
    else Lane(Loc(0, 0), [], [])
  }

  lemma LanesFit(g: Geometry, v: D.View, o: nat)
    requires D.Shape(g, v) && D.JournalsOk(g, v) && Offset(g, o)
    ensures LanesOk(g.M, LanesOf(g, v, o))
  {
    forall j: nat | j < g.J
      ensures LaneOk(g.M, LanesOf(g, v, o)[j])
    {
      assert D.JournalOk(g, v, o + j);
    }
  }

  /** Journals as the FTL keeps them between calls are tidy lanes. */
  lemma LanesTidy(g: Geometry, v: D.View, o: nat)
    requires D.Shape(g, v) && D.JournalsOk(g, v) && D.ListsOk(g, v) && D.Settled(g, v) && Offset(g, o)
    ensures LanesOk(g.M, LanesOf(g, v, o)) && AllTidy(g.M, LanesOf(g, v, o))
  {
    LanesFit(g, v, o);
    forall j: nat | j < g.J
      ensures Tidy(g.M, LanesOf(g, v, o)[j])
    {
      assert D.JournalOk(g, v, o + j);
      assert D.ListOk(g, v, v.js[o + j].block);
    }
  }

  ghost predicate InLanes(g: Geometry, js: seq<Loc>, o: nat, b: int) {
    exists k :: o <= k < o + g.J && k < |js| && js[k].block == b
  }

  /** Nothing changes but the lanes from entry o on, and those keep their blocks. */
  ghost predicate Elsewhere(g: Geometry, v: D.View, w: D.View, o: nat) {
    && |v.js| == |w.js| == 3 * g.J && |v.metas| == |w.metas| == 2 * g.J && |v.blk| == |w.blk| == g.U
    && (forall i :: 0 <= i < 3 * g.J ==> w.js[i].block == v.js[i].block)
    && (forall i :: 0 <= i < 3 * g.J && !(o <= i < o + g.J) ==> w.js[i] == v.js[i])
    && (forall i :: 0 <= i < 2 * g.J && !(o <= i < o + g.J) ==> w.metas[i] == v.metas[i])
    && (forall b :: 0 <= b < g.U && !InLanes(g, v.js, o, b) ==> w.blk[b] == v.blk[b])
  }

  lemma SameLanes(g: Geometry, js: seq<Loc>, ks: seq<Loc>, o: nat, b: int)
    requires |js| == |ks| && forall i :: 0 <= i < |js| ==> ks[i].block == js[i].block
    ensures InLanes(g, ks, o, b) == InLanes(g, js, o, b)
  {
    if InLanes(g, ks, o, b) {
      var k :| o <= k < o + g.J && k < |ks| && ks[k].block == b;
      assert js[k].block == b;
    }
    if InLanes(g, js, o, b) {
      var k :| o <= k < o + g.J && k < |js| && js[k].block == b;
      assert ks[k].block == b;
    }
  }

  lemma ElsewhereTrans(g: Geometry, v: D.View, w: D.View, x: D.View, o: nat)
    requires Elsewhere(g, v, w, o) && Elsewhere(g, w, x, o) && Offset(g, o)
    ensures Elsewhere(g, v, x, o)
  {
    forall b | 0 <= b < g.U && !InLanes(g, v.js, o, b)
      ensures x.blk[b] == v.blk[b]
    {
      SameLanes(g, v.js, w.js, o, b);
    }
  }

  /** The other temperature's lanes are elsewhere. */
  lemma OtherLanes(g: Geometry, v: D.View, w: D.View, o: nat, q: nat)
    requires Elsewhere(g, v, w, o) && Offset(g, o) && Offset(g, q) && o != q
    requires D.Shape(g, v) && D.JournalsOk(g, v) && D.Shape(g, w) && D.JournalsOk(g, w)
    ensures LanesOf(g, w, q) == LanesOf(g, v, q)
  {
    forall j: nat | j < g.J
      ensures LanesOf(g, w, q)[j] == LanesOf(g, v, q)[j]
    {
      assert D.JournalOk(g, v, q + j);
      assert !InLanes(g, v.js, o, v.js[q + j].block);
    }
  }

  /** Page w is pushed on the lanes from entry o on, and its address is remapped to it. */
  ghost predicate Pushed(g: Geometry, v: D.View, x: D.View, o: nat, w: PageWrite, e: nat) {
    && LanesOk(g.M, LanesOf(g, v, o)) && Open(g.M, LanesOf(g, v, o)) < |LanesOf(g, v, o)|
    && LanesOf(g, x, o) == Push(g.M, LanesOf(g, v, o), w, e)
    && Elsewhere(g, v, x, o)
    && x.pm == Set(v.pm, w.addr, NextPlace(g.M, LanesOf(g, v, o)))
    && w.addr < |v.pm| && x.dirty == D.Bump(v.dirty, v.pm[w.addr])
  }

  lemma WrittenLane(g: Geometry, v: D.View, w: PageWrite, e: nat, k: nat)
    requires D.Inv(g, v) && D.Appendable(g, v, k, k, w.addr) && k < 2 * g.J
    ensures var x := D.Written(g, v, k, w.addr, e, w.data);
            && LaneOk(g.M, LaneAt(v, k)) && LaneAt(v, k).at.page < g.M && LaneAt(v, k).at == v.js[k]
            && LaneAt(x, k) == Fill(g.M, LaneAt(v, k), w, e)
            && |v.js| == |x.js| == 3 * g.J && |v.metas| == |x.metas| == 2 * g.J && |v.blk| == |x.blk| == g.U
            && w.addr < |v.pm| == g.cap && x.pm == v.pm[w.addr := At(v.js[k])] && x.dirty == D.Bump(v.dirty, v.pm[w.addr])
            && x.js == v.js[k := Loc(v.js[k].block, x.js[k].page)] && x.metas == v.metas[k := x.metas[k]]
            && forall b :: 0 <= b < g.U && b != v.js[k].block ==> x.blk[b] == v.blk[b]
  {
    hide D.UserPagesOk, D.ListsOk, D.RowsOk, D.MapOk, D.CountsOk, D.JournalsOk;
  }

  /** A view in which only the lane of entry k changed, by one page, is a push. */
  lemma OneLanePushes(g: Geometry, v: D.View, x: D.View, o: nat, w: PageWrite, e: nat, k: nat)
    requires Elsewhere(g, v, x, o) && Offset(g, o) && LanesOk(g.M, LanesOf(g, v, o))
    requires k == o + Open(g.M, LanesOf(g, v, o)) && k < o + g.J
    requires LaneOk(g.M, LaneAt(v, k)) && LaneAt(v, k).at.page < g.M && LaneAt(x, k) == Fill(g.M, LaneAt(v, k), w, e)
    requires forall i: nat :: o <= i < o + g.J && i != k ==> LaneAt(x, i) == LaneAt(v, i)
    ensures LanesOf(g, x, o) == Push(g.M, LanesOf(g, v, o), w, e)
    ensures NextPlace(g.M, LanesOf(g, v, o)) == At(LaneAt(v, k).at)
  {
    hide Open, Fill, LaneAt;
    var xs, ys := LanesOf(g, v, o), LanesOf(g, x, o);
    var zs := Push(g.M, xs, w, e);
    forall j: nat | j < g.J
      ensures ys[j] == zs[j]
    {
      var i := o + j;
      assert ys[j] == LaneAt(x, i) && xs[j] == LaneAt(v, i);
    }
  }

  lemma JournalsApart(g: Geometry, v: D.View, o: nat)
    requires D.Inv(g, v) && Offset(g, o)
    ensures D.Distinct(v.js) && |v.js| == 3 * g.J && |v.metas| == 2 * g.J && LanesOk(g.M, LanesOf(g, v, o))
    ensures |LanesOf(g, v, o)| == g.J
  {
    LanesFit(g, v, o);
  }

  lemma OthersStay(v: D.View, x: D.View, k: nat)
    requires D.Distinct(v.js) && |x.js| == |v.js| && |x.metas| == |v.metas| && |x.blk| == |v.blk| && k < |v.js| && k < |v.metas|
    requires x.js == v.js[k := Loc(v.js[k].block, x.js[k].page)] && x.metas == v.metas[k := x.metas[k]]
    requires forall b :: 0 <= b < |v.blk| && b != v.js[k].block ==> x.blk[b] == v.blk[b]
    ensures forall i: nat :: i != k ==> LaneAt(x, i) == LaneAt(v, i)
  {
  }

  /** DATA_Write on the first lane with room pushes a page. */
  lemma WrittenPushes(g: Geometry, v: D.View, o: nat, w: PageWrite, e: nat, k: nat)
    requires D.Inv(g, v) && Offset(g, o) && D.Appendable(g, v, k, k, w.addr)
    requires k == o + Open(g.M, LanesOf(g, v, o)) && k < o + g.J
    ensures Pushed(g, v, D.Written(g, v, k, w.addr, e, w.data), o, w, e)
  {
    hide D.Inv, D.Distinct, D.Shape, D.JournalsOk, D.Written, D.Appendable, Open, Fill, NextPlace, Push, LanesOf, LaneAt, LaneOk, LanesOk, Elsewhere;
    JournalsApart(g, v, o);
    var x := D.Written(g, v, k, w.addr, e, w.data);
    WrittenLane(g, v, w, e, k);
    WrittenElsewhere(g, v, x, o, k);
    OthersStay(v, x, k);
    OneLanePushes(g, v, x, o, w, e, k);
  }

  lemma WrittenElsewhere(g: Geometry, v: D.View, x: D.View, o: nat, k: nat)
    requires |v.js| == |x.js| == 3 * g.J && |v.metas| == |x.metas| == 2 * g.J && |v.blk| == |x.blk| == g.U
    requires Offset(g, o) && o <= k < o + g.J
    requires x.js == v.js[k := Loc(v.js[k].block, x.js[k].page)] && x.metas == v.metas[k := x.metas[k]]
    requires forall b :: 0 <= b < g.U && b != v.js[k].block ==> x.blk[b] == v.blk[b]
    ensures Elsewhere(g, v, x, o)
  {
    assert InLanes(g, v.js, o, v.js[k].block);
  }

  /** The first journal with room is the first lane with room. */
  lemma FirstOpen(g: Geometry, v: D.View, o: nat, j: nat)
    requires |v.js| == 3 * g.J && |v.metas| == 2 * g.J && Offset(g, o) && j < g.J
    requires forall k :: 0 <= k < 3 * g.J ==> v.js[k].block < |v.blk|
    requires v.js[o + j].page < g.M && forall k :: o <= k < o + j ==> v.js[k].page >= g.M
    ensures Open(g.M, LanesOf(g, v, o)) == j
  {
    var xs := LanesOf(g, v, o);
    var i := Open(g.M, xs);
    hide Open, LanesOf;
    assert xs[j] == LaneAt(v, o + j);
    assert i < |xs| ==> xs[i] == LaneAt(v, o + i);
  }

  /** A trim touches neither journals nor flash. */
  ghost predicate Dropped(v: D.View, x: D.View, a: nat) {
    && x.js == v.js && x.metas == v.metas && x.blk == v.blk
    && a < |v.pm| && x.pm == Set(v.pm, a, Nowhere) && x.dirty == D.Bump(v.dirty, v.pm[a])
  }
}
