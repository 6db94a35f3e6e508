/** Inputs on which a replay does not do what one would expect: runs from the volume that
    FTL_Format leaves. */
module ReplayCost {
  import opened Geometry
  import opened Flash
  import opened ReplaySpec
  import L = Lanes
  import D = DataSpec
  import R = Replay
  import S = Sessions
  import P = PowerLoss
  import RD = ReplayData
  import Y = Recovery
  import opened Data
  import V = Volume

  // ---------------------------------------------------------------- a busy die

  ghost predicate CanWrite(g: Geometry, v: D.View, k: nat, addr: nat) {
    D.Inv(g, v) && k < 2 * g.J && D.Appendable(g, v, k, k, addr)
  }

  /** The first n pages of ws, all written to hot journal 1, as DATA_Write does while the die of
      journal 0 is busy. */
  ghost function SecondFilled(g: Geometry, v: D.View, ws: seq<PageWrite>, n: nat): D.View
    requires n <= |ws|
  {
    if n == 0 then v
    else
      var u, w := SecondFilled(g, v, ws, n - 1), ws[n - 1];
      if CanWrite(g, u, 1, w.addr) then D.Written(g, u, 1, w.addr, n - 1, w.data) else u
  }

  /** Pages on journal 1 alone, the first of them with edition 0. */
  ghost predicate OnSecond(g: Geometry, v0: D.View, v: D.View, n: nat) {
    && L.LaneAt(v, 1).at == Loc(g.dataLo + 1, n) && (forall j: nat :: j != 1 ==> L.LaneAt(v, j) == L.LaneAt(v0, j))
    && (n > 0 ==> 0 < |L.LaneAt(v, 1).block| && L.LaneAt(v, 1).block[0].Programmed? && EditionOf(L.LaneAt(v, 1).block[0].spare) == 0)
  }

  ghost predicate AllMapped(v: D.View, ws: seq<PageWrite>, n: nat) {
    n <= |ws| && forall i :: 0 <= i < n ==> ws[i].addr < |v.pm| && v.pm[ws[i].addr].At?
  }

  lemma SecondWritten(g: Geometry, v0: D.View, v: D.View, w: PageWrite, n: nat)
    requires D.Inv(g, v) && D.Settled(g, v) && OnSecond(g, v0, v, n) && n < g.M && w.addr < g.cap
    ensures CanWrite(g, v, 1, w.addr)
    ensures var x := D.Written(g, v, 1, w.addr, n, w.data);
            && D.Inv(g, x) && D.Settled(g, x) && OnSecond(g, v0, x, n + 1)
            && w.addr < |v.pm| && x.pm == v.pm[w.addr := At(Loc(g.dataLo + 1, n))]
  {
    hide D.UserPagesOk, D.ListsOk, D.RowsOk, D.MapOk, D.CountsOk, D.Settled, D.Written, D.Updated, D.Appendable;
    D.AppendReady(g, v, 1, 1, w.addr);
    hide D.JournalsOk, D.RowFree;
    D.WrittenOutcome(g, v, 1, w.addr, n, w.data);
    L.WrittenLane(g, v, w, n, 1);
    L.JournalsApart(g, v, 0);
    hide D.Inv, L.LaneAt, D.Distinct;
    L.OthersStay(v, D.Written(g, v, 1, w.addr, n, w.data), 1);
  }

  lemma {:induction false} SecondFills(g: Geometry, v0: D.View, ws: seq<PageWrite>, n: nat)
    requires V.FreshData(g, v0) && n <= g.M && n <= |ws| && forall i :: 0 <= i < n ==> ws[i].addr < g.cap
    ensures var v := SecondFilled(g, v0, ws, n);
            D.Inv(g, v) && D.Settled(g, v) && OnSecond(g, v0, v, n) && AllMapped(v, ws, n)
  {
    hide D.Inv, D.Settled, OnSecond, D.Written, CanWrite;
    V.FreshInv(g, v0);
    if n == 0 {
      FreshSecond(g, v0);
    } else {
      SecondFills(g, v0, ws, n - 1);
      hide V.FreshData;
      SecondWritten(g, v0, SecondFilled(g, v0, ws, n - 1), ws[n - 1], n - 1);
    }
  }

  lemma FreshSecond(g: Geometry, v: D.View)
    requires V.FreshData(g, v) && D.Inv(g, v)
    ensures OnSecond(g, v, v, 0)
  {
    hide D.Inv;
    assert v.js[1] == Loc(g.dataLo + 1, 0);
  }

  /** A journal of an empty volume. */
  lemma FreshLane(g: Geometry, v0: D.View, j: nat)
    requires V.FreshData(g, v0) && j < 2 * g.J
    ensures L.LaneAt(v0, j).at == Loc(g.dataLo + j, 0) && L.LaneAt(v0, j).block == Blank(g.P)
  {
    assert v0.js[j] == Loc(g.dataLo + j, 0);
  }

  lemma {:induction false} ErasedToEnd(at: seq<Loc>, fs: seq<Block>, j: nat)
    requires |fs| == |at| && j <= |at| && forall i: nat :: j <= i < |at| ==> OnErased(at, fs, i)
    ensures Scan(at, fs, MAX_UINT32, j) == Ended
    decreases |at| - j
  {
    if j < |at| {
      assert OnErased(at, fs, j);
      ErasedToEnd(at, fs, j + 1);
    }
  }

  /** A pass over lanes of which the first and those after the second are blank. */
  lemma PassesSecond(at: seq<Loc>, fs: seq<Block>)
    requires |fs| == |at| >= 2 && OnErased(at, fs, 0) && forall i: nat :: 2 <= i < |at| ==> OnErased(at, fs, i)
    ensures OnList(at, fs, 1) ==> Scan(at, fs, 0, 0) == Match(1, MAX_UINT32)
    ensures at[1].page < |fs[1]| && fs[1][at[1].page].Programmed? && EditionOf(fs[1][at[1].page].spare) == 0 ==>
              Scan(at, fs, 0, 0) == Ended
  {
    ErasedToEnd(at, fs, 2);
    assert Scan(at, fs, 0, 0) == Scan(at, fs, MAX_UINT32, 1);
  }

  /** What the passes look at. */
  lemma HotFlash(g: Geometry, v: D.View)
    requires D.Inv(g, v)
    ensures |L.LanesOf(g, v, 0)| == g.J && forall j: nat :: j < g.J ==>
              L.LanesOf(g, v, 0)[j] == L.LaneAt(v, j) && R.FlashOf(g, v, 0)[j] == L.LaneAt(v, j).block
  {
    hide D.UserPagesOk, D.ListsOk, D.RowsOk, D.MapOk, D.CountsOk;
    forall j: nat | j < g.J
      ensures L.LanesOf(g, v, 0)[j] == L.LaneAt(v, j) && R.FlashOf(g, v, 0)[j] == L.LaneAt(v, j).block
    {
      assert D.JournalOk(g, v, j);
      assert R.FlashOf(g, v, 0)[j] == R.BlockAt(v, j);
    }
  }

  /** The lanes once journal 1 is full. */
  ghost predicate OneFull(m: nat, at0: seq<Loc>, at: seq<Loc>, fs: seq<Block>) {
    && |at0| == |at| == |fs| >= 2 && (forall j: nat :: j < |at| ==> |fs[j]| == m + 1)
    && (forall j: nat :: j < |at| && j != 1 ==> at0[j].page == at[j].page == 0 && fs[j][0].Erased?)
    && at0[1].page == 0 && at[1].page == m && fs[1][m].Programmed? && fs[1][m].spare == AllOnes
    && fs[1][0].Programmed? && EditionOf(fs[1][0].spare) == 0
  }

  lemma ScansOfFull(m: nat, at0: seq<Loc>, at: seq<Loc>, fs: seq<Block>)
    requires OneFull(m, at0, at, fs)
    ensures Scan(at0, fs, 0, 0) == Ended && Scan(at, fs, 0, 0) == Match(1, MAX_UINT32)
  {
    hide Scan;
    PassesSecond(at0, fs);
    PassesSecond(at, fs);
  }

  lemma SecondTidy(g: Geometry, v: D.View)
    requires D.Inv(g, v) && D.Settled(g, v) && 2 <= g.J && L.LaneAt(v, 1).at.page == g.M
    ensures LanesOk(g.M, L.LanesOf(g, v, 0))
    ensures var b := L.LaneAt(v, 1).block; |b| == g.M + 1 && b[g.M].Programmed? && b[g.M].spare == AllOnes
  {
    HotFlash(g, v);
    L.LanesTidy(g, v, 0);
    hide D.Inv, D.Settled, L.LanesOf, R.FlashOf, L.LaneAt;
    assert Tidy(g.M, L.LanesOf(g, v, 0)[1]);
  }

  lemma SecondFull(g: Geometry, v0: D.View, v: D.View)
    requires V.FreshData(g, v0) && 2 <= g.J && D.Inv(g, v0) && D.Inv(g, v) && D.Settled(g, v) && OnSecond(g, v0, v, g.M)
    ensures LanesOk(g.M, L.LanesOf(g, v, 0)) && !FullFirst(g.M, L.LanesOf(g, v, 0))
    ensures OneFull(g.M, Cursors(L.LanesOf(g, v0, 0)), Cursors(L.LanesOf(g, v, 0)), R.FlashOf(g, v, 0))
  {
    hide D.Inv, D.Settled, V.FreshData, L.LanesOf, R.FlashOf, L.LaneAt, LanesOk;
    HotFlash(g, v0);
    HotFlash(g, v);
    SecondTidy(g, v);
    forall j: nat | j < g.J
      ensures L.LaneAt(v0, j).at == Loc(g.dataLo + j, 0) && L.LaneAt(v0, j).block == Blank(g.P)
    {
      FreshLane(g, v0, j);
    }
    var xs := L.LanesOf(g, v, 0);
    assert xs[1] == L.LaneAt(v, 1) && xs[0] == L.LaneAt(v, 0);
  }

  /** Every page of a session goes to hot journal 1, since the die of journal 0 is busy, and fills it.
      The state is in order.  But if power fails then, the replay ends before the first of these
      pages; and if a commit is made first, the next replay takes the journal's list for a page. */
  lemma BusyDieMisleads(g: Geometry, v0: D.View, ws: seq<PageWrite>)
    requires V.FreshData(g, v0) && 2 <= g.J && |ws| == g.M && forall i :: 0 <= i < g.M ==> ws[i].addr < g.cap
    ensures var v := SecondFilled(g, v0, ws, g.M);
            && D.Inv(g, v) && D.Settled(g, v) && AllMapped(v, ws, g.M)
            && LanesOk(g.M, L.LanesOf(g, v, 0)) && !FullFirst(g.M, L.LanesOf(g, v, 0))
            && |L.LanesOf(g, v0, 0)| == |L.LanesOf(g, v, 0)| == g.J
            && Scan(Cursors(L.LanesOf(g, v0, 0)), R.FlashOf(g, v, 0), 0, 0) == Ended
            && Scan(Cursors(L.LanesOf(g, v, 0)), R.FlashOf(g, v, 0), 0, 0) == Match(1, MAX_UINT32)
  {
    hide SecondFilled, V.FreshData, D.Inv, D.Settled, FullFirst, OnSecond, L.LanesOf, R.FlashOf, LanesOk, Scan, OneFull, AllMapped;
    SecondFills(g, v0, ws, g.M);
    var v := SecondFilled(g, v0, ws, g.M);
    V.FreshInv(g, v0);
    HotFlash(g, v0);
    HotFlash(g, v);
    SecondFull(g, v0, v);
    ScansOfFull(g.M, Cursors(L.LanesOf(g, v0, 0)), Cursors(L.LanesOf(g, v, 0)), R.FlashOf(g, v, 0));
  }

  // ---------------------------------------------------------------- the edition counter

  /** On an empty volume with two or more journals a set, a replay without pages leaves the edition
      counter at MAX_UINT32 and not at 0. */
  lemma CounterLost(g: Geometry, v0: D.View, o: nat, now: nat)
    requires V.FreshData(g, v0) && 2 <= g.J && L.Offset(g, o)
    ensures |L.LanesOf(g, v0, o)| == g.J && LanesOk(g.M, L.LanesOf(g, v0, o))
    ensures CounterAfter(Cursors(L.LanesOf(g, v0, o)), R.FlashOf(g, v0, o), 0, now, 0) == MAX_UINT32
  {
    V.FreshInv(g, v0);
    V.FreshLanes(g, v0, o);
    hide D.Inv, D.Settled, V.FreshData, L.LanesOf, R.FlashOf, CounterAfter, AllTidy, HeldBy, LanesOk;
    var xs := L.LanesOf(g, v0, o);
    StaysListedFirst(g.M, xs, [], false);
    CounterRestored(g.M, xs, [], false, R.FlashOf(g, v0, o), now);
    assert xs[0].at.page < g.M;
    assert !Listed(g.M, xs, [], false, 0);
  }

  // ---------------------------------------------------------------- sessions that lose an address

  /** DATA_Write puts the page on the first journal of its temperature. */
  ghost function FirstPut(g: Geometry, v: D.View, isHot: bool, w: PageWrite): D.View {
    if CanWrite(g, v, Off(g, isHot), w.addr) then D.Written(g, v, Off(g, isHot), w.addr, 0, w.data) else v
  }

  lemma PutRests(g: Geometry, v: D.View, isHot: bool, w: PageWrite)
    requires D.Inv(g, v) && D.Settled(g, v) && |v.js| == 3 * g.J && w.addr < g.cap
    requires v.js[Off(g, isHot)].page == 0 && v.js[Off(g, !isHot)].page <= 1
    ensures var x := FirstPut(g, v, isHot, w);
            && S.AtRest(g, x) && L.Pushed(g, v, x, Off(g, isHot), w, 0) && |x.js| == 3 * g.J
            && x.js == v.js[Off(g, isHot) := Loc(v.js[Off(g, isHot)].block, 1)]
  {
    hide D.UserPagesOk, D.ListsOk, D.RowsOk, D.MapOk, D.CountsOk, D.Settled, D.Written, D.Updated, D.Appendable, IsOpen, L.Pushed, S.AtRest;
    var k := Off(g, isHot);
    D.AppendReady(g, v, k, k, w.addr);
    FirstIsOpen(g, v, isHot, 0);
    hide D.JournalsOk, D.RowFree;
    D.WrittenOutcome(g, v, k, w.addr, 0, w.data);
    WrittenOnOpen(g, v, isHot, 0, w.addr, 0, w.data);
    hide D.Inv;
    var x := FirstPut(g, v, isHot, w);
    assert g.M >= 2 && x.js[Off(g, false)].page <= 1 && x.js[Off(g, true)].page <= 1;
    P.MountedRests(g, x);
  }

  lemma TrimRests(g: Geometry, v: D.View, a: nat)
    requires S.AtRest(g, v) && |v.js| == 3 * g.J && a < g.cap && HasRoom(g, v.js, true) && HasRoom(g, v.js, false)
    ensures |v.pm| == g.cap && S.AtRest(g, D.Trim(v, a)) && L.Dropped(v, D.Trim(v, a), a)
  {
    hide D.UserPagesOk, D.ListsOk, D.RowsOk, D.MapOk, D.CountsOk, D.Settled, D.JournalsOk, Open, L.LanesOf, D.Updated;
    D.TrimOutcome(g, v, a);
    P.MountedRests(g, D.Trim(v, a));
  }

  /** The session of two acts. */
  lemma TwoActs(g: Geometry, v: D.View, x: D.View, y: D.View, acts: seq<Act>)
    requires |acts| == 2 && S.AtRest(g, v) && S.AtRest(g, x) && S.AtRest(g, y)
    requires S.ActDone(g, v, x, acts, 0) && S.ActDone(g, x, y, acts, 1)
    ensures S.SessionOf(g, [v, x, y], acts)
  {
    hide S.AtRest, S.ActDone;
    P.Begun(g, [v], acts);
    P.SessionGrows(g, [v], acts, 0, x);
    assert [v] + [x] == [v, x];
    P.SessionGrows(g, [v, x], acts, 1, y);
    assert [v, x] + [y] == [v, x, y];
  }

  lemma FirstHasRoom(g: Geometry, js: seq<Loc>, isHot: bool)
    requires |js| == 3 * g.J && js[Off(g, isHot)].page < g.M
    ensures HasRoom(g, js, isHot)
  {
  }

  lemma FreshRests(g: Geometry, v: D.View)
    requires V.FreshData(g, v)
    ensures S.AtRest(g, v) && |v.js| == 3 * g.J && v.js[0].page == v.js[g.J].page == 0
  {
    V.FreshInv(g, v);
    hide D.Inv, D.Settled, S.AtRest, HasRoom;
    assert v.js[0] == Loc(g.dataLo, 0) && v.js[g.J] == Loc(g.dataLo + g.J, 0);
    hide V.FreshData;
    FirstHasRoom(g, v.js, true);
    FirstHasRoom(g, v.js, false);
    P.MountedRests(g, v);
  }

  lemma HotLost(w: PageWrite, u: PageWrite, e: Entry)
    requires w.addr == u.addr
    ensures !Survives([Put(w, false), Put(u, true)], 2, u.addr, e)
  {
    assert Only([Put(w, false), Put(u, true)], false, 1)[0].addr == w.addr;
  }

  lemma DropLost(w: PageWrite, isHot: bool, e: Entry)
    ensures !Survives([Put(w, isHot), Drop(w.addr)], 2, w.addr, e)
  {
    assert Only([Put(w, isHot), Drop(w.addr)], isHot, 1)[0].addr == w.addr;
  }

  lemma HotLast(g: Geometry, v: D.View, w: PageWrite, u: PageWrite)
    requires V.FreshData(g, v) && w.addr == u.addr < g.cap
    ensures var x := FirstPut(g, v, false, w);
            S.SessionOf(g, [v, x, FirstPut(g, x, true, u)], [Put(w, false), Put(u, true)])
  {
    var acts := [Put(w, false), Put(u, true)];
    hide V.FreshData, S.AtRest, L.Pushed, D.Inv, D.Settled, FirstPut;
    var x := FirstPut(g, v, false, w);
    FreshRests(g, v);
    V.FreshInv(g, v);
    PutRests(g, v, false, w);
    InOrder(g, x);
    PutRests(g, x, true, u);
    TwoActs(g, v, x, FirstPut(g, x, true, u), acts);
  }

  /** A page is written cold and then hot: the replay lets the older page win. */
  lemma OlderPageWins(g: Geometry, v: D.View, w: PageWrite, u: PageWrite, torn: bool)
    requires V.FreshData(g, v) && w.addr == u.addr < g.cap
    ensures var acts := [Put(w, false), Put(u, true)];
            var x := FirstPut(g, v, false, w);
            var y := FirstPut(g, x, true, u);
            var r := Y.RecoveredMap(g, S.SessionLeft(g, v, acts, torn));
            S.SessionOf(g, [v, x, y], acts) && |y.pm| == |r| == g.cap && r[w.addr] != y.pm[w.addr]
  {
    var acts := [Put(w, false), Put(u, true)];
    var x := FirstPut(g, v, false, w);
    HotLast(g, v, w, u);
    hide V.FreshData, FirstPut, Y.RecoveredMap, Survives, S.SessionOf, S.SessionLeft;
    S.PowerLossCost(g, [v, x, FirstPut(g, x, true, u)], acts, torn, w.addr);
    HotLost(w, u, v.pm[w.addr]);
  }

  lemma InOrder(g: Geometry, v: D.View)
    requires S.AtRest(g, v)
    ensures D.Inv(g, v) && D.Settled(g, v)
  {
  }

  lemma TrimLast(g: Geometry, v: D.View, w: PageWrite, isHot: bool)
    requires V.FreshData(g, v) && w.addr < g.cap
    ensures var x := FirstPut(g, v, isHot, w);
            w.addr < |x.pm| && S.SessionOf(g, [v, x, D.Trim(x, w.addr)], [Put(w, isHot), Drop(w.addr)])
  {
    var acts := [Put(w, isHot), Drop(w.addr)];
    hide V.FreshData, S.AtRest, L.Pushed, L.Dropped, D.Inv, D.Settled, FirstPut, D.Trim, HasRoom;
    var x := FirstPut(g, v, isHot, w);
    FreshRests(g, v);
    V.FreshInv(g, v);
    PutRests(g, v, isHot, w);
    FirstHasRoom(g, x.js, true);
    FirstHasRoom(g, x.js, false);
    TrimRests(g, x, w.addr);
    TwoActs(g, v, x, D.Trim(x, w.addr), acts);
  }

  /** A page is written and then trimmed: the replay brings it back. */
  lemma TrimUndone(g: Geometry, v: D.View, w: PageWrite, isHot: bool, torn: bool)
    requires V.FreshData(g, v) && w.addr < g.cap
    ensures var acts := [Put(w, isHot), Drop(w.addr)];
            var x := FirstPut(g, v, isHot, w);
            var r := Y.RecoveredMap(g, S.SessionLeft(g, v, acts, torn));
            && w.addr < |x.pm| && S.SessionOf(g, [v, x, D.Trim(x, w.addr)], acts) && |r| == g.cap
            && D.Trim(x, w.addr).pm[w.addr] == Nowhere && r[w.addr] != Nowhere
  {
    var acts := [Put(w, isHot), Drop(w.addr)];
    var x := FirstPut(g, v, isHot, w);
    TrimLast(g, v, w, isHot);
    hide V.FreshData, FirstPut, Y.RecoveredMap, Survives, S.SessionOf, S.SessionLeft;
    S.PowerLossCost(g, [v, x, D.Trim(x, w.addr)], acts, torn, w.addr);
    DropLost(w, isHot, v.pm[w.addr]);
  }

  // ---------------------------------------------------------------- a commit inside DATA_Write

  function Blocks(xs: seq<Lane>): (r: seq<Block>)
    ensures |r| == |xs| && forall j :: 0 <= j < |xs| ==> r[j] == xs[j].block
  {
    seq(|xs|, j requires 0 <= j < |xs| => xs[j].block)
  }

  lemma FullAreListed(m: nat, xs: seq<Lane>, ys: seq<Lane>, k: nat)
    requires LanesOk(m, xs) && AllTidy(m, xs) && k <= |xs| == |ys| && forall i :: 0 <= i < |xs| && i != k ==> ys[i] == xs[i]
    requires forall i :: 0 <= i < k ==> xs[i].at.page >= m
    ensures forall i: nat :: i < k ==> OnList(Cursors(xs), Blocks(ys), i)
  {
    forall i: nat | i < k
      ensures OnList(Cursors(xs), Blocks(ys), i)
    {
      assert Tidy(m, xs[i]);
    }
  }

  lemma RestAreErased(m: nat, xs: seq<Lane>, ys: seq<Lane>, k: nat)
    requires LanesOk(m, xs) && AllTidy(m, xs) && k < |xs| == |ys| && forall i :: 0 <= i < |xs| && i != k ==> ys[i] == xs[i]
    requires FullFirst(m, xs) && xs[k].at.page < m
    ensures forall i: nat :: k < i < |xs| ==> OnErased(Cursors(xs), Blocks(ys), i) && !OnList(Cursors(xs), Blocks(ys), i)
  {
    forall i: nat | k < i < |xs|
      ensures OnErased(Cursors(xs), Blocks(ys), i) && !OnList(Cursors(xs), Blocks(ys), i)
    {
      assert Tidy(m, xs[i]) && xs[i].at.page < m;
    }
  }

  /** DATA_Write programs its page, and then PMT_Update finds the cache full and commits: the root
      on flash still has the cursor on that page, which has edition e.  After a power loss the
      replay finds the page if and only if e is 0.  If not, it ends without it, and the cursor
      stays on a page that cannot be programmed again; or, if the journal is the last of its set,
      the pass neither matches nor ends, and DATA_Replay repeats it for ever. */
  lemma OwnCommitMisleads(m: nat, xs: seq<Lane>, w: PageWrite, e: nat)
    requires LanesOk(m, xs) && AllTidy(m, xs) && FullFirst(m, xs) && Open(m, xs) < |xs|
    ensures var k, fs := Open(m, xs), Blocks(Push(m, xs, w, e));
            && Scan(Cursors(xs), fs, 0, 0) == (if e == 0 then Match(k, w.addr) else if k + 1 < |xs| then Ended else Unmatched)
            && xs[k].at.page < |fs[k]| && fs[k][xs[k].at.page].Programmed?
  {
    var k, ys := Open(m, xs), Push(m, xs, w, e);
    var at, fs := Cursors(xs), Blocks(ys);
    FullAreListed(m, xs, ys, k);
    RestAreErased(m, xs, ys, k);
    hide Open, AllTidy, FullFirst, OnList, OnErased, LanesOk;
    ScanPasses(at, fs, 0, 0, k);
    assert fs[k][at[k].page].spare == Words(w.addr, e);
    if e != 0 && k + 1 < |xs| {
      assert OnErased(at, fs, k + 1);
      AfterErased(at, fs, k + 1);
      ScanEnds(at, fs, k + 2);
    }
  }

  lemma AfterErased(at: seq<Loc>, fs: seq<Block>, j: nat)
    requires |fs| == |at| && OnErased(at, fs, j)
    ensures Scan(at, fs, 0, j) == Scan(at, fs, MAX_UINT32, j + 1)
  {
  }

  // ---------------------------------------------------------------- victims erased before the commit

  ghost predicate PageThere(blk: seq<Block>, l: Loc) {
    l.block < |blk| && l.page < |blk[l.block]| && blk[l.block][l.page].Programmed?
  }

  /** DATA_Reclaim erases its victims before DATA_Commit writes a root that names the copies of their
      pages.  If power fails in between, the root on flash still leads to the victims: of the
      addresses that a replay recovers, exactly those are lost whose page was in an erased block b.
      (Block b is none of the journals that the replay reads.) */
  lemma ErasedTooEarly(g: Geometry, vs: seq<D.View>, acts: seq<Act>, b: nat, a: nat)
    requires S.SessionOf(g, vs, acts) && b < g.U && a < g.cap && |vs[0].pm| == g.cap && Survives(acts, |acts|, a, vs[0].pm[a])
    requires !L.InLanes(g, vs[0].js, 0, b) && !L.InLanes(g, vs[0].js, g.J, b)
    ensures var v, x := vs[|acts|], S.SessionLeft(g, vs[0], acts, false);
            && |v.blk| == g.U && a < |v.pm| && a < |Y.RecoveredMap(g, x)| && Y.RecoveredMap(g, x)[a] == v.pm[a]
            && (v.pm[a].At? ==> (PageThere(v.blk[b := Blank(g.P)], v.pm[a].loc) <==> v.pm[a].loc.block != b))
            && R.FlashOf(g, vs[0].(blk := v.blk[b := Blank(g.P)]), 0) == R.FlashOf(g, vs[0].(blk := v.blk), 0)
            && R.FlashOf(g, vs[0].(blk := v.blk[b := Blank(g.P)]), g.J) == R.FlashOf(g, vs[0].(blk := v.blk), g.J)
  {
    hide S.ActDone, Y.RecoveredMap, Survives, Open, L.LanesOf, D.UserPagesOk, D.ListsOk, D.RowsOk, D.CountsOk, D.Settled, D.JournalsOk;
    S.PowerLossCost(g, vs, acts, false, a);
    assert S.AtRest(g, vs[|acts|]) && D.EntryOk(g, vs[|acts|], a);
    assert S.AtRest(g, vs[0]);
  }
}
