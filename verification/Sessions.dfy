/** What a power loss costs: a session of DATA_Write calls on idle dies, without a commit, and
    the volume FTL_Init then recovers. */
module Sessions {
  import opened Geometry
  import opened Flash
  import opened ReplaySpec
  import L = Lanes
  import D = DataSpec
  import opened Data
  import opened Replay
  import opened ReplayData
  import opened Recovery

  /** One call of DATA_Write, as its contract gives it when every die is idle.  A commit sets
      the edition numbers to 0 and every write adds one to its temperature's. */
  ghost predicate ActDone(g: Geometry, v: D.View, w: D.View, acts: seq<Act>, i: nat)
    requires i < |acts|
  {
    match acts[i]
    case Put(write, isHot) => L.Pushed(g, v, w, Off(g, isHot), write, |Only(acts, isHot, i)|)
    case Drop(a) => L.Dropped(v, w, a)
  }

  /** Between calls the invariant holds and neither set of journals is full. */
  ghost predicate AtRest(g: Geometry, v: D.View) {
    && D.Inv(g, v) && D.Settled(g, v)
    && Open(g.M, L.LanesOf(g, v, 0)) < |L.LanesOf(g, v, 0)| && Open(g.M, L.LanesOf(g, v, g.J)) < |L.LanesOf(g, v, g.J)|
  }

  /** The views before and after each of the first n acts. */
  ghost predicate SessionUpTo(g: Geometry, vs: seq<D.View>, acts: seq<Act>, n: nat) {
    && n < |vs| && n <= |acts|
    && (forall i :: 0 <= i <= n ==> AtRest(g, vs[i]))
    && forall i: nat :: i < n ==> StepDone(g, vs, acts, i)
  }

  ghost predicate StepDone(g: Geometry, vs: seq<D.View>, acts: seq<Act>, i: nat) {
    i < |acts| && i + 1 < |vs| && ActDone(g, vs[i], vs[i + 1], acts, i)
  }

  ghost predicate SessionOf(g: Geometry, vs: seq<D.View>, acts: seq<Act>) {
    |vs| == |acts| + 1 && SessionUpTo(g, vs, acts, |acts|)
  }

  /** The lanes after n acts. */
  ghost predicate LanesAfter(g: Geometry, v0: D.View, v: D.View, o: nat, ws: seq<PageWrite>) {
    && LanesOk(g.M, L.LanesOf(g, v0, o)) && RoomFor(g.M, L.LanesOf(g, v0, o), ws) && Addressed(g, ws)
    && L.LanesOf(g, v, o) == PushAll(g.M, L.LanesOf(g, v0, o), ws, |ws|)
  }

  ghost predicate RestKept(g: Geometry, v0: D.View, v: D.View) {
    && |v0.js| == |v.js| == 3 * g.J && |v0.blk| == |v.blk| == g.U
    && (forall k :: 0 <= k < 3 * g.J ==> v.js[k].block == v0.js[k].block)
    && forall b :: 0 <= b < g.U && !L.InLanes(g, v0.js, 0, b) && !L.InLanes(g, v0.js, g.J, b) ==> v.blk[b] == v0.blk[b]
  }

  lemma LanesPushed(g: Geometry, v0: D.View, v: D.View, w: D.View, o: nat, ws: seq<PageWrite>, write: PageWrite)
    requires LanesAfter(g, v0, v, o, ws) && L.Pushed(g, v, w, o, write, |ws|) && |v.pm| == g.cap
    requires Open(g.M, L.LanesOf(g, w, o)) < |L.LanesOf(g, w, o)|
    ensures LanesAfter(g, v0, w, o, ws + [write])
  {
    hide L.LanesOf, Open, Push, L.Elsewhere, LanesOk;
    var xs, us := L.LanesOf(g, v0, o), ws + [write];
    PushPrefix(g.M, xs, ws, us, |ws|);
    forall i | 0 <= i <= |us|
      ensures Open(g.M, PushAll(g.M, xs, us, i)) < |xs|
    {
      if i <= |ws| {
        PushPrefix(g.M, xs, ws, us, i);
      }
    }
  }

  lemma LanesUntouched(g: Geometry, v0: D.View, v: D.View, w: D.View, o: nat, ws: seq<PageWrite>)
    requires LanesAfter(g, v0, v, o, ws) && L.LanesOf(g, w, o) == L.LanesOf(g, v, o)
    ensures LanesAfter(g, v0, w, o, ws)
  {
  }

  lemma RestStep(g: Geometry, v0: D.View, v: D.View, w: D.View, o: nat)
    requires RestKept(g, v0, v) && L.Elsewhere(g, v, w, o) && (o == 0 || o == g.J)
    ensures RestKept(g, v0, w)
  {
    forall b | 0 <= b < g.U && !L.InLanes(g, v0.js, 0, b) && !L.InLanes(g, v0.js, g.J, b)
      ensures w.blk[b] == v0.blk[b]
    {
      L.SameLanes(g, v0.js, v.js, o, b);
    }
  }

  /** After n acts the lanes hold the writes of their temperature, and the map is the running one. */
  ghost predicate SessionAt(g: Geometry, v0: D.View, v: D.View, acts: seq<Act>, n: nat) {
    && n <= |acts|
    && LanesAfter(g, v0, v, 0, Only(acts, true, n)) && LanesAfter(g, v0, v, g.J, Only(acts, false, n))
    && RestKept(g, v0, v)
    && v.pm == MapAfter(g.M, L.LanesOf(g, v0, 0), L.LanesOf(g, v0, g.J), v0.pm, acts, n)
  }

  lemma PutStep(g: Geometry, v0: D.View, v: D.View, w: D.View, acts: seq<Act>, n: nat)
    requires SessionAt(g, v0, v, acts, n) && AtRest(g, v) && AtRest(g, w) && n < |acts| && acts[n].Put?
    requires ActDone(g, v, w, acts, n)
    ensures SessionAt(g, v0, w, acts, n + 1)
  {
    hide D.UserPagesOk, D.ListsOk, D.RowsOk, D.MapOk, D.CountsOk, D.Settled, LanesAfter, RestKept, Open, L.LanesOf, PushAll, NextPlace, L.Elsewhere;
    var o, ws := Off(g, acts[n].isHot), Only(acts, acts[n].isHot, n);
    var q := Off(g, !acts[n].isHot);
    RestStep(g, v0, v, w, o);
    L.OtherLanes(g, v, w, o, q);
    hide D.Inv;
    LanesPushed(g, v0, v, w, o, ws, acts[n].write);
    LanesUntouched(g, v0, v, w, q, Only(acts, !acts[n].isHot, n));
    PutMap(g, v0, v, w, acts, n);
  }

  lemma PutMap(g: Geometry, v0: D.View, v: D.View, w: D.View, acts: seq<Act>, n: nat)
    requires SessionAt(g, v0, v, acts, n) && n < |acts| && acts[n].Put? && ActDone(g, v, w, acts, n)
    ensures w.pm == MapAfter(g.M, L.LanesOf(g, v0, 0), L.LanesOf(g, v0, g.J), v0.pm, acts, n + 1)
  {
    hide RestKept, Open, L.LanesOf, PushAll, NextPlace, L.Elsewhere, LanesOk, RoomFor, Addressed;
  }

  lemma DropStep(g: Geometry, v0: D.View, v: D.View, w: D.View, acts: seq<Act>, n: nat)
    requires SessionAt(g, v0, v, acts, n) && n < |acts| && acts[n].Drop? && ActDone(g, v, w, acts, n)
    ensures SessionAt(g, v0, w, acts, n + 1)
  {
    hide LanesAfter, Open, PushAll, NextPlace, LanesOk;
    assert L.LanesOf(g, w, 0) == L.LanesOf(g, v, 0) && L.LanesOf(g, w, g.J) == L.LanesOf(g, v, g.J);
    LanesUntouched(g, v0, v, w, 0, Only(acts, true, n));
    LanesUntouched(g, v0, v, w, g.J, Only(acts, false, n));
    DropMap(g, v0, v, w, acts, n);
  }

  lemma DropMap(g: Geometry, v0: D.View, v: D.View, w: D.View, acts: seq<Act>, n: nat)
    requires SessionAt(g, v0, v, acts, n) && n < |acts| && acts[n].Drop? && ActDone(g, v, w, acts, n)
    ensures w.pm == MapAfter(g.M, L.LanesOf(g, v0, 0), L.LanesOf(g, v0, g.J), v0.pm, acts, n + 1)
  {
    hide RestKept, Open, L.LanesOf, PushAll, NextPlace, LanesOk, RoomFor, Addressed;
  }

  lemma SessionBegins(g: Geometry, v: D.View, acts: seq<Act>)
    requires AtRest(g, v)
    ensures SessionAt(g, v, v, acts, 0)
  {
    hide D.UserPagesOk, D.ListsOk, D.RowsOk, D.MapOk, D.CountsOk, D.Settled, Open, L.LanesOf;
    L.LanesFit(g, v, 0);
    L.LanesFit(g, v, g.J);
  }

  lemma {:induction false} SessionRuns(g: Geometry, vs: seq<D.View>, acts: seq<Act>, n: nat)
    requires SessionUpTo(g, vs, acts, n)
    ensures SessionAt(g, vs[0], vs[n], acts, n)
  {
    hide AtRest, ActDone, SessionAt;
    if n == 0 {
      SessionBegins(g, vs[0], acts);
    } else {
      SessionRuns(g, vs, acts, n - 1);
      assert StepDone(g, vs, acts, n - 1);
      if acts[n - 1].Put? {
        PutStep(g, vs[0], vs[n - 1], vs[n], acts, n - 1);
      } else {
        DropStep(g, vs[0], vs[n - 1], vs[n], acts, n - 1);
      }
    }
  }

  // ---------------------------------------------------------------- the recovered volume

  /** The journal on which the last act's page went. */
  ghost function LastJournal(g: Geometry, v0: D.View, acts: seq<Act>): nat {
    if |acts| == 0 || acts[|acts| - 1].Drop? then 0
    else
      var o := Off(g, acts[|acts| - 1].isHot);
      var ws := Only(acts, acts[|acts| - 1].isHot, |acts|);
      o + if LanesOk(g.M, L.LanesOf(g, v0, o)) then TornLane(g.M, L.LanesOf(g, v0, o), ws) else 0
  }

  /** The flash when power fails after the last act, or, if `torn`, before the list that its
      page made due was programmed. */
  ghost predicate FlashLeft(g: Geometry, v0: D.View, w: D.View, acts: seq<Act>, torn: bool, flash: seq<Block>) {
    if torn then
      && |acts| > 0 && acts[|acts| - 1].Put?
      && var k := LastJournal(g, v0, acts);
         && k < |w.js| && k < |w.metas| && w.js[k].block < |w.blk| && |w.blk[w.js[k].block]| == g.P && w.js[k].page == g.M
         && flash == w.blk[w.js[k].block := w.blk[w.js[k].block][g.M := Erased]]
    else flash == w.blk
  }

  ghost function SessionLeft(g: Geometry, v0: D.View, acts: seq<Act>, torn: bool): Session {
    var lastHot := |acts| > 0 && acts[|acts| - 1].Put? && acts[|acts| - 1].isHot;
    Session(v0, Only(acts, true, |acts|), Only(acts, false, |acts|), torn && lastHot, torn && !lastHot)
  }

  /** The torn journal belongs to the temperature of the last act. */
  lemma TornPlace(g: Geometry, v0: D.View, w: D.View, acts: seq<Act>, flash: seq<Block>)
    requires D.Inv(g, v0) && FlashLeft(g, v0, w, acts, true, flash)
    requires var isHot := acts[|acts| - 1].isHot; LanesAfter(g, v0, w, Off(g, isHot), Only(acts, isHot, |acts|))
    ensures var o := Off(g, acts[|acts| - 1].isHot); o <= LastJournal(g, v0, acts) < o + g.J
  {
    hide D.JournalsOk, D.UserPagesOk, D.ListsOk, D.RowsOk, D.MapOk, D.CountsOk, PushAll, Open, Addressed;
    var isHot := acts[|acts| - 1].isHot;
    var xs, ws := L.LanesOf(g, v0, Off(g, isHot)), Only(acts, isHot, |acts|);
    hide L.LanesOf, LanesOk;
    assert |ws| > 0;
    assert Open(g.M, PushAll(g.M, xs, ws, |ws| - 1)) < |xs|;
  }

  /** The block of one journal. */
  lemma BlockLeft(g: Geometry, v0: D.View, w: D.View, acts: seq<Act>, torn: bool, flash: seq<Block>, k: nat)
    requires D.Inv(g, w) && RestKept(g, v0, w) && FlashLeft(g, v0, w, acts, torn, flash) && k < 2 * g.J
    ensures k < |w.js| && w.js[k].block < g.U == |w.blk| && L.LaneAt(w, k).block == w.blk[w.js[k].block]
    ensures L.LaneAt(w, k).at == w.js[k] && |w.blk[w.js[k].block]| == g.P
    ensures BlockAt(v0.(blk := flash), k)
         == if torn && k == LastJournal(g, v0, acts) then w.blk[w.js[k].block][g.M := Erased] else w.blk[w.js[k].block]
  {
    hide D.UserPagesOk, D.ListsOk, D.RowsOk, D.MapOk, D.CountsOk, LastJournal, L.InLanes;
    assert D.JournalOk(g, w, k);
    var i := LastJournal(g, v0, acts);
    assert torn && k != i ==> w.js[i].block != w.js[k].block;
  }

  lemma HeldLanes(g: Geometry, v0: D.View, w: D.View, o: nat, acts: seq<Act>, isHot: bool, torn: bool, flash: seq<Block>)
    requires D.Inv(g, w) && RestKept(g, v0, w) && o == Off(g, isHot)
    requires LanesAfter(g, v0, w, o, Only(acts, isHot, |acts|)) && FlashLeft(g, v0, w, acts, torn, flash)
    requires torn ==> var q := Off(g, acts[|acts| - 1].isHot); q <= LastJournal(g, v0, acts) < q + g.J
    requires |L.LanesOf(g, v0, o)| == g.J
    ensures HeldBy(g.M, L.LanesOf(g, v0, o), Only(acts, isHot, |acts|),
                   torn && acts[|acts| - 1].isHot == isHot, FlashOf(g, v0.(blk := flash), o))
  {
    hide D.Inv, TornLane, PushAll, RoomFor, Addressed, LanesOk, BlockAt, RestKept, L.LaneAt;
    var zs, fs := L.LanesOf(g, w, o), FlashOf(g, v0.(blk := flash), o);
    var lost := torn && acts[|acts| - 1].isHot == isHot;
    if lost {
      var i := LastJournal(g, v0, acts);
      BlockLeft(g, v0, w, acts, torn, flash, i);
      assert zs[i - o] == L.LaneAt(w, i);
    }
    forall j: nat | j < g.J
      ensures fs[j] == if lost && j == TornLane(g.M, L.LanesOf(g, v0, o), Only(acts, isHot, |acts|)) then zs[j].block[g.M := Erased] else zs[j].block
    {
      var k := o + j;
      BlockLeft(g, v0, w, acts, torn, flash, k);
      assert fs[j] == BlockAt(v0.(blk := flash), k) && zs[j] == L.LaneAt(w, k);
    }
    if lost {
      OnlyNonEmpty(acts, isHot);
    }
  }

  lemma OnlyNonEmpty(acts: seq<Act>, isHot: bool)
    requires |acts| > 0 && acts[|acts| - 1].Put? && acts[|acts| - 1].isHot == isHot
    ensures |Only(acts, isHot, |acts|)| > 0
  {
  }

  /** The session began right after a commit, with the full journals first. */
  ghost predicate FromCommit(g: Geometry, v0: D.View) {
    && AtRest(g, v0) && FullFirst(g.M, L.LanesOf(g, v0, 0)) && FullFirst(g.M, L.LanesOf(g, v0, g.J))
  }

  lemma PendingLeft(g: Geometry, v0: D.View, w: D.View, o: nat, acts: seq<Act>, isHot: bool, torn: bool, flash: seq<Block>)
    requires FromCommit(g, v0) && D.Inv(g, w) && RestKept(g, v0, w) && o == Off(g, isHot) && |acts| < MAX_UINT32
    requires LanesAfter(g, v0, w, o, Only(acts, isHot, |acts|)) && FlashLeft(g, v0, w, acts, torn, flash)
    requires torn ==> var q := Off(g, acts[|acts| - 1].isHot); q <= LastJournal(g, v0, acts) < q + g.J
    ensures Pending(g, v0, o, Only(acts, isHot, |acts|), torn && acts[|acts| - 1].isHot == isHot, FlashOf(g, v0.(blk := flash), o))
  {
    hide D.UserPagesOk, D.RowsOk, D.MapOk, D.CountsOk, D.ListsOk, D.JournalsOk, D.Settled, LastJournal, L.LanesOf, PushAll, HeldBy, FlashOf, Open, RestKept, FlashLeft, AllTidy, FullFirst, ListedFirst;
    L.LanesTidy(g, v0, o);
    HeldLanes(g, v0, w, o, acts, isHot, torn, flash);
    if torn { WasPut(g, v0, w, acts, flash); }
    LaneOrder(g, v0, o, Only(acts, isHot, |acts|), torn && acts[|acts| - 1].isHot == isHot, FlashOf(g, v0.(blk := flash), o));
  }

  lemma LaneOrder(g: Geometry, v0: D.View, o: nat, ws: seq<PageWrite>, torn: bool, fs: seq<Block>)
    requires LanesOk(g.M, L.LanesOf(g, v0, o)) && FullFirst(g.M, L.LanesOf(g, v0, o)) && HeldBy(g.M, L.LanesOf(g, v0, o), ws, torn, fs)
    ensures ListedFirst(g.M, L.LanesOf(g, v0, o), ws, torn)
  {
    hide L.LanesOf, LanesOk, FullFirst, TornLane, ListedFirst, PushAll;
    StaysListedFirst(g.M, L.LanesOf(g, v0, o), ws, torn);
  }

  lemma OtherBlocks(g: Geometry, v0: D.View, w: D.View, acts: seq<Act>, torn: bool, flash: seq<Block>)
    requires RestKept(g, v0, w) && FlashLeft(g, v0, w, acts, torn, flash) && |v0.js| == 3 * g.J
    requires torn ==> var q := Off(g, acts[|acts| - 1].isHot); q <= LastJournal(g, v0, acts) < q + g.J
    ensures |flash| == |v0.blk| == g.U
    ensures forall b :: 0 <= b < g.U && !L.InLanes(g, v0.js, 0, b) && !L.InLanes(g, v0.js, g.J, b) ==> flash[b] == v0.blk[b]
  {
    hide LastJournal;
    if torn {
      var k := LastJournal(g, v0, acts);
      assert v0.js[k].block == w.js[k].block;
      assert L.InLanes(g, v0.js, 0, w.js[k].block) || L.InLanes(g, v0.js, g.J, w.js[k].block);
    }
  }

  /** A session on idle dies leaves a device that FTL_Init can replay: exactly its page writes,
      each temperature's in edition order. */
  lemma SessionIsReplayable(g: Geometry, vs: seq<D.View>, acts: seq<Act>, torn: bool, flash: seq<Block>)
    requires SessionOf(g, vs, acts) && FromCommit(g, vs[0]) && |acts| < MAX_UINT32
    requires FlashLeft(g, vs[0], vs[|acts|], acts, torn, flash)
    ensures Written(g, SessionLeft(g, vs[0], acts, torn), flash)
  {
    hide AtRest, ActDone, LanesAfter, RestKept, FlashLeft, LastJournal, FromCommit, Pending, FlashOf, L.InLanes;
    SessionRuns(g, vs, acts, |acts|);
    var v0, w := vs[0], vs[|acts|];
    RestInv(g, v0);
    RestInv(g, w);
    if torn {
      WasPut(g, v0, w, acts, flash);
      TornPlace(g, v0, w, acts, flash);
    }
    PendingLeft(g, v0, w, 0, acts, true, torn, flash);
    PendingLeft(g, v0, w, g.J, acts, false, torn, flash);
    OtherBlocks(g, v0, w, acts, torn, flash);
  }

  lemma RestInv(g: Geometry, v: D.View)
    requires AtRest(g, v)
    ensures D.Inv(g, v) && |v.js| == 3 * g.J
  {
  }

  lemma WasPut(g: Geometry, v0: D.View, w: D.View, acts: seq<Act>, flash: seq<Block>)
    requires FlashLeft(g, v0, w, acts, true, flash)
    ensures |acts| > 0 && acts[|acts| - 1].Put?
  {
  }

  /** What a power loss costs.  After FTL_Init an address is mapped as it was before the power
      loss if and only if it survives: its last write was cold, or hot without a cold write to
      it in the session; or it was trimmed, and was neither mapped at the commit nor written
      since. */
  lemma PowerLossCost(g: Geometry, vs: seq<D.View>, acts: seq<Act>, torn: bool, a: nat)
    requires SessionOf(g, vs, acts) && a < g.cap
    ensures |vs[0].pm| == |vs[|acts|].pm| == |RecoveredMap(g, SessionLeft(g, vs[0], acts, torn))| == g.cap
    ensures RecoveredMap(g, SessionLeft(g, vs[0], acts, torn))[a] == vs[|acts|].pm[a] <==> Survives(acts, |acts|, a, vs[0].pm[a])
  {
    hide AtRest, ActDone, RestKept, Recovered, MapAfter, PushAll, L.LanesOf, RoomFor, Addressed, LanesOk, Apart, Survives;
    SessionRuns(g, vs, acts, |acts|);
    LanesAreApart(g, vs[0]);
    MapSized(g, vs[0]);
    ReplayExact(g.M, L.LanesOf(g, vs[0], 0), L.LanesOf(g, vs[0], g.J), vs[0].pm, acts, |acts|, a);
  }

  lemma MapSized(g: Geometry, v: D.View)
    requires AtRest(g, v)
    ensures |v.pm| == g.cap
  {
  }

  lemma LanesAreApart(g: Geometry, v: D.View)
    requires AtRest(g, v)
    ensures Apart(L.LanesOf(g, v, 0), L.LanesOf(g, v, g.J))
  {
    hide D.UserPagesOk, D.ListsOk, D.RowsOk, D.MapOk, D.CountsOk, D.Settled, Open;
    var hot, cold := L.LanesOf(g, v, 0), L.LanesOf(g, v, g.J);
    forall i, j | 0 <= i < |hot| && 0 <= j < |cold|
      ensures hot[i].at.block != cold[j].at.block
    {
      var k := g.J + j;
      assert D.JournalOk(g, v, i) && D.JournalOk(g, v, k);
      assert v.js[i].block != v.js[k].block;
    }
  }

  /** A surviving address reads as it did before the power loss. */
  lemma SurvivorsRead(g: Geometry, vs: seq<D.View>, acts: seq<Act>, torn: bool, flash: seq<Block>, a: nat, zero: PageData)
    requires SessionOf(g, vs, acts) && FlashLeft(g, vs[0], vs[|acts|], acts, torn, flash) && a < g.cap
    requires |vs[0].pm| == g.cap && Survives(acts, |acts|, a, vs[0].pm[a])
    ensures |vs[|acts|].pm| == |RecoveredMap(g, SessionLeft(g, vs[0], acts, torn))| == g.cap
    ensures RecoveredPages(g, SessionLeft(g, vs[0], acts, torn), flash, zero)[a] == D.PagesOf(vs[|acts|], zero)[a]
  {
    hide ActDone, RecoveredMap, Survives, LastJournal, Open, L.LanesOf, D.UserPagesOk, D.ListsOk, D.RowsOk, D.CountsOk, D.Settled, D.JournalsOk;
    PowerLossCost(g, vs, acts, torn, a);
    assert AtRest(g, vs[|acts|]) && D.EntryOk(g, vs[|acts|], a);
  }
}
