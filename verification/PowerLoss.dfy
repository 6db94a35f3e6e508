/** A session of page writes, the power loss that ends it, and the mount after it. */
module PowerLoss {
  import opened Geometry
  import opened Flash
  import RS = ReplaySpec
  import L = Lanes
  import D = DataSpec
  import PmtSpec
  import PageMap
  import ListLoss
  import U = Ubi
  import opened FtlState
  import opened Logs
  import opened Commit
  import opened Data
  import opened DataReclaim
  import opened Replay
  import opened ReplayData
  import opened FtlApi
  import opened Recovery
  import opened Sessions

  // ---------------------------------------------------------------- the session

  function AddrOf(act: RS.Act): nat {
    match act
    case Put(w, _) => w.addr
    case Drop(a) => a
  }

  lemma MountedRests(g: Geometry, v: D.View)
    requires D.Inv(g, v) && D.Settled(g, v) && |v.js| == 3 * g.J && HasRoom(g, v.js, true) && HasRoom(g, v.js, false)
    ensures AtRest(g, v)
  {
    hide D.Inv, D.Settled;
    SetRests(g, v, true);
    SetRests(g, v, false);
  }

  lemma SetRests(g: Geometry, v: D.View, isHot: bool)
    requires D.Inv(g, v) && |v.js| == 3 * g.J && HasRoom(g, v.js, isHot)
    ensures RS.Open(g.M, L.LanesOf(g, v, Off(g, isHot))) < |L.LanesOf(g, v, Off(g, isHot))|
  {
    hide D.UserPagesOk, D.ListsOk, D.RowsOk, D.MapOk, D.CountsOk;
    var o := Off(g, isHot);
    var k: nat :| o <= k < o + g.J && v.js[k].page < g.M;
    assert D.JournalOk(g, v, k);
    var xs := L.LanesOf(g, v, o);
    var i := RS.Open(g.M, xs);
    hide L.LanesOf, RS.Open;
    assert xs[k - o] == L.LaneAt(v, k);
  }

  lemma SessionGrows(g: Geometry, vs: seq<D.View>, acts: seq<RS.Act>, n: nat, w: D.View)
    requires SessionUpTo(g, vs, acts, n) && |vs| == n + 1 && n < |acts| && AtRest(g, w) && ActDone(g, vs[n], w, acts, n)
    ensures SessionUpTo(g, vs + [w], acts, n + 1)
  {
    hide AtRest, ActDone;
    forall i: nat | i < n + 1
      ensures StepDone(g, vs + [w], acts, i)
    {
      if i < n {
        assert StepDone(g, vs, acts, i);
      }
    }
  }

  lemma Begun(g: Geometry, vs: seq<D.View>, acts: seq<RS.Act>)
    requires |vs| == 1 && AtRest(g, vs[0])
    ensures SessionUpTo(g, vs, acts, 0)
  {
    hide AtRest;
  }

  lemma {:induction false} OnlyMore(acts: seq<RS.Act>, act: RS.Act, isHot: bool, n: nat)
    requires n <= |acts|
    ensures RS.Only(acts + [act], isHot, n) == RS.Only(acts, isHot, n)
  {
    if n > 0 {
      OnlyMore(acts, act, isHot, n - 1);
    }
  }

  /** A session does not depend on what comes after it. */
  lemma SessionMore(g: Geometry, vs: seq<D.View>, acts: seq<RS.Act>, act: RS.Act)
    requires SessionUpTo(g, vs, acts, |acts|)
    ensures SessionUpTo(g, vs, acts + [act], |acts|)
  {
    hide AtRest, L.Pushed, L.Dropped;
    forall i: nat | i < |acts|
      ensures StepDone(g, vs, acts + [act], i)
    {
      assert StepDone(g, vs, acts, i);
      OnlyMore(acts, act, true, i);
      OnlyMore(acts, act, false, i);
    }
  }

  // ---------------------------------------------------------------- the power loss

  /** DATA_Write's page for act n goes to journal j, and the session goes on from view v. */
  ghost predicate Writing(g: Geometry, vs: seq<D.View>, acts: seq<RS.Act>, n: nat, v: D.View, j: nat) {
    && SessionUpTo(g, vs, acts, n) && |vs| == n + 1 && vs[n] == v && n + 1 == |acts| && acts[n].Put?
    && j < g.J && |v.js| == 3 * g.J && RoomForTwo(g, v.js, acts[n].isHot) && D.Inv(g, v) && D.Settled(g, v) && IsOpen(g, v, acts[n].isHot, j)
    && D.Appendable(g, v, Off(g, acts[n].isHot) + j, Off(g, acts[n].isHot) + j, acts[n].write.addr)
    && HasRoom(g, v.js, true) && HasRoom(g, v.js, false)
  }

  ghost predicate CanWrite(g: Geometry, acts: seq<RS.Act>, n: nat, v: D.View, j: nat) {
    && n < |acts| && acts[n].Put? && j < g.J && D.Inv(g, v)
    && D.Appendable(g, v, Off(g, acts[n].isHot) + j, Off(g, acts[n].isHot) + j, acts[n].write.addr)
  }

  ghost function AfterWriting(g: Geometry, acts: seq<RS.Act>, n: nat, v: D.View, j: nat): D.View {
    if CanWrite(g, acts, n, v, j) then
      D.Written(g, v, Off(g, acts[n].isHot) + j, acts[n].write.addr, |RS.Only(acts, acts[n].isHot, n)|, acts[n].write.data)
    else v
  }

  lemma ReadyToAppend(g: Geometry, v: D.View, isHot: bool, j: nat, addr: nat)
    requires D.Inv(g, v) && D.Settled(g, v) && addr < g.cap && j < g.J && |v.js| == 3 * g.J && v.js[Off(g, isHot) + j].page < g.M
    ensures D.Appendable(g, v, Off(g, isHot) + j, Off(g, isHot) + j, addr)
  {
    hide D.UserPagesOk, D.ListsOk, D.RowsOk, D.MapOk, D.CountsOk, D.Settled, D.Appendable;
    D.AppendReady(g, v, Off(g, isHot) + j, Off(g, isHot) + j, addr);
  }

  lemma OtherRoom(g: Geometry, v: D.View, w: D.View, isHot: bool, j: nat)
    requires |w.js| == |v.js| == 3 * g.J && j < g.J && w.js == v.js[Off(g, isHot) + j := w.js[Off(g, isHot) + j]]
    requires HasRoom(g, v.js, !isHot)
    ensures HasRoom(g, w.js, !isHot)
  {
    var k: nat :| Off(g, !isHot) <= k < Off(g, !isHot) + g.J && v.js[k].page < g.M;
    assert w.js[k].page < g.M;
  }

  lemma WritingDone(g: Geometry, vs: seq<D.View>, acts: seq<RS.Act>, n: nat, v: D.View, j: nat)
    requires Writing(g, vs, acts, n, v, j)
    ensures SessionOf(g, vs + [AfterWriting(g, acts, n, v, j)], acts)
  {
    hide D.Inv, D.Settled, D.Appendable, D.Written, D.Updated, HasRoom, SessionUpTo, AtRest, L.Pushed, RoomForTwo;
    var isHot, k, e := acts[n].isHot, Off(g, acts[n].isHot) + j, |RS.Only(acts, acts[n].isHot, n)|;
    var w := AfterWriting(g, acts, n, v, j);
    D.WrittenOutcome(g, v, k, acts[n].write.addr, e, acts[n].write.data);
    WrittenOnOpen(g, v, isHot, j, acts[n].write.addr, e, acts[n].write.data);
    RoomForOne(g, v.js, w.js, isHot, k);
    OtherRoom(g, v, w, isHot, j);
    MountedRests(g, w);
    SessionGrows(g, vs, acts, n, w);
  }

  /** The journal that DATA_Write fills last. */
  lemma WritingLast(g: Geometry, vs: seq<D.View>, acts: seq<RS.Act>, n: nat, v: D.View, j: nat)
    requires Writing(g, vs, acts, n, v, j)
    ensures LastJournal(g, vs[0], acts) == Off(g, acts[n].isHot) + j
  {
    hide D.Inv, D.Settled, D.Appendable, HasRoom, SessionUpTo, RS.Open, RestKept, RS.PushAll, L.LanesOf, RS.MapAfter, RS.LanesOk, Addressed;
    var isHot := acts[n].isHot;
    SessionRuns(g, vs, acts, n);
    var ws, us := RS.Only(acts, isHot, n), RS.Only(acts, isHot, n + 1);
    assert us == ws + [acts[n].write];
    RS.PushPrefix(g.M, L.LanesOf(g, vs[0], Off(g, isHot)), ws, us, |ws|);
  }

  /** Flash between the page and the list. */
  lemma WritingCut(g: Geometry, vs: seq<D.View>, acts: seq<RS.Act>, n: nat, v: D.View, j: nat, x: D.View)
    requires Writing(g, vs, acts, n, v, j)
    requires D.IsAppend(g, v, x, Off(g, acts[n].isHot) + j, Off(g, acts[n].isHot) + j, acts[n].write.addr,
                        |RS.Only(acts, acts[n].isHot, n)|, acts[n].write.data)
    ensures FlashLeft(g, vs[0], AfterWriting(g, acts, n, v, j), acts, v.js[Off(g, acts[n].isHot) + j].page + 1 == g.M, x.blk)
  {
    hide D.Inv, D.Settled, D.Appendable, D.Updated, HasRoom, SessionUpTo, LastJournal;
    WritingLast(g, vs, acts, n, v, j);
    hide IsOpen;
    var k, e := Off(g, acts[n].isHot) + j, |RS.Only(acts, acts[n].isHot, n)|;
    if v.js[k].page + 1 == g.M {
      D.FillOutcome(g, v, k, acts[n].write.addr, e, acts[n].write.data);
      InvShape(g, x);
      Unclosed(g, x, k);
    }
  }

  /** A block without its list. */
  lemma Unclosed(g: Geometry, x: D.View, k: nat)
    requires D.Shape(g, x) && k < 2 * g.J && x.js[k].block < g.U && x.js[k].page == g.M
    requires |x.blk[x.js[k].block]| == g.P && Filled(x.blk[x.js[k].block], g.M)
    ensures var w, b := D.Close(g, x, k), x.js[k].block;
            && |w.js| == |x.js| && |w.metas| == |x.metas| && |w.blk| == g.U && w.js[k] == x.js[k] && |w.blk[b]| == g.P
            && x.blk == w.blk[b := w.blk[b][g.M := Erased]]
  {
    var w, b := D.Close(g, x, k), x.js[k].block;
    assert w.blk[b][g.M := Erased] == x.blk[b];
  }

  lemma DataFlash(s: Ftl)
    requires Ready(s)
    ensures s.Data().blk == DataBlocks(s.g, s.ubi.blk) && s.Sound() && Shaped(s.ubi.blk, s.g.U, s.g.P)
  {
    ReadyShape(s);
  }

  lemma NotTorn(g: Geometry, v0: D.View, w: D.View, acts: seq<RS.Act>, flash: seq<Block>)
    requires flash == w.blk
    ensures FlashLeft(g, v0, w, acts, false, flash)
  {
  }

  /** A session after a commit leaves a device that FTL_Init recovers, wherever power fails. */
  lemma SessionInterrupted(g: Geometry, blk: seq<Block>, list: seq<nat>, r: Root, d: seq<nat>, vs: seq<D.View>, acts: seq<RS.Act>, torn: bool)
    requires SessionOf(g, vs, acts) && FromCommit(g, vs[0]) && |acts| < RS.MAX_UINT32 && RecordIs(g, vs[0], blk, list, r, d)
    requires FlashLeft(g, vs[0], vs[|acts|], acts, torn, DataBlocks(g, blk))
    ensures Interrupted(g, blk, r, d, list, SessionLeft(g, vs[0], acts, torn))
  {
    hide Logs.Stored, StoredMap, Written, FromCommit, FlashLeft, DataBlocks, DataDirty, PageMap.MapOf;
    SessionIsReplayable(g, vs, acts, torn, DataBlocks(g, blk));
  }

  // ---------------------------------------------------------------- power comes back

  /** Power-on and FTL_Init: the volume is recovered.  The new state is valid if no cluster but
      the first lived in the page-map block being filled, whose list is lost. */
  method MountAgain(g: Geometry, ubi: U.Ubi, ghost r: Root, ghost d: seq<nat>, ghost list: seq<nat>, ghost x: Session, ghost T: set<nat>)
    returns (t: Ftl)
    requires ubi.Valid() && ubi in ubi.Repr && ubi.blocks == g.U && ubi.pages == g.P
    requires Interrupted(g, ubi.blk, r, d, list, x)
    requires !ListLoss.InOpenBlock(g, StoredMap(g, ubi.blk, r, d, list)) || FewClusters(g, x, T)
    modifies ubi.Repr
    ensures fresh(t) && t.g == g && t.ubi == ubi && Mounted(t) && (FewClusters(g, x, T) ==> CachedIn(t, T))
    ensures !ListLoss.InOpenBlock(g, StoredMap(g, old(ubi.blk), r, d, list)) ==> Valid(t)
    ensures t.Pages() == RecoveredPages(g, x, DataBlocks(g, old(ubi.blk)), ZeroPage(g))
    ensures FewClusters(g, x, T) ==> Unfinished(t, x)
    ensures FewClusters(g, x, T) && !x.hotTorn && !x.coldTorn ==> InterruptedStill(g, ubi.blk, t.listed, x)
    ensures FewClusters(g, x, T) && !x.hotTorn && !x.coldTorn ==> DataBlocks(g, ubi.blk) == DataBlocks(g, old(ubi.blk))
  {
    hide Unfinished, Written, Mounted, Interrupted, FewClusters, RecoveredPages, Ftl.Pages, StoredMap, DataBlocks, ListLoss.InOpenBlock;
    ghost var kept := !ListLoss.InOpenBlock(g, StoredMap(g, ubi.blk, r, d, list));
    ListSize(g, ubi.blk, r, d, list, x);
    if kept {
      ListUnneeded(g, ubi.blk, r, d, list, x);
    }
    t := new Ftl(g, ubi, if kept then ZeroList(g) else list, kept);
    WrittenPages(g, ubi.blk, r, d, list, x);
    FtlInit(t, r, d, x, T);
    if FewClusters(g, x, T) && !x.hotTorn && !x.coldTorn {
      StillInterrupted(t, x);
    }
  }

  /** The flash is one that FTL_Init recovers in the same way. */
  ghost predicate InterruptedStill(g: Geometry, blk: seq<Block>, list: seq<nat>, x: Session) {
    exists r: Root, d: seq<nat> :: Interrupted(g, blk, r, d, list, x)
  }

  lemma WrittenPages(g: Geometry, blk: seq<Block>, r: Root, d: seq<nat>, list: seq<nat>, x: Session)
    requires Interrupted(g, blk, r, d, list, x)
    ensures Written(g, x, DataBlocks(g, blk))
  {
    hide Written, Stored, StoredMap, PageMap.MapOf;
  }

  /** After FTL_Init the committed tables and the pages written since are still on flash. */
  lemma StillInterrupted(t: Ftl, x: Session)
    requires Unfinished(t, x) && Written(t.g, x, DataBlocks(t.g, t.ubi.blk))
    ensures InterruptedStill(t.g, t.ubi.blk, t.listed, x)
  {
    hide Written, Stored, StoredMap, PageMap.MapOf, DataBlocks, CounterLeft;
    var r: Root, d: seq<nat> :| RecordIs(t.g, x.v0, t.ubi.blk, t.listed, r, d);
    assert Interrupted(t.g, t.ubi.blk, r, d, t.listed, x);
  }

  lemma ListSize(g: Geometry, blk: seq<Block>, r: Root, d: seq<nat>, list: seq<nat>, x: Session)
    requires Interrupted(g, blk, r, d, list, x)
    ensures |list| == g.P
  {
    hide PageMap.MapOf, Written, RootStored, BdtStored, HdiStored, PmtSpec.Inv;
    PmtSpec.StableShape(g, StoredMap(g, blk, r, d, list));
  }

  /** Zeros will do for the list. */
  lemma ListUnneeded(g: Geometry, blk: seq<Block>, r: Root, d: seq<nat>, list: seq<nat>, x: Session)
    requires Interrupted(g, blk, r, d, list, x) && !ListLoss.InOpenBlock(g, StoredMap(g, blk, r, d, list))
    ensures Interrupted(g, blk, r, d, ZeroList(g), x)
  {
    hide PageMap.MapOf, Written, RootStored, BdtStored, HdiStored, PmtSpec.Stable, ListLoss.InOpenBlock, PmtSpec.SameMap;
    var v, w := StoredMap(g, blk, r, d, list), StoredMap(g, blk, r, d, ZeroList(g));
    ListLoss.ForgottenIsStable(g, v);
    assert ListLoss.Forgotten(g, v) == w;
    PmtSpec.SameMapDepends(v, v, v, w);
    PageMap.SameMapOf(g, v, w);
  }

  /** What is read after the power loss. */
  ghost predicate Recovers(g: Geometry, vs: seq<D.View>, acts: seq<RS.Act>, now: seq<PageData>, zero: PageData) {
    && |vs| == |acts| + 1 && |vs[0].pm| == |vs[|acts|].pm| == |now| == g.cap
    && forall a: nat :: a < g.cap && RS.Survives(acts, |acts|, a, vs[0].pm[a]) ==> now[a] == D.PagesOf(vs[|acts|], zero)[a]
  }

  lemma RecoversAll(g: Geometry, vs: seq<D.View>, acts: seq<RS.Act>, torn: bool, flash: seq<Block>, zero: PageData)
    requires SessionOf(g, vs, acts) && FlashLeft(g, vs[0], vs[|acts|], acts, torn, flash)
    ensures Recovers(g, vs, acts, RecoveredPages(g, SessionLeft(g, vs[0], acts, torn), flash, zero), zero)
  {
    hide FlashLeft, RecoveredPages, RS.Survives, RecoveredMap, SessionUpTo, SessionLeft;
    OneAddress(g);
    PowerLossCost(g, vs, acts, torn, 0);
    assert |RecoveredPages(g, SessionLeft(g, vs[0], acts, torn), flash, zero)| == g.cap;
    forall a: nat | a < g.cap && RS.Survives(acts, |acts|, a, vs[0].pm[a])
      ensures RecoveredPages(g, SessionLeft(g, vs[0], acts, torn), flash, zero)[a] == D.PagesOf(vs[|acts|], zero)[a]
    {
      SurvivorsRead(g, vs, acts, torn, flash, a, zero);
    }
  }

  lemma OneAddress(g: Geometry)
    ensures 0 < g.cap
  {
    assert 0 <= (g.K - 1) * g.N;
  }

  /** A page map in order that maps every address as m does. */
  ghost predicate IsMap(g: Geometry, pm: PmtSpec.View, m: seq<Entry>) {
    PmtSpec.Stable(g, pm) && |pm.nodes| == g.K && PageMap.MapOf(g, pm) == m
  }

  lemma InterruptedMap(g: Geometry, blk: seq<Block>, r: Root, d: seq<nat>, list: seq<nat>, x: Session)
    requires Interrupted(g, blk, r, d, list, x)
    ensures IsMap(g, StoredMap(g, blk, r, d, list), x.v0.pm)
  {
    hide PageMap.MapOf, Written, RootStored, BdtStored, HdiStored, PmtSpec.Inv;
  }
}
