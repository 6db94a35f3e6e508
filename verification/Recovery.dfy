/** FTL_Init: the tables are mounted, both sets of journals replayed, and full journals reclaimed. */
module Recovery {
  import opened Geometry
  import opened Flash
  import RS = ReplaySpec
  import L = Lanes
  import D = DataSpec
  import PmtSpec
  import PageMap
  import opened FtlState
  import opened Logs
  import opened Commit
  import opened Data
  import opened DataReclaim
  import opened Replay
  import opened Mount
  import opened FtlApi

  /** The session that was cut short: the data region as the last commit left it, and the page
      writes of each temperature since. */
  datatype Session = Session(v0: D.View, hots: seq<RS.PageWrite>, colds: seq<RS.PageWrite>, hotTorn: bool, coldTorn: bool)

  /** A device that lost power: root r, dirty table d and the page map are those of the last
      commit; the journals hold the pages written since. */
  ghost predicate Interrupted(g: Geometry, blk: seq<Block>, r: Root, d: seq<nat>, meta: seq<nat>, x: Session) {
    && Stored(g, blk, r, d, meta)
    && |r.hot| == g.J && |r.cold| == g.J && |r.reclaim| == g.J && |r.nodes| == g.K
    && x.v0.js == r.hot + r.cold + r.reclaim && x.v0.dirty == DataDirty(g, d)
    && x.v0.pm == PageMap.MapOf(g, StoredMap(g, blk, r, d, meta))
    && Written(g, x, DataBlocks(g, blk))
  }

  /** The journals hold the session's pages, and the other data blocks are as committed. */
  ghost predicate Written(g: Geometry, x: Session, flash: seq<Block>) {
    && Pending(g, x.v0, 0, x.hots, x.hotTorn, FlashOf(g, x.v0.(blk := flash), 0))
    && Pending(g, x.v0, g.J, x.colds, x.coldTorn, FlashOf(g, x.v0.(blk := flash), g.J))
    && |flash| == |x.v0.blk| == g.U
    && forall b :: 0 <= b < g.U && !L.InLanes(g, x.v0.js, 0, b) && !L.InLanes(g, x.v0.js, g.J, b) ==> flash[b] == x.v0.blk[b]
  }

  /** The committed map overridden by the hot pages in edition order, then by the cold ones. */
  ghost function RecoveredMap(g: Geometry, x: Session): seq<Entry> {
    var hot, cold := L.LanesOf(g, x.v0, 0), L.LanesOf(g, x.v0, g.J);
    if RS.LanesOk(g.M, hot) && RS.LanesOk(g.M, cold) then RS.Recovered(g.M, hot, cold, x.v0.pm, x.hots, x.colds) else []
  }

  ghost function RecoveredPages(g: Geometry, x: Session, flash: seq<Block>, zero: PageData): (r: seq<PageData>)
    ensures |r| == |RecoveredMap(g, x)|
    ensures forall a :: 0 <= a < |r| ==> r[a] == D.ReadEntry(flash, RecoveredMap(g, x)[a], zero)
  {
    var pm := RecoveredMap(g, x);
    seq(|pm|, a requires 0 <= a < |pm| => D.ReadEntry(flash, pm[a], zero))
  }

  // ---------------------------------------------------------------- after both replays

  lemma SecondPending(g: Geometry, x: Session, d0: D.View, v1: D.View, d1: D.View)
    requires Written(g, x, d0.blk) && Tracks(d0, x.v0) && ReplayDone(g, x.v0, d0, v1, d1, 0, x.hots)
    ensures Pending(g, v1, g.J, x.colds, x.coldTorn, FlashOf(g, d1, g.J))
  {
    hide D.UserPagesOk, D.ListsOk, D.RowsOk, D.MapOk, D.CountsOk, D.Settled, RS.ListedFirst, RS.AllTidy, RS.HeldBy, RS.RoomFor, RS.PushAll, RS.Overridden, L.LanesOf, Restored;
    L.OtherLanes(g, x.v0, v1, 0, g.J);
    SecondFlash(g, x, d0, v1, d1);
  }

  lemma SecondFlash(g: Geometry, x: Session, d0: D.View, v1: D.View, d1: D.View)
    requires Tracks(d0, x.v0) && ReplayDone(g, x.v0, d0, v1, d1, 0, x.hots) && D.Inv(g, x.v0)
    ensures FlashOf(g, d1, g.J) == FlashOf(g, x.v0.(blk := d0.blk), g.J)
  {
    hide D.Settled, D.UserPagesOk, D.ListsOk, D.RowsOk, D.MapOk, D.CountsOk, Restored, RS.PushAll, RS.Overridden, L.LanesOf, RS.LanesOk;
    forall k: nat | g.J <= k < g.J + g.J
      ensures BlockAt(d1, k) == BlockAt(x.v0.(blk := d0.blk), k)
    {
      assert D.JournalOk(g, x.v0, k);
      assert !L.InLanes(g, d0.js, 0, d0.js[k].block);
    }
  }

  /** The second replay leaves the first temperature's journals alone. */
  lemma RowStays(g: Geometry, v1: D.View, d1: D.View, v2: D.View, d2: D.View, k: nat)
    requires L.Elsewhere(g, v1, v2, g.J) && OnlyTheirLists(g, d1, d2, g.J) && D.Distinct(v1.js) && Tracks(d1, v1)
    requires k < g.J && Restored(v1, d1, k)
    ensures Restored(v2, d2, k)
  {
    hide OnlyLists;
    var b := v1.js[k].block;
    assert !L.InLanes(g, v1.js, g.J, b);
    assert !L.InLanes(g, d1.js, g.J, b);
  }

  /** After both replays the lists in RAM are those of one view. */
  lemma BothRows(g: Geometry, v1: D.View, d1: D.View, v2: D.View, d2: D.View)
    requires L.Elsewhere(g, v1, v2, g.J) && OnlyTheirLists(g, d1, d2, g.J) && D.Inv(g, v1) && Tracks(d1, v1)
    requires forall k: nat :: k < g.J ==> Restored(v1, d1, k)
    requires forall k: nat :: g.J <= k < 2 * g.J ==> Restored(v2, d2, k)
    ensures forall k: nat :: k < 2 * g.J ==> Restored(v2, d2, k)
    ensures d2.metas == v2.metas
  {
    hide D.Inv, OnlyTheirLists, L.Elsewhere, D.Distinct, Restored;
    DistinctJournals(g, v1);
    forall k: nat | k < g.J
      ensures Restored(v2, d2, k)
    {
      RowStays(g, v1, d1, v2, d2, k);
    }
    TheirShape(g, d1, d2, g.J);
    LanesShape(g, v1, v2);
    SameRows(g, v2, d2);
  }

  lemma SameRows(g: Geometry, v: D.View, d: D.View)
    requires |v.metas| == |d.metas| == 2 * g.J && forall k: nat :: k < 2 * g.J ==> Restored(v, d, k)
    ensures d.metas == v.metas
  {
    forall k: nat | k < 2 * g.J
      ensures d.metas[k] == v.metas[k]
    {
      assert Restored(v, d, k);
    }
  }

  lemma LanesShape(g: Geometry, v: D.View, w: D.View)
    requires L.Elsewhere(g, v, w, g.J)
    ensures |w.metas| == 2 * g.J && |w.js| == 3 * g.J && |w.blk| == g.U
  {
  }

  lemma BothBlocks(g: Geometry, x: Session, d0: D.View, v1: D.View, d1: D.View, v2: D.View, d2: D.View)
    requires L.Elsewhere(g, x.v0, v1, 0) && L.Elsewhere(g, v1, v2, g.J) && Tracks(d0, x.v0) && Tracks(d1, v1)
    requires OnlyTheirLists(g, d0, d1, 0) && OnlyTheirLists(g, d1, d2, g.J)
    requires Written(g, x, d0.blk) && forall k: nat :: k < 2 * g.J ==> Restored(v2, d2, k)
    ensures d2.blk == v2.blk
  {
    hide Pending, OnlyLists;
    L.SameLanes(g, x.v0.js, v1.js, g.J, 0);
    forall b | 0 <= b < g.U
      ensures d2.blk[b] == v2.blk[b]
    {
      if L.InLanes(g, x.v0.js, 0, b) || L.InLanes(g, x.v0.js, g.J, b) {
        var k: nat :| k < 2 * g.J && x.v0.js[k].block == b;
        assert Restored(v2, d2, k);
        assert v1.js[k].block == b && v2.js[k].block == b;
      } else {
        L.SameLanes(g, x.v0.js, v1.js, g.J, b);
        assert !L.InLanes(g, d0.js, 0, b) && !L.InLanes(g, d1.js, g.J, b);
      }
    }
  }

  lemma BothDone(g: Geometry, x: Session, d0: D.View, v1: D.View, d1: D.View, v2: D.View, d2: D.View)
    requires Written(g, x, d0.blk) && Tracks(d0, x.v0) && D.Inv(g, x.v0)
    requires ReplayDone(g, x.v0, d0, v1, d1, 0, x.hots) && ReplayDone(g, v1, d1, v2, d2, g.J, x.colds)
    ensures d2 == v2 && D.Inv(g, d2) && D.Settled(g, d2) && d2.pm == RecoveredMap(g, x)
    ensures OnlyLists(g, d0.blk, d2.blk)
  {
    hide D.Inv, D.Settled, Written, L.Elsewhere, Restored, RS.LanesOk, RS.PushAll, RS.Overridden, L.LanesOf, OnlyTheirLists, Places, RS.Cursors;
    BothRows(g, v1, d1, v2, d2);
    BothBlocks(g, x, d0, v1, d1, v2, d2);
    L.OtherLanes(g, x.v0, v1, 0, g.J) by { InvShape(g, x.v0); InvShape(g, v1); }
    ListsApart(g, d0, d1, d2);
  }

  lemma InvShape(g: Geometry, v: D.View)
    requires D.Inv(g, v)
    ensures D.Shape(g, v) && D.JournalsOk(g, v)
  {
  }

  lemma ListsApart(g: Geometry, d0: D.View, d1: D.View, d2: D.View)
    requires OnlyTheirLists(g, d0, d1, 0) && OnlyTheirLists(g, d1, d2, g.J)
    ensures OnlyLists(g, d0.blk, d2.blk)
  {
    hide L.Elsewhere;
    forall b | 0 <= b < |d0.blk|
      ensures d0.blk[b] == d2.blk[b] || OnlyList(g, d0.blk[b], d2.blk[b])
    {
      assert d0.blk[b] == d1.blk[b] || OnlyList(g, d0.blk[b], d1.blk[b]);
      assert d1.blk[b] == d2.blk[b] || OnlyList(g, d1.blk[b], d2.blk[b]);
    }
  }

  // ---------------------------------------------------------------- FTL_Init

  /** No node of a stored map is a RAM pointer. */
  lemma NoneCached(g: Geometry, blk: seq<Block>, r: Root, d: seq<nat>, list: seq<nat>, c: nat)
    requires Stored(g, blk, r, d, list) && c < |r.nodes|
    ensures r.nodes[c].OnFlash?
  {
    hide RootStored, BdtStored, HdiStored, PmtSpec.SlotsOk, PmtSpec.HomesOk, PmtSpec.ListsOk, PmtSpec.CountsOk, PmtSpec.SlackOk, PmtSpec.Live;
  }

  /** The tables are mounted: the journals, the map and the dirty counts are the committed ones,
      and nothing is cached. */
  method MountAll(s: Ftl, ghost r: Root, ghost d: seq<nat>, ghost x: Session)
    requires s.Sound() && s.Sized() && Interrupted(s.g, s.ubi.blk, r, d, s.listed, x)
    modifies s, s.ubi.Repr
    ensures Ready(s) && Arrays(s) && Tracks(s.Data(), x.v0) && RowsSized(s.g, s.Data())
    ensures s.Data().blk == DataBlocks(s.g, old(s.ubi.blk))
    ensures forall c :: 0 <= c < |s.root.nodes| ==> s.root.nodes[c].OnFlash?
    ensures OnRecord(s.g, x.v0, s.ubi.blk, s.listed) && s.listed == old(s.listed)
  {
    hide Stored, Written, Ready, PmtSpec.SameMap, PageMap.MapOf;
    forall c: nat | c < |r.nodes|
      ensures r.nodes[c].OnFlash?
    {
      NoneCached(s.g, s.ubi.blk, r, d, s.listed, c);
    }
    ghost var blk := s.ubi.blk;
    MountTables(s, r, d);
    PageMap.SameMapOf(s.g, StoredMap(s.g, blk, r, d, s.listed), s.Pmt());
    assert |s.ubi.blk| == s.g.U by { ShapeOf(s); }
    assert DataBlocks(s.g, s.ubi.blk) == DataBlocks(s.g, blk);
    assert RecordIs(s.g, x.v0, s.ubi.blk, s.listed, s.root.(bdt := r.bdt), d);
  }

  lemma SessionParts(g: Geometry, x: Session, flash: seq<Block>)
    requires Written(g, x, flash)
    ensures Pending(g, x.v0, 0, x.hots, x.hotTorn, FlashOf(g, x.v0.(blk := flash), 0)) && D.Inv(g, x.v0)
  {
    hide D.Inv, D.Settled, RS.ListedFirst, RS.AllTidy, RS.HeldBy, RS.RoomFor, L.LanesOf;
  }

  lemma FirstFlash(g: Geometry, x: Session, d: D.View)
    requires Tracks(d, x.v0)
    ensures FlashOf(g, d, 0) == FlashOf(g, x.v0.(blk := d.blk), 0)
  {
    assert forall k: nat :: BlockAt(d, k) == BlockAt(x.v0.(blk := d.blk), k);
  }

  /** The session's pages belong to clusters that the cache can hold together. */
  ghost predicate FewClusters(g: Geometry, x: Session, T: set<nat>) {
    |T| <= g.C && Within(g, T, x.hots) && Within(g, T, x.colds)
  }

  /** No commit was made, and the edition counters are those the replays leave. */
  ghost predicate Resumed(s: Ftl, x: Session, blk: seq<Block>, list: seq<nat>)
    reads s, s.ubi
  {
    && BelowKept(s.g, blk, s.ubi.blk) && s.listed == list
    && s.hotEdition == CounterLeft(s.g, x.v0, 0, x.hots, x.hotTorn) && s.coldEdition == CounterLeft(s.g, x.v0, s.g.J, x.colds, x.coldTorn)
  }

  /** The first replay does not concern the cold journals' counter. */
  lemma ColdCounter(g: Geometry, x: Session, d0: D.View, v1: D.View, d1: D.View)
    requires Written(g, x, d0.blk) && ReplayDone(g, x.v0, d0, v1, d1, 0, x.hots)
    ensures CounterLeft(g, v1, g.J, x.colds, x.coldTorn) == CounterLeft(g, x.v0, g.J, x.colds, x.coldTorn)
  {
    hide D.UserPagesOk, D.ListsOk, D.RowsOk, D.MapOk, D.CountsOk, D.Settled, RS.ListedFirst, RS.AllTidy, RS.HeldBy, RS.RoomFor, RS.PushAll, RS.Overridden, L.LanesOf, Restored;
    L.OtherLanes(g, x.v0, v1, 0, g.J);
  }

  /** Both replays: the address map is the recovered one, and both sets of journals have room. */
  method ReplayBoth(s: Ftl, ghost x: Session, ghost d0: D.View, ghost T: set<nat>)
    requires Ready(s) && Arrays(s) && d0 == s.Data() && Tracks(d0, x.v0) && RowsSized(s.g, d0) && Written(s.g, x, d0.blk)
    requires s.listKept || (CachedIn(s, T) && FewClusters(s.g, x, T))
    modifies s, s.ubi.Repr
    ensures Mounted(s)
    ensures D.Inv(s.g, s.Data()) && s.Data().pm == RecoveredMap(s.g, x) && OnlyLists(s.g, d0.blk, s.Data().blk)
    ensures old(CachedIn(s, T)) && FewClusters(s.g, x, T) ==> CachedIn(s, T) && Resumed(s, x, old(s.ubi.blk), old(s.listed))
    ensures !x.hotTorn && !x.coldTorn ==> s.Data().blk == d0.blk
  {
    hide Ready, Ftl.Data, D.Inv, D.Settled, Written, Tracks, RowsSized, ReplayDone, Pending, OnlyLists, RecoveredMap, FlashOf, HasRoom;
    hide Within, CachedIn, CounterLeft;
    SessionParts(s.g, x, d0.blk);
    FirstFlash(s.g, x, d0);
    ghost var v1 := DataReplay(s, true, x.v0, d0, x.hots, x.hotTorn, T);
    ghost var d1 := s.Data();
    SecondPending(s.g, x, d0, v1, d1);
    SecondReady(s.g, x, d0, v1, d1);
    ghost var v2 := DataReplay(s, false, v1, d1, x.colds, x.coldTorn, T);
    ColdCounter(s.g, x, d0, v1, d1);
    BothDone(s.g, x, d0, v1, d1, v2, s.Data());
    BothHaveRoom(s.g, x, d0, v1, d1, v2, s.Data());
  }

  /** The session filled neither set. */
  lemma SetHasRoom(g: Geometry, v0: D.View, d0: D.View, v: D.View, d: D.View, isHot: bool, ws: seq<RS.PageWrite>, torn: bool, fs: seq<Block>)
    requires Pending(g, v0, Off(g, isHot), ws, torn, fs) && ReplayDone(g, v0, d0, v, d, Off(g, isHot), ws)
    ensures |v.js| == 3 * g.J && HasRoom(g, v.js, isHot)
  {
    hide D.Inv, D.Settled, RS.AllTidy, RS.ListedFirst, RS.HeldBy, Restored, OnlyTheirLists, RS.Overridden;
    var o := Off(g, isHot);
    var zs := RS.PushAll(g.M, L.LanesOf(g, v0, o), ws, |ws|);
    var j := RS.Open(g.M, zs);
    hide RS.Open, RS.PushAll, L.LanesOf;
    assert Places(g, v.js, o)[j] == zs[j].at;
    var k := o + j;
    assert v.js[k].page < g.M;
  }

  lemma BothHaveRoom(g: Geometry, x: Session, d0: D.View, v1: D.View, d1: D.View, v2: D.View, d2: D.View)
    requires Written(g, x, d0.blk) && Tracks(d0, x.v0) && d2 == v2
    requires ReplayDone(g, x.v0, d0, v1, d1, 0, x.hots) && ReplayDone(g, v1, d1, v2, d2, g.J, x.colds)
    ensures |d2.js| == 3 * g.J && HasRoom(g, d2.js, true) && HasRoom(g, d2.js, false)
  {
    hide ReplayDone, D.Inv;
    SecondPending(g, x, d0, v1, d1);
    SessionParts(g, x, d0.blk);
    hide Pending, Written, FlashOf, HasRoom, Tracks;
    SetHasRoom(g, x.v0, d0, v1, d1, true, x.hots, x.hotTorn, FlashOf(g, x.v0.(blk := d0.blk), 0));
    SetHasRoom(g, v1, d1, v2, d2, false, x.colds, x.coldTorn, FlashOf(g, d1, g.J));
    HotRoomKept(g, v1, d1, v2, d2, x.colds);
  }

  lemma HotRoomKept(g: Geometry, v1: D.View, d1: D.View, v2: D.View, d2: D.View, ws: seq<RS.PageWrite>)
    requires ReplayDone(g, v1, d1, v2, d2, g.J, ws) && |v1.js| == 3 * g.J && HasRoom(g, v1.js, true)
    ensures |v2.js| == 3 * g.J && HasRoom(g, v2.js, true)
  {
    hide D.Inv, D.Settled, Restored, RS.LanesOk, RS.PushAll, RS.Overridden, L.LanesOf, OnlyTheirLists, Places, RS.Cursors;
    var k: nat :| 0 <= k < g.J && v1.js[k].page < g.M;
    assert v2.js[k].page < g.M;
  }

  lemma SecondReady(g: Geometry, x: Session, d0: D.View, v1: D.View, d1: D.View)
    requires RowsSized(g, d0) && ReplayDone(g, x.v0, d0, v1, d1, 0, x.hots)
    ensures Tracks(d1, v1) && RowsSized(g, d1)
  {
    hide D.Inv, D.Settled, RS.LanesOk, RS.PushAll, RS.Overridden, L.LanesOf, OnlyLists, Places, RS.Cursors;
    forall k: nat | k < 2 * g.J
      ensures |d1.metas[k]| == g.P
    {
      if k < g.J {
        assert Restored(v1, d1, k);
        RowSize(g, v1, k);
      }
    }
  }

  lemma RowSize(g: Geometry, v: D.View, k: nat)
    requires D.Inv(g, v) && k < 2 * g.J
    ensures |v.metas[k]| == g.P
  {
  }

  lemma PagesRecovered(g: Geometry, x: Session, flash: seq<Block>, d: D.View, zero: PageData)
    requires D.Inv(g, d) && d.pm == RecoveredMap(g, x) && OnlyLists(g, flash, d.blk)
    ensures D.PagesOf(d, zero) == RecoveredPages(g, x, flash, zero)
  {
    hide D.JournalsOk, D.UserPagesOk, D.ListsOk, D.RowsOk, D.CountsOk, RecoveredMap;
    forall a: nat | a < g.cap
      ensures D.ReadEntry(d.blk, d.pm[a], zero) == D.ReadEntry(flash, d.pm[a], zero)
    {
      assert D.EntryOk(g, d, a);
    }
  }

  /** A full set of journals is reclaimed, and everything committed. */
  method ReclaimIfFull(s: Ftl, isHot: bool)
    requires Consistent(s) && D.Settled(s.g, s.Data()) && (s.listKept || HasRoom(s.g, s.Data().js, isHot))
    modifies s, s.ubi.Repr
    ensures Consistent(s) && D.Settled(s.g, s.Data()) && D.SameReads(old(s.Data()), s.Data())
    ensures HasRoom(s.g, s.Data().js, isHot) && OtherKept(s.g, old(s.Data()), s.Data(), isHot)
    ensures if old(HasRoom(s.g, s.Data().js, isHot)) then unchanged(s) && s.ubi.blk == old(s.ubi.blk) && s.Data() == old(s.Data())
            else JustCommitted(s) && Renewed(s.g, s.Data().js, Off(s.g, isHot))
  {
    hide Ready, Ftl.Data, D.Inv, D.Settled, D.SameReads, HasRoom, JustCommitted, Renewed;
    D.SameReadsRefl(s.Data());
    var full := IsFull(s, isHot);
    InvShape(s.g, s.Data());
    if full {
      Renew(s, isHot);
    }
  }

  /** The checks for full journals after the replays. */
  method ReclaimFull(s: Ftl)
    requires Mounted(s)
    modifies s, s.ubi.Repr
    ensures Mounted(s) && D.SameReads(old(s.Data()), s.Data()) && unchanged(s) && s.ubi.blk == old(s.ubi.blk)
  {
    hide Ready, Ftl.Data, D.Inv, D.Settled, D.SameReads, HasRoom, OtherKept;
    ghost var v := s.Data();
    ReclaimIfFull(s, true);
    ghost var w := s.Data();
    RoomKept(s.g, v, w, true);
    ReclaimIfFull(s, false);
    RoomKept(s.g, w, s.Data(), false);
    D.SameReadsTrans(v, w, s.Data());
  }

  /** The record on flash is still that of the session's commit, and the edition counters are those
      the replays leave. */
  ghost predicate Unfinished(s: Ftl, x: Session)
    reads s, s.ubi
  {
    && OnRecord(s.g, x.v0, s.ubi.blk, s.listed)
    && s.hotEdition == CounterLeft(s.g, x.v0, 0, x.hots, x.hotTorn) && s.coldEdition == CounterLeft(s.g, x.v0, s.g.J, x.colds, x.coldTorn)
  }

  lemma StillUnfinished(s: Ftl, x: Session, blk: seq<Block>)
    requires Mounted(s) && OnRecord(s.g, x.v0, blk, s.listed) && Resumed(s, x, blk, s.listed)
    ensures Unfinished(s, x)
  {
    hide Ready, Ftl.Data, D.Inv, D.Settled, HasRoom, OnRecord, CounterLeft, BelowKept;
    RecordStays(s, x.v0, blk);
  }

  lemma NothingCachedIn(s: Ftl, T: set<nat>)
    requires forall c :: 0 <= c < |s.root.nodes| ==> s.root.nodes[c].OnFlash?
    ensures |T| <= s.g.C ==> CachedIn(s, T)
  {
  }

  lemma DataSeen(s: Ftl)
    ensures s.Data().blk == DataBlocks(s.g, s.ubi.blk)
  {
  }

  /** FTL_Init on a device that lost power in a session of page writes on idle
      dies: the volume is the committed one overridden by the pages written since, the hot ones
      in edition order and then the cold ones.  The list of the page-map block being filled is
      not rebuilt: the state is valid if that list was all zeros (`listKept`); if not, the
      session may have touched no more clusters T than the cache holds, since a commit might
      already write the wrong list to flash. */
  method FtlInit(s: Ftl, ghost r: Root, ghost d: seq<nat>, ghost x: Session, ghost T: set<nat>)
    requires s.Sound() && s.Sized() && Interrupted(s.g, s.ubi.blk, r, d, s.listed, x)
    requires s.listKept || FewClusters(s.g, x, T)
    modifies s, s.ubi.Repr
    ensures Mounted(s) && (s.listKept ==> Valid(s)) && (FewClusters(s.g, x, T) ==> CachedIn(s, T))
    ensures s.Pages() == RecoveredPages(s.g, x, DataBlocks(s.g, old(s.ubi.blk)), ZeroPage(s.g))
    ensures FewClusters(s.g, x, T) ==> Unfinished(s, x)
    ensures FewClusters(s.g, x, T) && !x.hotTorn && !x.coldTorn ==> DataBlocks(s.g, s.ubi.blk) == DataBlocks(s.g, old(s.ubi.blk))
  {
    hide Mounted, Ready, Ftl.Data, D.SameReads, Stored, Written, RowsSized, Tracks, RecoveredPages, RecoveredMap, OnlyLists, Within, OnRecord, CounterLeft, CachedIn, HasRoom, BelowKept, DataBlocks;
    ghost var flash := DataBlocks(s.g, s.ubi.blk);
    assert Written(s.g, x, flash);
    s.ubi.Init();
    MountAll(s, r, d, x);
    ghost var blk := s.ubi.blk;
    NothingCachedIn(s, T);
    ReplayBoth(s, x, s.Data(), T);
    ghost var v := s.Data();
    if FewClusters(s.g, x, T) {
      StillUnfinished(s, x, blk);
    }
    DataSeen(s);
    PagesRecovered(s.g, x, flash, v, ZeroPage(s.g));
    ReclaimFull(s);
    MountedPages(s, v);
  }

  /** The logical pages are those of any view that reads alike. */
  lemma MountedPages(s: Ftl, v: D.View)
    requires Mounted(s) && D.SameReads(v, s.Data())
    ensures s.Pages() == D.PagesOf(v, ZeroPage(s.g))
  {
    hide Ready, Ftl.Data, D.Inv, D.Settled, HasRoom, D.SameReads;
    D.SamePages(v, s.Data(), ZeroPage(s.g));
  }
}
