/** What was done since the last commit is known at every moment of a run, and a power loss costs
    no more than the replay of it. */
module Durable {
  import opened Geometry
  import opened Flash
  import opened Counting
  import RS = ReplaySpec
  import L = Lanes
  import D = DataSpec
  import PmtSpec
  import PageMap
  import ListLoss
  import U = Ubi
  import opened FtlState
  import opened Logs
  import opened Commit
  import opened Data
  import opened DataReclaim
  import opened Replay
  import opened FtlApi
  import opened Recovery
  import opened Sessions
  import opened PowerLoss

  // ---------------------------------------------------------------- the order of the journals

  /** No full journal stands behind one with room. */
  ghost predicate InOrder(g: Geometry, js: seq<Loc>, isHot: bool) {
    && |js| == 3 * g.J
    && forall i: nat, k: nat {:trigger js[i], js[k]} :: Off(g, isHot) <= i < k < Off(g, isHot) + g.J && js[k].page >= g.M ==> js[i].page >= g.M
  }

  /** That is so as long as pages are written on idle dice. */
  ghost predicate Ordered(s: Ftl)
    reads s, s.ubi
  {
    InOrder(s.g, s.Data().js, true) && InOrder(s.g, s.Data().js, false)
  }

  lemma OrderOfLanes(g: Geometry, v: D.View, isHot: bool)
    requires D.Inv(g, v)
    ensures |v.js| == 3 * g.J && RS.LanesOk(g.M, L.LanesOf(g, v, Off(g, isHot)))
    ensures InOrder(g, v.js, isHot) <==> RS.FullFirst(g.M, L.LanesOf(g, v, Off(g, isHot)))
  {
    hide D.UserPagesOk, D.ListsOk, D.RowsOk, D.MapOk, D.CountsOk;
    var o := Off(g, isHot);
    var xs := L.LanesOf(g, v, o);
    L.LanesFit(g, v, o);
    forall j: nat | j < g.J
      ensures xs[j].at == v.js[o + j]
    {
      assert D.JournalOk(g, v, o + j);
      assert xs[j] == L.LaneAt(v, o + j);
    }
    hide L.LanesOf, RS.LanesOk;
    if RS.FullFirst(g.M, xs) {
      forall i: nat, k: nat | o <= i < k < o + g.J && v.js[k].page >= g.M
        ensures v.js[i].page >= g.M
      {
        assert xs[i - o].at == v.js[i] && xs[k - o].at == v.js[k];
      }
    }
  }

  lemma OrderPushed(g: Geometry, v: D.View, w: D.View, isHot: bool, addr: nat, data: PageData, edition: nat)
    requires D.Inv(g, v) && D.Inv(g, w) && PushedOn(g, v, w, isHot, addr, data, edition) && InOrder(g, v.js, isHot)
    ensures InOrder(g, w.js, isHot)
  {
    hide D.Inv, RS.Push, L.LanesOf, RS.LanesOk, RS.FullFirst, InOrder, L.Elsewhere;
    OrderOfLanes(g, v, isHot);
    OrderOfLanes(g, w, isHot);
    RS.PushFullFirst(g.M, L.LanesOf(g, v, Off(g, isHot)), RS.PageWrite(addr, data), edition);
  }

  lemma OrderKept(g: Geometry, v: D.View, w: D.View, isHot: bool)
    requires OtherKept(g, v, w, isHot) && InOrder(g, v.js, !isHot)
    ensures InOrder(g, w.js, !isHot)
  {
  }

  // ---------------------------------------------------------------- calls and trails

  /** A call of the volume's interface, made when every die is idle. */
  datatype Call =
    | Do(act: RS.Act)      // FTL_Write, with a buffer or without
    | Look(addr: nat)      // FTL_Read
    | Sync                 // FTL_Flush

  predicate InVolume(cap: nat, call: Call) {
    match call
    case Do(act) => AddrOf(act) < cap
    case Look(a) => a < cap
    case Sync => true
  }

  /** The volume after a call. */
  function Changed(call: Call, pages: seq<PageData>, zero: PageData): (r: seq<PageData>)
    ensures |r| == |pages|
  {
    if !call.Do? || AddrOf(call.act) >= |pages| then pages
    else pages[AddrOf(call.act) := if call.act.Put? then call.act.write.data else zero]
  }

  /** The volume after the first n calls. */
  function VolumeAfter(calls: seq<Call>, n: nat, pages: seq<PageData>, zero: PageData): (r: seq<PageData>)
    requires n <= |calls|
    ensures |r| == |pages|
  {
    if n == 0 then pages else Changed(calls[n - 1], VolumeAfter(calls, n - 1, pages, zero), zero)
  }

  /** The acts among the calls from k to n. */
  function ActsOf(calls: seq<Call>, k: nat, n: nat): (acts: seq<RS.Act>)
    requires k <= n <= |calls|
    ensures |acts| <= n - k
  {
    if k == n then [] else if calls[n - 1].Do? then ActsOf(calls, k, n - 1) + [calls[n - 1].act] else ActsOf(calls, k, n - 1)
  }

  /** What was done since the last commit: the data region then, and after each act. */
  datatype Trail = Trail(vs: seq<D.View>, acts: seq<RS.Act>)

  /** The clusters of the acts are cached. */
  ghost predicate ActsCached(g: Geometry, acts: seq<RS.Act>, nodes: seq<Node>) {
    forall i :: 0 <= i < |acts| ==>
      AddrOf(acts[i]) < g.cap && PageMap.ClusterIndex(g, AddrOf(acts[i])) < |nodes| && nodes[PageMap.ClusterIndex(g, AddrOf(acts[i]))].Cached?
  }

  /** The flash holds the tables of the trail's first view; the acts since then were done on idle
      dice and needed no commit. */
  ghost predicate Follows(s: Ftl, x: Trail)
    reads s, s.ubi, s.ubi.Repr
  {
    && Valid(s) && SessionOf(s.g, x.vs, x.acts) && s.Data() == x.vs[|x.acts|] && FromCommit(s.g, x.vs[0])
    && s.hotEdition == |RS.Only(x.acts, true, |x.acts|)| && s.coldEdition == |RS.Only(x.acts, false, |x.acts|)|
    && OnRecord(s.g, x.vs[0], s.ubi.blk, s.listed) && ActsCached(s.g, x.acts, s.root.nodes)
  }

  ghost predicate Known(s: Ftl, x: Option<Trail>)
    reads s, s.ubi, s.ubi.Repr
  {
    x.Some? ==> Follows(s, x.value)
  }

  ghost function Extended(x: Option<Trail>, act: RS.Act, w: D.View): Option<Trail> {
    if x.None? then None else Some(Trail(x.value.vs + [w], x.value.acts + [act]))
  }

  /** What a call makes of the trail.  `fits`: no commit is needed to cache its address's cluster;
      `fills`: it writes the last page the set has room for. */
  ghost function Next(x: Option<Trail>, call: Call, fits: bool, fills: bool, v: D.View, w: D.View): Option<Trail> {
    match call
    case Sync => Some(Trail([w], []))
    case Look(_) => if fits then x else Some(Trail([w], []))
    case Do(Drop(a)) => if fits then Extended(x, call.act, w) else Some(Trail([v, w], [call.act]))
    case Do(Put(write, isHot)) => if fills then Some(Trail([w], [])) else if fits then Extended(x, call.act, w) else None
  }

  lemma Restarts(s: Ftl)
    requires Valid(s) && Ordered(s) && Saved(s, s.Data())
    ensures Follows(s, Trail([s.Data()], []))
  {
    hide Ready, Ftl.Data, D.Inv, D.Settled, HasRoom, OnRecord, RS.FullFirst, InOrder, L.LanesOf;
    var v := s.Data();
    ViewShape(s.g, v);
    MountedRests(s.g, v);
    OrderOfLanes(s.g, v, true);
    OrderOfLanes(s.g, v, false);
    Begun(s.g, [v], []);
  }

  lemma ViewShape(g: Geometry, v: D.View)
    requires D.Inv(g, v)
    ensures |v.js| == 3 * g.J
  {
  }

  lemma CommitRestarts(s: Ftl)
    requires Valid(s) && Ordered(s) && JustCommitted(s)
    ensures Follows(s, Trail([s.Data()], []))
  {
    hide JustCommitted, Ftl.Data, D.Inv, D.Settled, HasRoom, Ordered, Follows, Saved, Ready;
    CommittedIsSaved(s);
    Restarts(s);
  }

  /** What a trail says of the flash and of the page map's nodes. */
  ghost predicate TrailOf(g: Geometry, x: Trail, blk: seq<Block>, list: seq<nat>, nodes: seq<Node>) {
    && SessionOf(g, x.vs, x.acts) && FromCommit(g, x.vs[0]) && OnRecord(g, x.vs[0], blk, list) && ActsCached(g, x.acts, nodes)
  }

  /** It stays true as long as there is no commit. */
  ghost predicate NoCommit(s: Ftl, blk: seq<Block>, list: seq<nat>, nodes: seq<Node>)
    reads s, s.ubi
  {
    && BelowKept(s.g, blk, s.ubi.blk) && s.listed == list && |s.root.nodes| == |nodes|
    && forall k :: 0 <= k < |nodes| && nodes[k].Cached? ==> s.root.nodes[k].Cached?
  }

  /** The trail grows by an act that needs no commit. */
  lemma GoesOn(s: Ftl, x: Trail, act: RS.Act, v: D.View, blk: seq<Block>, list: seq<nat>, nodes: seq<Node>)
    requires Valid(s) && TrailOf(s.g, x, blk, list, nodes) && NoCommit(s, blk, list, nodes) && v == x.vs[|x.acts|] && AddrOf(act) < s.g.cap
    requires ActDone(s.g, v, s.Data(), x.acts + [act], |x.acts|) && InCache(s, PageMap.ClusterIndex(s.g, AddrOf(act)))
    requires s.hotEdition == |RS.Only(x.acts, true, |x.acts|)| + if act.Put? && act.isHot then 1 else 0
    requires s.coldEdition == |RS.Only(x.acts, false, |x.acts|)| + if act.Put? && !act.isHot then 1 else 0
    ensures Follows(s, Trail(x.vs + [s.Data()], x.acts + [act]))
  {
    hide Ready, Ftl.Data, D.Inv, D.Settled, HasRoom, OnRecord, SessionUpTo, ActDone, FromCommit, PageMap.ClusterIndex;
    var acts, w := x.acts + [act], s.Data();
    ViewShape(s.g, w);
    MountedRests(s.g, w);
    SessionMore(s.g, x.vs, x.acts, act);
    SessionGrows(s.g, x.vs, acts, |x.acts|, w);
    OnlyMore(x.acts, act, true, |x.acts|);
    OnlyMore(x.acts, act, false, |x.acts|);
    RecordStays(s, x.vs[0], blk);
    assert acts[..|x.acts|] == x.acts;
  }

  /** A call that changes nothing and commits nothing. */
  lemma StaysOn(s: Ftl, x: Trail, blk: seq<Block>, list: seq<nat>, nodes: seq<Node>)
    requires Valid(s) && TrailOf(s.g, x, blk, list, nodes) && NoCommit(s, blk, list, nodes) && s.Data() == x.vs[|x.acts|]
    requires s.hotEdition == |RS.Only(x.acts, true, |x.acts|)| && s.coldEdition == |RS.Only(x.acts, false, |x.acts|)|
    ensures Follows(s, x)
  {
    hide Ready, Ftl.Data, D.Inv, D.Settled, HasRoom, OnRecord, SessionUpTo, FromCommit, PageMap.ClusterIndex;
    RecordStays(s, x.vs[0], blk);
  }

  /** The trail's last view, and the editions it gives. */
  lemma FollowsIs(s: Ftl, x: Trail)
    requires Follows(s, x)
    ensures TrailOf(s.g, x, s.ubi.blk, s.listed, s.root.nodes) && s.Data() == x.vs[|x.acts|]
    ensures s.hotEdition == |RS.Only(x.acts, true, |x.acts|)| && s.coldEdition == |RS.Only(x.acts, false, |x.acts|)|
  {
    hide Ready, Ftl.Data, OnRecord, SessionUpTo, FromCommit, ActsCached, HasRoom;
  }

  // ---------------------------------------------------------------- one call

  lemma NoneCachedIn(s: Ftl, T: set<nat>)
    requires JustCommitted(s)
    ensures |T| <= s.g.C ==> CachedIn(s, T)
  {
  }

  /** Every cached cluster is one of T. */
  ghost predicate NodesIn(nodes: seq<Node>, T: set<nat>) {
    forall k: nat :: k < |nodes| && nodes[k].Cached? ==> k in T
  }

  ghost predicate NewlyCached(nodes: seq<Node>, now: seq<Node>, c: nat) {
    |now| == |nodes| && forall k :: 0 <= k < |now| && k != c && now[k].Cached? ==> nodes[k].Cached?
  }

  lemma CachedStays(s: Ftl, T: set<nat>, c: nat, nodes: seq<Node>)
    requires NodesIn(nodes, T) && c in T && NewlyCached(nodes, s.root.nodes, c) && |T| <= s.g.C
    ensures CachedIn(s, T)
  {
  }

  /** Among few enough clusters each has a place in the cache. */
  lemma HasPlace(s: Ftl, T: set<nat>, a: nat)
    requires Valid(s) && a < s.g.cap
    ensures CachedIn(s, T) && PageMap.ClusterIndex(s.g, a) in T ==>
              Roomy(s, PageMap.ClusterIndex(s.g, a)) && NodesIn(s.root.nodes, T) && |T| <= s.g.C
  {
    hide Ready, Ftl.Data, D.Inv, D.Settled, HasRoom, Roomy;
    if CachedIn(s, T) && PageMap.ClusterIndex(s.g, a) in T {
      RoomInCache(s, T, PageMap.ClusterIndex(s.g, a));
    }
  }

  /** FTL_Flush. */
  method DoSync(s: Ftl, ghost T: set<nat>) returns (ghost y: Option<Trail>)
    requires Valid(s) && Ordered(s)
    modifies s, s.ubi.Repr
    ensures Valid(s) && Ordered(s) && Known(s, y) && y == Some(Trail([s.Data()], [])) && s.Pages() == old(s.Pages()) && JustCommitted(s)
    ensures |T| <= s.g.C ==> CachedIn(s, T)
  {
    hide Valid, Ftl.Data, Ftl.Pages, InOrder, JustCommitted, Follows;
    FtlFlush(s);
    CommitRestarts(s);
    NoneCachedIn(s, T);
    y := Some(Trail([s.Data()], []));
  }

  /** FTL_Read. */
  method DoLook(s: Ftl, addr: nat, ghost x: Option<Trail>, ghost T: set<nat>) returns (page: PageData, ghost y: Option<Trail>)
    requires Valid(s) && Ordered(s) && Known(s, x) && addr < s.g.cap
    modifies s, s.ubi.Repr
    ensures Valid(s) && Ordered(s) && Known(s, y) && s.Pages() == old(s.Pages())
    ensures |s.Pages()| == s.g.cap && page == s.Pages()[addr]
    ensures y == Next(x, Look(addr), old(Roomy(s, PageMap.ClusterIndex(s.g, addr))), false, old(s.Data()), s.Data())
    ensures old(CachedIn(s, T)) && PageMap.ClusterIndex(s.g, addr) in T ==> CachedIn(s, T) && old(Roomy(s, PageMap.ClusterIndex(s.g, addr)))
  {
    hide CachedIn, NodesIn, InCache, Mounted, Ftl.Data, Ftl.Pages, InOrder, Follows, Saved, Roomy, PageMap.ClusterIndex, TrailOf;
    HasPlace(s, T, addr);
    ghost var few := CachedIn(s, T) && PageMap.ClusterIndex(s.g, addr) in T;
    ghost var fits := Roomy(s, PageMap.ClusterIndex(s.g, addr));
    ghost var blk, list, nodes := s.ubi.blk, s.listed, s.root.nodes;
    if x.Some? {
      FollowsIs(s, x.value);
    }
    page := FtlRead(s, addr);
    y := x;
    if few {
      CachedStays(s, T, PageMap.ClusterIndex(s.g, addr), nodes);
    }
    if !fits {
      Restarts(s);
      y := Some(Trail([s.Data()], []));
    } else if x.Some? {
      StaysOn(s, x.value, blk, list, nodes);
    }
  }

  /** The journals stay in order over a page write on idle dice. */
  lemma OrderAfter(g: Geometry, v: D.View, w: D.View, u: D.View, isHot: bool, write: RS.PageWrite, edition: nat)
    requires InOrder(g, v.js, true) && InOrder(g, v.js, false) && D.Inv(g, v) && D.Inv(g, u) && |w.js| == 3 * g.J
    requires OtherKept(g, v, w, isHot) && PushedOn(g, v, w, isHot, write.addr, write.data, edition)
    requires if HasRoom(g, w.js, isHot) then u == w else OtherKept(g, w, u, isHot) && Renewed(g, u.js, Off(g, isHot))
    ensures InOrder(g, u.js, true) && InOrder(g, u.js, false)
  {
    hide D.Inv, PushedOn, HasRoom;
    OrderKept(g, v, w, isHot);
    if u == w {
      OrderPushed(g, v, w, isHot, write.addr, write.data, edition);
    } else {
      OrderKept(g, w, u, isHot);
    }
  }

  /** FTL_Write of a page, on idle dice. */
  method DoPut(s: Ftl, write: RS.PageWrite, isHot: bool, ghost x: Option<Trail>, ghost T: set<nat>) returns (ghost y: Option<Trail>)
    requires Valid(s) && Ordered(s) && Known(s, x) && write.addr < s.g.cap && s.ubi.polls == 0
    modifies s, s.ubi.Repr
    ensures Valid(s) && Ordered(s) && Known(s, y) && s.Pages() == old(s.Pages())[write.addr := write.data]
    ensures y == Next(x, Do(RS.Put(write, isHot)), old(Roomy(s, PageMap.ClusterIndex(s.g, write.addr))),
                      old(!RoomForTwo(s.g, s.Data().js, isHot)), old(s.Data()), s.Data())
    ensures old(CachedIn(s, T)) && PageMap.ClusterIndex(s.g, write.addr) in T ==> CachedIn(s, T) && old(Roomy(s, PageMap.ClusterIndex(s.g, write.addr)))
  {
    hide CachedIn, NodesIn, InCache, Ready, Ftl.Data, Ftl.Pages, D.Inv, D.Settled, HasRoom, InOrder, Follows, Saved, Roomy, PageMap.ClusterIndex, TrailOf, RoomForTwo, PushedOn, SomewhereWritten, OtherKept, Renewed, JustCommitted;
    HasPlace(s, T, write.addr);
    ghost var few := CachedIn(s, T) && PageMap.ClusterIndex(s.g, write.addr) in T;
    ghost var v, fits, fills, e := s.Data(), Roomy(s, PageMap.ClusterIndex(s.g, write.addr)), !RoomForTwo(s.g, s.Data().js, isHot), Edition(s, isHot);
    ghost var blk, list, nodes := s.ubi.blk, s.listed, s.root.nodes;
    if x.Some? {
      FollowsIs(s, x.value);
    }
    ghost var w := FtlWrite(s, write.addr, Some(write.data), isHot);
    OrderAfter(s.g, v, w, s.Data(), isHot, write, e);
    if fills {
      NoneCachedIn(s, T);
      CommitRestarts(s);
      y := Some(Trail([s.Data()], []));
    } else {
      StaysRoomy(s.g, v, w, write.addr, write.data, isHot, e);
      if few {
        CachedStays(s, T, PageMap.ClusterIndex(s.g, write.addr), nodes);
      }
      y := if fits then Extended(x, RS.Put(write, isHot), s.Data()) else None;
      if fits && x.Some? {
        PutDone(s.g, x.value, v, w, write, isHot, e);
        GoesOn(s, x.value, RS.Put(write, isHot), v, blk, list, nodes);
      }
    }
  }

  lemma StaysRoomy(g: Geometry, v: D.View, w: D.View, addr: nat, data: PageData, isHot: bool, edition: nat)
    requires |v.js| == 3 * g.J && D.Inv(g, v) && D.Settled(g, v) && HasRoom(g, v.js, isHot) && RoomForTwo(g, v.js, isHot)
    requires SomewhereWritten(g, v, w, isHot, addr, data, edition)
    ensures |w.js| == 3 * g.J && HasRoom(g, w.js, isHot)
  {
    hide D.Inv, D.Settled, HasRoom, RoomForTwo, SomewhereWritten;
    StillRoom(g, v, w, addr, Some(data), isHot, edition);
  }

  /** The page write is the trail's next act. */
  lemma PutDone(g: Geometry, x: Trail, v: D.View, w: D.View, write: RS.PageWrite, isHot: bool, e: nat)
    requires PushedOn(g, v, w, isHot, write.addr, write.data, e) && e == |RS.Only(x.acts, isHot, |x.acts|)|
    ensures ActDone(g, v, w, x.acts + [RS.Put(write, isHot)], |x.acts|)
  {
    hide L.Pushed;
    OnlyMore(x.acts, RS.Put(write, isHot), isHot, |x.acts|);
  }

  /** FTL_Write without a page. */
  method DoDrop(s: Ftl, addr: nat, isHot: bool, ghost x: Option<Trail>, ghost T: set<nat>) returns (ghost y: Option<Trail>)
    requires Valid(s) && Ordered(s) && Known(s, x) && addr < s.g.cap
    modifies s, s.ubi.Repr
    ensures Valid(s) && Ordered(s) && Known(s, y) && s.Pages() == old(s.Pages())[addr := ZeroPage(s.g)]
    ensures y == Next(x, Do(RS.Drop(addr)), old(Roomy(s, PageMap.ClusterIndex(s.g, addr))), false, old(s.Data()), s.Data())
    ensures old(CachedIn(s, T)) && PageMap.ClusterIndex(s.g, addr) in T ==> CachedIn(s, T) && old(Roomy(s, PageMap.ClusterIndex(s.g, addr)))
  {
    hide CachedIn, NodesIn, InCache, Ready, Ftl.Data, Ftl.Pages, D.Inv, D.Settled, HasRoom, InOrder, Follows, Saved, Roomy, PageMap.ClusterIndex, TrailOf, RoomForTwo, OtherKept, Renewed, JustCommitted;
    HasPlace(s, T, addr);
    ghost var few := CachedIn(s, T) && PageMap.ClusterIndex(s.g, addr) in T;
    ghost var v, fits := s.Data(), Roomy(s, PageMap.ClusterIndex(s.g, addr));
    ghost var blk, list, nodes := s.ubi.blk, s.listed, s.root.nodes;
    if x.Some? {
      FollowsIs(s, x.value);
    }
    ghost var w := FtlWrite(s, addr, None, isHot);
    assert s.Data() == w && w.js == v.js;
    if few {
      CachedStays(s, T, PageMap.ClusterIndex(s.g, addr), nodes);
    }
    y := if fits then Extended(x, RS.Drop(addr), w) else Some(Trail([v, w], [RS.Drop(addr)]));
    if fits && x.Some? {
      GoesOn(s, x.value, RS.Drop(addr), v, blk, list, nodes);
    } else if !fits {
      DropRestarts(s, v, addr);
    }
  }

  /** A trim whose commit was made before it. */
  lemma DropRestarts(s: Ftl, v: D.View, addr: nat)
    requires Valid(s) && Ordered(s) && Saved(s, v) && D.Inv(s.g, v) && D.Settled(s.g, v) && L.Dropped(v, s.Data(), addr) && addr < s.g.cap
    requires InCache(s, PageMap.ClusterIndex(s.g, addr))
    ensures Follows(s, Trail([v, s.Data()], [RS.Drop(addr)]))
  {
    hide Ready, Ftl.Data, D.Inv, D.Settled, HasRoom, OnRecord, RS.FullFirst, InOrder, L.LanesOf, PageMap.ClusterIndex, AtRest;
    var w, acts := s.Data(), [RS.Drop(addr)];
    ViewShape(s.g, v);
    MountedRests(s.g, v);
    MountedRests(s.g, w);
    OrderOfLanes(s.g, v, true);
    OrderOfLanes(s.g, v, false);
    Begun(s.g, [v], acts);
    SessionGrows(s.g, [v], acts, 0, w);
    assert [v] + [w] == [v, w];
  }

  // ---------------------------------------------------------------- whole runs

  /** The address a call caches a cluster for. */
  function AddrIn(call: Call): nat {
    match call
    case Do(act) => AddrOf(act)
    case Look(a) => a
    case Sync => 0
  }

  /** The clusters T are enough for the call. */
  ghost predicate UsesOf(g: Geometry, call: Call, T: set<nat>) {
    |T| <= g.C && (!call.Sync? ==> AddrIn(call) < g.cap && PageMap.ClusterIndex(g, AddrIn(call)) in T)
  }

  ghost predicate Fits(s: Ftl, call: Call)
    reads s
  {
    AddrIn(call) < s.g.cap && Roomy(s, PageMap.ClusterIndex(s.g, AddrIn(call)))
  }

  /** The page is the last its set of journals has room for. */
  ghost predicate Fills(g: Geometry, v: D.View, call: Call) {
    |v.js| == 3 * g.J && call.Do? && call.act.Put? && !RoomForTwo(g, v.js, call.act.isHot)
  }

  /** A call on idle dice. */
  method CallIdle(s: Ftl, call: Call, ghost x: Option<Trail>, ghost T: set<nat>) returns (out: Option<PageData>, ghost y: Option<Trail>)
    requires Valid(s) && Ordered(s) && Known(s, x) && InVolume(s.g.cap, call) && s.ubi.polls == 0
    modifies s, s.ubi.Repr
    ensures Valid(s) && Ordered(s) && Known(s, y)
    ensures s.Pages() == Changed(call, old(s.Pages()), ZeroPage(s.g)) && |s.Pages()| == s.g.cap
    ensures out == if call.Look? then Some(s.Pages()[call.addr]) else None
    ensures y == Next(x, call, old(Fits(s, call)), old(Fills(s.g, s.Data(), call)), old(s.Data()), s.Data())
    ensures old(CachedIn(s, T)) && UsesOf(s.g, call, T) ==> CachedIn(s, T) && (!call.Sync? ==> old(Fits(s, call)))
    ensures call.Sync? && |T| <= s.g.C ==> CachedIn(s, T)
  {
    hide Valid, Ordered, Known, Ftl.Data, Ftl.Pages, Roomy, PageMap.ClusterIndex, RoomForTwo, JustCommitted, Extended, CachedIn;
    PagesSize(s);
    JournalCount(s);
    out := None;
    match call {
      case Do(act) =>
        match act {
          case Put(write, isHot) =>
            y := DoPut(s, write, isHot, x, T);
          case Drop(a) =>
            var isHot: bool := *;
            y := DoDrop(s, a, isHot, x, T);
        }
      case Look(a) =>
        var page;
        page, y := DoLook(s, a, x, T);
        out := Some(page);
      case Sync =>
        y := DoSync(s, T);
    }
  }

  /** The caller waits until every die is idle, then makes the call. */
  method Perform(s: Ftl, call: Call, ghost x: Option<Trail>, ghost T: set<nat>) returns (out: Option<PageData>, ghost y: Option<Trail>)
    requires Valid(s) && Ordered(s) && Known(s, x) && InVolume(s.g.cap, call)
    modifies s, s.ubi.Repr
    ensures Valid(s) && Ordered(s) && Known(s, y)
    ensures s.Pages() == Changed(call, old(s.Pages()), ZeroPage(s.g)) && |s.Pages()| == s.g.cap
    ensures out == if call.Look? then Some(s.Pages()[call.addr]) else None
    ensures y == Next(x, call, old(Fits(s, call)), old(Fills(s.g, s.Data(), call)), old(s.Data()), s.Data())
    ensures old(CachedIn(s, T)) && UsesOf(s.g, call, T) ==> CachedIn(s, T) && (!call.Sync? ==> old(Fits(s, call)))
    ensures call.Sync? && |T| <= s.g.C ==> CachedIn(s, T)
  {
    hide Valid, Ordered, Known, Ftl.Data, Ftl.Pages, Roomy, PageMap.ClusterIndex, Fills, Next, UsesOf;
    WaitIdle(s, x);
    out, y := CallIdle(s, call, x, T);
  }

  lemma JournalCount(s: Ftl)
    requires Valid(s)
    ensures |s.Data().js| == 3 * s.g.J
  {
    hide Ready, D.Settled, HasRoom;
  }

  method WaitIdle(s: Ftl, ghost x: Option<Trail>)
    requires Valid(s) && Ordered(s) && Known(s, x)
    modifies s.ubi.Repr
    ensures Valid(s) && Ordered(s) && Known(s, x) && s.ubi.polls == 0
    ensures s.Data() == old(s.Data()) && s.Pages() == old(s.Pages()) && unchanged(s)
  {
    hide LogsOk, PmtSpec.Stable, Ftl.Data, D.Inv, D.Settled, HasRoom, InOrder, SessionOf, FromCommit, OnRecord, ActsCached;
    assert s !in s.ubi.Repr;
    hide Ready;
    FlushDies(s);
  }

  /** The trail is that of the calls from the k-th to the n-th, on the volume as it was before them. */
  ghost predicate Since(x: Trail, calls: seq<Call>, k: nat, n: nat, pages: seq<PageData>, zero: PageData) {
    && k <= n <= |calls| && x.acts == ActsOf(calls, k, n) && |x.vs| > 0
    && D.PagesOf(x.vs[0], zero) == VolumeAfter(calls, k, pages, zero)
  }

  /** Every FTL_Read among the first n calls has returned the page of the volume. */
  ghost predicate Answered(outs: seq<Option<PageData>>, calls: seq<Call>, n: nat, pages: seq<PageData>, zero: PageData) {
    && |outs| == n <= |calls|
    && forall i: nat {:trigger outs[i]} :: i < n && calls[i].Look? ==>
         calls[i].addr < |pages| && outs[i] == Some(VolumeAfter(calls, i, pages, zero)[calls[i].addr])
  }

  /** No FTL_Flush comes between the k-th call and the n-th. */
  ghost predicate NoSync(calls: seq<Call>, k: nat, n: nat) {
    forall i: nat :: k <= i < n && i < |calls| ==> !calls[i].Sync?
  }

  lemma SinceNext(x: Option<Trail>, y: Option<Trail>, calls: seq<Call>, k: nat, n: nat, fits: bool, fills: bool, v: D.View, w: D.View,
                  pages: seq<PageData>, zero: PageData) returns (j: nat)
    requires n < |calls| && (x.Some? ==> Since(x.value, calls, k, n, pages, zero) && NoSync(calls, k, n))
    requires y == Next(x, calls[n], fits, fills, v, w)
    requires D.PagesOf(v, zero) == VolumeAfter(calls, n, pages, zero) && D.PagesOf(w, zero) == VolumeAfter(calls, n + 1, pages, zero)
    ensures y.Some? ==> Since(y.value, calls, j, n + 1, pages, zero) && NoSync(calls, j, n + 1)
  {
    hide VolumeAfter, D.PagesOf;
    j := k;
    if y.Some? {
      match calls[n] {
        case Sync => j := n + 1;
        case Look(_) => if !fits { j := n + 1; }
        case Do(act) =>
          match act {
            case Drop(_) => if !fits { j := n; assert ActsOf(calls, n, n + 1) == [] + [calls[n].act]; }
            case Put(_, _) => if fills { j := n + 1; }
          }
      }
    }
  }

  /** After the first n calls of a run. */
  ghost predicate Ran(s: Ftl, calls: seq<Call>, n: nat, outs: seq<Option<PageData>>, x: Option<Trail>, k: nat, pages: seq<PageData>)
    reads s, s.ubi, s.ubi.Repr
  {
    && n <= |calls| && Valid(s) && Ordered(s) && Known(s, x) && s.Pages() == VolumeAfter(calls, n, pages, ZeroPage(s.g))
    && (x.Some? ==> Since(x.value, calls, k, n, pages, ZeroPage(s.g)) && NoSync(calls, k, n))
    && Answered(outs, calls, n, pages, ZeroPage(s.g))
  }

  /** The clusters T are enough for all calls, and the cache for T. */
  ghost predicate AllUse(g: Geometry, calls: seq<Call>, T: set<nat>) {
    forall i :: 0 <= i < |calls| ==> UsesOf(g, calls[i], T)
  }

  /** FTL_Flush is among the first n calls. */
  ghost predicate Synced(calls: seq<Call>, n: nat) {
    exists i :: 0 <= i < n && i < |calls| && calls[i].Sync?
  }

  /** Then the trail is known after it. */
  ghost predicate Sure(s: Ftl, calls: seq<Call>, n: nat, x: Option<Trail>, T: set<nat>)
    reads s
  {
    AllUse(s.g, calls, T) && Synced(calls, n) ==> x.Some? && CachedIn(s, T)
  }

  /** The n-th call. */
  method RunOne(s: Ftl, calls: seq<Call>, n: nat, ghost outs: seq<Option<PageData>>, ghost x: Option<Trail>, ghost k: nat, ghost pages: seq<PageData>,
                ghost T: set<nat>)
    returns (out: Option<PageData>, ghost y: Option<Trail>, ghost j: nat)
    requires Ran(s, calls, n, outs, x, k, pages) && Sure(s, calls, n, x, T) && n < |calls| && InVolume(s.g.cap, calls[n])
    modifies s, s.ubi.Repr
    ensures Ran(s, calls, n + 1, outs + [out], y, j, pages) && Sure(s, calls, n + 1, y, T)
    ensures y == Next(x, calls[n], old(Fits(s, calls[n])), old(Fills(s.g, s.Data(), calls[n])), old(s.Data()), s.Data())
  {
    hide Valid, Ordered, Known, Ftl.Data, Ftl.Pages, Next, Fits, Fills, Since, UsesOf, CachedIn, VolumeAfter, NoSync, Changed, Answered, AllUse, Synced;
    ghost var v, fits, fills, zero := s.Data(), Fits(s, calls[n]), Fills(s.g, s.Data(), calls[n]), ZeroPage(s.g);
    PagesAre(s);
    SyncedNext(s.g, calls, n, T);
    out, y := Perform(s, calls[n], x, T);
    PagesAre(s);
    VolumeNext(calls, n, pages, zero);
    AnswerNext(outs, calls, n, pages, zero, out, s.Pages(), s.g.cap);
    j := SinceNext(x, y, calls, k, n, fits, fills, v, s.Data(), pages, zero);
    KnownNext(x, y, s.g, calls[n], fits, fills, v, s.Data(), T);
  }

  lemma SyncedNext(g: Geometry, calls: seq<Call>, n: nat, T: set<nat>)
    requires n < |calls|
    ensures Synced(calls, n + 1) <==> Synced(calls, n) || calls[n].Sync?
    ensures AllUse(g, calls, T) ==> UsesOf(g, calls[n], T)
  {
    hide UsesOf;
    assert calls[n].Sync? ==> Synced(calls, n + 1);
  }

  /** A run of calls, each made when every die is idle.  The volume is that of an array of pages.
      Where the trail is known, it is that of the last calls, none of them FTL_Flush; and it is
      known after an FTL_Flush if the run uses no more clusters than the cache holds. */
  method Run(s: Ftl, calls: seq<Call>, ghost T: set<nat>) returns (outs: seq<Option<PageData>>, ghost x: Option<Trail>, ghost k: nat)
    requires Valid(s) && Ordered(s) && forall i :: 0 <= i < |calls| ==> InVolume(s.g.cap, calls[i])
    modifies s, s.ubi.Repr
    ensures Ran(s, calls, |calls|, outs, x, k, old(s.Pages()))
    ensures AllUse(s.g, calls, T) && Synced(calls, |calls|) ==> x.Some?
  {
    hide Valid, Ordered, Ftl.Pages, Next, Fits, Fills, Ran, AllUse, Synced, CachedIn;
    NothingRun(s, calls, T);
    ghost var pages := s.Pages();
    outs, x, k := [], None, 0;
    while |outs| < |calls|
      invariant |outs| <= |calls| && Ran(s, calls, |outs|, outs, x, k, pages) && Sure(s, calls, |outs|, x, T)
    {
      var out;
      out, x, k := RunOne(s, calls, |outs|, outs, x, k, pages, T);
      outs := outs + [out];
    }
  }

  lemma NothingRun(s: Ftl, calls: seq<Call>, T: set<nat>)
    requires Valid(s) && Ordered(s)
    ensures Ran(s, calls, 0, [], None, 0, s.Pages()) && Sure(s, calls, 0, None, T)
  {
    hide Valid, Ftl.Pages, Ordered, CachedIn;
  }

  lemma VolumeNext(calls: seq<Call>, n: nat, pages: seq<PageData>, zero: PageData)
    requires n < |calls|
    ensures VolumeAfter(calls, n + 1, pages, zero) == Changed(calls[n], VolumeAfter(calls, n, pages, zero), zero)
  {
  }

  lemma AnswerNext(outs: seq<Option<PageData>>, calls: seq<Call>, n: nat, pages: seq<PageData>, zero: PageData, out: Option<PageData>, now: seq<PageData>,
                   cap: nat)
    requires Answered(outs, calls, n, pages, zero) && n < |calls| && InVolume(cap, calls[n]) && |now| == cap
    requires now == VolumeAfter(calls, n + 1, pages, zero) && out == if calls[n].Look? then Some(now[calls[n].addr]) else None
    ensures Answered(outs + [out], calls, n + 1, pages, zero)
  {
    VolumeNext(calls, n, pages, zero);
    hide VolumeAfter;
    forall i: nat | i < n + 1 && calls[i].Look?
      ensures calls[i].addr < |pages| && (outs + [out])[i] == Some(VolumeAfter(calls, i, pages, zero)[calls[i].addr])
    {
      assert i < n ==> outs[i] == (outs + [out])[i];
    }
  }

  lemma PagesAre(s: Ftl)
    ensures s.Pages() == D.PagesOf(s.Data(), ZeroPage(s.g))
  {
  }

  /** A trail that is known stays known, and FTL_Flush makes one known. */
  lemma KnownNext(x: Option<Trail>, y: Option<Trail>, g: Geometry, call: Call, fits: bool, fills: bool, v: D.View, w: D.View, T: set<nat>)
    requires y == Next(x, call, fits, fills, v, w)
    ensures (call.Sync? || (x.Some? && fits)) ==> y.Some?
    ensures UsesOf(g, call, T) ==> |T| <= g.C
  {
  }

  // ---------------------------------------------------------------- the power loss

  /** The clusters that are cached. */
  ghost function CachedSet(nodes: seq<Node>): set<nat> {
    set c: nat | c < |nodes| && nodes[c].Cached?
  }

  /** They are no more than the cache holds. */
  lemma CacheBound(s: Ftl)
    requires Ready(s)
    ensures |CachedSet(s.root.nodes)| <= s.g.C
  {
    hide LogsOk;
    SlotsBound(s.g, s.Pmt());
  }

  lemma SlotsBound(g: Geometry, v: PmtSpec.View)
    requires PmtSpec.Stable(g, v)
    ensures |CachedSet(v.nodes)| <= g.C
  {
    hide PmtSpec.SlotsOk, PmtSpec.HomesOk, PmtSpec.ListsOk, PmtSpec.CountsOk, PmtSpec.SlackOk, PmtSpec.Live;
    forall c: nat | c in CachedSet(v.nodes)
      ensures 0 <= SlotIn(v, c) < g.C && SlotIn(v, c) < |v.slots| && v.slots[SlotIn(v, c)].cluster == Some(c)
    {
    }
    hide PmtSpec.Stable, SlotIn;
    FewSlots(g.C, CachedSet(v.nodes), (c: nat) => SlotIn(v, c));
  }

  lemma FewSlots(n: nat, T: set<nat>, f: nat -> int)
    requires forall c :: c in T ==> 0 <= f(c) < n
    requires forall c, d :: c in T && d in T && f(c) == f(d) ==> c == d
    ensures |T| <= n
  {
    ImageSize(T, f);
    RangeSize(0, n);
    SubsetSize(set c | c in T :: f(c), Range(0, n));
  }

  function SlotIn(v: PmtSpec.View, c: nat): int {
    if c < |v.nodes| && v.nodes[c].Cached? then v.nodes[c].slot else -1
  }

  lemma {:induction false} OnlyCached(g: Geometry, acts: seq<RS.Act>, isHot: bool, n: nat, nodes: seq<Node>)
    requires ActsCached(g, acts, nodes) && n <= |acts|
    ensures Within(g, CachedSet(nodes), RS.Only(acts, isHot, n))
  {
    if n > 0 {
      OnlyCached(g, acts, isHot, n - 1, nodes);
    }
  }

  /** What the power loss leaves: the tables of root r and dirty table d, and the pages of the trail's
      acts, which need no more clusters than the cache holds.  `torn`: all but the list that the
      last page made due. */
  ghost predicate Left(g: Geometry, blk: seq<Block>, list: seq<nat>, r: Root, d: seq<nat>, x: Trail, torn: bool, T: set<nat>) {
    && SessionOf(g, x.vs, x.acts) && FlashLeft(g, x.vs[0], x.vs[|x.acts|], x.acts, torn, DataBlocks(g, blk))
    && Interrupted(g, blk, r, d, list, SessionLeft(g, x.vs[0], x.acts, torn)) && FewClusters(g, SessionLeft(g, x.vs[0], x.acts, torn), T)
  }

  /** Power fails between two calls. */
  lemma CutNow(s: Ftl, x: Trail) returns (r: Root, d: seq<nat>, T: set<nat>)
    requires Follows(s, x) && |x.acts| < RS.MAX_UINT32
    ensures Left(s.g, s.ubi.blk, s.listed, r, d, x, false, T)
  {
    hide Ftl.Data, D.Inv, D.Settled, HasRoom, SessionUpTo, FromCommit, RecordIs, FlashLeft, Interrupted, DataBlocks, LogsOk, PmtSpec.Stable;
    DataFlash(s);
    NotTorn(s.g, x.vs[0], x.vs[|x.acts|], x.acts, DataBlocks(s.g, s.ubi.blk));
    CacheBound(s);
    hide Ready;
    r, d :| RecordIs(s.g, x.vs[0], s.ubi.blk, s.listed, r, d);
    T := CutAfter(s.g, s.ubi.blk, s.listed, s.root.nodes, x, false, r, d);
  }

  /** Power fails right after a commit: the tables are those in RAM. */
  lemma CutCommitted(s: Ftl) returns (T: set<nat>)
    requires Valid(s) && Ordered(s) && JustCommitted(s)
    ensures Left(s.g, s.ubi.blk, s.listed, s.root, s.dirty, Trail([s.Data()], []), false, T)
  {
    hide Ftl.Data, D.Inv, D.Settled, HasRoom, SessionUpTo, FromCommit, RecordIs, FlashLeft, Interrupted, DataBlocks, LogsOk, PmtSpec.Stable, Ordered, JustCommitted, OnRecord;
    var x := Trail([s.Data()], []);
    CommitRestarts(s);
    CommitIs(s);
    DataFlash(s);
    NotTorn(s.g, x.vs[0], x.vs[0], [], DataBlocks(s.g, s.ubi.blk));
    CacheBound(s);
    hide Ready;
    T := CutAfter(s.g, s.ubi.blk, s.listed, s.root.nodes, x, false, s.root, s.dirty);
  }

  lemma CommitIs(s: Ftl)
    requires Valid(s) && JustCommitted(s)
    ensures RecordIs(s.g, s.Data(), s.ubi.blk, s.listed, s.root, s.dirty)
  {
    hide D.Inv, D.Settled, HasRoom, StoredMap, PageMap.MapOf, LogsOk, PmtSpec.Inv, Stored;
    MapShape(s);
  }

  /** The same for a flash and a trail. */
  lemma CutAfter(g: Geometry, blk: seq<Block>, list: seq<nat>, nodes: seq<Node>, x: Trail, torn: bool, r: Root, d: seq<nat>) returns (T: set<nat>)
    requires TrailOf(g, x, blk, list, nodes) && RecordIs(g, x.vs[0], blk, list, r, d) && |CachedSet(nodes)| <= g.C && |x.acts| < RS.MAX_UINT32
    requires FlashLeft(g, x.vs[0], x.vs[|x.acts|], x.acts, torn, DataBlocks(g, blk))
    ensures Left(g, blk, list, r, d, x, torn, T)
  {
    hide SessionUpTo, FromCommit, RecordIs, FlashLeft, Interrupted, DataBlocks, ActsCached, Within, CachedSet;
    SessionInterrupted(g, blk, list, r, d, x.vs, x.acts, torn);
    T := CachedSet(nodes);
    OnlyCached(g, x.acts, true, |x.acts|, nodes);
    OnlyCached(g, x.acts, false, |x.acts|, nodes);
  }

  /** Power fails in a page write on idle dice, before the list that the page may make due. */
  method CutWrite(s: Ftl, write: RS.PageWrite, isHot: bool, ghost x: Trail)
    returns (ghost y: Trail, ghost torn: bool, ghost r: Root, ghost d: seq<nat>, ghost list: seq<nat>, ghost T: set<nat>)
    requires Follows(s, x) && s.ubi.polls == 0 && write.addr < s.g.cap && |x.acts| + 1 < RS.MAX_UINT32
    requires Fits(s, Do(RS.Put(write, isHot))) && !Fills(s.g, s.Data(), Do(RS.Put(write, isHot)))
    modifies s, s.ubi.Repr
    ensures s.Sound() && Left(s.g, s.ubi.blk, list, r, d, y, torn, T)
    ensures |y.vs| == |x.vs| + 1 && y.vs[..|x.vs|] == x.vs && y.acts == x.acts + [RS.Put(write, isHot)]
    ensures D.PagesOf(y.vs[|x.vs|], ZeroPage(s.g)) == old(s.Pages())[write.addr := write.data]
  {
    hide Ready, Ftl.Data, D.Inv, D.Settled, HasRoom, SessionUpTo, FromCommit, PageMap.ClusterIndex, AtRest, D.IsAppend, D.Appendable, D.Updated, D.PagesOf;
    hide IsOpen, FlashLeft, AfterWriting, RoomForTwo, Roomy, ActsCached, Left, CachedSet, Shaped, RecordIs;
    ghost var v, acts, n, k := s.Data(), x.acts + [RS.Put(write, isHot)], |x.acts|, Off(s.g, isHot);
    ghost var blk, nodes := s.ubi.blk, s.root.nodes;
    list := s.listed;
    JournalCount(s);
    SessionMore(s.g, x.vs, x.acts, RS.Put(write, isHot));
    PutCount(x.acts, RS.Put(write, isHot));
    var j := PickOpen(s, isHot);
    ReadyToAppend(s.g, v, isHot, j, write.addr);
    assert Writing(s.g, x.vs, acts, n, v, j);
    ghost var w := AfterWriting(s.g, acts, n, v, j);
    y, torn := Trail(x.vs + [w], acts), v.js[k + j].page + 1 == s.g.M;
    WritingDone(s.g, x.vs, acts, n, v, j);
    WritingPages(s.g, x.vs, acts, n, v, j, ZeroPage(s.g));
    AppendPage(s, isHot, j, write.addr, write.data);
    WritingCut(s.g, x.vs, acts, n, v, j, s.Data());
    DataFlash(s);
    RecordStays(s, x.vs[0], blk);
    CacheBound(s);
    ActsStay(s.g, x.acts, RS.Put(write, isHot), nodes, s.root.nodes);
    r, d :| RecordIs(s.g, x.vs[0], s.ubi.blk, list, r, d);
    T := CutAfter(s.g, s.ubi.blk, list, s.root.nodes, y, torn, r, d);
  }

  /** The editions of the first acts do not depend on the next. */
  lemma PutCount(acts: seq<RS.Act>, act: RS.Act)
    requires act.Put?
    ensures RS.Only(acts + [act], act.isHot, |acts|) == RS.Only(acts, act.isHot, |acts|)
  {
    OnlyMore(acts, act, act.isHot, |acts|);
  }

  lemma ActsStay(g: Geometry, acts: seq<RS.Act>, act: RS.Act, nodes: seq<Node>, now: seq<Node>)
    requires ActsCached(g, acts, nodes) && AddrOf(act) < g.cap && |now| == |nodes|
    requires forall k :: 0 <= k < |nodes| && nodes[k].Cached? ==> now[k].Cached?
    requires PageMap.ClusterIndex(g, AddrOf(act)) < |now| && now[PageMap.ClusterIndex(g, AddrOf(act))].Cached?
    ensures ActsCached(g, acts + [act], now)
  {
  }

  /** The logical pages once the write is done. */
  lemma WritingPages(g: Geometry, vs: seq<D.View>, acts: seq<RS.Act>, n: nat, v: D.View, j: nat, zero: PageData)
    requires Writing(g, vs, acts, n, v, j) && acts[n].write.addr < g.cap
    ensures acts[n].write.addr < |D.PagesOf(v, zero)|
    ensures D.PagesOf(AfterWriting(g, acts, n, v, j), zero) == D.PagesOf(v, zero)[acts[n].write.addr := acts[n].write.data]
  {
    hide D.Inv, D.Settled, D.Appendable, D.Written, D.Updated, HasRoom, SessionUpTo, RoomForTwo, D.PagesOf, IsOpen;
    var k, e := Off(g, acts[n].isHot) + j, |RS.Only(acts, acts[n].isHot, n)|;
    D.WrittenOutcome(g, v, k, acts[n].write.addr, e, acts[n].write.data);
    D.UpdatedPages(v, AfterWriting(g, acts, n, v, j), acts[n].write.addr, Some(acts[n].write.data), zero);
    ViewSize(g, v, zero);
  }

  lemma ViewSize(g: Geometry, v: D.View, zero: PageData)
    requires D.Inv(g, v)
    ensures |D.PagesOf(v, zero)| == g.cap
  {
  }

  // ---------------------------------------------------------------- power comes back

  /** After power-on and FTL_Init: every address that survives reads as it did, and the new state is
      valid if no cluster of the committed page map `pm` but the first lives in the block that was
      being filled. */
  ghost predicate Recovered(t: Ftl, x: Trail, pm: PmtSpec.View)
    reads t, t.ubi, t.ubi.Repr
  {
    && Mounted(t) && Recovers(t.g, x.vs, x.acts, t.Pages(), ZeroPage(t.g))
    && |x.vs| > 0 && IsMap(t.g, pm, x.vs[0].pm) && (!ListLoss.InOpenBlock(t.g, pm) ==> Valid(t))
  }

  /** Power-on and FTL_Init on what a power loss left. */
  method Recover(g: Geometry, ubi: U.Ubi, ghost list: seq<nat>, ghost r: Root, ghost d: seq<nat>, ghost x: Trail, ghost torn: bool, ghost T: set<nat>)
    returns (t: Ftl, ghost pm: PmtSpec.View)
    requires ubi.Valid() && ubi in ubi.Repr && ubi.blocks == g.U && ubi.pages == g.P && Left(g, ubi.blk, list, r, d, x, torn, T)
    modifies ubi.Repr
    ensures fresh(t) && t.g == g && t.ubi == ubi && Recovered(t, x, pm)
    ensures t.Pages() == RecoveredPages(g, SessionLeft(g, x.vs[0], x.acts, torn), DataBlocks(g, old(ubi.blk)), ZeroPage(g))
    ensures pm == StoredMap(g, old(ubi.blk), r, d, list)
    ensures !torn ==> LeftStill(g, ubi.blk, t.listed, x, T) && DataBlocks(g, ubi.blk) == DataBlocks(g, old(ubi.blk))
  {
    hide Valid, Mounted, Ftl.Pages, SessionUpTo, FlashLeft, Interrupted, RecoveredPages, DataBlocks, Recovers, FewClusters, SessionLeft, ListLoss.InOpenBlock, IsMap, StoredMap, InterruptedStill, LeftStill, Unfinished;
    ghost var y := SessionLeft(g, x.vs[0], x.acts, torn);
    pm := StoredMap(g, ubi.blk, r, d, list);
    InterruptedMap(g, ubi.blk, r, d, list, y);
    SessionFrom(g, x.vs[0], x.acts, torn);
    RecoversAll(g, x.vs, x.acts, torn, DataBlocks(g, ubi.blk), ZeroPage(g));
    t := MountAgain(g, ubi, r, d, list, y, T);
    if !torn {
      StaysLeft(g, ubi.blk, t.listed, x, T);
    }
  }

  /** Another power loss would leave what the first one left. */
  ghost predicate LeftStill(g: Geometry, blk: seq<Block>, list: seq<nat>, x: Trail, T: set<nat>) {
    exists r: Root, d: seq<nat> :: Left(g, blk, list, r, d, x, false, T)
  }

  lemma StaysLeft(g: Geometry, blk: seq<Block>, list: seq<nat>, x: Trail, T: set<nat>)
    requires SessionOf(g, x.vs, x.acts) && FlashLeft(g, x.vs[0], x.vs[|x.acts|], x.acts, false, DataBlocks(g, blk))
    requires InterruptedStill(g, blk, list, SessionLeft(g, x.vs[0], x.acts, false)) && FewClusters(g, SessionLeft(g, x.vs[0], x.acts, false), T)
    ensures LeftStill(g, blk, list, x, T)
  {
    hide SessionUpTo, FlashLeft, Interrupted, FewClusters, SessionLeft, DataBlocks;
    var r: Root, d: seq<nat> :| Interrupted(g, blk, r, d, list, SessionLeft(g, x.vs[0], x.acts, false));
    assert Left(g, blk, list, r, d, x, false, T);
  }

  lemma SessionFrom(g: Geometry, v0: D.View, acts: seq<RS.Act>, torn: bool)
    ensures SessionLeft(g, v0, acts, torn).v0 == v0 && (!torn ==> !SessionLeft(g, v0, acts, torn).hotTorn && !SessionLeft(g, v0, acts, torn).coldTorn)
  {
  }

  /** With nothing done since the commit, nothing is lost. */
  lemma NothingLost(g: Geometry, v: D.View, now: seq<PageData>, zero: PageData)
    requires Recovers(g, [v], [], now, zero)
    ensures now == D.PagesOf(v, zero)
  {
    hide D.ReadEntry;
    forall a: nat | a < g.cap
      ensures now[a] == D.PagesOf(v, zero)[a]
    {
      assert RS.Survives([], 0, a, v.pm[a]);
    }
  }
}
