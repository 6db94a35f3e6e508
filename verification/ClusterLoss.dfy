/** A device on which the list of the page-map block being filled is missed: one commit after
    another from what PMT_Format leaves, until a reclaim erases the only page of a cluster. */
module ClusterLoss {
  import opened Geometry
  import opened Flash
  import opened PmtSpec
  import opened Logs
  import L = ListLoss
  import F = Format

  /** One die, blocks of nine pages of 128 bytes, 32 logical blocks, four cache slots. */
  const BUILD := Config(1, 9, 4, 32, 32, 128)

  /** Five clusters of 32 addresses; the page map has blocks 6 to 10. */
  const BUILT: Geometry := Dims(1, 9, 8, 32, 4, 32, 5, 144, 11, 1, 9, 128)

  lemma BuildIsValid()
    ensures ValidConfig(BUILD) && DimsOf(BUILD) == BUILT
  {
  }

  /** PMT_Update of the first address of cluster c with an empty cache, and PMT_Commit. */
  ghost function Touched(g: Geometry, v: View, c: nat, e: Entry): View {
    if c < |v.nodes| && 0 < |v.slots| then Committed(g, Changed(v, c, e)) else v
  }

  ghost function Changed(v: View, c: nat, e: Entry): View
    requires c < |v.nodes| && 0 < |v.slots|
  {
    var w := LoadSlot(v, c, 0);
    if 0 < |w.slots[0].entries| then SetEntry(w, c, 0, e) else w
  }

  /** The same n times. */
  ghost function Repeated(g: Geometry, v: View, c: nat, e: Entry, n: nat): View {
    if n == 0 then v else Touched(g, Repeated(g, v, c, e, n - 1), c, e)
  }

  /** Cluster 0 is changed again and again; clusters 2, 3 and 4 once each, on a fresh block. */
  ghost function LongRun(v: View, e: Entry): View {
    var v := Repeated(BUILT, v, 0, e, 3);
    var v := Repeated(BUILT, Touched(BUILT, v, 2, e), 0, e, 7);
    var v := Repeated(BUILT, Touched(BUILT, v, 3, e), 0, e, 7);
    Repeated(BUILT, Touched(BUILT, v, 4, e), 0, e, 7)
  }

  // ---------------------------------------------------------------- the run, in short

  /** Where the clusters are, the open page, and the dirty counts of the page-map blocks. */
  datatype Track = Track(homes: seq<Loc>, open: Loc, dirty: seq<nat>)

  ghost predicate Held(v: View, homes: seq<Loc>) {
    && |homes| == 5 && |v.nodes| == 5
    && forall c :: 0 <= c < 5 ==>
         v.nodes[c] == OnFlash(homes[c]) && InPmt(BUILT, homes[c].block) && homes[c].page < 8
         && |EntriesAt(v.blk, homes[c])| == 32
  }

  /** The list of block 6 has cluster 0 for page 1. */
  ghost predicate Unlisted(v: View) {
    if v.open.block == 6 then 5 <= v.open.page && 1 < |v.meta| && v.meta[1] == 0
    else 8 <= |ListOf(BUILT, v.blk, 6)| && ListOf(BUILT, v.blk, 6)[1] == 0
  }

  ghost predicate Counted(v: View, dirty: seq<nat>) {
    |dirty| == 5 && |v.dirty| >= 32 && forall b :: 0 <= b < 5 ==> v.dirty[6 + b] == dirty[b]
  }

  /** The open page is on no block but 6, 8, 9 or 10 and is nobody's page. */
  ghost predicate Opens(v: View, t: Track) {
    && |v.meta| == 9 && Shaped(v.blk, 32, 9) && Filled(v.blk[7], 0) && v.blank == 7 && v.slots == NoSlots(BUILT)
    && v.open == t.open && InPmt(BUILT, t.open.block) && t.open.block != 7 && t.open.page < 8
    && forall c :: 0 <= c < |t.homes| && t.homes[c].block == t.open.block ==> t.homes[c].page < t.open.page
  }

  ghost predicate Tracked(v: View, t: Track) {
    Held(v, t.homes) && Unlisted(v) && Counted(v, t.dirty) && Opens(v, t)
  }

  /** A page of cluster c is written. */
  function Stepped(t: Track, c: nat): Track
    requires c < |t.homes| && 6 <= t.homes[c].block < 11 && |t.dirty| == 5
  {
    var b := t.homes[c].block - 6;
    Track(t.homes[c := t.open], Loc(t.open.block, t.open.page + 1), t.dirty[b := t.dirty[b] + 1])
  }

  lemma ChangedHolds(v: View, t: Track, c: nat, e: Entry)
    requires Tracked(v, t) && c < 5
    ensures var x := Changed(v, c, e);
            && Holds(BUILT, x, 0) && x.slots[0].cluster == Some(c) && x.slots[0].origin == At(t.homes[c]) && x.nodes[c] == Cached(0, true)
            && x == v.(nodes := v.nodes[c := Cached(0, true)], slots := x.slots)
            && |x.slots| == 4 && forall i :: 1 <= i < 4 ==> x.slots[i].cluster.None?
  {
  }

  /** Slots that hold nothing do nothing. */
  lemma {:induction false} OtherSlots(g: Geometry, v: View, n: nat)
    requires n >= 1 && var w := SlotCommitted(g, v, 0); forall i :: 1 <= i < n && i < |w.slots| ==> w.slots[i].cluster.None?
    ensures SlotsCommitted(g, v, n) == SlotCommitted(g, v, 0)
  {
    hide SlotCommitted;
    if n == 1 {
      assert SlotsCommitted(g, v, 0) == v;
    } else {
      OtherSlots(g, v, n - 1);
      var w := SlotCommitted(g, v, 0);
      SlotEmpty(g, w, n - 1);
    }
  }

  lemma SlotEmpty(g: Geometry, v: View, i: nat)
    requires i < |v.slots| ==> v.slots[i].cluster.None?
    ensures SlotCommitted(g, v, i) == v
  {
  }

  /** What the write of the page leaves, before the cache is emptied. */
  ghost function Flushed(v: View, c: nat, e: Entry): View
    requires c < |v.nodes| && 0 < |v.slots| && Holds(BUILT, Changed(v, c, e), 0) && v.open.page < 8
  {
    FlushSlot(BUILT, Changed(v, c, e), 0).(slots := NoSlots(BUILT))
  }

  lemma FlushedIs(v: View, t: Track, c: nat, e: Entry)
    requires Tracked(v, t) && c < 5 && Holds(BUILT, Changed(v, c, e), 0)
    ensures var x := Flushed(v, c, e); var s := Stepped(t, c);
            && Held(x, s.homes) && Counted(x, s.dirty) && x.open == s.open && x.blank == 7 && |x.meta| == 9
            && Shaped(x.blk, 32, 9) && Filled(x.blk[7], 0) && x.slots == NoSlots(BUILT)
            && (forall b, p :: 0 <= b < 32 && 0 <= p < 9 && Loc(b, p) != t.open ==> x.blk[b][p] == v.blk[b][p])
            && x.meta == v.meta[t.open.page := c]
  {
    ChangedHolds(v, t, c, e);
    hide Unlisted;
    var x := Flushed(v, c, e);
    forall d | 0 <= d < 5 && d != c
      ensures x.nodes[d] == v.nodes[d] && EntriesAt(x.blk, t.homes[d]) == EntriesAt(v.blk, t.homes[d])
    {
      assert t.homes[d] != t.open;
    }
  }

  /** A commit that does not fill the block. */
  lemma TouchFits(v: View, t: Track, c: nat, e: Entry)
    requires Tracked(v, t) && c < 5 && t.open.page < 7
    ensures Tracked(Touched(BUILT, v, c, e), Stepped(t, c))
  {
    ChangedHolds(v, t, c, e);
    FlushedIs(v, t, c, e);
    OtherSlots(BUILT, Changed(v, c, e), 4);
    hide Held, Counted, Holds, Changed;
    assert Touched(BUILT, v, c, e) == Flushed(v, c, e);
    ListsKept(v, Flushed(v, c, e), t, c);
  }

  /** The list of block 6 is as before, and so is the room in the open block. */
  lemma ListsKept(v: View, x: View, t: Track, c: nat)
    requires Opens(v, t) && Unlisted(v) && x.open == Loc(t.open.block, t.open.page + 1) && t.open.page < 8
    requires Shaped(x.blk, 32, 9) && x.meta == v.meta[t.open.page := c]
    requires forall b, p :: 0 <= b < 32 && 0 <= p < 9 && Loc(b, p) != t.open ==> x.blk[b][p] == v.blk[b][p]
    ensures Unlisted(x)
  {
    if t.open.block != 6 {
      assert x.blk[6][8] == v.blk[6][8];
    }
  }

  /** Cluster c is changed n times in the room that is left. */
  function Steps(t: Track, c: nat, n: nat): Track
    requires c < |t.homes| && 6 <= t.homes[c].block < 11 && 6 <= t.open.block < 11 && |t.dirty| == 5
  {
    if n == 0 then t else
      var b, o := t.homes[c].block - 6, t.open.block - 6;
      var d := t.dirty[b := t.dirty[b] + 1];
      Track(t.homes[c := Loc(t.open.block, t.open.page + n - 1)], Loc(t.open.block, t.open.page + n), d[o := d[o] + n - 1])
  }

  lemma {:induction false} Repeats(v: View, t: Track, c: nat, e: Entry, n: nat)
    requires Tracked(v, t) && c < 5 && t.open.page + n <= 7
    ensures Tracked(Repeated(BUILT, v, c, e, n), Steps(t, c, n))
  {
    if n > 0 {
      Repeats(v, t, c, e, n - 1);
      var u := Repeated(BUILT, v, c, e, n - 1);
      TouchFits(u, Steps(t, c, n - 1), c, e);
      hide Tracked, Touched;
      StepsStep(t, c, n);
    }
  }

  lemma StepsStep(t: Track, c: nat, n: nat)
    requires c < |t.homes| && 6 <= t.homes[c].block < 11 && 6 <= t.open.block < 11 && |t.dirty| == 5 && n > 0
    ensures Stepped(Steps(t, c, n - 1), c) == Steps(t, c, n)
  {
    var s, w := Stepped(Steps(t, c, n - 1), c), Steps(t, c, n);
    assert s.homes == w.homes && s.dirty == w.dirty;
  }

  /** The state after the write, written to the end of its block. */
  ghost predicate AtEnd(x: View, s: Track) {
    && Held(x, s.homes) && Counted(x, s.dirty) && x.open == s.open && x.blank == 7 && |x.meta| == 9
    && Shaped(x.blk, 32, 9) && Filled(x.blk[7], 0) && x.slots == NoSlots(BUILT)
    && InPmt(BUILT, s.open.block) && s.open.block != 7 && s.open.page == 8 && Unlisted(x)
  }

  lemma FlushedAtEnd(v: View, t: Track, c: nat, e: Entry)
    requires Tracked(v, t) && c < 5 && t.open.page == 7 && Holds(BUILT, Changed(v, c, e), 0)
    ensures AtEnd(Flushed(v, c, e), Stepped(t, c))
  {
    FlushedIs(v, t, c, e);
    ListsKept(v, Flushed(v, c, e), t, c);
    hide Unlisted, Held, Counted;
  }

  /** Before the cache is emptied. */
  ghost function Written(v: View, c: nat, e: Entry): View
    requires c < |v.nodes| && 0 < |v.slots| && Holds(BUILT, Changed(v, c, e), 0) && v.open.page < 8
  {
    FlushSlot(BUILT, Changed(v, c, e), 0)
  }

  /** The copy loop puts nothing into the cache. */
  lemma {:induction false} SweepSlots(g: Geometry, v: View, victim: nat, clusters: seq<nat>, n: nat)
    requires n <= |clusters|
    ensures var w := Sweep(g, v, victim, clusters, n);
            |w.slots| == |v.slots| && forall i :: 0 <= i < |v.slots| && v.slots[i].cluster.None? ==> w.slots[i].cluster.None?
  {
    if n > 0 {
      SweepSlots(g, v, victim, clusters, n - 1);
    }
  }

  lemma ReclaimSlots(g: Geometry, v: View)
    ensures var w := Reclaimed(g, v);
            |w.slots| == |v.slots| && forall i :: 0 <= i < |v.slots| && v.slots[i].cluster.None? ==> w.slots[i].cluster.None?
  {
    var victim := Dirtiest(v.dirty, PMT_START_BLOCK, g.dataLo);
    hide Dirtiest, Sweep;
    if 0 <= v.blank && g.M <= |ListOf(g, v.blk, victim)| {
      SweepSlots(g, BeginMove(v), victim, ListOf(g, v.blk, victim), g.M);
    }
  }

  /** A commit that fills the block reclaims the first dirtiest one. */
  lemma TouchReclaims(v: View, t: Track, c: nat, e: Entry)
    requires Tracked(v, t) && c < 5 && t.open.page == 7
    ensures Holds(BUILT, Changed(v, c, e), 0)
    ensures Touched(BUILT, v, c, e) == Reclaimed(BUILT, Listing(BUILT, Written(v, c, e))).(slots := NoSlots(BUILT))
  {
    ChangedHolds(v, t, c, e);
    var x := Changed(v, c, e);
    assert SlotCommitted(BUILT, x, 0) == Reclaimed(BUILT, Listing(BUILT, Written(v, c, e))) && Written(v, c, e).slots == x.slots;
    hide Tracked, Holds, Changed, Reclaimed, SlotCommitted, Written;
    ReclaimSlots(BUILT, Listing(BUILT, Written(v, c, e)));
    OtherSlots(BUILT, x, 4);
  }

  lemma FirstDirtiest(x: View, s: Track, b: nat)
    requires Counted(x, s.dirty) && 6 <= b < 11
    requires forall i :: 0 <= i < 5 ==> s.dirty[i] <= s.dirty[b - 6] && (i < b - 6 ==> s.dirty[i] < s.dirty[b - 6])
    ensures Dirtiest(x.dirty, PMT_START_BLOCK, 11) == b
  {
    hide Dirtiest;
    forall k | 6 <= k < 11
      ensures x.dirty[k] <= x.dirty[b] && (k < b ==> x.dirty[k] < x.dirty[b])
    {
      assert x.dirty[6 + (k - 6)] == s.dirty[k - 6] && x.dirty[6 + (b - 6)] == s.dirty[b - 6];
    }
    IsDirtiest(x.dirty, PMT_START_BLOCK, 11, b);
  }

  lemma RecycledTracked(x: View, s: Track, b: nat)
    requires AtEnd(x, s) && 8 <= b < 11 && forall d :: 0 <= d < 5 ==> s.homes[d].block != b
    ensures b < |x.blk| && b < |x.dirty|
    ensures Tracked(Recycle(BUILT, Listing(BUILT, x), b), Track(s.homes, Loc(b, 0), s.dirty[b - 6 := 0]))
  {
  }

  /** The first dirtiest block, b, is wholly dirty and is taken. */
  lemma TouchFills(v: View, t: Track, c: nat, e: Entry, b: nat)
    requires Tracked(v, t) && c < 5 && t.open.page == 7 && 8 <= b < 11
    requires var s := Stepped(t, c);
             && s.dirty[b - 6] == 8 && (forall i :: 0 <= i < 5 ==> s.dirty[i] <= 8 && (i < b - 6 ==> s.dirty[i] < 8))
             && forall d :: 0 <= d < 5 ==> s.homes[d].block != b
    ensures var s := Stepped(t, c);
            Tracked(Touched(BUILT, v, c, e), Track(s.homes, Loc(b, 0), s.dirty[b - 6 := 0]))
  {
    TouchReclaims(v, t, c, e);
    FlushedAtEnd(v, t, c, e);
    hide Holds, Changed, FlushSlot, Dirtiest;
    var x, s, u := Flushed(v, c, e), Stepped(t, c), Listing(BUILT, Written(v, c, e));
    FirstDirtiest(x, s, b);
    RecycledTracked(x, s, b);
    hide Tracked, Held, Touched, Unlisted;
    assert u.dirty[6 + (b - 6)] == 8;
    assert Reclaimed(BUILT, u).(slots := NoSlots(BUILT)) == Recycle(BUILT, Listing(BUILT, x), b);
  }

  /** The first dirtiest block is block 6, and cluster 1 lives there. */
  lemma TouchLoses(v: View, t: Track, c: nat, e: Entry)
    requires Tracked(v, t) && c < 5 && t.open.page == 7 && t.open.block != 6
    requires var s := Stepped(t, c);
             s.dirty[0] < 8 && s.homes[1] == Loc(6, 1) && forall i :: 0 <= i < 5 ==> s.dirty[i] <= s.dirty[0]
    ensures var w := Touched(BUILT, v, c, e); 1 < |w.nodes| && ClusterOf(w, 1) == []
  {
    TouchReclaims(v, t, c, e);
    FlushedAtEnd(v, t, c, e);
    hide Holds, Changed, FlushSlot, Dirtiest;
    var x, s, u := Flushed(v, c, e), Stepped(t, c), Listing(BUILT, Written(v, c, e));
    FirstDirtiest(x, s, 6);
    hide Touched, Tracked;
    assert u.dirty[6 + 0] < 8;
    var l := ListOf(BUILT, u.blk, 6);
    assert l == ListOf(BUILT, x.blk, 6);
    assert EntriesAt(u.blk, Loc(6, 1)) == EntriesAt(x.blk, Loc(6, 1));
    L.KeptIfListed(BUILT, BeginMove(u), 6, l, 1);
  }

  lemma TrackSizes(v: View, t: Track)
    requires Tracked(v, t)
    ensures |t.homes| == |t.dirty| == 5 && InPmt(BUILT, t.open.block) && forall c :: 0 <= c < 5 ==> InPmt(BUILT, t.homes[c].block)
  {
  }

  /** Cluster c has the first page of the open block; cluster 0 fills the rest, and block b is taken. */
  lemma Cycle(v: View, t: Track, c: nat, e: Entry, b: nat)
    requires Tracked(v, t) && 0 < c < 5 && t.open.page == 0 && 8 <= b < 11 && b != t.open.block
    requires var s := Steps(Stepped(t, c), 0, 7);
             && s.dirty[b - 6] == 8 && (forall i :: 0 <= i < 5 ==> s.dirty[i] <= 8 && (i < b - 6 ==> s.dirty[i] < 8))
             && forall d :: 0 <= d < 5 ==> s.homes[d].block != b
    ensures var s := Steps(Stepped(t, c), 0, 7);
            Tracked(Repeated(BUILT, Touched(BUILT, v, c, e), 0, e, 7), Track(s.homes, Loc(b, 0), s.dirty[b - 6 := 0]))
  {
    hide Tracked, Touched;
    TrackSizes(v, t);
    TouchFits(v, t, c, e);
    var u, s := Touched(BUILT, v, c, e), Stepped(t, c);
    TrackSizes(u, s);
    Repeats(u, s, 0, e, 6);
    StepsStep(s, 0, 7);
    assert Steps(s, 0, 6).open.page == 7;
    hide Steps, Stepped;
    TouchFills(Repeated(BUILT, u, 0, e, 6), Steps(s, 0, 6), 0, e, b);
  }

  const START := Track([Loc(6, 0), Loc(6, 1), Loc(6, 2), Loc(6, 3), Loc(6, 4)], Loc(6, 5), [0, 0, 8, 8, 8])

  lemma Places(c: nat)
    requires c < 5
    ensures F.PlaceOf(BUILT, c) == Loc(6, c)
  {
  }

  lemma FormattedHeld(r: Root, blk: seq<Block>, dirty: seq<nat>, list: seq<nat>)
    requires F.MapFormatted(BUILT, r, blk, dirty, list) && |r.nodes| == 5
    ensures Held(StoredMap(BUILT, blk, r, dirty, list), START.homes)
  {
    forall c: nat | c < 5
      ensures r.nodes[c] == OnFlash(START.homes[c]) && |EntriesAt(blk, START.homes[c])| == 32
    {
      Places(c);
      assert F.ClusterHeld(BUILT, blk, F.PlaceOf(BUILT, c));
    }
  }

  /** Power-on after PMT_Format. */
  lemma FormattedTrack(r: Root, blk: seq<Block>, dirty: seq<nat>, list: seq<nat>)
    requires F.MapFormatted(BUILT, r, blk, dirty, list) && |r.nodes| == 5
    ensures Tracked(L.Forgotten(BUILT, StoredMap(BUILT, blk, r, dirty, list)), START)
  {
    FormattedHeld(r, blk, dirty, list);
    var d :| F.Ends(BUILT, r.nodes, blk, dirty, list, d, r.pmtCurrent.block, r.pmtCurrent.page);
    assert r.pmtCurrent == Loc(6, 5);
    assert Filled(blk[7], 0);
    assert forall b :: 8 <= b < 11 ==> dirty[b] == 8;
  }

  /** PMT_Format leaves five clusters in the block being filled, all in order.  If power fails
      then, 27 commits later the addresses of cluster 1 are lost: the reclaim of the first block
      goes by a list that the mount did not rebuild. */
  lemma LostCluster(r: Root, blk: seq<Block>, dirty: seq<nat>, list: seq<nat>, e: Entry)
    requires F.MapFormatted(BUILT, r, blk, dirty, list) && |r.nodes| == BUILT.K
    ensures ValidConfig(BUILD) && DimsOf(BUILD) == BUILT
    ensures var v := StoredMap(BUILT, blk, r, dirty, list);
            Stable(BUILT, v) && L.InOpenBlock(BUILT, v) && ClusterOf(v, 1) == F.EmptyCluster(BUILT)
    ensures var w := LongRun(L.Forgotten(BUILT, StoredMap(BUILT, blk, r, dirty, list)), e);
            1 < |w.nodes| && ClusterOf(w, 1) == []
  {
    var v := StoredMap(BUILT, blk, r, dirty, list);
    BuildIsValid();
    FormattedTrack(r, blk, dirty, list);
    StartsRun(L.Forgotten(BUILT, v), e);
    FormattedInOpen(r, blk, dirty, list);
    hide F.MapFormatted, LongRun, Tracked, L.InOpenBlock;
  }

  lemma FormattedInOpen(r: Root, blk: seq<Block>, dirty: seq<nat>, list: seq<nat>)
    requires F.MapFormatted(BUILT, r, blk, dirty, list) && |r.nodes| == BUILT.K
    ensures var v := StoredMap(BUILT, blk, r, dirty, list);
            Stable(BUILT, v) && L.InOpenBlock(BUILT, v) && ClusterOf(v, 1) == F.EmptyCluster(BUILT)
  {
    var v := StoredMap(BUILT, blk, r, dirty, list);
    F.FormattedIsStable(BUILT, r, blk, dirty, list);
    var d :| F.Ends(BUILT, r.nodes, blk, dirty, list, d, r.pmtCurrent.block, r.pmtCurrent.page);
    F.FormattedShape(BUILT, r, blk, dirty, list, d);
    F.FormattedHome(BUILT, r, blk, dirty, list, d, 1);
    FormattedHeld(r, blk, dirty, list);
    hide Stable, HomeOk;
    assert HomeOf(v.nodes, v.slots, 1).block == v.open.block;
  }

  // The run's tracks: block 6 about to be full; blocks 8, 9 and 10 fresh; block 10 about to be full.

  const T0 := Track([Loc(6, 6), Loc(6, 1), Loc(6, 2), Loc(6, 3), Loc(6, 4)], Loc(6, 7), [2, 0, 8, 8, 8])
  const T1 := Track([Loc(6, 7), Loc(6, 1), Loc(6, 2), Loc(6, 3), Loc(6, 4)], Loc(8, 0), [3, 0, 0, 8, 8])
  const T2 := Track([Loc(8, 7), Loc(6, 1), Loc(8, 0), Loc(6, 3), Loc(6, 4)], Loc(9, 0), [5, 0, 6, 0, 8])
  const T3 := Track([Loc(9, 7), Loc(6, 1), Loc(8, 0), Loc(9, 0), Loc(6, 4)], Loc(10, 0), [6, 0, 7, 6, 0])
  const T4 := Track([Loc(10, 6), Loc(6, 1), Loc(8, 0), Loc(9, 0), Loc(10, 0)], Loc(10, 7), [7, 0, 7, 7, 5])

  lemma SameTrack(t: Track, u: Track)
    requires |t.homes| == |u.homes| == 5 && forall i :: 0 <= i < 5 ==> t.homes[i] == u.homes[i]
    requires |t.dirty| == |u.dirty| == 5 && forall i :: 0 <= i < 5 ==> t.dirty[i] == u.dirty[i]
    requires t.open == u.open
    ensures t == u
  {
    assert t.homes == u.homes && t.dirty == u.dirty;
  }

  lemma FirstTracks()
    ensures Steps(START, 0, 2) == T0 && Stepped(T0, 0) == Track(T1.homes, Loc(6, 8), [3, 0, 8, 8, 8])
  {
    SameTrack(Steps(START, 0, 2), T0);
    SameTrack(Stepped(T0, 0), Track(T1.homes, Loc(6, 8), [3, 0, 8, 8, 8]));
  }

  /** The first block is filled. */
  lemma FirstBlock(v: View, e: Entry)
    requires Tracked(v, START)
    ensures Tracked(Repeated(BUILT, v, 0, e, 3), T1)
  {
    Repeats(v, START, 0, e, 2);
    hide Tracked, Touched, Steps, Stepped;
    FirstTracks();
    TouchFills(Repeated(BUILT, v, 0, e, 2), T0, 0, e, 8);
    assert [3, 0, 8, 8, 8][2 := 0] == T1.dirty;
  }

  /** Then three more. */
  lemma SecondBlock(v: View, e: Entry)
    requires Tracked(v, T1)
    ensures Tracked(Repeated(BUILT, Touched(BUILT, v, 2, e), 0, e, 7), T2)
  {
    hide Tracked, Touched, Repeated;
    var s := Steps(Stepped(T1, 2), 0, 7);
    SameTrack(Track(s.homes, Loc(9, 0), s.dirty[3 := 0]), T2);
    Cycle(v, T1, 2, e, 9);
  }

  lemma ThirdBlock(v: View, e: Entry)
    requires Tracked(v, T2)
    ensures Tracked(Repeated(BUILT, Touched(BUILT, v, 3, e), 0, e, 7), T3)
  {
    hide Tracked, Touched, Repeated;
    var s := Steps(Stepped(T2, 3), 0, 7);
    SameTrack(Track(s.homes, Loc(10, 0), s.dirty[4 := 0]), T3);
    Cycle(v, T2, 3, e, 10);
  }

  lemma LastTracks()
    ensures Steps(Stepped(T3, 4), 0, 6) == T4
  {
    SameTrack(Stepped(T3, 4), Track(T3.homes[4 := Loc(10, 0)], Loc(10, 1), [7, 0, 7, 6, 0]));
    SameTrack(Steps(Stepped(T3, 4), 0, 6), T4);
  }

  lemma LastBlock(v: View, e: Entry)
    requires Tracked(v, T3)
    ensures var w := Repeated(BUILT, Touched(BUILT, v, 4, e), 0, e, 7); 1 < |w.nodes| && ClusterOf(w, 1) == []
  {
    TouchFits(v, T3, 4, e);
    Repeats(Touched(BUILT, v, 4, e), Stepped(T3, 4), 0, e, 6);
    hide Tracked, Touched, Steps;
    LastTracks();
    TouchLoses(Repeated(BUILT, Touched(BUILT, v, 4, e), 0, e, 6), T4, 0, e);
  }

  lemma StartsRun(v: View, e: Entry)
    requires Tracked(v, START)
    ensures var w := LongRun(v, e); 1 < |w.nodes| && ClusterOf(w, 1) == []
  {
    hide Tracked, Touched, Repeated;
    FirstBlock(v, e);
    var u := Repeated(BUILT, v, 0, e, 3);
    SecondBlock(u, e);
    var w := Repeated(BUILT, Touched(BUILT, u, 2, e), 0, e, 7);
    ThirdBlock(w, e);
    LastBlock(Repeated(BUILT, Touched(BUILT, w, 3, e), 0, e, 7), e);
  }
}
