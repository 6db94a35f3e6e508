/** The page map as a value: what ftl_pmt.c keeps true of its tables, and what each of its
    steps does to them.

    A cluster's page has a *home*: the flash page its node names, or, when the cluster is
    cached, the page the slot was loaded from.  `open` is the block being appended to, whose
    list of clusters is still in RAM; `blank` is the reclaim block (-1 while a reclaim is
    filling it).  `from` is the first cache slot a running PMT_Commit has yet to visit. */
module PmtSpec {
  import opened Geometry
  import opened Flash
  import opened Counting

  datatype Slot = Slot(entries: seq<Entry>, origin: Entry, cluster: Option<nat>)

  const EMPTY_SLOT := Slot([], Nowhere, None)

  datatype View = View(
    nodes: seq<Node>,
    slots: seq<Slot>,
    open: Loc,
    blank: int,
    meta: seq<nat>,
    dirty: seq<nat>,
    blk: seq<Block>
  )

  // ---------------------------------------------------------------- reading a view

  function HomeOf(nodes: seq<Node>, slots: seq<Slot>, c: nat): Loc
    requires c < |nodes|
  {
    match nodes[c]
    case OnFlash(l) => l
    case Cached(s, _) => if s < |slots| && slots[s].origin.At? then slots[s].origin.loc else Loc(0, 0)
  }

  function HomeBlocks(nodes: seq<Node>, slots: seq<Slot>): (r: seq<int>)
    ensures |r| == |nodes|
    ensures forall c :: 0 <= c < |nodes| ==> r[c] == HomeOf(nodes, slots, c).block
  {
    seq(|nodes|, c requires 0 <= c < |nodes| => HomeOf(nodes, slots, c).block)
  }

  /** How many clusters have their home in block b. */
  ghost function Live(v: View, b: int): nat {
    multiset(HomeBlocks(v.nodes, v.slots))[b]
  }

  function EntriesAt(blk: seq<Block>, l: Loc): seq<Entry> {
    if l.block < |blk| && l.page < |blk[l.block]| && blk[l.block][l.page].Programmed?
       && blk[l.block][l.page].content.Cluster?
    then blk[l.block][l.page].content.entries
    else []
  }

  /** The current contents of cluster c: the cached copy if there is one. */
  ghost function ClusterOf(v: View, c: nat): seq<Entry>
    requires c < |v.nodes|
  {
    match v.nodes[c]
    case OnFlash(l) => EntriesAt(v.blk, l)
    case Cached(s, _) => if s < |v.slots| then v.slots[s].entries else []
  }

  /** Both views map every address alike. */
  ghost predicate SameMap(v: View, w: View) {
    |v.nodes| == |w.nodes| && forall c :: 0 <= c < |v.nodes| ==> ClusterOf(v, c) == ClusterOf(w, c)
  }

  /** The address map depends on the nodes, the cache and the flash only. */
  lemma SameMapDepends(v: View, w: View, v': View, w': View)
    requires v'.nodes == v.nodes && v'.slots == v.slots && v'.blk == v.blk
    requires w'.nodes == w.nodes && w'.slots == w.slots && w'.blk == w.blk
    requires SameMap(v, w) || (v.nodes == w.nodes && v.slots == w.slots && v.blk == w.blk)
    ensures SameMap(v', w')
  {
    forall c | 0 <= c < |v.nodes|
      ensures ClusterOf(v', c) == ClusterOf(w', c)
    {
      assert ClusterOf(v', c) == ClusterOf(v, c) && ClusterOf(w', c) == ClusterOf(w, c);
    }
  }

  lemma SameMapTrans(v: View, w: View, x: View)
    requires SameMap(v, w) && SameMap(w, x)
    ensures SameMap(v, x)
  {
  }

  // ---------------------------------------------------------------- what is kept true

  ghost predicate Shape(g: Geometry, v: View) {
    && |v.nodes| == g.K && |v.slots| == g.C && |v.meta| == g.P && |v.dirty| >= g.U
    && Shaped(v.blk, g.U, g.P)
    && InPmt(g, v.open.block) && v.open.page <= g.M
    && (v.blank == -1 || (InPmt(g, v.blank) && v.blank != v.open.block && Filled(v.blk[v.blank], 0)))
  }

  /** The list of clusters of l's block names c at l's page. */
  ghost predicate Listed(g: Geometry, v: View, l: Loc, c: nat)
    requires Shape(g, v) && l.block < g.U && l.page < g.M
  {
    if l.block == v.open.block then
      l.page < v.open.page && v.meta[l.page] == c
    else
      v.blk[l.block][g.M].Programmed? && v.blk[l.block][g.M].content.ClusterList?
      && l.page < |v.blk[l.block][g.M].content.clusters|
      && v.blk[l.block][g.M].content.clusters[l.page] == c
  }

  ghost predicate Stored(g: Geometry, v: View, l: Loc, c: nat)
    requires Shape(g, v) && l.block < g.U && l.page < g.M
  {
    && v.blk[l.block][l.page].Programmed?
    && v.blk[l.block][l.page].content.Cluster?
    && |v.blk[l.block][l.page].content.entries| == g.N
    && Listed(g, v, l, c)
  }

  ghost predicate HomeOk(g: Geometry, v: View, c: nat)
    requires Shape(g, v) && c < g.K
  {
    var h := HomeOf(v.nodes, v.slots, c);
    && InPmt(g, h.block) && h.page < g.M
    && (h.block == v.blank ==> v.nodes[c].Cached? && v.nodes[c].dirty)
    && (h.block != v.blank ==> Stored(g, v, h, c))
    && (v.nodes[c].Cached? && !v.nodes[c].dirty && v.nodes[c].slot < g.C ==>
          v.slots[v.nodes[c].slot].entries == EntriesAt(v.blk, h))
  }

  ghost predicate HomesOk(g: Geometry, v: View)
    requires Shape(g, v)
  {
    forall c :: 0 <= c < g.K ==> HomeOk(g, v, c)
  }

  ghost predicate NodesOk(g: Geometry, v: View, from: nat)
    requires Shape(g, v)
  {
    forall c :: 0 <= c < g.K && v.nodes[c].Cached? ==>
      from <= v.nodes[c].slot < g.C && v.slots[v.nodes[c].slot].cluster == Some(c)
  }

  ghost predicate SlotOk(g: Geometry, v: View, from: nat, s: nat)
    requires Shape(g, v) && s < g.C
  {
    && (v.slots[s].cluster.Some? ==>
          && v.slots[s].cluster.value < g.K
          && (s < from ==> v.nodes[v.slots[s].cluster.value].OnFlash?)
          && (s >= from ==>
                && v.nodes[v.slots[s].cluster.value].Cached?
                && v.nodes[v.slots[s].cluster.value].slot == s
                && v.slots[s].origin.At?
                && |v.slots[s].entries| == g.N))
    && (s >= from && v.slots[s].cluster.None? ==> v.slots[s].origin.Nowhere?)
  }

  ghost predicate SlotsOk(g: Geometry, v: View, from: nat)
    requires Shape(g, v)
  {
    forall s :: 0 <= s < g.C ==> SlotOk(g, v, from, s)
  }

  /** The last page of a closed page-map block lists a cluster for every page. */
  ghost predicate ListsOk(g: Geometry, v: View)
    requires Shape(g, v)
  {
    && (forall b :: InPmt(g, b) && b != v.open.block && b != v.blank && v.blk[b][g.M].Programmed? ==>
          && v.blk[b][g.M].content.ClusterList?
          && |v.blk[b][g.M].content.clusters| == g.P
          && forall p :: 0 <= p < g.M ==> v.blk[b][g.M].content.clusters[p] < g.K)
    && (forall p :: 0 <= p < v.open.page ==> v.meta[p] < g.K)
  }

  /** Dirty-count conservation. */
  ghost predicate CountsOk(g: Geometry, v: View)
    requires Shape(g, v)
  {
    && (forall b :: InPmt(g, b) && b != v.open.block && b != v.blank ==> v.dirty[b] + Live(v, b) == g.M)
    && v.dirty[v.open.block] + Live(v, v.open.block) == v.open.page
    && (v.blank >= 0 ==> v.dirty[v.blank] + Live(v, v.blank) <= g.C)
  }

  /** While a cached cluster still has its home in an erased block, the slots yet to be
      visited cannot fill the open block. */
  ghost predicate SlackOk(g: Geometry, v: View, from: nat) {
    v.blank >= 0 && Live(v, v.blank) > 0 ==> v.open.page + (g.C - from) < g.M
  }

  ghost predicate Inv(g: Geometry, v: View, from: nat) {
    && Shape(g, v) && from <= g.C && v.blank >= 0
    && NodesOk(g, v, from) && SlotsOk(g, v, from) && HomesOk(g, v) && ListsOk(g, v)
    && CountsOk(g, v) && SlackOk(g, v, from)
  }

  /** Between calls: the open block has room and nothing lives in the reclaim block. */
  ghost predicate Stable(g: Geometry, v: View) {
    && Inv(g, v, 0)
    && v.open.page < g.M && Filled(v.blk[v.open.block], v.open.page)
    && Live(v, v.blank) == 0
  }

  lemma StableShape(g: Geometry, v: View)
    requires Stable(g, v)
    ensures Shape(g, v) && v.blank >= 0 && v.open.page < g.M
  {
  }

  // ---------------------------------------------------------------- PMT_Commit: one slot

  /** Slot i holds a cluster that its node still points to. */
  ghost predicate Holds(g: Geometry, v: View, i: nat) {
    && Shape(g, v) && i < g.C
    && v.slots[i].cluster.Some? && v.slots[i].cluster.value < g.K
    && v.nodes[v.slots[i].cluster.value].Cached?
    && v.nodes[v.slots[i].cluster.value].slot == i
    && v.slots[i].origin.At? && InPmt(g, v.slots[i].origin.loc.block)
    && |v.slots[i].entries| == g.N
  }

  lemma SlotHolds(g: Geometry, v: View, from: nat, i: nat)
    requires Inv(g, v, from) && from <= i < g.C && v.slots[i].cluster.Some?
    ensures Holds(g, v, i)
  {
    hide ListsOk, CountsOk, SlackOk, NodesOk;
    assert SlotOk(g, v, from, i);
    assert HomeOk(g, v, v.slots[i].cluster.value);
  }

  /** Slot i is written at the open page. */
  ghost function FlushSlot(g: Geometry, v: View, i: nat): View
    requires Holds(g, v, i) && v.open.page < g.M
  {
    var c := v.slots[i].cluster.value;
    var was := v.slots[i].origin.loc.block;
    v.(nodes := v.nodes[c := OnFlash(v.open)],
       blk := Program(v.blk, v.open.block, v.open.page, Programmed(Cluster(v.slots[i].entries), Words(c, 0))),
       meta := v.meta[v.open.page := c],
       open := Loc(v.open.block, v.open.page + 1),
       dirty := v.dirty[was := v.dirty[was] + 1])
  }

  lemma FlushLive(g: Geometry, v: View, i: nat)
    requires Holds(g, v, i) && v.open.page < g.M
    ensures forall b :: Live(FlushSlot(g, v, i), b)
                     == Live(v, b) - (if v.slots[i].origin.loc.block == b then 1 else 0)
                      + (if v.open.block == b then 1 else 0)
  {
    var w := FlushSlot(g, v, i);
    var c := v.slots[i].cluster.value;
    assert HomeBlocks(w.nodes, w.slots) == HomeBlocks(v.nodes, v.slots)[c := v.open.block];
  }

  lemma FlushHomes(g: Geometry, v: View, i: nat)
    requires Holds(g, v, i) && v.open.page < g.M && v.blk[v.open.block][v.open.page].Erased?
    requires HomesOk(g, v)
    ensures Shape(g, FlushSlot(g, v, i)) && HomesOk(g, FlushSlot(g, v, i))
    ensures SameMap(v, FlushSlot(g, v, i))
  {
    var w := FlushSlot(g, v, i);
    forall d | 0 <= d < g.K
      ensures HomeOk(g, w, d) && ClusterOf(w, d) == ClusterOf(v, d)
    {
      assert HomeOk(g, v, d);
    }
  }

  lemma FlushSlots(g: Geometry, v: View, i: nat)
    requires Holds(g, v, i) && v.open.page < g.M
    requires Shape(g, FlushSlot(g, v, i))
    requires NodesOk(g, v, i) && SlotsOk(g, v, i)
    ensures NodesOk(g, FlushSlot(g, v, i), i + 1) && SlotsOk(g, FlushSlot(g, v, i), i + 1)
  {
    var w, next := FlushSlot(g, v, i), i + 1;
    forall s: nat | s < g.C
      ensures SlotOk(g, w, next, s)
    {
      assert SlotOk(g, v, i, s);
    }
  }

  lemma FlushCounts(g: Geometry, v: View, i: nat)
    requires Holds(g, v, i) && v.open.page < g.M
    requires Shape(g, FlushSlot(g, v, i))
    requires v.blank >= 0 && CountsOk(g, v) && SlackOk(g, v, i) && ListsOk(g, v)
    ensures CountsOk(g, FlushSlot(g, v, i)) && SlackOk(g, FlushSlot(g, v, i), i + 1)
    ensures ListsOk(g, FlushSlot(g, v, i))
  {
    FlushLive(g, v, i);
    hide Live;
  }

  lemma FlushKeeps(g: Geometry, v: View, i: nat)
    requires Inv(g, v, i) && Holds(g, v, i)
    requires v.open.page < g.M && v.blk[v.open.block][v.open.page].Erased?
    ensures Inv(g, FlushSlot(g, v, i), i + 1)
    ensures SameMap(v, FlushSlot(g, v, i))
  {
    FlushHomes(g, v, i);
    FlushSlots(g, v, i);
    FlushCounts(g, v, i);
    hide HomesOk, SlotsOk, NodesOk, ListsOk, CountsOk, SlackOk, SameMap;
  }

  /** A clean slot gives its cluster back to flash. */
  ghost function DropSlot(v: View, i: nat): View
    requires i < |v.slots| && v.slots[i].cluster.Some? && v.slots[i].cluster.value < |v.nodes|
    requires v.slots[i].origin.At?
  {
    v.(nodes := v.nodes[v.slots[i].cluster.value := OnFlash(v.slots[i].origin.loc)])
  }

  lemma DropKeeps(g: Geometry, v: View, i: nat)
    requires Inv(g, v, i) && Holds(g, v, i) && !v.nodes[v.slots[i].cluster.value].dirty
    ensures Inv(g, DropSlot(v, i), i + 1)
    ensures SameMap(v, DropSlot(v, i))
  {
    DropHomes(g, v, i);
    DropSlots(g, v, i);
    var w := DropSlot(v, i);
    assert HomeBlocks(w.nodes, w.slots) == HomeBlocks(v.nodes, v.slots);
    assert forall b :: Live(w, b) == Live(v, b);
    hide HomesOk, SlotsOk, NodesOk, SameMap, Live, HomeBlocks;
  }

  lemma DropHomes(g: Geometry, v: View, i: nat)
    requires Holds(g, v, i) && !v.nodes[v.slots[i].cluster.value].dirty && HomesOk(g, v)
    ensures HomesOk(g, DropSlot(v, i)) && SameMap(v, DropSlot(v, i))
  {
    var w := DropSlot(v, i);
    forall d | 0 <= d < g.K
      ensures HomeOk(g, w, d) && ClusterOf(w, d) == ClusterOf(v, d)
    {
      assert HomeOk(g, v, d);
    }
  }

  lemma DropSlots(g: Geometry, v: View, i: nat)
    requires Holds(g, v, i) && NodesOk(g, v, i) && SlotsOk(g, v, i)
    ensures NodesOk(g, DropSlot(v, i), i + 1) && SlotsOk(g, DropSlot(v, i), i + 1)
  {
    var w, next := DropSlot(v, i), i + 1;
    forall s: nat | s < g.C
      ensures SlotOk(g, w, next, s)
    {
      assert SlotOk(g, v, i, s);
    }
  }

  /** An empty slot is passed over. */
  lemma SkipKeeps(g: Geometry, v: View, i: nat)
    requires Inv(g, v, i) && i < g.C && v.slots[i].cluster.None?
    ensures Inv(g, v, i + 1)
  {
    hide HomesOk, ListsOk, CountsOk, Live;
    var next := i + 1;
    forall s: nat | s < g.C
      ensures SlotOk(g, v, next, s)
    {
      assert SlotOk(g, v, i, s);
    }
  }

  // ---------------------------------------------------------------- pmt_reclaim_blocks

  /** The open block is full and its list of clusters is on its last page. */
  ghost predicate Full(g: Geometry, v: View, from: nat) {
    && Inv(g, v, from)
    && v.open.page == g.M
    && v.blk[v.open.block][g.M] == Programmed(ClusterList(v.meta), AllOnes)
  }

  /** The list of a full block is written to its last page. */
  ghost function Listing(g: Geometry, v: View): View {
    if v.open.block < |v.blk| && g.M < |v.blk[v.open.block]|
    then v.(blk := Program(v.blk, v.open.block, g.M, Programmed(ClusterList(v.meta), AllOnes)))
    else v
  }

  lemma CloseKeeps(g: Geometry, v: View, from: nat)
    requires Inv(g, v, from) && v.open.page == g.M
    ensures var w := Listing(g, v);
            Full(g, w, from) && SameMap(v, w)
  {
    hide SlackOk, Live;
    var w := Listing(g, v);
    CloseHomes(g, v);
    assert forall b :: Live(w, b) == Live(v, b) by { LiveDepends(v, w); }
    assert SlackOk(g, w, from) by { SlackDepends(g, v, w, from); }
    hide HomesOk, SameMap;
    assert SlotsOk(g, w, from) by { forall s: nat | s < g.C ensures SlotOk(g, w, from, s) { assert SlotOk(g, v, from, s); } }
  }

  lemma LiveDepends(v: View, w: View)
    requires v.nodes == w.nodes && v.slots == w.slots
    ensures forall b :: Live(w, b) == Live(v, b)
  {
  }

  lemma SlackDepends(g: Geometry, v: View, w: View, from: nat)
    requires SlackOk(g, v, from) && v.blank == w.blank && v.open == w.open
    requires forall b :: Live(w, b) == Live(v, b)
    ensures SlackOk(g, w, from)
  {
  }

  lemma CloseHomes(g: Geometry, v: View)
    requires Shape(g, v) && HomesOk(g, v)
    ensures var w := Listing(g, v);
            Shape(g, w) && HomesOk(g, w) && SameMap(v, w)
  {
    var w := Listing(g, v);
    forall d | 0 <= d < g.K
      ensures HomeOk(g, w, d) && ClusterOf(w, d) == ClusterOf(v, d)
    {
      assert HomeOk(g, v, d);
    }
  }

  /** A cluster that a reclaim leaves behind: its cached copy is newer and will be rewritten. */
  predicate Stale(v: View, c: nat)
    requires c < |v.nodes|
  {
    v.nodes[c].Cached? && v.nodes[c].dirty
  }

  /** Nothing but stale clusters lives in the victim's pages before `page`. */
  ghost predicate Swept(g: Geometry, v: View, victim: nat, page: nat)
    requires Shape(g, v)
  {
    forall c :: 0 <= c < g.K ==>
      HomeOf(v.nodes, v.slots, c).block == victim && HomeOf(v.nodes, v.slots, c).page < page ==> Stale(v, c)
  }

  /** Dirty-count conservation while live pages move from the victim to the open block. */
  ghost predicate MovingCounts(g: Geometry, v: View, victim: nat)
    requires Shape(g, v) && InPmt(g, victim) && victim != v.open.block
  {
    && (forall b :: InPmt(g, b) && b != v.open.block && b != victim ==> v.dirty[b] + Live(v, b) == g.M)
    && v.dirty[victim] + Live(v, victim) + v.open.page == g.M
    && Live(v, v.open.block) == v.open.page
  }

  /** The state inside the copy loop of pmt_reclaim_blocks, before page `page` is looked at. */
  ghost predicate Moving(g: Geometry, v: View, from: nat, victim: nat, page: nat) {
    && Shape(g, v) && from <= g.C && v.blank == -1
    && InPmt(g, victim) && victim != v.open.block && page <= g.M
    && NodesOk(g, v, from) && SlotsOk(g, v, from) && HomesOk(g, v) && ListsOk(g, v)
    && MovingCounts(g, v, victim) && Swept(g, v, victim, page)
    && Filled(v.blk[v.open.block], v.open.page)
  }

  /** The last page of block b lists a cluster for every page. */
  ghost predicate HasList(g: Geometry, blk: seq<Block>, b: nat) {
    && b < |blk| && g.M < |blk[b]|
    && blk[b][g.M].Programmed? && blk[b][g.M].content.ClusterList?
    && |blk[b][g.M].content.clusters| == g.P
    && forall p :: 0 <= p < g.M ==> blk[b][g.M].content.clusters[p] < g.K
  }

  /** A block that is not wholly dirty has its list on flash. */
  lemma VictimListed(g: Geometry, v: View, from: nat, victim: nat)
    requires Full(g, v, from) && InPmt(g, victim) && victim != v.blank && v.dirty[victim] < g.M
    ensures HasList(g, v.blk, victim)
  {
    if victim != v.open.block {
      var s := HomeBlocks(v.nodes, v.slots);
      CountPositive(s, victim);
      hide SlotsOk, NodesOk, SlackOk;
      var c :| 0 <= c < |s| && s[c] == victim;
      assert HomeOk(g, v, c);
    }
  }

  /** The reclaim block becomes the block being filled. */
  function BeginMove(v: View): View
    requires v.blank >= 0
  {
    v.(open := Loc(v.blank, 0), blank := -1)
  }

  /** A block in which no cluster lives. */
  lemma NoneLive(v: View, b: int, c: nat)
    requires Live(v, b) == 0 && c < |v.nodes|
    ensures HomeOf(v.nodes, v.slots, c).block != b
  {
    var s := HomeBlocks(v.nodes, v.slots);
    assert s[c] == HomeOf(v.nodes, v.slots, c).block;
    CountPositive(s, b);
  }

  lemma BeginHomes(g: Geometry, v: View)
    requires Shape(g, v) && v.blank >= 0 && HomesOk(g, v) && ListsOk(g, v)
    requires v.open.page == g.M && Live(v, v.blank) == 0
    requires v.blk[v.open.block][g.M] == Programmed(ClusterList(v.meta), AllOnes)
    ensures var w := BeginMove(v);
            Shape(g, w) && HomesOk(g, w) && ListsOk(g, w) && SameMap(v, w)
  {
    hide Live;
    var w := BeginMove(v);
    forall d | 0 <= d < g.K
      ensures HomeOk(g, w, d)
    {
      assert HomeOk(g, v, d);
      NoneLive(v, v.blank, d);
    }
  }

  lemma BeginKeeps(g: Geometry, v: View, from: nat, victim: nat)
    requires Full(g, v, from) && InPmt(g, victim) && victim != v.blank
    ensures Moving(g, BeginMove(v), from, victim, 0) && SameMap(v, BeginMove(v))
  {
    BeginHomes(g, v);
    var w := BeginMove(v);
    LiveDepends(v, w);
    hide HomesOk, ListsOk, SameMap, Live;
    assert SlotsOk(g, w, from) by { forall s: nat | s < g.C ensures SlotOk(g, w, from, s) { assert SlotOk(g, v, from, s); } }
  }

  /** Page `page` of the victim is still the home of the cluster its list names, and the
      cluster has no newer copy. */
  predicate Movable(g: Geometry, v: View, victim: nat, page: nat, c: nat) {
    c < g.K && |v.nodes| == g.K && HomeOf(v.nodes, v.slots, c) == Loc(victim, page) && !Stale(v, c)
  }

  /** The page is copied; a clean cached copy is dropped. */
  ghost function MovePage(v: View, c: nat, l: Loc): View
    requires c < |v.nodes| && l.block < |v.blk| && l.page < |v.blk[l.block]| && v.blk[l.block][l.page].Programmed?
    requires v.open.block < |v.blk| && v.open.page < |v.blk[v.open.block]| && v.open.page < |v.meta|
  {
    v.(nodes := v.nodes[c := OnFlash(v.open)],
       slots := if v.nodes[c].Cached? && v.nodes[c].slot < |v.slots| then v.slots[v.nodes[c].slot := EMPTY_SLOT] else v.slots,
       blk := Program(v.blk, v.open.block, v.open.page, Programmed(v.blk[l.block][l.page].content, AllOnes)),
       meta := v.meta[v.open.page := c],
       open := Loc(v.open.block, v.open.page + 1))
  }

  /** Where the victim's list sends the copy loop. */
  ghost predicate MoveReady(g: Geometry, v: View, from: nat, victim: nat, page: nat, c: nat) {
    && Shape(g, v) && v.blank == -1 && InPmt(g, victim) && victim != v.open.block && page < g.M
    && Movable(g, v, victim, page, c) && v.open.page < g.M
    && v.blk[victim][page].Programmed? && v.blk[victim][page].content.Cluster?
    && |v.blk[victim][page].content.entries| == g.N
    && (v.nodes[c].Cached? ==>
          from <= v.nodes[c].slot < g.C && v.slots[v.nodes[c].slot].cluster == Some(c)
          && v.slots[v.nodes[c].slot].entries == v.blk[victim][page].content.entries)
    && Filled(v.blk[v.open.block], v.open.page)
  }

  lemma MovingReady(g: Geometry, v: View, from: nat, victim: nat, page: nat, c: nat)
    requires Moving(g, v, from, victim, page) && page < g.M && Movable(g, v, victim, page, c)
    ensures MoveReady(g, v, from, victim, page, c)
  {
    assert HomeOk(g, v, c);
    LiveAtHome(v, c);
    hide Live, ListsOk, SlotsOk, HomesOk, Swept;
  }

  lemma LiveAtHome(v: View, c: nat)
    requires c < |v.nodes|
    ensures Live(v, HomeOf(v.nodes, v.slots, c).block) > 0
  {
    var s := HomeBlocks(v.nodes, v.slots);
    assert s[c] == HomeOf(v.nodes, v.slots, c).block;
    CountPositive(s, s[c]);
  }

  lemma MoveLive(g: Geometry, v: View, from: nat, victim: nat, page: nat, c: nat)
    requires MoveReady(g, v, from, victim, page, c) && NodesOk(g, v, from) && SlotsOk(g, v, from)
    ensures forall b :: Live(MovePage(v, c, Loc(victim, page)), b)
                     == Live(v, b) - (if victim == b then 1 else 0) + (if v.open.block == b then 1 else 0)
  {
    var w := MovePage(v, c, Loc(victim, page));
    forall d | 0 <= d < g.K && d != c
      ensures HomeOf(w.nodes, w.slots, d) == HomeOf(v.nodes, v.slots, d)
    {
    }
    assert HomeBlocks(w.nodes, w.slots) == HomeBlocks(v.nodes, v.slots)[c := v.open.block];
  }

  lemma MoveHomes(g: Geometry, v: View, from: nat, victim: nat, page: nat, c: nat)
    requires MoveReady(g, v, from, victim, page, c)
    requires NodesOk(g, v, from) && HomesOk(g, v)
    ensures Shape(g, MovePage(v, c, Loc(victim, page)))
    ensures HomesOk(g, MovePage(v, c, Loc(victim, page)))
    ensures SameMap(v, MovePage(v, c, Loc(victim, page)))
  {
    var w := MovePage(v, c, Loc(victim, page));
    forall d | 0 <= d < g.K
      ensures HomeOk(g, w, d) && ClusterOf(w, d) == ClusterOf(v, d)
    {
      assert HomeOk(g, v, d);
    }
  }

  lemma MoveSlots(g: Geometry, v: View, from: nat, victim: nat, page: nat, c: nat)
    requires MoveReady(g, v, from, victim, page, c)
    requires Shape(g, MovePage(v, c, Loc(victim, page)))
    requires NodesOk(g, v, from) && SlotsOk(g, v, from)
    ensures NodesOk(g, MovePage(v, c, Loc(victim, page)), from)
    ensures SlotsOk(g, MovePage(v, c, Loc(victim, page)), from)
  {
    var w := MovePage(v, c, Loc(victim, page));
    forall s: nat | s < g.C
      ensures SlotOk(g, w, from, s)
    {
      assert SlotOk(g, v, from, s);
    }
  }

  lemma MoveLists(g: Geometry, v: View, from: nat, victim: nat, page: nat, c: nat)
    requires MoveReady(g, v, from, victim, page, c) && NodesOk(g, v, from)
    requires HomesOk(g, v) && ListsOk(g, v) && Swept(g, v, victim, page)
    requires v.blk[victim][g.M].Programmed? && v.blk[victim][g.M].content.ClusterList?
    requires |v.blk[victim][g.M].content.clusters| == g.P && v.blk[victim][g.M].content.clusters[page] == c
    ensures var w := MovePage(v, c, Loc(victim, page));
            Shape(g, w) && ListsOk(g, w) && Swept(g, w, victim, page + 1) && Filled(w.blk[w.open.block], w.open.page)
  {
    var w := MovePage(v, c, Loc(victim, page));
    forall d | 0 <= d < g.K && d != c
      ensures HomeOf(w.nodes, w.slots, d) == HomeOf(v.nodes, v.slots, d)
      ensures HomeOf(v.nodes, v.slots, d) == Loc(victim, page) ==> Stale(v, d)
    {
      assert HomeOk(g, v, d);
    }
  }

  lemma MoveKeeps(g: Geometry, v: View, from: nat, victim: nat, page: nat, c: nat)
    requires Moving(g, v, from, victim, page) && page < g.M && Movable(g, v, victim, page, c)
    requires v.blk[victim][g.M].Programmed? && v.blk[victim][g.M].content.ClusterList?
    requires |v.blk[victim][g.M].content.clusters| == g.P && v.blk[victim][g.M].content.clusters[page] == c
    ensures MoveReady(g, v, from, victim, page, c)
    ensures Moving(g, MovePage(v, c, Loc(victim, page)), from, victim, page + 1)
    ensures SameMap(v, MovePage(v, c, Loc(victim, page)))
  {
    MovingReady(g, v, from, victim, page, c);
    MoveLive(g, v, from, victim, page, c);
    MoveHomes(g, v, from, victim, page, c);
    MoveSlots(g, v, from, victim, page, c);
    MoveLists(g, v, from, victim, page, c);
    hide HomesOk, SlotsOk, NodesOk, ListsOk, Swept, SameMap, Live;
  }

  /** A page that is not the home of its cluster, or whose cluster is stale, is passed over. */
  lemma PassKeeps(g: Geometry, v: View, from: nat, victim: nat, page: nat, c: nat)
    requires Moving(g, v, from, victim, page) && page < g.M && !Movable(g, v, victim, page, c)
    requires v.blk[victim][g.M].Programmed? && v.blk[victim][g.M].content.ClusterList?
    requires |v.blk[victim][g.M].content.clusters| == g.P && v.blk[victim][g.M].content.clusters[page] == c < g.K
    ensures Moving(g, v, from, victim, page + 1)
  {
    hide Live, ListsOk, SlotsOk, NodesOk;
    forall d | 0 <= d < g.K && HomeOf(v.nodes, v.slots, d) == Loc(victim, page)
      ensures Stale(v, d)
    {
      assert HomeOk(g, v, d);
    }
  }

  /** What MovePage needs. */
  predicate CanMove(v: View, l: Loc) {
    && l.block < |v.blk| && l.page < |v.blk[l.block]| && v.blk[l.block][l.page].Programmed?
    && v.open.block < |v.blk| && v.open.page < |v.blk[v.open.block]| && v.open.page < |v.meta|
  }

  /** One page of the copy loop, whatever the victim's list says. */
  ghost function SweepPage(g: Geometry, v: View, victim: nat, page: nat, c: nat): View {
    if Movable(g, v, victim, page, c) && CanMove(v, Loc(victim, page)) then MovePage(v, c, Loc(victim, page)) else v
  }

  /** The copy loop over the victim's first n pages, whatever its list says. */
  ghost function Sweep(g: Geometry, v: View, victim: nat, clusters: seq<nat>, n: nat): (w: View)
    requires n <= |clusters|
    ensures w.dirty == v.dirty && w.open.block == v.open.block && |w.nodes| == |v.nodes| && |w.blk| == |v.blk|
  {
    if n == 0 then v else SweepPage(g, Sweep(g, v, victim, clusters, n - 1), victim, n - 1, clusters[n - 1])
  }

  /** At most one stale cluster for each slot yet to be visited. */
  lemma StaleBound(g: Geometry, v: View, from: nat, victim: nat)
    requires Shape(g, v) && from <= g.C && NodesOk(g, v, from)
    requires forall c :: 0 <= c < g.K && HomeOf(v.nodes, v.slots, c).block == victim ==> Stale(v, c)
    ensures Live(v, victim) <= g.C - from
  {
    var s := HomeBlocks(v.nodes, v.slots);
    CountIsPositions(s, victim);
    var where := Positions(s, victim);
    var f := (c: nat) => if c < |v.nodes| && v.nodes[c].Cached? then v.nodes[c].slot as int else 0;
    forall c | c in where
      ensures from <= f(c) < g.C && v.slots[f(c)].cluster == Some(c)
    {
      assert HomeOf(v.nodes, v.slots, c).block == victim;
    }
    InjectionBound(where, f, from, g.C);
  }

  /** The victim is erased and becomes the reclaim block. */
  function EndMove(g: Geometry, v: View, victim: nat): View
    requires victim < |v.blk| && victim < |v.dirty| && v.open.block < |v.dirty|
  {
    v.(blk := v.blk[victim := Blank(g.P)],
       blank := victim,
       dirty := v.dirty[v.open.block := 0][victim := 0])
  }

  lemma EndHomes(g: Geometry, v: View, from: nat, victim: nat)
    requires Shape(g, v) && v.blank == -1 && InPmt(g, victim) && victim != v.open.block
    requires HomesOk(g, v) && ListsOk(g, v) && Swept(g, v, victim, g.M)
    ensures var w := EndMove(g, v, victim);
            Shape(g, w) && HomesOk(g, w) && ListsOk(g, w) && SameMap(v, w)
    ensures forall c :: 0 <= c < g.K && HomeOf(v.nodes, v.slots, c).block == victim ==> Stale(v, c)
  {
    var w := EndMove(g, v, victim);
    forall d | 0 <= d < g.K
      ensures HomeOk(g, w, d) && ClusterOf(w, d) == ClusterOf(v, d)
      ensures HomeOf(v.nodes, v.slots, d).block == victim ==> Stale(v, d)
    {
      assert HomeOk(g, v, d);
    }
  }

  /** With a victim three quarters dirty, the reclaim ends with the map unchanged and with
      room for every slot still to be written. */
  lemma EndKeeps(g: Geometry, v: View, from: nat, victim: nat)
    requires Moving(g, v, from, victim, g.M) && v.dirty[victim] >= g.M - g.M / 4
    ensures Inv(g, EndMove(g, v, victim), from) && SameMap(v, EndMove(g, v, victim))
    ensures EndMove(g, v, victim).open.page + (g.C - from) < g.M
    ensures Filled(EndMove(g, v, victim).blk[v.open.block], v.open.page)
  {
    var w := EndMove(g, v, victim);
    EndHomes(g, v, from, victim);
    StaleBound(g, v, from, victim);
    LiveDepends(v, w);
    hide HomesOk, ListsOk, SameMap, Live, Swept;
    assert SlotsOk(g, w, from) by { forall s: nat | s < g.C ensures SlotOk(g, w, from, s) { assert SlotOk(g, v, from, s); } }
  }

  /** A victim without live pages is erased and becomes the open block at once. */
  function Recycle(g: Geometry, v: View, victim: nat): View
    requires victim < |v.blk| && victim < |v.dirty|
  {
    v.(blk := v.blk[victim := Blank(g.P)], open := Loc(victim, 0), dirty := v.dirty[victim := 0])
  }

  lemma RecycleHomes(g: Geometry, v: View, victim: nat)
    requires Shape(g, v) && v.blank >= 0 && InPmt(g, victim) && victim != v.blank
    requires HomesOk(g, v) && ListsOk(g, v) && Live(v, victim) == 0
    requires v.open.page == g.M && v.blk[v.open.block][g.M] == Programmed(ClusterList(v.meta), AllOnes)
    ensures var w := Recycle(g, v, victim);
            Shape(g, w) && HomesOk(g, w) && ListsOk(g, w) && SameMap(v, w)
  {
    hide Live;
    var w := Recycle(g, v, victim);
    forall d | 0 <= d < g.K
      ensures HomeOk(g, w, d) && ClusterOf(w, d) == ClusterOf(v, d)
    {
      assert HomeOk(g, v, d);
      NoneLive(v, victim, d);
    }
  }

  lemma RecycleKeeps(g: Geometry, v: View, from: nat, victim: nat)
    requires Full(g, v, from) && InPmt(g, victim) && victim != v.blank && v.dirty[victim] == g.M
    ensures Inv(g, Recycle(g, v, victim), from) && SameMap(v, Recycle(g, v, victim))
    ensures Filled(Recycle(g, v, victim).blk[victim], 0)
  {
    var w := Recycle(g, v, victim);
    assert Live(v, victim) == 0;
    RecycleHomes(g, v, victim);
    LiveDepends(v, w);
    hide HomesOk, ListsOk, SameMap, Live;
    assert SlotsOk(g, w, from) by { forall s: nat | s < g.C ensures SlotOk(g, w, from, s) { assert SlotOk(g, v, from, s); } }
  }

  /** Sizing theorem: when the open block is full, some block other than the reclaim block is
      at least three quarters dirty.  The map has at most M clusters for every five blocks. */
  lemma VictimExists(g: Geometry, v: View, from: nat)
    requires Full(g, v, from)
    ensures exists b :: InPmt(g, b) && b != v.blank && v.dirty[b] >= g.M - g.M / 4
  {
    hide HomesOk, ListsOk, SlotsOk, NodesOk, SlackOk, Live;
    SomeBlockIsSparse(g, v);
  }

  /** K clusters cannot fill every block but one beyond a quarter. */
  lemma SomeBlockIsSparse(g: Geometry, v: View)
    requires |v.nodes| == g.K && InPmt(g, v.blank)
    ensures exists b :: InPmt(g, b) && b != v.blank && Live(v, b) <= g.M / 4
  {
    hide ValidDims;
    var s := HomeBlocks(v.nodes, v.slots);
    var Z := Range(PMT_START_BLOCK, g.dataLo) - {v.blank};
    PmtRoom(g);
    RangeSize(PMT_START_BLOCK, g.dataLo);
    SomeScarce(s, Z, g.dataLo - PMT_START_BLOCK - 1, g.M / 4 + 1);
    var b :| b in Z && multiset(s)[b] < g.M / 4 + 1;
    assert InPmt(g, b) && Live(v, b) <= g.M / 4;
  }

  // ---------------------------------------------------------------- PMT_Commit as a function

  /** The block on which the search for a victim ends while all dice are idle: the first of the
      dirtiest blocks from lo to hi. */
  function Dirtiest(dirty: seq<nat>, lo: nat, hi: nat): (i: nat)
    ensures lo < hi <= |dirty| ==> lo <= i < hi
    ensures lo < hi <= |dirty| ==> forall b :: lo <= b < hi ==> dirty[b] <= dirty[i] && (b < i ==> dirty[b] < dirty[i])
  {
    if hi <= lo + 1 || |dirty| < hi then lo
    else
      var i := Dirtiest(dirty, lo, hi - 1);
      if dirty[hi - 1] > dirty[i] then hi - 1 else i
  }

  /** There is one first dirtiest block. */
  lemma IsDirtiest(dirty: seq<nat>, lo: nat, hi: nat, i: nat)
    requires lo <= i < hi <= |dirty|
    requires forall b :: lo <= b < hi ==> dirty[b] <= dirty[i] && (b < i ==> dirty[b] < dirty[i])
    ensures i == Dirtiest(dirty, lo, hi)
  {
    var d := Dirtiest(dirty, lo, hi);
    assert dirty[d] <= dirty[i] <= dirty[d];
  }

  /** The list on the last page of block b. */
  function ListOf(g: Geometry, blk: seq<Block>, b: nat): seq<nat> {
    if b < |blk| && g.M < |blk[b]| && blk[b][g.M].Programmed? && blk[b][g.M].content.ClusterList?
    then blk[b][g.M].content.clusters else []
  }

  /** The live pages that the victim's list names are copied, and the victim is erased. */
  ghost function Moved(g: Geometry, v: View, victim: nat): View {
    if victim < |v.blk| && victim < |v.dirty| && 0 <= v.blank < |v.dirty| && g.M <= |ListOf(g, v.blk, victim)|
    then EndMove(g, Sweep(g, BeginMove(v), victim, ListOf(g, v.blk, victim), g.M), victim)
    else v
  }

  /** pmt_reclaim_blocks, whatever the victim's list says. */
  ghost function Reclaimed(g: Geometry, v: View): View {
    var victim := Dirtiest(v.dirty, PMT_START_BLOCK, g.dataLo);
    if victim >= |v.blk| || victim >= |v.dirty| then v
    else if v.dirty[victim] == g.M then Recycle(g, v, victim)
    else Moved(g, v, victim)
  }

  /** PMT_Commit, one slot of the cache. */
  ghost function SlotCommitted(g: Geometry, v: View, i: nat): View {
    if !Holds(g, v, i) then v
    else if !v.nodes[v.slots[i].cluster.value].dirty then DropSlot(v, i)
    else if v.open.page >= g.M then v
    else
      var w := FlushSlot(g, v, i);
      if w.open.page == g.M then Reclaimed(g, Listing(g, w)) else w
  }

  /** Its first n slots. */
  ghost function SlotsCommitted(g: Geometry, v: View, n: nat): View {
    if n == 0 then v else SlotCommitted(g, SlotsCommitted(g, v, n - 1), n - 1)
  }

  /** No slot holds a cluster. */
  function NoSlots(g: Geometry): (r: seq<Slot>)
    ensures |r| == g.C && forall i :: 0 <= i < g.C ==> r[i] == EMPTY_SLOT
  {
    seq(g.C, _ => EMPTY_SLOT)
  }

  /** PMT_Commit. */
  ghost function Committed(g: Geometry, v: View): View {
    SlotsCommitted(g, v, g.C).(slots := NoSlots(g))
  }

  // ---------------------------------------------------------------- PMT_Init, PMT_Load, PMT_Update

  /** After the last slot the cache is emptied. */
  lemma ClearKeeps(g: Geometry, v: View)
    requires Inv(g, v, g.C) && v.open.page < g.M && Filled(v.blk[v.open.block], v.open.page)
    ensures var w := v.(slots := NoSlots(g));
            Stable(g, w) && SameMap(v, w) && forall c :: 0 <= c < g.K ==> w.nodes[c].OnFlash?
  {
    var w := v.(slots := NoSlots(g));
    ClearHomes(g, v);
    hide HomesOk, ListsOk, Live, SameMap;
  }

  lemma ClearHomes(g: Geometry, v: View)
    requires Shape(g, v) && v.blank >= 0 && NodesOk(g, v, g.C) && HomesOk(g, v) && ListsOk(g, v)
    ensures var w := v.(slots := NoSlots(g));
            && Shape(g, w) && HomesOk(g, w) && ListsOk(g, w) && SameMap(v, w)
            && (forall b :: Live(w, b) == Live(v, b)) && Live(w, w.blank) == 0
  {
    var w := v.(slots := NoSlots(g));
    forall d | 0 <= d < g.K
      ensures HomeOk(g, w, d) && ClusterOf(w, d) == ClusterOf(v, d) && HomeOf(v.nodes, v.slots, d).block != v.blank
    {
      assert HomeOk(g, v, d);
    }
    assert HomeBlocks(w.nodes, w.slots) == HomeBlocks(v.nodes, v.slots);
    CountPositive(HomeBlocks(v.nodes, v.slots), v.blank);
  }

  /** Cluster c is read into the empty slot i. */
  ghost function LoadSlot(v: View, c: nat, i: nat): View
    requires c < |v.nodes| && i < |v.slots|
  {
    var h := HomeOf(v.nodes, v.slots, c);
    v.(nodes := v.nodes[c := Cached(i, false)], slots := v.slots[i := Slot(EntriesAt(v.blk, h), At(h), Some(c))])
  }

  lemma LoadHomes(g: Geometry, v: View, c: nat, i: nat)
    requires Shape(g, v) && c < g.K && i < g.C && v.nodes[c].OnFlash? && v.slots[i].cluster.None?
    requires NodesOk(g, v, 0) && SlotsOk(g, v, 0) && HomesOk(g, v)
    ensures var w := LoadSlot(v, c, i);
            && Shape(g, w) && NodesOk(g, w, 0) && SlotsOk(g, w, 0) && HomesOk(g, w) && SameMap(v, w)
            && HomeBlocks(w.nodes, w.slots) == HomeBlocks(v.nodes, v.slots)
  {
    var w := LoadSlot(v, c, i);
    forall d | 0 <= d < g.K
      ensures HomeOk(g, w, d) && ClusterOf(w, d) == ClusterOf(v, d)
      ensures HomeOf(w.nodes, w.slots, d) == HomeOf(v.nodes, v.slots, d)
    {
      assert HomeOk(g, v, d);
    }
    forall s: nat | s < g.C
      ensures SlotOk(g, w, 0, s)
    {
      assert SlotOk(g, v, 0, s);
      assert HomeOk(g, v, c);
    }
  }

  lemma LoadKeeps(g: Geometry, v: View, c: nat, i: nat)
    requires Stable(g, v) && c < g.K && i < g.C && v.nodes[c].OnFlash? && v.slots[i].cluster.None?
    ensures Stable(g, LoadSlot(v, c, i)) && SameMap(v, LoadSlot(v, c, i))
  {
    var w := LoadSlot(v, c, i);
    LoadHomes(g, v, c, i);
    assert forall b :: Live(w, b) == Live(v, b);
    hide HomesOk, SlotsOk, NodesOk, SameMap, Live, HomeBlocks, ListsOk;
    assert ListsOk(g, w) by { ListsDepend(g, v, w); }
  }

  lemma ListsDepend(g: Geometry, v: View, w: View)
    requires Shape(g, v) && Shape(g, w) && ListsOk(g, v)
    requires v.blk == w.blk && v.open == w.open && v.blank == w.blank && v.meta == w.meta
    ensures ListsOk(g, w)
  {
  }

  /** Entry k of the cached cluster c is replaced, and the node is marked dirty. */
  ghost function SetEntry(v: View, c: nat, k: nat, e: Entry): View
    requires c < |v.nodes| && v.nodes[c].Cached? && v.nodes[c].slot < |v.slots|
    requires k < |v.slots[v.nodes[c].slot].entries|
  {
    var s := v.nodes[c].slot;
    v.(nodes := v.nodes[c := Cached(s, true)],
       slots := v.slots[s := v.slots[s].(entries := v.slots[s].entries[k := e])])
  }

  lemma SetHomes(g: Geometry, v: View, c: nat, k: nat, e: Entry)
    requires Shape(g, v) && c < g.K && v.nodes[c].Cached? && v.nodes[c].slot < g.C
    requires k < |v.slots[v.nodes[c].slot].entries| && v.blank >= 0 && Live(v, v.blank) == 0
    requires NodesOk(g, v, 0) && SlotsOk(g, v, 0) && HomesOk(g, v)
    ensures var w := SetEntry(v, c, k, e);
            && Shape(g, w) && NodesOk(g, w, 0) && SlotsOk(g, w, 0) && HomesOk(g, w)
            && HomeBlocks(w.nodes, w.slots) == HomeBlocks(v.nodes, v.slots)
            && ClusterOf(w, c) == ClusterOf(v, c)[k := e]
            && (forall d :: 0 <= d < g.K && d != c ==> ClusterOf(w, d) == ClusterOf(v, d))
  {
    var w := SetEntry(v, c, k, e);
    forall d | 0 <= d < g.K
      ensures HomeOk(g, w, d) && (d != c ==> ClusterOf(w, d) == ClusterOf(v, d))
      ensures HomeOf(w.nodes, w.slots, d) == HomeOf(v.nodes, v.slots, d)
    {
      assert HomeOk(g, v, d);
    }
    forall s: nat | s < g.C
      ensures SlotOk(g, w, 0, s)
    {
      assert SlotOk(g, v, 0, s);
    }
  }

  lemma SetKeeps(g: Geometry, v: View, c: nat, k: nat, e: Entry)
    requires Stable(g, v) && c < g.K && v.nodes[c].Cached? && v.nodes[c].slot < g.C
    requires k < |v.slots[v.nodes[c].slot].entries|
    ensures Stable(g, SetEntry(v, c, k, e))
    ensures ClusterOf(SetEntry(v, c, k, e), c) == ClusterOf(v, c)[k := e]
    ensures forall d :: 0 <= d < g.K && d != c ==> ClusterOf(SetEntry(v, c, k, e), d) == ClusterOf(v, d)
  {
    var w := SetEntry(v, c, k, e);
    SetHomes(g, v, c, k, e);
    assert forall b :: Live(w, b) == Live(v, b);
    hide HomesOk, SlotsOk, NodesOk, Live, HomeBlocks, ListsOk, ClusterOf;
    assert ListsOk(g, w) by { ListsDepend(g, v, w); }
  }

  /** The page map depends on its own blocks and on their dirty counts only. */
  predicate SamePmtRegion(g: Geometry, v: View, w: View) {
    && v.nodes == w.nodes && v.slots == w.slots && v.open == w.open && v.blank == w.blank && v.meta == w.meta
    && |w.dirty| == |v.dirty| && |w.blk| == |v.blk|
    && (forall b :: 0 <= b < g.dataLo && b < |v.blk| && b < |v.dirty| && PMT_START_BLOCK <= b ==>
          w.blk[b] == v.blk[b] && w.dirty[b] == v.dirty[b])
  }

  lemma StableDepends(g: Geometry, v: View, w: View)
    requires Stable(g, v) && SamePmtRegion(g, v, w) && Shaped(w.blk, g.U, g.P)
    ensures Stable(g, w) && SameMap(v, w)
  {
    LiveDepends(v, w);
    HomesDepend(g, v, w);
    hide Live, HomesOk, SlotsOk, NodesOk, SameMap;
    assert SlotsOk(g, w, 0) && NodesOk(g, w, 0) by { SlotsDepend(g, v, w); }
  }

  lemma SlotsDepend(g: Geometry, v: View, w: View)
    requires Shape(g, v) && Shape(g, w) && v.nodes == w.nodes && v.slots == w.slots
    requires NodesOk(g, v, 0) && SlotsOk(g, v, 0)
    ensures NodesOk(g, w, 0) && SlotsOk(g, w, 0)
  {
    forall s: nat | s < g.C
      ensures SlotOk(g, w, 0, s)
    {
      assert SlotOk(g, v, 0, s);
    }
  }

  lemma HomesDepend(g: Geometry, v: View, w: View)
    requires Shape(g, v) && HomesOk(g, v) && SamePmtRegion(g, v, w) && Shaped(w.blk, g.U, g.P)
    ensures Shape(g, w) && HomesOk(g, w) && SameMap(v, w)
  {
    forall d | 0 <= d < g.K
      ensures HomeOk(g, w, d) && ClusterOf(w, d) == ClusterOf(v, d)
    {
      assert HomeOk(g, v, d);
    }
  }
}
