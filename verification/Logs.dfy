/** ftl_bdt.c, ftl_hdi.c and ftl_root.c: the three ping-pong logs. */
module Logs {
  import opened Geometry
  import opened Flash
  import PmtSpec
  import opened FtlState
  import opened RootSpec

  // ---------------------------------------------------------------- the logs as values

  /** The pages of the dirty table begin at multiples of its length. */
  ghost predicate BdtOk(g: Geometry, blk: seq<Block>, l: LogView) {
    && (l.bdtBlock == 0 || l.bdtBlock == 1) && l.bdtBlock < |blk| && |blk[l.bdtBlock]| == g.P
    && (exists k: nat :: k <= g.bdtCopies && l.bdtPage == k * g.bdtPages) && Filled(blk[l.bdtBlock], l.bdtPage)
  }

  ghost predicate HdiOk(g: Geometry, blk: seq<Block>, l: LogView) {
    && (l.hdiBlock == 4 || l.hdiBlock == 5) && l.hdiBlock < |blk| && |blk[l.hdiBlock]| == g.P
    && l.hdiPage <= g.P && Filled(blk[l.hdiBlock], l.hdiPage)
  }

  /** The root log of the running FTL. */
  ghost function RootLog(blk: seq<Block>, l: LogView): State
    requires |blk| > 5
  {
    State(blk[ROOT_BLOCK0], blk[ROOT_BLOCK1], l.rootBlock, l.rootPage, l.rootEdition)
  }

  ghost predicate LogsOk(g: Geometry, blk: seq<Block>, l: LogView) {
    && Shaped(blk, g.U, g.P) && BdtOk(g, blk, l) && HdiOk(g, blk, l)
    && exists last :: LogOk(g.P, RootLog(blk, l), last)
  }

  /** The chunk of the dirty table that goes on its i-th page. */
  function Chunk(g: Geometry, dirty: seq<nat>, i: nat): seq<nat>
    requires |dirty| == g.bdtPages * g.pageBytes && i < g.bdtPages
  {
    ChunkBounds(g, i);
    dirty[i * g.pageBytes .. (i + 1) * g.pageBytes]
  }

  lemma ChunkBounds(g: Geometry, i: nat)
    requires i < g.bdtPages
    ensures 0 <= i * g.pageBytes <= (i + 1) * g.pageBytes <= g.bdtPages * g.pageBytes
  {
    hide ValidDims;
    MulMono(i + 1, g.bdtPages, g.pageBytes);
  }

  /** The flash at l holds the dirty table. */
  ghost predicate TableAt(g: Geometry, blk: seq<Block>, l: Loc, dirty: seq<nat>, n: nat) {
    && |dirty| == g.bdtPages * g.pageBytes && n <= g.bdtPages && l.block < |blk| && l.page + n <= |blk[l.block]|
    && forall i: nat :: i < n ==> ChunkAt(g, blk, l, dirty, i)
  }

  /** The i-th page of the dirty table. */
  ghost predicate ChunkAt(g: Geometry, blk: seq<Block>, l: Loc, dirty: seq<nat>, i: nat) {
    && |dirty| == g.bdtPages * g.pageBytes && i < g.bdtPages && l.block < |blk| && l.page + i < |blk[l.block]|
    && blk[l.block][l.page + i].Programmed? && blk[l.block][l.page + i].content == DirtyCounts(Chunk(g, dirty, i))
  }

  lemma NoChunks(g: Geometry, blk: seq<Block>, l: Loc, dirty: seq<nat>)
    requires |dirty| == g.bdtPages * g.pageBytes && l.block < |blk| && l.page <= |blk[l.block]|
    ensures TableAt(g, blk, l, dirty, 0)
  {
  }

  /** One more page of the table is programmed. */
  lemma ChunkAdded(g: Geometry, blk: seq<Block>, l: Loc, dirty: seq<nat>, n: nat)
    requires TableAt(g, blk, l, dirty, n) && n < g.bdtPages && l.page + n < |blk[l.block]|
    ensures TableAt(g, Program(blk, l.block, l.page + n, Programmed(DirtyCounts(Chunk(g, dirty, n)), AllOnes)), l, dirty, n + 1)
  {
    hide Chunk;
    var w := Program(blk, l.block, l.page + n, Programmed(DirtyCounts(Chunk(g, dirty, n)), AllOnes));
    forall i: nat | i < n + 1
      ensures ChunkAt(g, w, l, dirty, i)
    {
      if i < n {
        assert ChunkAt(g, blk, l, dirty, i);
      }
    }
  }

  /** There is room for the whole table on a block that is not full. */
  lemma RoomForTable(n: nat, copies: nat, k: nat)
    requires k * n < copies * n
    ensures k + 1 <= copies && k * n + n == (k + 1) * n <= copies * n
  {
    if copies <= k {
      MulMono(copies, k, n);
    }
    MulMono(k + 1, copies, n);
  }

  // ---------------------------------------------------------------- what the logs must hold

  /** The dirty table d is at l, which begins one of the first k copies on its block. */
  ghost predicate BdtStored(g: Geometry, blk: seq<Block>, l: Loc, d: seq<nat>) {
    && (l.block == 0 || l.block == 1) && l.block < |blk| && |blk[l.block]| == g.P
    && TableAt(g, blk, l, d, g.bdtPages)
    && exists j: nat, k: nat :: j < k <= g.bdtCopies && BdtCopies(g, blk, l, j, k)
  }

  ghost predicate BdtCopies(g: Geometry, blk: seq<Block>, l: Loc, j: nat, k: nat) {
    l.page == j * g.bdtPages && l.block < |blk| && Filled(blk[l.block], k * g.bdtPages)
  }

  ghost predicate HdiStored(g: Geometry, blk: seq<Block>, l: Loc, n: nat) {
    && (l.block == 4 || l.block == 5) && l.block < |blk| && |blk[l.block]| == g.P
    && l.page < n <= g.P && Filled(blk[l.block], n)
  }

  /** The root log holds r as its newest image. */
  ghost predicate RootStored(p: nat, blk: seq<Block>, r: Root) {
    && |blk| > 5 && exists st :: LogOk(p, st, r) && st.b0 == blk[ROOT_BLOCK0] && st.b1 == blk[ROOT_BLOCK1]
  }

  /** The page map as root r, dirty table d and list `meta` describe it. */
  ghost function StoredMap(g: Geometry, blk: seq<Block>, r: Root, d: seq<nat>, meta: seq<nat>): PmtSpec.View {
    PmtSpec.View(r.nodes, PmtSpec.NoSlots(g), r.pmtCurrent, r.pmtReclaim.block, meta, d, blk)
  }

  /** What the device must hold for the tables to be mounted. */
  ghost predicate Stored(g: Geometry, blk: seq<Block>, r: Root, d: seq<nat>, meta: seq<nat>) {
    && Shaped(blk, g.U, g.P) && |d| == g.bdtPages * g.pageBytes
    && RootStored(g.P, blk, r) && BdtStored(g, blk, r.bdt, d) && (exists n :: HdiStored(g, blk, r.hdi, n))
    && PmtSpec.Stable(g, StoredMap(g, blk, r, d, meta))
  }

  lemma TableDepends(g: Geometry, blk: seq<Block>, blk': seq<Block>, l: Loc, dirty: seq<nat>, n: nat)
    requires TableAt(g, blk, l, dirty, n) && |blk'| == |blk| && blk'[l.block] == blk[l.block]
    ensures TableAt(g, blk', l, dirty, n)
  {
    hide Chunk;
    forall i: nat | i < n
      ensures ChunkAt(g, blk', l, dirty, i)
    {
      assert ChunkAt(g, blk, l, dirty, i);
    }
  }

  lemma HdiDepends(g: Geometry, blk: seq<Block>, blk1: seq<Block>, l: Loc, n: nat)
    requires HdiStored(g, blk, l, n) && |blk1| == |blk| && forall b :: 4 <= b < 6 && b < |blk| ==> blk1[b] == blk[b]
    ensures HdiStored(g, blk1, l, n)
  {
  }

  lemma TableKept(g: Geometry, blk: seq<Block>, now: seq<Block>, l: Loc, d: seq<nat>, page: nat)
    requires TableAt(g, blk, l, d, g.bdtPages) && OnlyAppended(blk, now, l.block, page) && l.page + g.bdtPages <= page
    ensures TableAt(g, now, l, d, g.bdtPages)
  {
    hide Chunk;
    forall i: nat | i < g.bdtPages
      ensures ChunkAt(g, now, l, d, i)
    {
      assert ChunkAt(g, blk, l, d, i);
    }
  }

  lemma SameFill(b: Block, m: nat, n: nat)
    requires Filled(b, m) && Filled(b, n)
    ensures m == n
  {
    assert (m < |b| ==> b[m].Erased?) && (n < |b| ==> b[n].Erased?);
  }

  /** The copy on the block that is being filled. */
  lemma CopyBefore(g: Geometry, blk: seq<Block>, now: seq<Block>, at: Loc, d: seq<nat>, page: nat)
    requires BdtStored(g, blk, at, d) && page < g.P && Filled(blk[at.block], page)
    requires OnlyAppended(blk, now, at.block, page) && Filled(now[at.block], page + g.bdtPages)
    ensures BdtStored(g, now, at, d)
  {
    hide TableAt, OnlyAppended, ValidDims;
    var j: nat, k: nat :| j < k <= g.bdtCopies && BdtCopies(g, blk, at, j, k);
    SameFill(blk[at.block], page, k * g.bdtPages);
    WholeCopies(g, j, k);
    RoomForTable(g.bdtPages, g.bdtCopies, k);
    TableKept(g, blk, now, at, d, page);
    AppendedShape(blk, now, at.block, page);
    var next := k + 1;
    assert page + g.bdtPages == next * g.bdtPages;
    assert BdtCopies(g, now, at, j, next);
  }

  lemma WholeCopies(g: Geometry, j: nat, k: nat)
    requires j < k
    ensures j * g.bdtPages + g.bdtPages <= k * g.bdtPages && g.P == g.bdtCopies * g.bdtPages
  {
    MulMono(j + 1, k, g.bdtPages);
  }

  lemma AppendedShape(blk: seq<Block>, now: seq<Block>, b: nat, page: nat)
    requires OnlyAppended(blk, now, b, page)
    ensures |now| == |blk| && b < |blk| && |now[b]| == |blk[b]|
  {
  }

  /** A commit of the same table leaves an earlier copy in place, or writes over it. */
  lemma CopyStays(g: Geometry, blk: seq<Block>, l: LogView, now: seq<Block>, m: LogView, at: Loc, d: seq<nat>)
    requires BdtStored(g, blk, at, d) && BdtOk(g, blk, l) && |blk| >= 2 && |blk[0]| == |blk[1]| == g.P
    requires m.bdtBlock == (if l.bdtPage == g.P then 1 - l.bdtBlock else l.bdtBlock)
    requires m.bdtPage == (if l.bdtPage == g.P then 0 else l.bdtPage) + g.bdtPages
    requires OnlyAppended(Turned(g, blk, l), now, m.bdtBlock, m.bdtPage - g.bdtPages) && Filled(now[m.bdtBlock], m.bdtPage)
    requires BdtStored(g, now, Loc(m.bdtBlock, m.bdtPage - g.bdtPages), d)
    requires at.block == l.bdtBlock || l.bdtPage < g.P || at.page == 0 == m.bdtPage - g.bdtPages
    ensures BdtStored(g, now, at, d)
  {
    hide TableAt, BdtCopies, ValidDims;
    if at.block != m.bdtBlock {
      assert now[at.block] == blk[at.block];
      var j: nat, k: nat :| j < k <= g.bdtCopies && BdtCopies(g, blk, at, j, k);
      assert BdtCopies(g, now, at, j, k) by { CopiesDepend(g, blk, now, at, j, k); }
      TableDepends(g, blk, now, at, d, g.bdtPages);
    } else if l.bdtPage < g.P {
      CopyBefore(g, blk, now, at, d, l.bdtPage);
    } else {
      assert at == Loc(m.bdtBlock, m.bdtPage - g.bdtPages);
    }
  }

  lemma CopiesDepend(g: Geometry, blk: seq<Block>, now: seq<Block>, l: Loc, j: nat, k: nat)
    requires BdtCopies(g, blk, l, j, k) && |now| == |blk| && now[l.block] == blk[l.block]
    ensures BdtCopies(g, now, l, j, k)
  {
  }

  lemma BdtDepends(g: Geometry, blk: seq<Block>, blk1: seq<Block>, l: Loc, d: seq<nat>)
    requires BdtStored(g, blk, l, d) && |blk1| == |blk| && forall b :: 0 <= b < 2 && b < |blk| ==> blk1[b] == blk[b]
    ensures BdtStored(g, blk1, l, d)
  {
    var j: nat, k: nat :| j < k <= g.bdtCopies && BdtCopies(g, blk, l, j, k);
    assert BdtCopies(g, blk1, l, j, k);
    hide TableAt;
    TableDepends(g, blk, blk1, l, d, g.bdtPages);
  }

  // ---------------------------------------------------------------- the commits

  /** A log commit writes its own two blocks and leaves the tables in RAM alone. */
  twostate predicate LogStep(s: Ftl, lo: nat)
    reads s, s.ubi, s.ubi.Repr
  {
    && s.Sound() && |s.ubi.blk| == |old(s.ubi.blk)|
    && (forall b :: 0 <= b < |s.ubi.blk| && b != lo && b != lo + 1 ==> s.ubi.blk[b] == old(s.ubi.blk)[b])
    && s.dirty == old(s.dirty) && s.slots == old(s.slots) && s.pmtMeta == old(s.pmtMeta) && s.listed == old(s.listed)
    && s.hotMeta == old(s.hotMeta) && s.coldMeta == old(s.coldMeta)
    && s.hotEdition == old(s.hotEdition) && s.coldEdition == old(s.coldEdition)
  }

  /** HDI_Commit. */
  method HdiCommit(s: Ftl)
    requires s.Sound() && HdiOk(s.g, s.ubi.blk, s.Logs())
    modifies s, s.ubi.Repr
    ensures LogStep(s, 4) && HdiOk(s.g, s.ubi.blk, s.Logs())
    ensures s.root == old(s.root).(hdi := s.root.hdi)
    ensures s.Logs() == old(s.Logs()).(hdiBlock := s.hdiBlock, hdiPage := s.hdiPage)
    ensures s.hdiPage == (if old(s.hdiPage) == s.g.P then 1 else old(s.hdiPage) + 1)
    ensures (old(s.hdiPage) == s.g.P) == (s.hdiBlock != old(s.hdiBlock))
    ensures s.root.hdi == Loc(s.hdiBlock, s.hdiPage - 1) && HdiStored(s.g, s.ubi.blk, s.root.hdi, s.hdiPage)
    ensures s.ubi.blk[s.hdiBlock][s.hdiPage - 1] == Programmed(HotTable, AllOnes)
  {
    HdiTurn(s);
    HdiPut(s);
  }

  method HdiTurn(s: Ftl)
    requires s.Sound() && HdiOk(s.g, s.ubi.blk, s.Logs())
    modifies s, s.ubi.Repr
    ensures LogStep(s, 4) && HdiOk(s.g, s.ubi.blk, s.Logs()) && s.hdiPage < s.g.P && s.root == old(s.root)
    ensures s.Logs() == old(s.Logs()).(hdiBlock := s.hdiBlock, hdiPage := s.hdiPage)
    ensures (old(s.hdiPage) == s.g.P) == (s.hdiBlock != old(s.hdiBlock))
    ensures s.hdiPage == if old(s.hdiPage) == s.g.P then 0 else old(s.hdiPage)
  {
    if s.hdiPage == s.g.P {
      var next := if s.hdiBlock == 4 then 5 else 4;
      s.ubi.Erase(next, next);
      s.hdiPage, s.hdiBlock := 0, next;
    }
  }

  method HdiPut(s: Ftl)
    requires s.Sound() && HdiOk(s.g, s.ubi.blk, s.Logs()) && s.hdiPage < s.g.P
    modifies s, s.ubi.Repr
    ensures LogStep(s, 4) && HdiOk(s.g, s.ubi.blk, s.Logs())
    ensures s.root == old(s.root).(hdi := Loc(s.hdiBlock, old(s.hdiPage)))
    ensures s.Logs() == old(s.Logs()).(hdiPage := old(s.hdiPage) + 1)
    ensures s.ubi.blk[s.hdiBlock][old(s.hdiPage)] == Programmed(HotTable, AllOnes)
  {
    s.ubi.Write(s.hdiBlock, s.hdiPage, HotTable, AllOnes);
    s.root := s.root.(hdi := Loc(s.hdiBlock, s.hdiPage));
    s.hdiPage := s.hdiPage + 1;
  }

  /** Only pages from `page` on of block b were programmed. */
  ghost predicate OnlyAppended(blk: seq<Block>, now: seq<Block>, b: nat, page: nat) {
    && |now| == |blk| && b < |blk| && |now[b]| == |blk[b]| && (forall c :: 0 <= c < |blk| && c != b ==> now[c] == blk[c])
    && forall p :: 0 <= p < page && p < |blk[b]| ==> now[b][p] == blk[b][p]
  }

  /** The block after the one that is full, erased; or the same block. */
  function Turned(g: Geometry, blk: seq<Block>, l: LogView): seq<Block> {
    if l.bdtPage < g.P || l.bdtBlock > 1 || |blk| < 2 then blk else blk[1 - l.bdtBlock := Blank(g.P)]
  }

  /** BDT_Commit: the newest copy of the dirty table is where root_table says, behind the earlier
      ones or first on the other block. */
  method BdtCommit(s: Ftl)
    requires s.Sound() && BdtOk(s.g, s.ubi.blk, s.Logs()) && |s.dirty| == s.g.bdtPages * s.g.pageBytes
    modifies s, s.ubi.Repr
    ensures LogStep(s, 0) && BdtOk(s.g, s.ubi.blk, s.Logs())
    ensures s.root == old(s.root).(bdt := s.root.bdt)
    ensures s.Logs() == old(s.Logs()).(bdtBlock := s.bdtBlock, bdtPage := s.bdtPage)
    ensures (old(s.bdtPage) == s.g.P) == (s.bdtBlock != old(s.bdtBlock))
    ensures s.bdtPage == (if old(s.bdtPage) == s.g.P then 0 else old(s.bdtPage)) + s.g.bdtPages
    ensures s.root.bdt == Loc(s.bdtBlock, s.bdtPage - s.g.bdtPages)
    ensures s.root.bdt.block < ROOT_BLOCK0 && TableAt(s.g, s.ubi.blk, s.root.bdt, s.dirty, s.g.bdtPages)
    ensures BdtStored(s.g, s.ubi.blk, s.root.bdt, s.dirty)
    ensures OnlyAppended(Turned(s.g, old(s.ubi.blk), old(s.Logs())), s.ubi.blk, s.bdtBlock, s.bdtPage - s.g.bdtPages)
  {
    BdtTurn(s);
    BdtPut(s);
  }

  method BdtTurn(s: Ftl)
    requires s.Sound() && BdtOk(s.g, s.ubi.blk, s.Logs())
    modifies s, s.ubi.Repr
    ensures LogStep(s, 0) && BdtOk(s.g, s.ubi.blk, s.Logs()) && s.bdtPage < s.g.P
    ensures s.root == old(s.root)
    ensures s.Logs() == old(s.Logs()).(bdtBlock := s.bdtBlock, bdtPage := s.bdtPage)
    ensures (old(s.bdtPage) == s.g.P) == (s.bdtBlock != old(s.bdtBlock))
    ensures s.bdtPage == if old(s.bdtPage) == s.g.P then 0 else old(s.bdtPage)
    ensures s.ubi.blk == Turned(s.g, old(s.ubi.blk), old(s.Logs()))
  {
    if s.bdtPage == s.g.P {
      var next := if s.bdtBlock == 0 then 1 else 0;
      s.ubi.Erase(next, next);
      s.bdtPage, s.bdtBlock := 0, next;
      assert s.bdtPage == 0 * s.g.bdtPages;
    }
  }

  method BdtPut(s: Ftl)
    requires s.Sound() && BdtOk(s.g, s.ubi.blk, s.Logs()) && s.bdtPage < s.g.P
    requires |s.dirty| == s.g.bdtPages * s.g.pageBytes
    modifies s, s.ubi.Repr
    ensures LogStep(s, 0) && BdtOk(s.g, s.ubi.blk, s.Logs())
    ensures s.root == old(s.root).(bdt := s.root.bdt)
    ensures s.Logs() == old(s.Logs()).(bdtPage := s.bdtPage) && s.bdtPage == old(s.bdtPage) + s.g.bdtPages
    ensures s.root.bdt == Loc(s.bdtBlock, old(s.bdtPage))
    ensures s.root.bdt.block < ROOT_BLOCK0 && TableAt(s.g, s.ubi.blk, s.root.bdt, s.dirty, s.g.bdtPages)
    ensures BdtStored(s.g, s.ubi.blk, s.root.bdt, s.dirty) && OnlyAppended(old(s.ubi.blk), s.ubi.blk, s.bdtBlock, old(s.bdtPage))
  {
    ghost var k: nat :| k <= s.g.bdtCopies && s.bdtPage == k * s.g.bdtPages;
    RoomForTable(s.g.bdtPages, s.g.bdtCopies, k);
    hide Chunk;
    BdtPages(s);
    s.root := s.root.(bdt := Loc(s.bdtBlock, s.bdtPage));
    s.bdtPage := s.bdtPage + s.g.bdtPages;
    ghost var next := k + 1;
    assert s.bdtPage == next * s.g.bdtPages;
    assert BdtCopies(s.g, s.ubi.blk, s.root.bdt, k, next);
  }

  /** The pages of the dirty table, one after the other. */
  method BdtPages(s: Ftl)
    requires s.Sound() && |s.dirty| == s.g.bdtPages * s.g.pageBytes
    requires s.bdtBlock == 0 || s.bdtBlock == 1
    requires s.bdtPage + s.g.bdtPages <= s.g.P && Filled(s.ubi.blk[s.bdtBlock], s.bdtPage)
    modifies s.ubi.Repr
    ensures LogStep(s, 0) && Filled(s.ubi.blk[s.bdtBlock], s.bdtPage + s.g.bdtPages)
    ensures OnlyAppended(old(s.ubi.blk), s.ubi.blk, s.bdtBlock, s.bdtPage)
    ensures TableAt(s.g, s.ubi.blk, Loc(s.bdtBlock, s.bdtPage), s.dirty, s.g.bdtPages)
  {
    hide Chunk, TableAt;
    var i := 0;
    NoChunks(s.g, s.ubi.blk, Loc(s.bdtBlock, s.bdtPage), s.dirty);
    while i < s.g.bdtPages
      invariant i <= s.g.bdtPages && LogStep(s, 0) && OnlyAppended(old(s.ubi.blk), s.ubi.blk, s.bdtBlock, s.bdtPage)
      invariant Filled(s.ubi.blk[s.bdtBlock], s.bdtPage + i)
      invariant TableAt(s.g, s.ubi.blk, Loc(s.bdtBlock, s.bdtPage), s.dirty, i)
    {
      ChunkAdded(s.g, s.ubi.blk, Loc(s.bdtBlock, s.bdtPage), s.dirty, i);
      s.ubi.Write(s.bdtBlock, s.bdtPage + i, DirtyCounts(Chunk(s.g, s.dirty, i)), AllOnes);
      i := i + 1;
    }
  }

  /** ROOT_Commit, on any root log in order: the root in RAM becomes the root a mount would load. */
  method RootAppend(s: Ftl, ghost last: Root)
    requires s.Sound() && |s.ubi.blk| > 5 && LogOk(s.g.P, RootLog(s.ubi.blk, s.Logs()), last)
    modifies s, s.ubi.Repr
    ensures LogStep(s, ROOT_BLOCK0) && |s.ubi.blk| > 5
    ensures s.root == old(s.root).(self := s.root.self, edition := s.root.edition)
    ensures s.Logs() == old(s.Logs()).(rootBlock := s.rootBlock, rootPage := s.rootPage, rootEdition := s.rootEdition)
    ensures RootLog(s.ubi.blk, s.Logs()) == Put(Turn(s.g.P, old(RootLog(s.ubi.blk, s.Logs()))), old(s.root))
    ensures LogOk(s.g.P, RootLog(s.ubi.blk, s.Logs()), s.root)
    ensures Loaded(s.ubi.blk[ROOT_BLOCK0], s.ubi.blk[ROOT_BLOCK1]) == Some(s.root)
  {
    ghost var st := RootLog(s.ubi.blk, s.Logs());
    TurnKeeps(s.g.P, st, last, s.root);
    LoadsLast(s.g.P, Put(Turn(s.g.P, st), s.root), Stamp(Turn(s.g.P, st), s.root));
    assert st.current == ROOT_BLOCK0 || st.current == ROOT_BLOCK1;
    hide LogOk, Loaded, Put, Turn, Stamp;
    RootTurn(s);
    RootPut(s);
  }

  /** ROOT_Commit of a running FTL. */
  method RootCommit(s: Ftl)
    requires s.Sound() && LogsOk(s.g, s.ubi.blk, s.Logs())
    modifies s, s.ubi.Repr
    ensures LogStep(s, ROOT_BLOCK0) && LogsOk(s.g, s.ubi.blk, s.Logs())
    ensures s.root == old(s.root).(self := s.root.self, edition := s.root.edition)
    ensures RootLog(s.ubi.blk, s.Logs()) == Put(Turn(s.g.P, old(RootLog(s.ubi.blk, s.Logs()))), old(s.root))
    ensures Loaded(s.ubi.blk[ROOT_BLOCK0], s.ubi.blk[ROOT_BLOCK1]) == Some(s.root)
    ensures RootStored(s.g.P, s.ubi.blk, s.root)
    ensures s.Logs() == old(s.Logs()).(rootBlock := s.rootBlock, rootPage := s.rootPage, rootEdition := s.rootEdition)
  {
    hide LogOk, Loaded, Put, Turn;
    ghost var last :| LogOk(s.g.P, RootLog(s.ubi.blk, s.Logs()), last);
    RootAppend(s, last);
  }

  method RootTurn(s: Ftl)
    requires s.Sound() && (s.rootBlock == ROOT_BLOCK0 || s.rootBlock == ROOT_BLOCK1)
    modifies s, s.ubi.Repr
    ensures LogStep(s, ROOT_BLOCK0) && s.root == old(s.root)
    ensures s.Logs() == old(s.Logs()).(rootBlock := s.rootBlock, rootPage := s.rootPage)
    ensures RootLog(s.ubi.blk, s.Logs()) == Turn(s.g.P, old(RootLog(s.ubi.blk, s.Logs())))
    ensures s.rootBlock == ROOT_BLOCK0 || s.rootBlock == ROOT_BLOCK1
  {
    if s.rootPage == s.g.P {
      var next := Other(s.rootBlock);
      s.ubi.Erase(next, next);
      s.rootPage, s.rootBlock := 0, next;
    }
  }

  method RootPut(s: Ftl)
    requires s.Sound() && (s.rootBlock == ROOT_BLOCK0 || s.rootBlock == ROOT_BLOCK1)
    requires s.rootPage < s.g.P && Filled(s.ubi.blk[s.rootBlock], s.rootPage)
    modifies s, s.ubi.Repr
    ensures LogStep(s, ROOT_BLOCK0)
    ensures s.root == Stamp(old(RootLog(s.ubi.blk, s.Logs())), old(s.root))
    ensures s.Logs() == old(s.Logs()).(rootPage := s.rootPage, rootEdition := s.rootEdition)
    ensures RootLog(s.ubi.blk, s.Logs()) == Put(old(RootLog(s.ubi.blk, s.Logs())), old(s.root))
  {
    s.root := s.root.(self := Loc(s.rootBlock, s.rootPage), edition := s.rootEdition);
    s.rootEdition := s.rootEdition + 1;
    s.ubi.Write(s.rootBlock, s.rootPage, RootImage(s.root), Words(0, 0));
    s.rootPage := s.rootPage + 1;
  }
}
