/** ROOT_Init, BDT_Init, PMT_Init, HDI_Init: the tables in RAM are read back from the logs. */
module Mount {
  import opened Geometry
  import opened Flash
  import PmtSpec
  import opened FtlState
  import opened RootSpec
  import opened Logs
  import opened Commit

  // ---------------------------------------------------------------- ROOT_Init

  function ImageOf(c: Cell): Root {
    if c.Programmed? && c.content.RootImage? then c.content.root
    else Root([], [], [], Loc(0, 0), Loc(0, 0), Loc(0, 0), Loc(0, 0), Loc(0, 0), 0, [])
  }

  /** The first page of a root block; if it is written, it is loaded as root_table. */
  method FirstImage(s: Ftl, b: nat) returns (found: bool)
    requires s.Sound() && b <= ROOT_BLOCK1
    modifies s`root, s.ubi.Repr
    ensures s.Sound() && s.ubi.blk == old(s.ubi.blk) && |s.ubi.blk| > 5 && |s.ubi.blk[b]| > 0
    ensures found == s.ubi.blk[b][0].Programmed? && (found ==> s.root.edition == EditionAt(s.ubi.blk[b], 0))
  {
    var c := s.ubi.Read(b, 0);
    found := c.Programmed?;
    if found {
      s.root := ImageOf(c);
    }
  }

  /** The block whose first image is newer. */
  method ChooseRootBlock(s: Ftl)
    requires s.Sound()
    modifies s`root, s`rootBlock, s`rootEdition, s.ubi.Repr
    ensures s.Sound() && s.ubi.blk == old(s.ubi.blk)
    ensures |s.ubi.blk| > 5 && s.rootBlock == Choose(s.ubi.blk[ROOT_BLOCK0], s.ubi.blk[ROOT_BLOCK1])
  {
    var found := FirstImage(s, ROOT_BLOCK0);
    if found {
      s.rootEdition := s.root.edition;
      found := FirstImage(s, ROOT_BLOCK1);
      s.rootBlock := if found && s.rootEdition <= s.root.edition then ROOT_BLOCK1 else ROOT_BLOCK0;
    } else {
      s.rootBlock := ROOT_BLOCK1;
    }
  }

  /** The scan for the newest image. */
  method LastImage(s: Ftl) returns (i: nat)
    requires s.Sound() && (s.rootBlock == ROOT_BLOCK0 || s.rootBlock == ROOT_BLOCK1)
    modifies s.ubi.Repr
    ensures s.Sound() && s.ubi.blk == old(s.ubi.blk)
    ensures s.rootBlock < |s.ubi.blk| && i == Leading(s.ubi.blk[s.rootBlock], 0)
  {
    i := 0;
    while i < s.g.P
      invariant s.Sound() && s.ubi.blk == old(s.ubi.blk) && i <= s.g.P
      invariant Leading(s.ubi.blk[s.rootBlock], 0) == Leading(s.ubi.blk[s.rootBlock], i)
    {
      var c := s.ubi.Read(s.rootBlock, i);
      if c.Erased? || c.spare.AllOnes? {
        break;
      }
      i := i + 1;
    }
  }

  /** The newest image is found and loaded. */
  method NewestImage(s: Ftl, ghost st: State, ghost r: Root) returns (i: nat)
    requires s.Sound() && LogOk(s.g.P, st, r)
    requires |s.ubi.blk| > 5 && st.b0 == s.ubi.blk[ROOT_BLOCK0] && st.b1 == s.ubi.blk[ROOT_BLOCK1]
    modifies s`root, s`rootBlock, s`rootEdition, s.ubi.Repr
    ensures s.Sound() && s.ubi.blk == old(s.ubi.blk) && s.rootBlock == st.current && i == st.page && s.root == r
  {
    hide LogOk, Loaded, Leading, Choose;
    ImageAt(s.g.P, st, r);
    ChooseRootBlock(s);
    i := LastImage(s);
    assert s.ubi.blk[s.rootBlock] == BlockOf(st, st.current);
    var c := s.ubi.Read(s.rootBlock, i - 1);
    s.root := ImageOf(c);
  }

  /** The newest image is loaded, and the statics become those of the log as it stands. */
  method LoadRoot(s: Ftl, ghost st: State, ghost r: Root)
    requires s.Sound() && LogOk(s.g.P, st, r)
    requires |s.ubi.blk| > 5 && st.b0 == s.ubi.blk[ROOT_BLOCK0] && st.b1 == s.ubi.blk[ROOT_BLOCK1]
    modifies s`root, s`rootBlock, s`rootPage, s`rootEdition, s.ubi.Repr
    ensures s.Sound() && s.ubi.blk == old(s.ubi.blk) && |s.ubi.blk| > 5
    ensures s.root == r && RootLog(s.ubi.blk, s.Logs()) == st
  {
    hide LogOk, Loaded, Leading, Choose;
    ImageAt(s.g.P, st, r);
    var i := NewestImage(s, st, r);
    s.rootPage, s.rootEdition := i, s.root.edition + 1;
  }

  /** The root log is that of `blk` with one more image of r. */
  ghost predicate RootCopied(p: nat, blk: seq<Block>, now: State, r: Root) {
    && |blk| > 5 && 1 <= p && exists st :: LogOk(p, st, r) && st.b0 == blk[ROOT_BLOCK0] && st.b1 == blk[ROOT_BLOCK1]
                                 && st.page <= |BlockOf(st, st.current)| == p && now == Put(Turn(p, st), r)
  }

  /** ROOT_Init: the newest image is loaded, and a copy of it is written. */
  method RootInit(s: Ftl, ghost r: Root)
    requires s.Sound() && RootStored(s.g.P, s.ubi.blk, r)
    modifies s, s.ubi.Repr
    ensures LogStep(s, ROOT_BLOCK0) && |s.ubi.blk| > 5
    ensures s.root == r.(self := s.root.self, edition := s.root.edition)
    ensures LogOk(s.g.P, RootLog(s.ubi.blk, s.Logs()), s.root) && RootCopied(s.g.P, old(s.ubi.blk), RootLog(s.ubi.blk, s.Logs()), r)
  {
    hide LogOk, Loaded, Put, Turn;
    ghost var st :| LogOk(s.g.P, st, r) && st.b0 == s.ubi.blk[ROOT_BLOCK0] && st.b1 == s.ubi.blk[ROOT_BLOCK1];
    LogFits(s.g.P, st, r);
    LoadRoot(s, st, r);
    RootAppend(s, r);
  }

  lemma LogFits(p: nat, st: State, r: Root)
    requires LogOk(p, st, r)
    ensures 1 <= p && st.page <= |BlockOf(st, st.current)| == p
  {
  }

  /** Where the newest image is. */
  lemma ImageAt(p: nat, st: State, r: Root)
    requires LogOk(p, st, r)
    ensures var b := if Choose(st.b0, st.b1) == ROOT_BLOCK0 then st.b0 else st.b1;
            && (st.current == ROOT_BLOCK0 || st.current == ROOT_BLOCK1) && b == BlockOf(st, st.current)
            && Choose(st.b0, st.b1) == st.current && Leading(b, 0) == st.page && st.edition == r.edition + 1
            && 1 <= st.page <= |b| && b[st.page - 1].Programmed? && b[st.page - 1].content == RootImage(r)
  {
    LoadsLast(p, st, r);
    LeadingIs(BlockOf(st, st.current), st.page, 0);
  }

  // ---------------------------------------------------------------- BDT_Init

  /** The i-th page of the table is read into its place. */
  lemma ChunkPlaced(g: Geometry, now: seq<nat>, d: seq<nat>, i: nat)
    requires |now| == |d| == g.bdtPages * g.pageBytes && i < g.bdtPages
    requires i * g.pageBytes <= |d| && now[..i * g.pageBytes] == d[..i * g.pageBytes]
    ensures 0 <= i * g.pageBytes <= (i + 1) * g.pageBytes <= |d|
    ensures |Chunk(g, d, i)| == (i + 1) * g.pageBytes - i * g.pageBytes
    ensures var x := now[..i * g.pageBytes] + Chunk(g, d, i) + now[(i + 1) * g.pageBytes..];
            |x| == |d| && x[..(i + 1) * g.pageBytes] == d[..(i + 1) * g.pageBytes]
  {
    hide ValidDims;
    ChunkBounds(g, i);
    var a, b := i * g.pageBytes, (i + 1) * g.pageBytes;
    assert d[..b] == d[..a] + d[a..b];
  }

  method ReadTable(s: Ftl, l: Loc, ghost d: seq<nat>)
    requires s.Sound() && |s.dirty| == s.g.bdtPages * s.g.pageBytes
    requires l.block < s.g.U && l.page + s.g.bdtPages <= s.g.P && TableAt(s.g, s.ubi.blk, l, d, s.g.bdtPages)
    modifies s`dirty, s.ubi.Repr
    ensures s.Sound() && s.ubi.blk == old(s.ubi.blk) && s.dirty == d
  {
    hide Chunk, ValidDims;
    var i := 0;
    assert 0 * s.g.pageBytes == 0;
    while i < s.g.bdtPages
      invariant s.Sound() && s.ubi.blk == old(s.ubi.blk) && i <= s.g.bdtPages
      invariant |s.dirty| == |d| && 0 <= i * s.g.pageBytes <= |d|
      invariant s.dirty[..i * s.g.pageBytes] == d[..i * s.g.pageBytes]
    {
      var c := s.ubi.Read(l.block, l.page + i);
      assert ChunkAt(s.g, s.ubi.blk, l, d, i);
      ChunkPlaced(s.g, s.dirty, d, i);
      var a, next := i * s.g.pageBytes, i + 1;
      s.dirty := s.dirty[..a] + c.content.counts + s.dirty[next * s.g.pageBytes..];
      i := next;
    }
    assert d == d[..|d|] && s.dirty == s.dirty[..|d|];
  }

  /** The scan for the first erased copy. */
  method ScanTables(s: Ftl, b: nat, page: nat, ghost j: nat, ghost k: nat) returns (i: nat)
    requires s.Sound() && b < s.g.U && j < k <= s.g.bdtCopies && BdtCopies(s.g, s.ubi.blk, Loc(b, page), j, k)
    modifies s.ubi.Repr
    ensures s.Sound() && s.ubi.blk == old(s.ubi.blk) && i == k * s.g.bdtPages
  {
    var n := s.g.bdtPages;
    ghost var m := j + 1;
    i := page + n;
    Multiples(s.g, j, k, m);
    while i < s.g.P
      invariant s.Sound() && s.ubi.blk == old(s.ubi.blk)
      invariant j < m <= k && i == m * n
      decreases s.g.P - i
    {
      var c := s.ubi.Read(b, i);
      Multiples(s.g, j, k, m);
      if c.Erased? {
        break;
      }
      i := i + n;
      m := m + 1;
    }
    Multiples(s.g, j, k, m);
  }

  lemma Multiples(g: Geometry, j: nat, k: nat, m: nat)
    requires j < m <= k <= g.bdtCopies
    ensures m * g.bdtPages + g.bdtPages == (m + 1) * g.bdtPages && j * g.bdtPages + g.bdtPages == (j + 1) * g.bdtPages
    ensures m * g.bdtPages <= k * g.bdtPages <= g.P
    ensures m < k ==> m * g.bdtPages < k * g.bdtPages
  {
    MulMono(m, k, g.bdtPages);
    MulMono(k, g.bdtCopies, g.bdtPages);
    if m < k {
      MulMono(m + 1, k, g.bdtPages);
    }
  }

  /** The dirty table is on the place after the last written one, which is page p of block b. */
  ghost predicate NextCopy(g: Geometry, b: nat, p: nat, l: LogView) {
    if p == g.P then l.bdtBlock == 1 - b && l.bdtPage == g.bdtPages else l.bdtBlock == b && l.bdtPage == p + g.bdtPages
  }

  ghost predicate CopiedNext(g: Geometry, blk: seq<Block>, b: nat, l: LogView) {
    b < |blk| && forall p: nat :: p <= |blk[b]| && Filled(blk[b], p) ==> NextCopy(g, b, p, l)
  }

  /** BDT_Init: the dirty table root_table names is loaded, the first erased copy found, and the
      table written once more; the copy that was read is still there. */
  method BdtInit(s: Ftl, ghost d: seq<nat>)
    requires s.Sound() && |s.dirty| == s.g.bdtPages * s.g.pageBytes && BdtStored(s.g, s.ubi.blk, s.root.bdt, d)
    modifies s, s.ubi.Repr
    ensures s.dirty == d && BdtStep(s) && BdtOk(s.g, s.ubi.blk, s.Logs())
    ensures s.root == old(s.root).(bdt := s.root.bdt)
    ensures s.Logs() == old(s.Logs()).(bdtBlock := s.bdtBlock, bdtPage := s.bdtPage)
    ensures s.root.bdt.block == s.bdtBlock && s.root.bdt.page + s.g.bdtPages == s.bdtPage
    ensures BdtStored(s.g, s.ubi.blk, s.root.bdt, d) && BdtStored(s.g, s.ubi.blk, old(s.root.bdt), d)
    ensures CopiedNext(s.g, old(s.ubi.blk), old(s.root.bdt.block), s.Logs())
  {
    hide Chunk, TableAt, BdtStored;
    ghost var at, blk := s.root.bdt, s.ubi.blk;
    FindTable(s, d);
    ghost var l := s.Logs();
    forall p: nat | p <= |blk[at.block]| && Filled(blk[at.block], p)
      ensures p == l.bdtPage
    {
      SameFill(blk[at.block], p, l.bdtPage);
    }
    BlockSizes(s);
    BdtCommit(s);
    CopyStays(s.g, blk, l, s.ubi.blk, s.Logs(), at, d);
  }

  lemma BlockSizes(s: Ftl)
    requires s.Sound()
    ensures |s.ubi.blk| > 5 && |s.ubi.blk[0]| == |s.ubi.blk[1]| == s.g.P
  {
  }

  /** The table is read, and the first erased copy found. */
  method FindTable(s: Ftl, ghost d: seq<nat>)
    requires s.Sound() && |s.dirty| == s.g.bdtPages * s.g.pageBytes && BdtStored(s.g, s.ubi.blk, s.root.bdt, d)
    modifies s`dirty, s`bdtBlock, s`bdtPage, s.ubi.Repr
    ensures s.Sound() && s.ubi.blk == old(s.ubi.blk) && s.dirty == d && |d| == s.g.bdtPages * s.g.pageBytes
    ensures BdtOk(s.g, s.ubi.blk, s.Logs()) && s.bdtBlock == s.root.bdt.block
  {
    hide Chunk;
    var l := s.root.bdt;
    ghost var j: nat, k: nat :| j < k <= s.g.bdtCopies && BdtCopies(s.g, s.ubi.blk, l, j, k);
    Multiples(s.g, j, k, j + 1);
    hide ValidDims, BdtCopies;
    ReadTable(s, l, d);
    var i := ScanTables(s, l.block, l.page, j, k);
    s.bdtBlock, s.bdtPage := l.block, i;
  }

  /** A dirty-table commit that may also have loaded the table. */
  twostate predicate BdtStep(s: Ftl)
    reads s, s.ubi, s.ubi.Repr
  {
    && s.Sound() && |s.ubi.blk| == |old(s.ubi.blk)|
    && (forall b :: 2 <= b < |s.ubi.blk| ==> s.ubi.blk[b] == old(s.ubi.blk)[b])
    && s.slots == old(s.slots) && s.listed == old(s.listed)
    && s.hotMeta == old(s.hotMeta) && s.coldMeta == old(s.coldMeta)
  }

  // ---------------------------------------------------------------- PMT_Init, HDI_Init

  /** PMT_Init: every cache slot is empty. */
  method PmtInit(s: Ftl)
    modifies s`slots
    ensures |s.slots| == s.g.C && forall i :: 0 <= i < s.g.C ==> s.slots[i] == PmtSpec.EMPTY_SLOT
  {
    s.slots := seq(s.g.C, _ => PmtSpec.EMPTY_SLOT);
  }

  /** The scan for the first erased page. */
  method ScanHot(s: Ftl, b: nat, page: nat, ghost n: nat) returns (i: nat)
    requires s.Sound() && b < s.g.U && page < n <= s.g.P && Filled(s.ubi.blk[b], n)
    modifies s.ubi.Repr
    ensures s.Sound() && s.ubi.blk == old(s.ubi.blk) && i == n
  {
    i := page + 1;
    while i < s.g.P
      invariant s.Sound() && s.ubi.blk == old(s.ubi.blk) && i <= n
    {
      var c := s.ubi.Read(b, i);
      if c.Erased? {
        break;
      }
      i := i + 1;
    }
  }

  /** HDI_Init: the next page of its log is found; what is then committed is the dirty table. */
  method HdiInit(s: Ftl, ghost n: nat)
    requires s.Sound() && HdiStored(s.g, s.ubi.blk, s.root.hdi, n)
    requires BdtOk(s.g, s.ubi.blk, s.Logs()) && |s.dirty| == s.g.bdtPages * s.g.pageBytes
    modifies s, s.ubi.Repr
    ensures s.dirty == old(s.dirty) && BdtStep(s) && BdtOk(s.g, s.ubi.blk, s.Logs()) && HdiOk(s.g, s.ubi.blk, s.Logs())
    ensures s.root == old(s.root).(bdt := s.root.bdt)
    ensures s.Logs() == old(s.Logs()).(bdtBlock := s.bdtBlock, bdtPage := s.bdtPage, hdiBlock := s.root.hdi.block, hdiPage := n)
    ensures NextCopy(s.g, old(s.bdtBlock), old(s.bdtPage), s.Logs())
    ensures s.root.bdt.block == s.bdtBlock && s.root.bdt.page + s.g.bdtPages == s.bdtPage && BdtStored(s.g, s.ubi.blk, s.root.bdt, s.dirty)
    ensures OnlyAppended(Turned(s.g, old(s.ubi.blk), old(s.Logs())), s.ubi.blk, s.bdtBlock, s.root.bdt.page)
  {
    hide Chunk, ValidDims;
    s.hdiBlock, s.hdiPage := s.root.hdi.block, s.root.hdi.page;
    var c := s.ubi.Read(s.hdiBlock, s.hdiPage);
    var i := ScanHot(s, s.hdiBlock, s.hdiPage, n);
    s.hdiPage := i;
    BdtCommit(s);
  }

  // ---------------------------------------------------------------- the mount of the tables

  /** ROOT_Init, BDT_Init, PMT_Init, HDI_Init in turn: the FTL has the stored tables in RAM. */
  method MountTables(s: Ftl, ghost r: Root, ghost d: seq<nat>)
    requires s.Sound() && s.Sized() && Stored(s.g, s.ubi.blk, r, d, s.listed)
    modifies s, s.ubi.Repr
    ensures Ready(s) && s.dirty == d && s.listed == old(s.listed)
    ensures s.root == r.(self := s.root.self, edition := s.root.edition, bdt := s.root.bdt)
    ensures PmtSpec.SameMap(StoredMap(s.g, old(s.ubi.blk), r, d, old(s.listed)), s.Pmt())
    ensures Stored(s.g, s.ubi.blk, s.root.(bdt := r.bdt), d, s.listed)
    ensures s.Pmt() == StoredMap(s.g, s.ubi.blk, s.root.(bdt := r.bdt), d, s.listed)
    ensures |s.ubi.blk| == |old(s.ubi.blk)| && forall b :: PMT_START_BLOCK <= b < |s.ubi.blk| ==> s.ubi.blk[b] == old(s.ubi.blk)[b]
    ensures s.hotMeta == old(s.hotMeta) && s.coldMeta == old(s.coldMeta)
  {
    hide PmtSpec.Stable, LogOk, TableAt, Put, Turn, PmtSpec.SameMap, RootCopied, CopiedNext, OnlyAppended;
    ghost var blk := s.ubi.blk;
    ghost var n :| HdiStored(s.g, blk, r.hdi, n);
    RootInit(s, r);
    ghost var blk1, r1 := s.ubi.blk, s.root;
    assert BdtStored(s.g, s.ubi.blk, s.root.bdt, d) by { BdtDepends(s.g, blk, blk1, r.bdt, d); }
    hide BdtStored, RootStored;
    BdtInit(s, d);
    ghost var blk2, l := s.ubi.blk, s.Logs();
    BlockSizes(s);
    NextPlace(s.g, blk1, r.bdt, d, l);
    PmtInit(s);
    HdiInit(s, n);
    assert RootLog(s.ubi.blk, s.Logs()).b0 == blk1[ROOT_BLOCK0];
    CopyStays(s.g, blk2, l, s.ubi.blk, s.Logs(), r.bdt, d);
    hide BdtOk, HdiOk;
    MapMounted(s, blk, r, d);
    StoredAgain(s, blk, r, r1, d, n);
  }

  /** The two commits of a mount spare the copy that was read. */
  lemma NextPlace(g: Geometry, blk: seq<Block>, at: Loc, d: seq<nat>, l: LogView)
    requires BdtStored(g, blk, at, d) && CopiedNext(g, blk, at.block, l)
    ensures l.bdtPage <= g.P && (at.block == l.bdtBlock || l.bdtPage < g.P || at.page == 0)
  {
    hide TableAt, ValidDims;
    var j: nat, k: nat :| j < k <= g.bdtCopies && BdtCopies(g, blk, at, j, k);
    Multiples(g, j, k, k);
    assert NextCopy(g, at.block, k * g.bdtPages, l);
    if k < g.bdtCopies {
      MulMono(k + 1, g.bdtCopies, g.bdtPages);
    } else if g.bdtCopies >= 2 {
      MulMono(2, g.bdtCopies, g.bdtPages);
    }
    PagesOfTable(g);
  }

  lemma PagesOfTable(g: Geometry)
    ensures g.P == g.bdtCopies * g.bdtPages && 1 <= g.bdtPages
  {
  }

  /** The flash holds the stored tables again, with the copy of the root. */
  lemma StoredAgain(s: Ftl, blk: seq<Block>, r: Root, r1: Root, d: seq<nat>, n: nat)
    requires s.Sound() && s.dirty == d && |d| == s.g.bdtPages * s.g.pageBytes && |s.ubi.blk| == |blk|
    requires r1 == r.(self := r1.self, edition := r1.edition) && s.root == r1.(bdt := s.root.bdt)
    requires LogOk(s.g.P, RootLog(s.ubi.blk, s.Logs()), r1) && BdtStored(s.g, s.ubi.blk, r.bdt, d) && HdiStored(s.g, s.ubi.blk, r.hdi, n)
    requires PmtSpec.Stable(s.g, s.Pmt()) && |s.slots| == s.g.C && forall i :: 0 <= i < s.g.C ==> s.slots[i] == PmtSpec.EMPTY_SLOT
    ensures Stored(s.g, s.ubi.blk, s.root.(bdt := r.bdt), d, s.listed)
    ensures s.Pmt() == StoredMap(s.g, s.ubi.blk, s.root.(bdt := r.bdt), d, s.listed)
  {
    hide LogOk, BdtStored, HdiStored, PmtSpec.Inv, PmtSpec.SameMap;
    assert s.slots == PmtSpec.NoSlots(s.g);
    var u := StoredMap(s.g, s.ubi.blk, r1, d, s.listed);
    assert u == s.Pmt();
    hide PmtSpec.Stable;
    assert RootStored(s.g.P, s.ubi.blk, r1);
  }

  lemma MapMounted(s: Ftl, blk: seq<Block>, r: Root, d: seq<nat>)
    requires PmtSpec.Stable(s.g, StoredMap(s.g, blk, r, d, s.listed)) && s.dirty == d
    requires s.root == r.(self := s.root.self, edition := s.root.edition, bdt := s.root.bdt)
    requires |s.slots| == s.g.C && forall i :: 0 <= i < s.g.C ==> s.slots[i] == PmtSpec.EMPTY_SLOT
    requires Shaped(s.ubi.blk, s.g.U, s.g.P) && |s.ubi.blk| == |blk|
    requires forall b :: PMT_START_BLOCK <= b < |blk| ==> s.ubi.blk[b] == blk[b]
    ensures PmtSpec.Stable(s.g, s.Pmt()) && PmtSpec.SameMap(StoredMap(s.g, blk, r, d, s.listed), s.Pmt())
  {
    hide PmtSpec.Stable, PmtSpec.SameMap;
    assert s.slots == seq(s.g.C, _ => PmtSpec.EMPTY_SLOT);
    PmtSpec.StableDepends(s.g, StoredMap(s.g, blk, r, d, s.listed), s.Pmt());
  }
}
