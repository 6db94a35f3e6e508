/** FTL_Format: the tables of an empty volume are written to a blank device. */
module Format {
  import opened Geometry
  import opened Flash
  import opened Counting
  import PmtSpec
  import PageMap
  import D = DataSpec
  import opened FtlState
  import opened RootSpec
  import opened Logs

  /** Every logical block is erased. */
  ghost predicate AllBlank(g: Geometry, blk: seq<Block>) {
    Shaped(blk, g.U, g.P) && forall b :: 0 <= b < g.U ==> blk[b] == Blank(g.P)
  }

  // ---------------------------------------------------------------- DATA_Format

  /** block_dirty_table of an empty volume, before PMT_Format: everything is dirty but the
      first n data blocks, which are journals. */
  ghost predicate JournalsClean(g: Geometry, dirty: seq<nat>, n: nat) {
    |dirty| == g.bdtPages * g.pageBytes && g.U <= |dirty|
    && forall b :: 0 <= b < g.U ==> dirty[b] == if g.dataLo <= b < g.dataLo + n then 0 else g.M
  }

  /** Entries of a journal set that begins at block lo. */
  predicate StartsAt(js: seq<Loc>, lo: nat, n: nat) {
    n <= |js| && forall j :: 0 <= j < n ==> js[j] == Loc(lo + j, 0)
  }

  /** The loop that makes the whole dirty table dirty. */
  method AllDirty(s: Ftl, logBlocks: nat)
    requires s.Sized() && s.g.U <= logBlocks <= |s.dirty|
    modifies s`dirty
    ensures s.Sized() && JournalsClean(s.g, s.dirty, 0)
  {
    var i := 0;
    while i < logBlocks
      invariant i <= logBlocks && |s.dirty| == s.g.bdtPages * s.g.pageBytes
      invariant forall b :: 0 <= b < i ==> s.dirty[b] == s.g.M
    {
      s.dirty := s.dirty[i := s.g.M];
      i := i + 1;
    }
  }

  /** n blocks from `lo` on are erased, the others as they were. */
  ghost predicate Cleared(g: Geometry, blk: seq<Block>, now: seq<Block>, lo: nat, n: nat) {
    |now| == |blk| && forall b :: 0 <= b < |blk| ==> now[b] == if lo <= b < lo + n then Blank(g.P) else blk[b]
  }

  lemma StillBlank(g: Geometry, blk: seq<Block>, now: seq<Block>, lo: nat, n: nat)
    requires Cleared(g, blk, now, lo, n) && AllBlank(g, blk)
    ensures AllBlank(g, now)
  {
  }

  /** One journal block is erased and its count cleared. */
  method CleanBlock(s: Ftl, block: nat)
    requires s.Sound() && s.Sized() && InData(s.g, block) && block < |s.dirty|
    modifies s`dirty, s.ubi.Repr
    ensures s.Sound() && s.Sized() && Cleared(s.g, old(s.ubi.blk), s.ubi.blk, block, 1)
    ensures block < |old(s.dirty)| && s.dirty == old(s.dirty)[block := 0]
  {
    s.ubi.Erase(block, block);
    s.dirty := s.dirty[block := 0];
  }

  /** One loop of DATA_Format: J blocks from `block` on become a set of journals. */
  method CleanSet(s: Ftl, block: nat, ghost n: nat) returns (js: seq<Loc>)
    requires s.Sound() && s.Sized() && JournalsClean(s.g, s.dirty, n)
    requires block == s.g.dataLo + n && n <= 2 * s.g.J
    modifies s`dirty, s.ubi.Repr
    ensures s.Sound() && s.Sized() && JournalsClean(s.g, s.dirty, n + s.g.J)
    ensures Cleared(s.g, old(s.ubi.blk), s.ubi.blk, block, s.g.J)
    ensures |js| == s.g.J && StartsAt(js, block, s.g.J)
  {
    js := [];
    var i := 0;
    while i < s.g.J
      invariant i <= s.g.J && s.Sound() && s.Sized() && Cleared(s.g, old(s.ubi.blk), s.ubi.blk, block, i)
      invariant JournalsClean(s.g, s.dirty, n + i) && |js| == i && StartsAt(js, block, i)
    {
      CleanBlock(s, block + i);
      js := js + [Loc(block + i, 0)];
      i := i + 1;
    }
  }

  /** DATA_Format. */
  method DataFormat(s: Ftl, logBlocks: nat)
    requires s.Sound() && s.Sized() && s.g.U <= logBlocks <= |s.dirty|
    modifies s`root, s`dirty, s.ubi.Repr
    ensures s.Sound() && s.Sized() && JournalsClean(s.g, s.dirty, 3 * s.g.J)
    ensures Cleared(s.g, old(s.ubi.blk), s.ubi.blk, s.g.dataLo, 3 * s.g.J)
    ensures s.root == old(s.root).(hot := s.root.hot, cold := s.root.cold, reclaim := s.root.reclaim)
    ensures StartsAt(s.root.hot, s.g.dataLo, s.g.J) && StartsAt(s.root.cold, s.g.dataLo + s.g.J, s.g.J)
    ensures StartsAt(s.root.reclaim, s.g.dataLo + 2 * s.g.J, s.g.J)
    ensures |s.root.hot| == |s.root.cold| == |s.root.reclaim| == s.g.J
  {
    hide JournalsClean;
    AllDirty(s, logBlocks);
    var block := s.g.dataLo;
    var js := CleanSet(s, block, 0);
    s.root := s.root.(hot := js);
    js := CleanSet(s, block + s.g.J, s.g.J);
    s.root := s.root.(cold := js);
    js := CleanSet(s, block + 2 * s.g.J, 2 * s.g.J);
    s.root := s.root.(reclaim := js);
  }

  // ---------------------------------------------------------------- HDI_Format, BDT_Format, ROOT_Format

  /** HDI_Format. */
  method HdiFormat(s: Ftl)
    requires s.Sound()
    modifies s, s.ubi.Repr
    ensures LogStep(s, 4)
    ensures s.root == old(s.root).(hdi := Loc(4, 0)) && HdiStored(s.g, s.ubi.blk, s.root.hdi, 1)
  {
    s.hdiBlock, s.hdiPage := 4, 0;
    s.ubi.Erase(s.hdiBlock, s.hdiBlock);
    HdiCommit(s);
  }

  /** BDT_Format. */
  method BdtFormat(s: Ftl)
    requires s.Sound() && |s.dirty| == s.g.bdtPages * s.g.pageBytes
    modifies s, s.ubi.Repr
    ensures LogStep(s, 0)
    ensures s.root == old(s.root).(bdt := Loc(0, 0)) && BdtStored(s.g, s.ubi.blk, s.root.bdt, s.dirty)
  {
    s.bdtBlock, s.bdtPage := 0, 0;
    s.ubi.Erase(s.bdtBlock, s.bdtBlock);
    assert BdtOk(s.g, s.ubi.blk, s.Logs()) by { assert s.bdtPage == 0 * s.g.bdtPages; }
    hide Chunk;
    BdtCommit(s);
    assert s.bdtPage == 1 * s.g.bdtPages && 1 <= s.g.bdtCopies by { SomeCopy(s.g); }
    assert BdtCopies(s.g, s.ubi.blk, s.root.bdt, 0, 1);
  }

  lemma SomeCopy(g: Geometry)
    ensures 1 <= g.bdtCopies
  {
  }

  /** ROOT_Format: the first image starts the log. */
  method RootFormat(s: Ftl)
    requires s.Sound() && |s.ubi.blk| > 5 && Filled(s.ubi.blk[ROOT_BLOCK1], 0)
    modifies s, s.ubi.Repr
    ensures LogStep(s, ROOT_BLOCK0) && |s.ubi.blk| > 5
    ensures s.root == old(s.root).(self := s.root.self, edition := s.root.edition)
    ensures RootStored(s.g.P, s.ubi.blk, s.root)
  {
    s.rootBlock, s.rootPage, s.rootEdition := ROOT_BLOCK0, 0, 0;
    s.ubi.Erase(s.rootBlock, s.rootBlock);
    ghost var st := RootLog(s.ubi.blk, s.Logs());
    FirstImage(s.g.P, st, s.root);
    hide LogOk, Put, Turn, Stamp;
    RootTurn(s);
    RootPut(s);
    assert LogOk(s.g.P, RootLog(s.ubi.blk, s.Logs()), s.root);
  }

  lemma FirstImage(p: nat, st: State, r: Root)
    requires 1 <= p && st == State(Blank(p), st.b1, ROOT_BLOCK0, 0, 0) && |st.b1| == p && Filled(st.b1, 0)
    ensures Turn(p, st) == st && LogOk(p, Put(st, r), Stamp(st, r))
  {
  }

  // ---------------------------------------------------------------- PMT_Format

  lemma MapRoom(g: Geometry)
    ensures 1 <= g.M && g.P == g.M + 1 && PMT_START_BLOCK + 5 <= g.dataLo < g.U && 1 <= g.K
    ensures g.K <= (g.dataLo - PMT_START_BLOCK - 3) * g.M
  {
  }

  /** Where PMT_Format puts cluster c. */
  function PlaceOf(g: Dims, c: nat): (l: Loc)
    ensures l.block >= PMT_START_BLOCK && (g.M >= 1 ==> l.page < g.M)
  {
    if g.M == 0 then Loc(PMT_START_BLOCK, 0) else Loc(PMT_START_BLOCK + c / g.M, c % g.M)
  }

  /** The cluster it puts on page p of block b. */
  function ClusterAt(g: Dims, b: nat, p: nat): nat {
    if b < PMT_START_BLOCK then 0 else (b - PMT_START_BLOCK) * g.M + p
  }

  lemma PlaceAt(g: Geometry, b: nat, p: nat)
    requires b >= PMT_START_BLOCK && p < g.M
    ensures PlaceOf(g, ClusterAt(g, b, p)) == Loc(b, p)
  {
    DivMod(b - PMT_START_BLOCK, g.M, p);
  }

  lemma DivMod(q: nat, m: nat, p: nat)
    requires p < m
    ensures (q * m + p) / m == q && (q * m + p) % m == p
  {
    assert (q * m + p) / m == q by {
      if (q * m + p) / m < q { MulMono((q * m + p) / m + 1, q, m); }
      if (q * m + p) / m > q { MulMono(q + 1, (q * m + p) / m, m); }
    }
  }

  lemma AtPlace(g: Geometry, c: nat)
    ensures ClusterAt(g, PlaceOf(g, c).block, PlaceOf(g, c).page) == c
  {
    hide ValidDims;
    MapRoom(g);
  }

  lemma Cancel(a: nat, b: nat, m: nat)
    requires m > 0 && a * m <= b * m
    ensures a <= b
  {
    if a > b {
      MulMono(b + 1, a, m);
    }
  }

  /** A cluster with nothing mapped. */
  function EmptyCluster(g: Geometry): seq<Entry> {
    seq(g.N, _ => Nowhere)
  }

  ghost predicate ClusterHeld(g: Geometry, blk: seq<Block>, l: Loc) {
    && l.block < |blk| && l.page < |blk[l.block]| && blk[l.block][l.page].Programmed?
    && blk[l.block][l.page].content == Cluster(EmptyCluster(g))
  }

  /** The first i clusters are written and their nodes point to them. */
  ghost predicate NodesWritten(g: Geometry, nodes: seq<Node>, blk: seq<Block>, i: nat) {
    i <= |nodes| && forall c: nat :: c < i ==> nodes[c] == OnFlash(PlaceOf(g, c)) && ClusterHeld(g, blk, PlaceOf(g, c))
  }

  /** The list of a full block names the clusters on it. */
  ghost predicate ListHeld(g: Geometry, blk: seq<Block>, b: nat) {
    && PMT_START_BLOCK <= b < |blk| && g.M < |blk[b]| && blk[b][g.M].Programmed? && blk[b][g.M].content.ClusterList?
    && |blk[b][g.M].content.clusters| == g.P
    && forall p: nat :: p < g.M ==> blk[b][g.M].content.clusters[p] == ClusterAt(g, b, p)
  }

  ghost predicate MetaHeld(g: Geometry, meta: seq<nat>, b: nat, n: nat) {
    b >= PMT_START_BLOCK && |meta| == g.P && n <= g.M && forall p: nat :: p < n ==> meta[p] == ClusterAt(g, b, p)
  }

  /** Blocks before pb are full, pb has pp pages, the rest are blank and all dirty. */
  ghost predicate MapWritten(g: Geometry, blk: seq<Block>, dirty: seq<nat>, pb: nat, pp: nat) {
    && Shaped(blk, g.U, g.P) && |dirty| >= g.U && PMT_START_BLOCK <= pb <= g.dataLo - 3 && pp <= g.M
    && (forall b: nat :: PMT_START_BLOCK <= b < pb ==> ListHeld(g, blk, b) && dirty[b] == 0)
    && Filled(blk[pb], pp)
    && (forall b: nat :: pb < b < g.dataLo ==> Filled(blk[b], 0))
    && (forall b: nat :: pb <= b < g.dataLo ==> dirty[b] == g.M)
  }

  /** There is always a block left. */
  lemma BlockLeft(g: Geometry, pb: nat, pp: nat, i: nat)
    requires PMT_START_BLOCK <= pb && pp < g.M && i == ClusterAt(g, pb, pp) && i <= g.K
    ensures pb <= g.dataLo - 3 && (i < g.K && pp + 1 == g.M ==> pb + 1 <= g.dataLo - 3)
    ensures pp + 1 == g.M ==> i + 1 == ClusterAt(g, pb + 1, 0)
    ensures pp + 1 < g.M ==> i + 1 == ClusterAt(g, pb, pp + 1)
  {
    hide ValidDims;
    MapRoom(g);
    var room := g.dataLo - PMT_START_BLOCK - 3;
    Cancel(pb - PMT_START_BLOCK, room, g.M);
    if i < g.K && pp + 1 == g.M {
      Cancel(pb + 1 - PMT_START_BLOCK, room, g.M);
    }
  }

  /** One cluster is written at (pb, pp). */
  lemma ClusterStep(g: Geometry, nodes: seq<Node>, blk: seq<Block>, i: nat, pb: nat, pp: nat, spare: Spare)
    requires NodesWritten(g, nodes, blk, i) && i < |nodes| && PlaceOf(g, i) == Loc(pb, pp)
    requires pb < |blk| && pp < |blk[pb]| && blk[pb][pp].Erased?
    ensures NodesWritten(g, nodes[i := OnFlash(Loc(pb, pp))],
                         Program(blk, pb, pp, Programmed(Cluster(EmptyCluster(g)), spare)), i + 1)
  {
    hide PlaceOf, ValidDims;
    var w := Program(blk, pb, pp, Programmed(Cluster(EmptyCluster(g)), spare));
    forall c: nat | c < i
      ensures ClusterHeld(g, w, PlaceOf(g, c))
    {
      assert ClusterHeld(g, blk, PlaceOf(g, c));
    }
  }

  lemma ListStep(g: Geometry, nodes: seq<Node>, blk: seq<Block>, i: nat, pb: nat, meta: seq<nat>)
    requires NodesWritten(g, nodes, blk, i) && pb < |blk| && g.M < |blk[pb]|
    ensures NodesWritten(g, nodes, Program(blk, pb, g.M, Programmed(ClusterList(meta), AllOnes)), i)
  {
    hide PlaceOf, ValidDims;
    var w := Program(blk, pb, g.M, Programmed(ClusterList(meta), AllOnes));
    forall c: nat | c < i
      ensures ClusterHeld(g, w, PlaceOf(g, c))
    {
      PlacePage(g, c);
      assert ClusterHeld(g, blk, PlaceOf(g, c));
    }
  }

  lemma PlacePage(g: Geometry, c: nat)
    ensures PlaceOf(g, c).page < g.M && PlaceOf(g, c).block >= PMT_START_BLOCK
  {
    MapRoom(g);
    hide ValidDims;
  }

  /** Every other block of the device, and the dirty counts outside the page map. */
  ghost predicate OutsideMap(g: Geometry, blk: seq<Block>, w: seq<Block>, dirty: seq<nat>, d: seq<nat>) {
    && |w| == |blk| && |d| == |dirty|
    && (forall b :: 0 <= b < |blk| && !InPmt(g, b) ==> w[b] == blk[b])
    && (forall b :: 0 <= b < |dirty| && !InPmt(g, b) ==> d[b] == dirty[b])
  }

  /** The cluster's page, its node and its list entry. */
  method FormatCluster(s: Ftl, i: nat, pb: nat, pp: nat)
    requires s.Sound() && s.Sized() && i < s.g.K && i == ClusterAt(s.g, pb, pp) && pp < s.g.M
    requires NodesWritten(s.g, s.root.nodes, s.ubi.blk, i) && MapWritten(s.g, s.ubi.blk, s.dirty, pb, pp) && MetaHeld(s.g, s.listed, pb, pp)
    modifies s`root, s`pmtMeta, s`listed, s.ubi.Repr
    ensures s.Sound() && s.Sized()
    ensures NodesWritten(s.g, s.root.nodes, s.ubi.blk, i + 1) && MapWritten(s.g, s.ubi.blk, s.dirty, pb, pp + 1) && MetaHeld(s.g, s.listed, pb, pp + 1)
    ensures s.root == old(s.root).(nodes := s.root.nodes)
    ensures OutsideMap(s.g, old(s.ubi.blk), s.ubi.blk, s.dirty, s.dirty)
  {
    hide NodesWritten, PlaceOf, ClusterAt, ValidDims, ListHeld, MetaHeld;
    MapRoom(s.g);
    PlaceAt(s.g, pb, pp);
    MetaStep(s.g, s.listed, pb, pp);
    ClusterStep(s.g, s.root.nodes, s.ubi.blk, i, pb, pp, Words(i, 0));
    MapStep(s.g, s.ubi.blk, s.dirty, pb, pp, Programmed(Cluster(EmptyCluster(s.g)), Words(i, 0)));
    hide MapWritten;
    s.ubi.Write(pb, pp, Cluster(EmptyCluster(s.g)), Words(i, 0));
    s.pmtMeta, s.listed := s.pmtMeta[pp := i], s.listed[pp := i];
    s.root := s.root.(nodes := s.root.nodes[i := OnFlash(Loc(pb, pp))]);
  }

  lemma MetaStep(g: Geometry, list: seq<nat>, pb: nat, pp: nat)
    requires MetaHeld(g, list, pb, pp) && pp < g.M && pp < |list|
    ensures MetaHeld(g, list[pp := ClusterAt(g, pb, pp)], pb, pp + 1)
  {
    hide ValidDims, ClusterAt;
  }

  lemma MapStep(g: Geometry, blk: seq<Block>, dirty: seq<nat>, pb: nat, pp: nat, c: Cell)
    requires MapWritten(g, blk, dirty, pb, pp) && pp < g.M && pp < g.P && pb < g.U && c.Programmed?
    ensures MapWritten(g, Program(blk, pb, pp, c), dirty, pb, pp + 1)
  {
    MapRoom(g);
    hide ValidDims, ClusterAt;
    ProgramFills(blk[pb], pp, c);
    forall b: nat | PMT_START_BLOCK <= b < pb
      ensures ListHeld(g, Program(blk, pb, pp, c), b)
    {
      assert ListHeld(g, blk, b);
    }
  }

  /** The list page of a full block. */
  method FormatList(s: Ftl, ghost i: nat, pb: nat)
    requires s.listKept
    requires s.Sound() && s.Sized() && pb + 1 <= s.g.dataLo - 3
    requires NodesWritten(s.g, s.root.nodes, s.ubi.blk, i) && MapWritten(s.g, s.ubi.blk, s.dirty, pb, s.g.M) && MetaHeld(s.g, s.listed, pb, s.g.M)
    modifies s`dirty, s.ubi.Repr
    ensures s.Sound() && s.Sized()
    ensures NodesWritten(s.g, s.root.nodes, s.ubi.blk, i) && MapWritten(s.g, s.ubi.blk, s.dirty, pb + 1, 0)
    ensures OutsideMap(s.g, old(s.ubi.blk), s.ubi.blk, old(s.dirty), s.dirty)
  {
    hide NodesWritten, PlaceOf, ClusterAt, ValidDims, ListHeld;
    MapRoom(s.g);
    ListStep(s.g, s.root.nodes, s.ubi.blk, i, pb, s.listed);
    CloseStep(s.g, s.ubi.blk, s.dirty, pb, s.listed);
    hide MetaHeld;
    s.ubi.Write(pb, s.g.P - 1, ClusterList(s.pmtMeta), AllOnes);
    s.dirty := s.dirty[pb := 0];
  }

  lemma CloseStep(g: Geometry, blk: seq<Block>, dirty: seq<nat>, pb: nat, meta: seq<nat>)
    requires MapWritten(g, blk, dirty, pb, g.M) && MetaHeld(g, meta, pb, g.M) && pb + 1 <= g.dataLo - 3 && g.dataLo < g.U && g.P == g.M + 1
    ensures 1 <= g.M && MapWritten(g, Program(blk, pb, g.M, Programmed(ClusterList(meta), AllOnes)), dirty[pb := 0], pb + 1, 0)
  {
    MapRoom(g);
    hide ValidDims, ClusterAt;
    var w := Program(blk, pb, g.M, Programmed(ClusterList(meta), AllOnes));
    ListIs(g, w, pb, meta);
    forall b: nat | PMT_START_BLOCK <= b < pb
      ensures ListHeld(g, w, b)
    {
      assert ListHeld(g, blk, b);
    }
  }

  /** PMT_Format. */
  method PmtFormat(s: Ftl)
    requires s.listKept
    requires s.Sound() && s.Sized() && MapWritten(s.g, s.ubi.blk, s.dirty, PMT_START_BLOCK, 0)
    modifies s`root, s`pmtMeta, s`listed, s`dirty, s.ubi.Repr
    ensures s.Sound() && s.Sized()
    ensures s.root == old(s.root).(nodes := s.root.nodes, pmtCurrent := s.root.pmtCurrent, pmtReclaim := s.root.pmtReclaim)
    ensures OutsideMap(s.g, old(s.ubi.blk), s.ubi.blk, old(s.dirty), s.dirty)
    ensures MapFormatted(s.g, s.root, s.ubi.blk, s.dirty, s.listed)
  {
    hide NodesWritten, MapWritten, ClusterAt, ValidDims, MetaHeld;
    MapRoom(s.g);
    var pb: nat, pp: nat, i := PMT_START_BLOCK, 0, 0;
    FormatBegins(s.g, s.root.nodes, s.ubi.blk, s.listed);
    while i < s.g.K
      invariant i <= s.g.K && i == ClusterAt(s.g, pb, pp) && pp < s.g.M && pb >= PMT_START_BLOCK
      invariant s.Sound() && s.Sized()
      invariant NodesWritten(s.g, s.root.nodes, s.ubi.blk, i) && MapWritten(s.g, s.ubi.blk, s.dirty, pb, pp)
      invariant MetaHeld(s.g, s.listed, pb, pp)
      invariant s.root == old(s.root).(nodes := s.root.nodes)
      invariant OutsideMap(s.g, old(s.ubi.blk), s.ubi.blk, old(s.dirty), s.dirty)
    {
      BlockLeft(s.g, pb, pp, i);
      FormatCluster(s, i, pb, pp);
      pp := pp + 1;
      if pp == s.g.P - 1 {
        FormatList(s, i + 1, pb);
        pb, pp := pb + 1, 0;
        NoMeta(s.g, s.listed, pb);
      }
      i := i + 1;
    }
    BlockLeft(s.g, pb, pp, i);
    s.root := s.root.(pmtCurrent := Loc(pb, pp), pmtReclaim := Loc(pb + 1, 0));
    ghost var d := s.dirty;
    DirtySize(s.g, s.ubi.blk, d, pb, pp);
    s.dirty := s.dirty[pb := 0][pb + 1 := 0];
    assert d[pb := 0][pb + 1 := 0] == s.dirty && InPmt(s.g, pb) && InPmt(s.g, pb + 1);
    assert Ends(s.g, s.root.nodes, s.ubi.blk, s.dirty, s.listed, d, pb, pp);
  }

  lemma DirtySize(g: Geometry, blk: seq<Block>, dirty: seq<nat>, pb: nat, pp: nat)
    requires MapWritten(g, blk, dirty, pb, pp)
    ensures |dirty| >= g.U
  {
    hide ValidDims;
  }

  ghost predicate Ends(g: Geometry, nodes: seq<Node>, blk: seq<Block>, dirty: seq<nat>, meta: seq<nat>, d: seq<nat>, pb: nat, pp: nat) {
    && |d| >= g.U && pb + 1 < g.U && dirty == d[pb := 0][pb + 1 := 0]
    && g.K == ClusterAt(g, pb, pp) && pp < g.M && pb >= PMT_START_BLOCK
    && NodesWritten(g, nodes, blk, g.K) && MapWritten(g, blk, d, pb, pp) && MetaHeld(g, meta, pb, pp)
  }

  /** The page map of an empty volume. */
  ghost predicate MapFormatted(g: Geometry, r: Root, blk: seq<Block>, dirty: seq<nat>, meta: seq<nat>) {
    r.pmtReclaim == Loc(r.pmtCurrent.block + 1, 0)
    && exists d :: Ends(g, r.nodes, blk, dirty, meta, d, r.pmtCurrent.block, r.pmtCurrent.page)
  }

  lemma FormatBegins(g: Geometry, nodes: seq<Node>, blk: seq<Block>, meta: seq<nat>)
    requires |meta| == g.P
    ensures NodesWritten(g, nodes, blk, 0) && MetaHeld(g, meta, PMT_START_BLOCK, 0) && 0 == ClusterAt(g, PMT_START_BLOCK, 0) && 0 < g.M
  {
    MapRoom(g);
    hide ValidDims;
  }

  lemma NoMeta(g: Geometry, meta: seq<nat>, b: nat)
    requires b >= PMT_START_BLOCK && |meta| == g.P
    ensures MetaHeld(g, meta, b, 0)
  {
    MapRoom(g);
    hide ValidDims;
  }

  lemma ListIs(g: Geometry, blk: seq<Block>, b: nat, meta: seq<nat>)
    requires PMT_START_BLOCK <= b < |blk| && g.M < |blk[b]| && blk[b][g.M] == Programmed(ClusterList(meta), AllOnes)
    requires MetaHeld(g, meta, b, g.M)
    ensures ListHeld(g, blk, b)
  {
    hide ValidDims;
  }

  // ---------------------------------------------------------------- the formatted page map is stable

  /** How many of the first n clusters are on block b. */
  lemma {:induction false} ClustersOn(g: Geometry, s: seq<int>, pb: nat, pp: nat, b: int)
    requires pb >= PMT_START_BLOCK && pp <= g.M && |s| == ClusterAt(g, pb, pp)
    requires forall c: nat :: c < |s| ==> s[c] == PlaceOf(g, c).block
    ensures multiset(s)[b] == if PMT_START_BLOCK <= b < pb then g.M else if b == pb then pp else 0
    decreases pb, pp
  {
    hide ValidDims, PlaceOf;
    if pp > 0 {
      PlaceAt(g, pb, pp - 1);
      var n := |s| - 1;
      ClustersOn(g, s[..n], pb, pp - 1, b);
      assert s == s[..n] + [s[n]];
    } else if pb > PMT_START_BLOCK {
      ClustersOn(g, s, pb - 1, g.M, b);
    } else {
      assert |s| == 0;
    }
  }

  lemma ClustersBelow(g: Geometry, b: nat, p: nat, pb: nat, pp: nat)
    requires PMT_START_BLOCK <= b <= pb && p < g.M && (b == pb ==> p < pp)
    ensures ClusterAt(g, b, p) < ClusterAt(g, pb, pp)
  {
    hide ValidDims;
    var x, y := b - PMT_START_BLOCK, pb - PMT_START_BLOCK;
    if b < pb {
      MulMono(x + 1, y, g.M);
      assert (x + 1) * g.M == x * g.M + g.M;
    }
  }

  /** Where the cluster's place is, given how many there are. */
  lemma PlaceBelow(g: Geometry, c: nat, pb: nat, pp: nat)
    requires c < ClusterAt(g, pb, pp) && pp < g.M
    ensures var l := PlaceOf(g, c); PMT_START_BLOCK <= l.block <= pb && (l.block == pb ==> l.page < pp) && l.page < g.M
  {
    hide ValidDims;
    AtPlace(g, c);
    var l := PlaceOf(g, c);
    hide PlaceOf;
    if l.block > pb {
      MulMono(pb + 1 - PMT_START_BLOCK, l.block - PMT_START_BLOCK, g.M);
    }
  }

  lemma FormattedShape(g: Geometry, r: Root, blk: seq<Block>, dirty: seq<nat>, meta: seq<nat>, d: seq<nat>)
    requires r.pmtReclaim == Loc(r.pmtCurrent.block + 1, 0) && |r.nodes| == g.K
    requires Ends(g, r.nodes, blk, dirty, meta, d, r.pmtCurrent.block, r.pmtCurrent.page)
    ensures PmtSpec.Shape(g, StoredMap(g, blk, r, dirty, meta))
    ensures Filled(blk[r.pmtCurrent.block], r.pmtCurrent.page)
  {
    hide NodesWritten, ClusterAt, ListHeld;
    assert Filled(blk[r.pmtCurrent.block + 1], 0);
  }

  lemma FormattedHome(g: Geometry, r: Root, blk: seq<Block>, dirty: seq<nat>, meta: seq<nat>, d: seq<nat>, c: nat)
    requires r.pmtReclaim == Loc(r.pmtCurrent.block + 1, 0) && |r.nodes| == g.K && c < g.K
    requires Ends(g, r.nodes, blk, dirty, meta, d, r.pmtCurrent.block, r.pmtCurrent.page)
    requires PmtSpec.Shape(g, StoredMap(g, blk, r, dirty, meta))
    ensures PmtSpec.HomeOk(g, StoredMap(g, blk, r, dirty, meta), c)
    ensures PmtSpec.ClusterOf(StoredMap(g, blk, r, dirty, meta), c) == EmptyCluster(g)
  {
    MapRoom(g);
    var l, pb := PlaceOf(g, c), r.pmtCurrent.block;
    PlaceBelow(g, c, pb, r.pmtCurrent.page);
    AtPlace(g, c);
    hide ValidDims, PlaceOf, ClusterAt;
    assert ClusterHeld(g, blk, l);
    if l.block < pb {
      assert ListHeld(g, blk, l.block);
    }
  }

  lemma FormattedLists(g: Geometry, r: Root, blk: seq<Block>, dirty: seq<nat>, meta: seq<nat>, d: seq<nat>)
    requires r.pmtReclaim == Loc(r.pmtCurrent.block + 1, 0) && |r.nodes| == g.K
    requires Ends(g, r.nodes, blk, dirty, meta, d, r.pmtCurrent.block, r.pmtCurrent.page)
    requires PmtSpec.Shape(g, StoredMap(g, blk, r, dirty, meta))
    ensures PmtSpec.ListsOk(g, StoredMap(g, blk, r, dirty, meta))
  {
    MapRoom(g);
    var pb, pp := r.pmtCurrent.block, r.pmtCurrent.page;
    hide ValidDims, PlaceOf, ClusterAt, NodesWritten;
    forall b: nat | pb < b < g.dataLo
      ensures blk[b][g.M].Erased?
    {
      assert Filled(blk[b], 0);
    }
    forall b: nat | InPmt(g, b) && b < pb
      ensures ListHeld(g, blk, b) && forall p: nat :: p < g.M ==> blk[b][g.M].content.clusters[p] < g.K
    {
      assert ListHeld(g, blk, b);
      forall p: nat | p < g.M
        ensures blk[b][g.M].content.clusters[p] < g.K
      {
        ClustersBelow(g, b, p, pb, pp);
      }
    }
    forall p: nat | p < pp
      ensures meta[p] < g.K
    {
      ClustersBelow(g, pb, p, pb, pp);
    }
  }

  lemma FormattedLive(g: Geometry, r: Root, blk: seq<Block>, dirty: seq<nat>, meta: seq<nat>, d: seq<nat>, b: int)
    requires |r.nodes| == g.K && Ends(g, r.nodes, blk, dirty, meta, d, r.pmtCurrent.block, r.pmtCurrent.page)
    ensures PmtSpec.Live(StoredMap(g, blk, r, dirty, meta), b)
         == if PMT_START_BLOCK <= b < r.pmtCurrent.block then g.M else if b == r.pmtCurrent.block then r.pmtCurrent.page else 0
  {
    hide ValidDims, PlaceOf, ClusterAt, MapWritten, MetaHeld;
    var v := StoredMap(g, blk, r, dirty, meta);
    ClustersOn(g, PmtSpec.HomeBlocks(v.nodes, v.slots), r.pmtCurrent.block, r.pmtCurrent.page, b);
  }

  /** PMT_Format leaves a stable page map in which nothing is mapped. */
  lemma FormattedIsStable(g: Geometry, r: Root, blk: seq<Block>, dirty: seq<nat>, meta: seq<nat>)
    requires MapFormatted(g, r, blk, dirty, meta) && |r.nodes| == g.K
    ensures PmtSpec.Stable(g, StoredMap(g, blk, r, dirty, meta))
    ensures forall a :: 0 <= a < g.cap ==> PageMap.MapOf(g, StoredMap(g, blk, r, dirty, meta))[a] == Nowhere
  {
    var d :| Ends(g, r.nodes, blk, dirty, meta, d, r.pmtCurrent.block, r.pmtCurrent.page);
    var v := StoredMap(g, blk, r, dirty, meta);
    FormattedShape(g, r, blk, dirty, meta, d);
    FormattedLists(g, r, blk, dirty, meta, d);
    FormattedCounts(g, r, blk, dirty, meta, d);
    NothingCached(g, r, blk, dirty, meta, d);
    hide Ends, PmtSpec.HomeOk, PmtSpec.ListsOk, PmtSpec.CountsOk, PmtSpec.Shape, PmtSpec.Live, PmtSpec.NodesOk, PmtSpec.SlotsOk, ValidDims;
    forall c | 0 <= c < g.K
      ensures PmtSpec.HomeOk(g, v, c) && PmtSpec.ClusterOf(v, c) == EmptyCluster(g)
    {
      FormattedHome(g, r, blk, dirty, meta, d, c);
    }
  }

  lemma NothingCached(g: Geometry, r: Root, blk: seq<Block>, dirty: seq<nat>, meta: seq<nat>, d: seq<nat>)
    requires |r.nodes| == g.K && Ends(g, r.nodes, blk, dirty, meta, d, r.pmtCurrent.block, r.pmtCurrent.page)
    requires PmtSpec.Shape(g, StoredMap(g, blk, r, dirty, meta))
    ensures var v := StoredMap(g, blk, r, dirty, meta); PmtSpec.NodesOk(g, v, 0) && PmtSpec.SlotsOk(g, v, 0)
    ensures r.pmtCurrent.page < g.M
  {
    hide ValidDims, PlaceOf, ClusterAt, MapWritten, MetaHeld;
  }

  lemma FormattedCounts(g: Geometry, r: Root, blk: seq<Block>, dirty: seq<nat>, meta: seq<nat>, d: seq<nat>)
    requires r.pmtReclaim == Loc(r.pmtCurrent.block + 1, 0) && |r.nodes| == g.K
    requires Ends(g, r.nodes, blk, dirty, meta, d, r.pmtCurrent.block, r.pmtCurrent.page)
    requires PmtSpec.Shape(g, StoredMap(g, blk, r, dirty, meta))
    ensures PmtSpec.CountsOk(g, StoredMap(g, blk, r, dirty, meta))
    ensures PmtSpec.Live(StoredMap(g, blk, r, dirty, meta), r.pmtReclaim.block) == 0
  {
    MapRoom(g);
    hide ValidDims, PlaceOf, ClusterAt, NodesWritten, MetaHeld, ListHeld, PmtSpec.Live;
    forall b: int
      ensures PmtSpec.Live(StoredMap(g, blk, r, dirty, meta), b)
           == if PMT_START_BLOCK <= b < r.pmtCurrent.block then g.M else if b == r.pmtCurrent.block then r.pmtCurrent.page else 0
    {
      FormattedLive(g, r, blk, dirty, meta, d, b);
    }
    var pb := r.pmtCurrent.block;
    forall b: nat | InPmt(g, b) && b != pb && b != pb + 1
      ensures dirty[b] == if b < pb then 0 else g.M
    {
      assert dirty[b] == d[b];
    }
  }
}
