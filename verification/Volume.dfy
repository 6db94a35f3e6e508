/** A volume from FTL_Format on: format, mount, and any run of operations. */
module Volume {
  import opened Geometry
  import opened Flash
  import opened Counting
  import RS = ReplaySpec
  import L = Lanes
  import D = DataSpec
  import PmtSpec
  import PageMap
  import opened FtlState
  import RootSpec
  import Logs
  import opened Replay
  import opened ReplayData
  import opened Format
  import opened FtlApi
  import opened Recovery
  import FtlRuns

  /** The journals of an empty volume. */
  ghost predicate FreshJournals(g: Geometry, js: seq<Loc>) {
    |js| == 3 * g.J && forall k :: 0 <= k < 3 * g.J ==> js[k] == Loc(g.dataLo + k, 0)
  }

  /** The data region of an empty volume. */
  ghost predicate FreshData(g: Geometry, v: D.View) {
    && FreshJournals(g, v.js) && |v.metas| == 2 * g.J && (forall r :: 0 <= r < 2 * g.J ==> |v.metas[r]| == g.P)
    && |v.pm| == g.cap && (forall a :: 0 <= a < g.cap ==> v.pm[a] == Nowhere)
    && |v.dirty| == g.U && (forall b :: InData(g, b) ==> v.dirty[b] == if b < g.dataLo + 3 * g.J then 0 else g.M)
    && |v.blk| == g.U && forall b :: 0 <= b < g.U ==> v.blk[b] == Blank(g.P)
  }

  lemma FreshShape(g: Geometry, v: D.View)
    requires FreshData(g, v)
    ensures D.Shape(g, v) && D.JournalsOk(g, v) && D.Settled(g, v)
    ensures D.UserPagesOk(g, v) && D.ListsOk(g, v) && D.RowsOk(g, v) && D.MapOk(g, v)
  {
    forall k: nat | k < 3 * g.J
      ensures D.JournalOk(g, v, k)
    {
      assert v.js[k] == Loc(g.dataLo + k, 0);
    }
  }

  lemma FreshCounts(g: Geometry, v: D.View)
    requires FreshData(g, v) && D.Shape(g, v) && D.JournalsOk(g, v)
    ensures D.CountsOk(g, v)
  {
    forall b: nat | b < g.U
      ensures D.Mapped(v, b) == 0
    {
      CountPositive(D.MapBlocks(v.pm), b);
    }
    hide D.Mapped;
    forall b | InData(g, b) && b < g.dataLo + 3 * g.J
      ensures D.OnJournal(v.js, b)
    {
      assert v.js[b - g.dataLo].block == b;
    }
  }

  lemma FreshInv(g: Geometry, v: D.View)
    requires FreshData(g, v)
    ensures D.Inv(g, v) && D.Settled(g, v)
  {
    FreshShape(g, v);
    FreshCounts(g, v);
    hide D.JournalsOk, D.UserPagesOk, D.ListsOk, D.RowsOk, D.MapOk, D.CountsOk, D.Settled;
  }

  /** Nothing is pending on the journals of an empty volume. */
  lemma FreshPending(g: Geometry, v: D.View, o: nat)
    requires FreshData(g, v) && L.Offset(g, o)
    ensures Pending(g, v, o, [], false, FlashOf(g, v, o))
  {
    FreshInv(g, v);
    FreshLanes(g, v, o);
    RS.StaysListedFirst(g.M, L.LanesOf(g, v, o), [], false);
    hide D.Inv, D.Settled, RS.LanesOk, RS.AllTidy, FlashOf, L.LanesOf, RS.Open, RS.ListedFirst;
  }

  lemma FreshLanes(g: Geometry, v: D.View, o: nat)
    requires FreshData(g, v) && L.Offset(g, o) && D.Inv(g, v) && D.Settled(g, v)
    ensures var xs := L.LanesOf(g, v, o);
            && |xs| == g.J && RS.LanesOk(g.M, xs) && RS.AllTidy(g.M, xs) && RS.FullFirst(g.M, xs) && RS.Open(g.M, xs) < g.J
            && RS.HeldBy(g.M, xs, [], false, FlashOf(g, v, o))
  {
    hide D.UserPagesOk, D.RowsOk, D.MapOk, D.CountsOk, D.JournalOk;
    L.LanesTidy(g, v, o);
    hide D.JournalsOk, D.ListsOk, D.Settled, RS.AllTidy;
    var xs, fs := L.LanesOf(g, v, o), FlashOf(g, v, o);
    forall j: nat | j < g.J
      ensures xs[j].at.page == 0 && fs[j] == xs[j].block
    {
      var k := o + j;
      assert v.js[k] == Loc(g.dataLo + k, 0);
      assert xs[j] == L.LaneAt(v, k) && fs[j] == BlockAt(v, k);
    }
  }

  // ---------------------------------------------------------------- FTL_Format

  /** The device FTL_Format leaves. */
  ghost predicate Formatted(s: Ftl)
    reads s, s.ubi
  {
    && |s.root.nodes| == s.g.K && Logs.Stored(s.g, s.ubi.blk, s.root, s.dirty, s.listed)
    && FreshJournals(s.g, s.root.hot + s.root.cold + s.root.reclaim)
    && |s.root.hot| == s.g.J && |s.root.cold| == s.g.J && |s.root.reclaim| == s.g.J
    && (forall a :: 0 <= a < s.g.cap ==>
          PageMap.MapOf(s.g, Logs.StoredMap(s.g, s.ubi.blk, s.root, s.dirty, s.listed))[a] == Nowhere)
    && (forall b :: InData(s.g, b) ==> DataDirty(s.g, s.dirty)[b] == if b < s.g.dataLo + 3 * s.g.J then 0 else s.g.M)
    && (forall b :: 0 <= b < s.g.U ==> DataBlocks(s.g, s.ubi.blk)[b] == Blank(s.g.P))
  }

  lemma MapStarts(g: Geometry, blk: seq<Block>, dirty: seq<nat>, blk0: seq<Block>)
    requires AllBlank(g, blk0) && JournalsClean(g, dirty, 3 * g.J) && Shaped(blk, g.U, g.P)
    requires forall b :: 0 <= b < g.U && b != 4 && b != 5 ==> blk[b] == blk0[b]
    ensures MapWritten(g, blk, dirty, PMT_START_BLOCK, 0)
  {
    MapRoom(g);
    hide ValidDims;
  }

  /** The logs written after PMT_Format leave the page map alone. */
  lemma MapKept(g: Geometry, r2: Root, blk2: seq<Block>, r: Root, blk: seq<Block>, dirty: seq<nat>, meta: seq<nat>)
    requires MapFormatted(g, r2, blk2, dirty, meta) && |r2.nodes| == g.K && Shaped(blk, g.U, g.P) && |blk2| == g.U
    requires r == r2.(bdt := r.bdt, self := r.self, edition := r.edition)
    requires forall b :: PMT_START_BLOCK <= b < g.U ==> blk[b] == blk2[b]
    ensures PmtSpec.Stable(g, Logs.StoredMap(g, blk, r, dirty, meta))
    ensures forall a :: 0 <= a < g.cap ==> PageMap.MapOf(g, Logs.StoredMap(g, blk, r, dirty, meta))[a] == Nowhere
  {
    hide MapFormatted, PmtSpec.Stable, PmtSpec.SameMap;
    FormattedIsStable(g, r2, blk2, dirty, meta);
    var v, w := Logs.StoredMap(g, blk2, r2, dirty, meta), Logs.StoredMap(g, blk, r, dirty, meta);
    MapRoom(g);
    hide ValidDims;
    PmtSpec.StableDepends(g, v, w);
    PageMap.SameMapOf(g, v, w);
  }

  /** What FTL_Format does to the blocks, log by log. */
  ghost predicate BlocksWritten(g: Geometry, blk0: seq<Block>, blk1: seq<Block>, blk2: seq<Block>, blk3: seq<Block>, blk: seq<Block>) {
    && |blk0| == |blk1| == |blk2| == |blk3| == |blk| == g.U && PMT_START_BLOCK < g.dataLo < g.U
    && (forall b :: 0 <= b < g.U && b != 4 && b != 5 ==> blk1[b] == blk0[b])
    && (forall b :: 0 <= b < g.U && !InPmt(g, b) ==> blk2[b] == blk1[b])
    && (forall b :: 2 <= b < g.U ==> blk3[b] == blk2[b])
    && (forall b :: 0 <= b < g.U && b != 2 && b != 3 ==> blk[b] == blk3[b])
  }

  lemma DataKept(g: Geometry, blk0: seq<Block>, blk1: seq<Block>, blk2: seq<Block>, blk3: seq<Block>, blk: seq<Block>, dirty0: seq<nat>, dirty: seq<nat>)
    requires BlocksWritten(g, blk0, blk1, blk2, blk3, blk) && AllBlank(g, blk0) && JournalsClean(g, dirty0, 3 * g.J)
    requires |dirty| == |dirty0| && forall b :: 0 <= b < |dirty| && !InPmt(g, b) ==> dirty[b] == dirty0[b]
    ensures forall b :: InData(g, b) ==> DataDirty(g, dirty)[b] == if b < g.dataLo + 3 * g.J then 0 else g.M
    ensures forall b :: 0 <= b < g.U ==> DataBlocks(g, blk)[b] == Blank(g.P)
    ensures forall b :: PMT_START_BLOCK <= b < g.U ==> blk[b] == blk2[b]
  {
    hide ValidDims;
  }

  lemma LogsKept(g: Geometry, blk0: seq<Block>, blk1: seq<Block>, blk2: seq<Block>, blk3: seq<Block>, blk: seq<Block>, hdi: Loc, bdt: Loc, dirty: seq<nat>)
    requires BlocksWritten(g, blk0, blk1, blk2, blk3, blk)
    requires Logs.HdiStored(g, blk1, hdi, 1) && Logs.BdtStored(g, blk3, bdt, dirty)
    ensures Logs.HdiStored(g, blk, hdi, 1) && Logs.BdtStored(g, blk, bdt, dirty)
  {
    hide ValidDims;
    Logs.BdtDepends(g, blk3, blk, bdt, dirty);
    hide Logs.TableAt, Logs.BdtStored;
    assert blk[hdi.block] == blk1[hdi.block];
  }

  /** FTL_Format after UBI_Format and UBI_Init: DATA, HDI, PMT, BDT and ROOT in turn. */
  method FtlFormat(s: Ftl, logBlocks: nat)
    requires s.listKept
    requires s.Sound() && s.Sized() && AllBlank(s.g, s.ubi.blk) && s.g.U <= logBlocks <= |s.dirty|
    modifies s, s.ubi.Repr
    ensures s.Sound() && s.Sized() && Formatted(s)
  {
    hide ValidDims, MapFormatted, MapWritten, Logs.BdtStored, Logs.HdiStored, AllBlank, JournalsClean, Cleared;
    hide Logs.RootStored, PmtSpec.Stable, PageMap.MapOf, Logs.StoredMap;
    MapRoom(s.g);
    ghost var blank := s.ubi.blk;
    DataFormat(s, logBlocks);
    ghost var blk0, dirty0 := s.ubi.blk, s.dirty;
    StillBlank(s.g, blank, blk0, s.g.dataLo, 3 * s.g.J);
    FreshSets(s.g, s.root);
    BlankRoot(s.g, blk0);
    HdiFormat(s);
    ghost var blk1 := s.ubi.blk;
    MapStarts(s.g, blk1, s.dirty, blk0);
    PmtFormat(s);
    ghost var blk2, r2 := s.ubi.blk, s.root;
    BdtFormat(s);
    ghost var blk3 := s.ubi.blk;
    RootFormat(s);
    assert BlocksWritten(s.g, blk0, blk1, blk2, blk3, s.ubi.blk);
    DataKept(s.g, blk0, blk1, blk2, blk3, s.ubi.blk, dirty0, s.dirty);
    LogsKept(s.g, blk0, blk1, blk2, blk3, s.ubi.blk, s.root.hdi, s.root.bdt, s.dirty);
    MapKept(s.g, r2, blk2, s.root, s.ubi.blk, s.dirty, s.listed);
  }

  lemma BlankRoot(g: Geometry, blk: seq<Block>)
    requires AllBlank(g, blk) && g.U > 5
    ensures |blk| == g.U && Filled(blk[3], 0)
  {
  }

  lemma FreshSets(g: Geometry, r: Root)
    requires StartsAt(r.hot, g.dataLo, g.J) && StartsAt(r.cold, g.dataLo + g.J, g.J) && StartsAt(r.reclaim, g.dataLo + 2 * g.J, g.J)
    requires |r.hot| == g.J && |r.cold| == g.J && |r.reclaim| == g.J
    ensures FreshJournals(g, r.hot + r.cold + r.reclaim)
  {
    hide ValidDims;
  }

  // ---------------------------------------------------------------- FTL_Format, then FTL_Init

  /** The data region of a formatted device. */
  ghost function FreshView(s: Ftl): D.View
    requires |s.root.nodes| == s.g.K
    reads s, s.ubi
  {
    D.View(s.root.hot + s.root.cold + s.root.reclaim, seq(2 * s.g.J, _ => seq(s.g.P, _ => AllOnes)),
           PageMap.MapOf(s.g, Logs.StoredMap(s.g, s.ubi.blk, s.root, s.dirty, s.listed)),
           DataDirty(s.g, s.dirty), DataBlocks(s.g, s.ubi.blk))
  }

  /** A formatted device is one whose session had no write. */
  lemma FormattedIsInterrupted(s: Ftl)
    requires Formatted(s)
    ensures Interrupted(s.g, s.ubi.blk, s.root, s.dirty, s.listed, Session(FreshView(s), [], [], false, false))
    ensures FreshData(s.g, FreshView(s)) && FreshView(s).blk == DataBlocks(s.g, s.ubi.blk)
  {
    hide Logs.Stored, PageMap.MapOf, Pending, DataBlocks, DataDirty;
    var v := FreshView(s);
    assert v.(blk := DataBlocks(s.g, s.ubi.blk)) == v;
    FreshPending(s.g, v, 0);
    FreshPending(s.g, v, s.g.J);
  }

  lemma NothingToRecover(g: Geometry, v: D.View, a: nat, zero: PageData)
    requires FreshData(g, v) && a < g.cap
    ensures |RecoveredMap(g, Session(v, [], [], false, false))| == g.cap
    ensures RecoveredPages(g, Session(v, [], [], false, false), v.blk, zero)[a] == zero
  {
    FreshInv(g, v);
    hide D.UserPagesOk, D.ListsOk, D.RowsOk, D.MapOk, D.CountsOk, D.Settled;
    L.LanesFit(g, v, 0);
    L.LanesFit(g, v, g.J);
    hide L.LanesOf, RS.LanesOk;
    RS.NothingRecovered(g.M, L.LanesOf(g, v, 0), L.LanesOf(g, v, g.J), v.pm);
  }

  /** FTL_Format followed by FTL_Init: a valid FTL over a volume of zeros. */
  method FormatAndInit(s: Ftl, logBlocks: nat)
    requires s.listKept
    requires s.Sound() && s.Sized() && AllBlank(s.g, s.ubi.blk) && s.g.U <= logBlocks <= |s.dirty|
    modifies s, s.ubi.Repr
    ensures Valid(s) && |s.Pages()| == s.g.cap && forall a :: 0 <= a < s.g.cap ==> s.Pages()[a] == ZeroPage(s.g)
  {
    hide Valid, Formatted, FreshData, FreshView, Interrupted, RecoveredMap, RecoveredPages, AllBlank;
    FtlFormat(s, logBlocks);
    FormattedNodes(s);
    FormattedIsInterrupted(s);
    ghost var v := FreshView(s);
    FtlInit(s, s.root, s.dirty, Session(v, [], [], false, false), {});
    PagesSize(s);
    forall a: nat | a < s.g.cap
      ensures s.Pages()[a] == ZeroPage(s.g)
    {
      NothingToRecover(s.g, v, a, ZeroPage(s.g));
    }
  }

  lemma FormattedNodes(s: Ftl)
    requires Formatted(s)
    ensures |s.root.nodes| == s.g.K
  {
  }

  /** A volume of zeros. */
  function ZeroVolume(g: Geometry): (r: seq<PageData>)
    ensures |r| == g.cap && forall a :: 0 <= a < g.cap ==> r[a] == ZeroPage(g)
  {
    seq(g.cap, _ => ZeroPage(g))
  }

  /** Every run from FTL_Format on: whatever the hot-data heuristic answers and whatever is
      cached, committed and reclaimed on the way, a read returns the last page written to its
      address, or zeros if there is none since it was last trimmed. */
  method FormatAndRun(s: Ftl, logBlocks: nat, ops: seq<FtlRuns.Op>, hot: nat -> nat -> bool) returns (outs: seq<Option<PageData>>)
    requires s.listKept
    requires s.Sound() && s.Sized() && AllBlank(s.g, s.ubi.blk) && s.g.U <= logBlocks <= |s.dirty|
    requires forall i :: 0 <= i < |ops| ==> FtlRuns.InVolume(s.g.cap, ops[i])
    modifies s, s.ubi.Repr
    ensures Valid(s) && FtlRuns.Holds(s.Pages(), ops, |ops|, ZeroVolume(s.g), ZeroPage(s.g))
    ensures FtlRuns.Answers(outs, ops, |ops|, ZeroVolume(s.g), ZeroPage(s.g))
  {
    hide Valid, Formatted, AllBlank, FtlRuns.Holds, FtlRuns.Answers;
    FormatAndInit(s, logBlocks);
    assert s.Pages() == ZeroVolume(s.g);
    outs := FtlRuns.Run(s, ops, hot);
  }
}
