/** The RAM state of the FTL: root_table and the statics of ftl_root.c, ftl_bdt.c, ftl_hdi.c,
    ftl_pmt.c and ftl_data.c, over the logical blocks of UBI. */
module FtlState {
  import opened Geometry
  import opened Flash
  import PmtSpec
  import DataSpec
  import PageMap
  import U = Ubi

  /** The positions of the three ping-pong logs. */
  datatype LogView = LogView(rootBlock: nat, rootPage: nat, rootEdition: nat,
                       bdtBlock: nat, bdtPage: nat, hdiBlock: nat, hdiPage: nat)

  /** What the data journals keep in RAM. */
  datatype JournalView = JournalView(hot: seq<Loc>, cold: seq<Loc>, reclaim: seq<Loc>,
                               hotMeta: seq<seq<Spare>>, coldMeta: seq<seq<Spare>>)

  /** The data region alone: everything else reads as blank, with no dirty page. */
  function DataBlocks(g: Geometry, blk: seq<Block>): (r: seq<Block>)
    ensures |r| == g.U
    ensures forall b :: 0 <= b < g.U ==> r[b] == if InData(g, b) && b < |blk| then blk[b] else Blank(g.P)
  {
    seq(g.U, b requires 0 <= b < g.U => if InData(g, b) && b < |blk| then blk[b] else Blank(g.P))
  }

  function DataDirty(g: Geometry, dirty: seq<nat>): (r: seq<nat>)
    ensures |r| == g.U
    ensures forall b :: 0 <= b < g.U ==> r[b] == if InData(g, b) && b < |dirty| then dirty[b] else 0
  {
    seq(g.U, b requires 0 <= b < g.U => if InData(g, b) && b < |dirty| then dirty[b] else 0)
  }

  /** `meta_data` of ftl_pmt.c at power-on. */
  function ZeroList(g: Geometry): (r: seq<nat>)
    ensures |r| == g.P && forall i :: 0 <= i < g.P ==> r[i] == 0
  {
    seq(g.P, _ => 0)
  }

  /** A page of zero bytes. */
  function ZeroPage(g: Geometry): PageData {
    seq(g.pageBytes / 512, _ => seq(512, _ => 0 as bv8))
  }

  class Ftl {
    const g: Geometry
    const ubi: U.Ubi

    var root: Root

    // ftl_root.c
    var rootBlock: nat
    var rootPage: nat
    var rootEdition: nat

    // ftl_bdt.c
    var bdtBlock: nat
    var bdtPage: nat
    var dirty: seq<nat>

    // ftl_hdi.c
    var hdiBlock: nat
    var hdiPage: nat

    // ftl_pmt.c: the cached clusters, and the list of the block being filled
    var slots: seq<PmtSpec.Slot>
    var pmtMeta: seq<nat>

    /** The list that block ought to have, and whether `pmtMeta` is that list.  It is lost with
        the power, and nothing rebuilds it. */
    ghost var listed: seq<nat>
    ghost const listKept: bool

    // ftl_data.c
    var hotMeta: seq<seq<Spare>>
    var coldMeta: seq<seq<Spare>>
    var hotEdition: nat
    var coldEdition: nat

    /** Power-on: the statics have their sizes and hold nothing of use yet.  `listed` is the list
        of the page-map block that was being filled, and `listKept` says that zeros will do for it. */
    constructor (g: Geometry, ubi: U.Ubi, ghost listed: seq<nat>, ghost listKept: bool)
      requires |listed| == g.P && (listKept ==> listed == ZeroList(g))
      ensures this.g == g && this.ubi == ubi && Sized() && this.listed == listed && this.listKept == listKept && pmtMeta == ZeroList(g)
      ensures ListOk()
    {
      this.g, this.ubi, this.listed, this.listKept := g, ubi, listed, listKept;
      var nowhere := Loc(0, 0);
      root := Root(seq(g.J, _ => nowhere), seq(g.J, _ => nowhere), seq(g.J, _ => nowhere),
                   nowhere, nowhere, nowhere, nowhere, nowhere, 0, seq(g.K, _ => OnFlash(nowhere)));
      dirty := seq(g.bdtPages * g.pageBytes, _ => 0);
      slots := seq(g.C, _ => PmtSpec.EMPTY_SLOT);
      pmtMeta := ZeroList(g);
      hotMeta, coldMeta := seq(g.J, _ => seq(g.P, _ => AllOnes)), seq(g.J, _ => seq(g.P, _ => AllOnes));
    }

    /** The sizes of the static arrays. */
    ghost predicate Sized()
      reads this
    {
      && |root.hot| == g.J && |root.cold| == g.J && |root.reclaim| == g.J && |root.nodes| == g.K
      && |dirty| == g.bdtPages * g.pageBytes && |pmtMeta| == g.P && |slots| == g.C
      && |hotMeta| == g.J && |coldMeta| == g.J
      && (forall j :: 0 <= j < g.J ==> |hotMeta[j]| == g.P && |coldMeta[j]| == g.P)
    }

    ghost predicate ListOk()
      reads this
    {
      |pmtMeta| == |listed| && (listKept ==> pmtMeta == listed)
    }

    /** The device below is in order and this object is no part of it. */
    ghost predicate Sound()
      reads this, ubi, ubi.Repr
    {
      && this !in ubi.Repr && ubi in ubi.Repr && ListOk()
      && ubi.Valid() && ubi.blocks == g.U && ubi.pages == g.P
    }

    ghost function Pmt(): PmtSpec.View
      reads this, ubi
    {
      PmtSpec.View(root.nodes, slots, root.pmtCurrent, root.pmtReclaim.block, listed, dirty, ubi.blk)
    }

    /** The address map. */
    ghost function Map(): seq<Entry>
      reads this, ubi
    {
      if |root.nodes| == g.K then PageMap.MapOf(g, Pmt()) else []
    }

    ghost function Data(): (v: DataSpec.View)
      reads this, ubi
      ensures v.pm == Map()
      ensures |v.dirty| == g.U && |v.blk| == g.U
      ensures |v.js| == |root.hot| + |root.cold| + |root.reclaim| && |v.metas| == |hotMeta| + |coldMeta|
    {
      DataSpec.View(root.hot + root.cold + root.reclaim, hotMeta + coldMeta, Map(),
                    DataDirty(g, dirty), DataBlocks(g, ubi.blk))
    }

    /** The volume: one page for every logical page address. */
    ghost function Pages(): seq<PageData>
      reads this, ubi
    {
      DataSpec.PagesOf(Data(), ZeroPage(g))
    }

    ghost function Logs(): LogView
      reads this
    {
      LogView(rootBlock, rootPage, rootEdition, bdtBlock, bdtPage, hdiBlock, hdiPage)
    }

    ghost function Journals(): JournalView
      reads this
    {
      JournalView(root.hot, root.cold, root.reclaim, hotMeta, coldMeta)
    }
  }
}
