/** What the flash holds: pages and their spare words, and the tables kept in RAM that are
    written to it as page images. */
module Flash {

  /** A block and a page in it: the decoded form of a PM_NODE word. */
  datatype Loc = Loc(block: nat, page: nat)

  /** A page-map entry; `Nowhere` is INVALID_PM_NODE. */
  datatype Entry = Nowhere | At(loc: Loc)

  /** A first-level page-map node: the place of the cluster's page on flash, or a RAM
      pointer to the cache slot that holds it, with the dirty bit. */
  datatype Node = OnFlash(loc: Loc) | Cached(slot: nat, dirty: bool)

  /** The two spare words of a page; a page programmed without spare data reads all ones. */
  datatype Spare = AllOnes | Words(addr: nat, edition: nat)

  datatype Option<+T> = None | Some(value: T)

  type Sector = seq<bv8>
  type PageData = seq<Sector>

  /** ROOT of ftl_inc.h. */
  datatype Root = Root(
    hot: seq<Loc>,
    cold: seq<Loc>,
    reclaim: seq<Loc>,
    pmtCurrent: Loc,
    pmtReclaim: Loc,
    hdi: Loc,
    bdt: Loc,
    self: Loc,
    edition: nat,
    nodes: seq<Node>
  )

  datatype Content =
    | UserPage(data: PageData)
    | Cluster(entries: seq<Entry>)       // a second-level page-map page
    | DataList(spares: seq<Spare>)       // last page of a data block
    | ClusterList(clusters: seq<nat>)    // last page of a page-map block
    | DirtyCounts(counts: seq<nat>)      // a page of the block dirty table
    | HotTable
    | RootImage(root: Root)

  datatype Cell = Erased | Programmed(content: Content, spare: Spare)

  type Block = seq<Cell>

  /** The written pages of the block are exactly its first n. */
  predicate Filled(b: Block, n: nat) {
    && n <= |b|
    && (forall i :: 0 <= i < n ==> b[i].Programmed?)
    && (forall i :: n <= i < |b| ==> b[i].Erased?)
  }

  function Blank(pages: nat): (b: Block)
    ensures |b| == pages && Filled(b, 0)
  {
    seq(pages, _ => Erased)
  }

  /** The device after page p of block b has been programmed. */
  function Program(blk: seq<Block>, b: nat, p: nat, c: Cell): seq<Block>
    requires b < |blk| && p < |blk[b]|
  {
    blk[b := blk[b][p := c]]
  }

  lemma ProgramFills(b: Block, n: nat, c: Cell)
    requires Filled(b, n) && n < |b| && c.Programmed?
    ensures Filled(b[n := c], n + 1)
  {
  }

  /** The volume has U blocks of P pages each. */
  predicate Shaped(blk: seq<Block>, u: nat, p: nat) {
    |blk| == u && forall b :: 0 <= b < u ==> |blk[b]| == p
  }
}
