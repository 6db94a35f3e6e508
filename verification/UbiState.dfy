/** The block layer's RAM state: index_table and the statics of ubi_index.c, ubi_area.c and
    ubi_anchor.c, over the NAND device. */
module UbiState {
  import opened Flash
  import opened Nand
  import opened UbiSpec

  class Ubi {
    const g: Device
    const nand: Nand

    /** index_table.free_block_table and free_block_ect. */
    const free: array<FreeSlot>

    // the rest of index_table
    var areaBlock: seq<nat>
    var areaEc: seq<nat>
    var plr: Plr

    // ubi_index.c
    var holder: nat
    var holderEc: nat
    var next: nat
    var updating: bool

    // ubi_area.c
    var offset: seq<Option<nat>>
    var cached: seq<AreaEntry>
    var cachedArea: Option<nat>

    // ubi_anchor.c
    var anc: AnchorTable
    var ancBlock: nat
    var ancNext: nat

    /** Power-on: the statics have their sizes and hold nothing of use yet. */
    constructor (g: Device, nand: Nand)
      requires nand.Valid() && nand.blocks == g.T && nand.pages == g.P
      ensures this.g == g && this.nand == nand && fresh(free) && Sound() && Sized()
      ensures anc.bad == []
    {
      this.g, this.nand := g, nand;
      free := new FreeSlot[g.F](_ => Vacant);
      areaBlock, areaEc, plr := seq(g.A, _ => 0), seq(g.A, _ => 0), NoPlr;
      offset, cached, cachedArea := seq(g.A, _ => None), seq(g.R, _ => AreaEntry(0, 0)), None;
      anc := AnchorTable(0, 0, None, 0, None, []);
    }

    /** The sizes of the static arrays. */
    ghost predicate Sized()
      reads this
    {
      |areaBlock| == g.A && |areaEc| == g.A && |offset| == g.A && |cached| == g.R
    }

    ghost predicate Sound()
      reads this, nand
    {
      nand.Valid() && nand.blocks == g.T && nand.pages == g.P && free.Length == g.F
    }

    function Index(): IndexTable
      reads this, free
    {
      IndexTable(areaBlock, areaEc, free[..], plr)
    }

    ghost function Tables(): Ram
      reads this, free
    {
      Ram(Index(), holder, holderEc, next, offset, cached, cachedArea, anc, ancBlock, ancNext, updating)
    }
  }
}
