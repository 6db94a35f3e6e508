/** The NAND device of mtd_nand_sim.c and the fault injection of mtd_api.c: program only an
    erased page, erase a whole block, reading an erased page fails.  Power may fail before any
    program or erase, and an operation may report a bad block. */
module Nand {
  import opened Flash

  datatype Status = Success | BadBlock | TooManyBadBlocks | Failure | PowerLoss

  /** The steps left before power fails, once n more were taken. */
  function Spent(power: Option<nat>, n: nat): Option<nat> {
    if power.Some? then Some(if power.value >= n then power.value - n else 0) else None
  }

  /** An entry of the free block table. */
  datatype FreeSlot = Free(block: nat, ec: nat) | Vacant

  /** An entry of an area table: the physical block of a logical block, and its erase count. */
  datatype AreaEntry = AreaEntry(block: nat, ec: nat)

  /** The update an index table announces for an area table. */
  datatype Plr = NoPlr | Plr(logical: nat, entry: AreaEntry)

  datatype IndexTable = IndexTable(
    areaBlock: seq<nat>,
    areaEc: seq<nat>,
    free: seq<FreeSlot>,
    plr: Plr
  )

  datatype AnchorTable = AnchorTable(
    newBlock: nat,
    newEc: nat,
    oldBlock: Option<nat>,
    oldEc: nat,
    previous: Option<nat>,
    bad: seq<nat>
  )

  /** A physical page. */
  datatype Page =
    | Clear
    | Index(index: IndexTable)
    | Area(entries: seq<AreaEntry>)
    | Anchor(anchor: AnchorTable)
    | Payload(content: Content, spare: Spare)

  type PhysBlock = seq<Page>

  /** The programmed pages of the block are exactly its first n. */
  ghost predicate Prefix(b: PhysBlock, n: nat) {
    && n <= |b|
    && (forall i :: 0 <= i < n ==> !b[i].Clear?)
    && (forall i :: n <= i < |b| ==> b[i].Clear?)
  }

  function ClearBlock(p: nat): (b: PhysBlock)
    ensures |b| == p && forall i :: 0 <= i < p ==> b[i].Clear?
  {
    seq(p, _ => Clear)
  }

  ghost predicate ShapedCells(cells: seq<PhysBlock>, t: nat, p: nat) {
    |cells| == t && forall b :: 0 <= b < t ==> |cells[b]| == p
  }

  class Nand {
    const blocks: nat
    const pages: nat
    var cells: seq<PhysBlock>

    /** Steps left before power fails; None when it does not. */
    var power: Option<nat>

    /** How many more operations may report a bad block. */
    var faults: nat

    ghost predicate Valid()
      reads this
    {
      ShapedCells(cells, blocks, pages)
    }

    constructor (blocks: nat, pages: nat)
      ensures Valid() && this.blocks == blocks && this.pages == pages
      ensures cells == seq(blocks, _ => ClearBlock(pages)) && power == None && faults == 0
    {
      this.blocks, this.pages := blocks, pages;
      cells := seq(blocks, _ => ClearBlock(pages));
      power, faults := None, 0;
    }

    /** Power comes back; what was on the device stays. */
    method PowerOn(power: Option<nat>)
      requires Valid()
      modifies this`power
      ensures Valid() && this.power == power
    {
      this.power := power;
    }

    /** MTD_Read: an erased page cannot be read. */
    method Read(b: nat, p: nat) returns (st: Status, c: Page)
      requires Valid() && b < blocks && p < pages
      ensures c == cells[b][p] && st == if c.Clear? then Failure else Success
    {
      c := cells[b][p];
      st := if c.Clear? then Failure else Success;
    }

    /** MTD_Program and the status read after it. */
    method Program(b: nat, p: nat, c: Page) returns (st: Status)
      requires Valid() && b < blocks && p < pages && cells[b][p].Clear? && !c.Clear?
      modifies this
      ensures Valid()
      ensures if old(power) == Some(0)
              then st == PowerLoss && cells == old(cells) && power == Some(0) && faults == old(faults)
              else cells == old(cells)[b := old(cells)[b][p := c]]
                   && power == (if old(power).Some? then Some(old(power).value - 1) else None)
                   && (st == Success || st == BadBlock)
      ensures st == Success ==> faults == old(faults)
      ensures st == BadBlock ==> old(faults) == faults + 1
    {
      if power == Some(0) {
        return PowerLoss;
      }
      power := if power.Some? then Some(power.value - 1) else None;
      cells := cells[b := cells[b][p := c]];
      st := Success;
      if faults > 0 {
        if * {
          faults := faults - 1;
          st := BadBlock;
        }
      }
    }

    /** MTD_Erase: every page of the block reads as erased. */
    method Erase(b: nat) returns (st: Status)
      requires Valid() && b < blocks
      modifies this
      ensures Valid()
      ensures if old(power) == Some(0)
              then st == PowerLoss && cells == old(cells) && power == Some(0) && faults == old(faults)
              else cells == old(cells)[b := ClearBlock(pages)]
                   && power == (if old(power).Some? then Some(old(power).value - 1) else None)
                   && (st == Success || st == BadBlock)
      ensures st == Success ==> faults == old(faults)
      ensures st == BadBlock ==> old(faults) == faults + 1
    {
      if power == Some(0) {
        return PowerLoss;
      }
      power := if power.Some? then Some(power.value - 1) else None;
      cells := cells[b := ClearBlock(pages)];
      st := Success;
      if faults > 0 {
        if * {
          faults := faults - 1;
          st := BadBlock;
        }
      }
    }
  }
}
