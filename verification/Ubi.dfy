/** ubi_api.c seen from above: an array of erasable logical blocks. */
module Ubi {
  import opened Flash
  import N = Nand
  import UbiSpec
  import UbiFlash
  import UbiState
  import UbiCommit
  import UbiErase
  import UbiMount
  import UbiWrite

  /** A physical page read as a page of a logical block. */
  function CellOf(p: N.Page): Cell {
    if p.Payload? then Programmed(p.content, p.spare) else Erased
  }

  function BlockOf(b: N.PhysBlock): (r: Block)
    ensures |r| == |b| && forall i :: 0 <= i < |b| ==> r[i] == CellOf(b[i])
  {
    seq(|b|, i requires 0 <= i < |b| => CellOf(b[i]))
  }

  /** Only written pages of logical blocks, or erased ones. */
  ghost predicate Plain(b: N.PhysBlock) {
    forall i :: 0 <= i < |b| ==> b[i].Clear? || b[i].Payload?
  }

  /** Each logical block is what its physical block holds. */
  ghost predicate Shows(cells: seq<N.PhysBlock>, mapped: seq<N.AreaEntry>, blk: seq<Block>) {
    && |mapped| == |blk|
    && forall b :: 0 <= b < |blk| ==>
         mapped[b].block < |cells| && Plain(cells[mapped[b].block]) && blk[b] == BlockOf(cells[mapped[b].block])
  }

  lemma ErasedShows(g: UbiSpec.Device, cells: seq<N.PhysBlock>, now: seq<N.PhysBlock>, mapped: seq<N.AreaEntry>, blk: seq<Block>, b: nat, e: N.AreaEntry)
    requires Shows(cells, mapped, blk) && UbiErase.ErasedTo(g, cells, now, mapped, b, e)
    ensures b < |blk| && Shows(now, mapped[b := e], blk[b := Blank(g.P)])
  {
    assert BlockOf(N.ClearBlock(g.P)) == Blank(g.P);
  }

  lemma WrittenShows(g: UbiSpec.Device, cells: seq<N.PhysBlock>, now: seq<N.PhysBlock>, mapped: seq<N.AreaEntry>, blk: seq<Block>, b: nat, p: nat,
                     content: Content, spare: Spare)
    requires Shows(cells, mapped, blk) && b < |blk| && p < |blk[b]| && UbiErase.OthersKept(g, cells, now, mapped, b)
    requires UbiWrite.Programmed(cells[mapped[b].block], now[mapped[b].block], p, N.Payload(content, spare))
    ensures Shows(now, mapped, Program(blk, b, p, Programmed(content, spare)))
  {
  }

  /** A key to the tables below: proofs that do not mention it never open them. */
  ghost predicate Key(k: nat) {
    k == k
  }

  class Ubi {
    const dev: UbiState.Ubi
    const blocks: nat
    const pages: nat
    ghost const Repr: set<object>

    /** The logical blocks. */
    ghost var blk: seq<Block>

    /** The mapping, and the page of each area table it is on. */
    ghost var mapped: seq<N.AreaEntry>
    ghost var at: seq<nat>

    /** How often UBI_ReadStatus will yet find a die busy. */
    var polls: nat

    /** A mounted device whose logical blocks hold written or erased pages only. */
    constructor (dev: UbiState.Ubi, ghost at: seq<nat>, ghost mapped: seq<N.AreaEntry>, polls: nat)
      requires UbiCommit.Steady(dev, at, mapped) && !dev.updating && dev.nand.power == None
      requires |at| == dev.g.A && |mapped| == dev.g.U
      requires forall b :: 0 <= b < dev.g.U ==> mapped[b].block < |dev.nand.cells| && Plain(dev.nand.cells[mapped[b].block])
      ensures Valid() && this.dev == dev && fresh(Repr - {dev, dev.nand, dev.free}) && this in Repr
      ensures this.blocks == dev.g.U && this.pages == dev.g.P
      ensures forall b :: 0 <= b < dev.g.U ==> blk[b] == BlockOf(dev.nand.cells[mapped[b].block])
    {
      this.dev, this.at, this.mapped, this.polls := dev, at, mapped, polls;
      this.blocks, this.pages := dev.g.U, dev.g.P;
      this.blk := seq(dev.g.U, b requires 0 <= b < |mapped| && mapped[b].block < |dev.nand.cells| reads dev.nand => BlockOf(dev.nand.cells[mapped[b].block]));
      this.Repr := {this, dev, dev.nand, dev.free};
    }

    ghost predicate Valid()
      reads this, Repr
    {
      Shaped(blk, blocks, pages) && forall k: nat :: Key(k) ==> Repr == {this, dev, dev.nand, dev.free} && Mirrors()
    }

    /** The tables are in order and show the logical blocks. */
    ghost predicate Mirrors()
      reads this, dev, dev.nand, dev.free
    {
      && blocks == dev.g.U && pages == dev.g.P && |blk| == blocks && |at| == dev.g.A
      && UbiCommit.Steady(dev, at, mapped) && !dev.updating && dev.nand.power == None && |mapped| == blocks
      && Shows(dev.nand.cells, mapped, blk)
    }

    /** The logical blocks as the tables now show them. */
    ghost method Adopt(at: seq<nat>, mapped: seq<N.AreaEntry>, blk: seq<Block>)
      requires Repr == {this, dev, dev.nand, dev.free} && blocks == dev.g.U && pages == dev.g.P
      requires UbiCommit.Steady(dev, at, mapped) && !dev.updating && dev.nand.power == None
      requires |at| == dev.g.A && |blk| == |mapped| == blocks && Shows(dev.nand.cells, mapped, blk) && Shaped(blk, blocks, pages)
      modifies this`at, this`mapped, this`blk
      ensures Valid() && this.blk == blk
    {
      hide UbiCommit.Steady, Shows, Shaped;
      this.at, this.mapped, this.blk := at, mapped, blk;
    }

    /** UBI_Init: the tables are read from flash again, and the logical blocks are as before. */
    method Init()
      requires Valid()
      modifies Repr
      ensures Valid() && blk == old(blk)
    {
      assert Key(0);
      hide UbiCommit.Steady, Shows;
      ghost var cells := dev.nand.cells;
      UbiErase.SteadyParts(dev, at, mapped);
      ghost var at' := Remount(dev, at, mapped);
      KeptShows(cells, dev.nand.cells, mapped, blk);
      Adopt(at', mapped, blk);
    }

    /** UBI_Read. */
    method Read(b: nat, p: nat) returns (c: Cell)
      requires Valid() && b < blocks && p < pages
      modifies Repr
      ensures Valid() && blk == old(blk) && c == blk[b][p]
    {
      assert Key(0);
      hide UbiCommit.Steady, UbiWrite.Settled;
      UbiWrite.SettledIsSteady(dev, at, mapped);
      var st, page := UbiWrite.ReadBlock(dev, b, p, at, mapped);
      UbiWrite.SettledIsSteady(dev, at, mapped);
      c := CellOf(page);
    }

    /** UBI_Write: the next page of the logical block.  How often its die will be busy is anyone's guess. */
    method Write(b: nat, p: nat, content: Content, spare: Spare)
      requires Valid() && b < blocks && p < pages && Filled(blk[b], p)
      modifies Repr
      ensures Valid() && blk == Program(old(blk), b, p, Programmed(content, spare))
    {
      ProgramNext(b, p, content, spare);
      assert Key(0);
      hide UbiCommit.Steady, Shows;
      polls := *;
    }

    method ProgramNext(b: nat, p: nat, content: Content, spare: Spare)
      requires Valid() && b < blocks && p < pages && Filled(blk[b], p)
      modifies Repr
      ensures Valid() && polls == old(polls) && blk == Program(old(blk), b, p, Programmed(content, spare))
    {
      assert Key(0);
      hide UbiCommit.Steady, UbiWrite.Settled;
      UbiWrite.SettledIsSteady(dev, at, mapped);
      var page := N.Payload(content, spare);
      ghost var cells := dev.nand.cells;
      WrittenPrefix(cells[mapped[b].block], p);
      ghost var at', now := UbiWrite.WriteBlock(dev, b, p, page, at, mapped);
      UbiWrite.SettledIsSteady(dev, at', now);
      WrittenShows(dev.g, cells, dev.nand.cells, mapped, blk, b, p, content, spare);
      Adopt(at, mapped, Program(blk, b, p, Programmed(content, spare)));
    }

    /** UBI_Erase: the logical block is erased. */
    method Erase(b: nat, die: nat)
      requires Valid() && b < blocks
      modifies Repr
      ensures Valid() && blk == old(blk)[b := Blank(pages)]
    {
      assert Key(0);
      hide UbiCommit.Steady, UbiErase.ErasedTo, Shows;
      ghost var cells := dev.nand.cells;
      ghost var at', e := EraseMapped(dev, b, die, at, mapped);
      ErasedShows(dev.g, cells, dev.nand.cells, mapped, blk, b, e);
      Adopt(at', mapped[b := e], blk[b := Blank(pages)]);
    }

    /** UBI_ReadStatus: the die of the block is idle. */
    method ReadStatus(b: nat) returns (idle: bool)
      requires Valid() && b < blocks
      modifies Repr
      ensures Valid() && blk == old(blk)
      ensures if idle then polls == old(polls) else polls < old(polls)
    {
      assert Key(0);
      hide UbiCommit.Steady;
      idle := polls == 0;
      if !idle {
        polls := polls - 1;
      }
    }

    /** UBI_Flush: every die has finished. */
    method Flush()
      requires Valid()
      modifies Repr
      ensures Valid() && blk == old(blk) && polls == 0
    {
      assert Key(0);
      hide UbiCommit.Steady;
      polls := 0;
    }
  }

  /** UBI_Init on a device whose tables are in order. */
  method Remount(dev: UbiState.Ubi, ghost at: seq<nat>, ghost mapped: seq<N.AreaEntry>) returns (ghost at': seq<nat>)
    requires UbiCommit.Steady(dev, at, mapped) && !dev.updating && dev.nand.power == None
    modifies dev, dev.nand, dev.free
    ensures |at'| == dev.g.A && UbiCommit.Steady(dev, at', mapped) && !dev.updating && dev.nand.power == None
    ensures UbiCommit.MappedKept(old(dev.nand.cells), dev.nand.cells, mapped)
  {
    hide UbiFlash.Boots, UbiFlash.BootsTwice, UbiFlash.Laid, UbiFlash.AnchorHeld, UbiFlash.AnchorSpot, UbiFlash.MapOf, UbiFlash.TableAt;
    UbiErase.SteadyParts(dev, at, mapped);
    ghost var r := UbiCommit.RecOf(dev, at, mapped);
    assert UbiFlash.Leads(dev.g, dev.nand.cells, r) && dev.Sized();
    hide UbiFlash.Leads, UbiCommit.Steady;
    var st;
    st, at' := UbiMount.UbiInit(dev, r, None);
    UbiErase.SteadyParts(dev, at', mapped);
  }

  lemma KeptShows(cells: seq<N.PhysBlock>, now: seq<N.PhysBlock>, mapped: seq<N.AreaEntry>, blk: seq<Block>)
    requires Shows(cells, mapped, blk) && UbiCommit.MappedKept(cells, now, mapped)
    ensures Shows(now, mapped, blk)
  {
  }

  /** UBI_Erase while power stays on: it always succeeds. */
  method EraseMapped(dev: UbiState.Ubi, b: nat, die: nat, ghost at: seq<nat>, ghost mapped: seq<N.AreaEntry>)
    returns (ghost at': seq<nat>, ghost e: N.AreaEntry)
    requires UbiCommit.Steady(dev, at, mapped) && !dev.updating && b < dev.g.U && dev.nand.power == None
    modifies dev, dev.nand, dev.free
    ensures |mapped| == dev.g.U && |at'| == dev.g.A
    ensures UbiCommit.Steady(dev, at', mapped[b := e]) && !dev.updating && dev.nand.power == None
    ensures UbiErase.ErasedTo(dev.g, old(dev.nand.cells), dev.nand.cells, mapped, b, e)
  {
    hide UbiCommit.Steady, UbiErase.ErasedTo, UbiErase.AllOrNothing;
    UbiErase.SteadyParts(dev, at, mapped);
    var st;
    st, at', e := UbiErase.EraseBlock(dev, b, die, at, mapped);
    UbiErase.SteadyParts(dev, at', mapped[b := e]);
  }

  lemma WrittenPrefix(b: N.PhysBlock, p: nat)
    requires Plain(b) && Filled(BlockOf(b), p)
    ensures N.Prefix(b, p)
  {
    forall i | 0 <= i < |b|
      ensures b[i].Clear? <==> i >= p
    {
      assert BlockOf(b)[i] == CellOf(b[i]);
    }
  }
}
