/** The block layer as a value: what its tables hold, which physical block belongs to whom, and
    what a mount finds on flash. */
module UbiSpec {
  import opened Flash
  import opened Nand
  import opened FreeTable

  /** The numbers of a device. */
  datatype Dims = Dims(
    T: nat,     // physical blocks, CFG_LOG_BLOCK_COUNT
    P: nat,     // pages per block
    R: nat,     // logical blocks of an area
    A: nat,     // areas
    F: nat,     // entries of the free block table
    U: nat,     // logical blocks, total_data_block
    aLo: nat,   // ANCHOR_FIRST_BLOCK
    aHi: nat,   // ANCHOR_LAST_BLOCK
    D: nat,     // dice
    B: nat      // entries of the bad block table
  )

  /** DATA_FIRST_BLOCK. */
  function DataLo(g: Dims): nat {
    g.aHi + 1
  }

  /** Blocks left for the free block table. */
  function Spares(g: Dims): int {
    g.T - DataLo(g) - g.U - g.A - 1
  }

  predicate ValidDims(g: Dims) {
    && 2 <= g.P && 1 <= g.R && 1 <= g.A && 1 <= g.U <= g.A * g.R && 1 <= g.D
    && 1 <= g.aLo < g.aHi && DataLo(g) < g.T
    && 1 <= Spares(g) < g.F && 2 <= g.F
  }

  type Device = g: Dims | ValidDims(g) witness Dims(10, 2, 1, 1, 8, 1, 1, 2, 1, 1)

  /** What the block layer keeps in RAM. */
  datatype Ram = Ram(
    ix: IndexTable,
    holder: nat, holderEc: nat, next: nat,                 // index_block, index_next_page
    offset: seq<Option<nat>>,                              // area_offset_table
    cached: seq<AreaEntry>, cachedArea: Option<nat>,       // the cached area table
    anc: AnchorTable, ancBlock: nat, ancNext: nat,
    updating: bool                                         // is_updating_area
  )

  // ---------------------------------------------------------------- who owns a block

  function MapBlocks(mapping: seq<AreaEntry>): (r: seq<nat>)
    ensures |r| == |mapping| && forall b :: 0 <= b < |r| ==> r[b] == mapping[b].block
  {
    seq(|mapping|, b requires 0 <= b < |mapping| => mapping[b].block)
  }

  /** The blocks of the free table; an invalid entry counts as the code block. */
  function SlotBlocks(free: seq<FreeSlot>): (r: seq<nat>)
    ensures |r| == |free| && forall i :: 0 <= i < |r| ==> r[i] == if free[i].Free? then free[i].block else 0
  {
    seq(|free|, i requires 0 <= i < |free| => if free[i].Free? then free[i].block else 0)
  }

  /** Every block with an owner: mapped, area tables, index table, free. */
  ghost function Owned(mapped: seq<AreaEntry>, areaBlock: seq<nat>, holder: nat, free: seq<FreeSlot>): multiset<nat> {
    multiset(MapBlocks(mapped)) + multiset(areaBlock) + multiset{holder} + multiset(SlotBlocks(free))
  }

  /** Every data block once, and the invalid entries of the free table. */
  ghost function Everything(g: Device): multiset<nat> {
    multiset(seq(g.T - DataLo(g), i requires 0 <= i => DataLo(g) + i)) + multiset(seq(g.F - Spares(g), _ => 0))
  }

  /** Every physical data block has exactly one owner. */
  ghost predicate Partition(g: Device, mapped: seq<AreaEntry>, areaBlock: seq<nat>, holder: nat, free: seq<FreeSlot>) {
    && |mapped| == g.U && |areaBlock| == g.A && |free| == g.F && holder > 0
    && (forall b :: 0 <= b < g.U ==> mapped[b].block > 0)
    && (forall a :: 0 <= a < g.A ==> areaBlock[a] > 0)
    && (forall i :: 0 <= i < g.F && free[i].Free? ==> free[i].block > 0)
    && Owned(mapped, areaBlock, holder, free) == Everything(g)
  }

  lemma {:induction false} CountConst(n: nat, c: nat, x: nat)
    ensures multiset(seq(n, _ => c))[x] == if x == c then n else 0
  {
    if n > 0 {
      CountConst(n - 1, c, x);
      assert seq(n, _ => c) == seq(n - 1, _ => c) + [c];
    }
  }

  lemma {:induction false} CountFrom(lo: nat, n: nat, x: nat)
    ensures multiset(seq(n, i requires 0 <= i => lo + i))[x] == if lo <= x < lo + n then 1 else 0
  {
    if n > 0 {
      CountFrom(lo, n - 1, x);
      assert seq(n, i requires 0 <= i => lo + i) == seq(n - 1, i requires 0 <= i => lo + i) + [lo + n - 1];
    }
  }

  lemma OnlyOnce(g: Device, x: nat)
    ensures Everything(g)[x] == if DataLo(g) <= x < g.T then 1 else if x == 0 then g.F - Spares(g) else 0
  {
    CountConst(g.F - Spares(g), 0, x);
    CountFrom(DataLo(g), g.T - DataLo(g), x);
  }

  lemma {:induction false} SeqCount(s: seq<nat>, i: nat)
    requires i < |s|
    ensures multiset(s)[s[i]] >= 1
  {
    assert s[i] in multiset(s);
  }

  lemma {:induction false} SeqCountTwo(s: seq<nat>, i: nat, j: nat)
    requires i < j < |s| && s[i] == s[j]
    ensures multiset(s)[s[i]] >= 2
  {
    assert s == s[..i] + [s[i]] + s[i + 1..];
    SeqCount(s[i + 1..], j - i - 1);
    assert s[i + 1..][j - i - 1] == s[j];
  }

  /** The owners of one block, counted. */
  lemma OneOwner(g: Device, mapped: seq<AreaEntry>, areaBlock: seq<nat>, holder: nat, free: seq<FreeSlot>, x: nat)
    requires Partition(g, mapped, areaBlock, holder, free)
    ensures multiset(MapBlocks(mapped))[x] + multiset(areaBlock)[x] + (if holder == x then 1 else 0) + multiset(SlotBlocks(free))[x]
         == if DataLo(g) <= x < g.T then 1 else if x == 0 then g.F - Spares(g) else 0
  {
    OnlyOnce(g, x);
    assert Owned(mapped, areaBlock, holder, free)[x] == Everything(g)[x];
    hide Everything;
  }

  /** The mapping is injective, and mapped blocks, area tables and index table are disjoint. */
  lemma Apart(g: Device, mapped: seq<AreaEntry>, areaBlock: seq<nat>, holder: nat, free: seq<FreeSlot>)
    requires Partition(g, mapped, areaBlock, holder, free)
    ensures DataLo(g) <= holder < g.T
    ensures forall b :: 0 <= b < g.U ==> DataLo(g) <= mapped[b].block < g.T && mapped[b].block != holder
    ensures forall a :: 0 <= a < g.A ==> DataLo(g) <= areaBlock[a] < g.T && areaBlock[a] != holder
    ensures forall b, a :: 0 <= b < g.U && 0 <= a < g.A ==> mapped[b].block != areaBlock[a]
    ensures forall b, c :: 0 <= b < c < g.U ==> mapped[b].block != mapped[c].block
    ensures forall a, c :: 0 <= a < c < g.A ==> areaBlock[a] != areaBlock[c]
  {
    var ms := MapBlocks(mapped);
    hide Owned, Everything;
    OneOwner(g, mapped, areaBlock, holder, free, holder);
    forall b | 0 <= b < g.U
      ensures DataLo(g) <= mapped[b].block < g.T && mapped[b].block != holder && mapped[b].block !in areaBlock
    {
      SeqCount(ms, b);
      OneOwner(g, mapped, areaBlock, holder, free, ms[b]);
      assert multiset(areaBlock)[ms[b]] == 0;
    }
    forall b, c | 0 <= b < c < g.U
      ensures mapped[b].block != mapped[c].block
    {
      OneOwner(g, mapped, areaBlock, holder, free, ms[b]);
      if ms[b] == ms[c] { SeqCountTwo(ms, b, c); }
    }
    forall a | 0 <= a < g.A
      ensures DataLo(g) <= areaBlock[a] < g.T && areaBlock[a] != holder
    {
      SeqCount(areaBlock, a);
      OneOwner(g, mapped, areaBlock, holder, free, areaBlock[a]);
    }
    forall a, c | 0 <= a < c < g.A
      ensures areaBlock[a] != areaBlock[c]
    {
      OneOwner(g, mapped, areaBlock, holder, free, areaBlock[a]);
      if areaBlock[a] == areaBlock[c] { SeqCountTwo(areaBlock, a, c); }
    }
  }

  /** A free block is a data block nobody else owns. */
  lemma FreeApart(g: Device, mapped: seq<AreaEntry>, areaBlock: seq<nat>, holder: nat, free: seq<FreeSlot>, i: nat)
    requires Partition(g, mapped, areaBlock, holder, free) && i < g.F && free[i].Free?
    ensures DataLo(g) <= free[i].block < g.T && free[i].block != holder
    ensures forall b :: 0 <= b < g.U ==> mapped[b].block != free[i].block
    ensures forall a :: 0 <= a < g.A ==> areaBlock[a] != free[i].block
  {
    var x := free[i].block;
    SeqCount(SlotBlocks(free), i);
    OneOwner(g, mapped, areaBlock, holder, free, x);
    hide Owned, Everything;
    forall b | 0 <= b < g.U
      ensures mapped[b].block != x
    {
      SeqCount(MapBlocks(mapped), b);
    }
    forall a | 0 <= a < g.A
      ensures areaBlock[a] != x
    {
      SeqCount(areaBlock, a);
    }
  }

  /** The free table has a free block first and an invalid entry last, so a block put into it
      never pushes another one out. */
  lemma TableHasRoom(g: Device, mapped: seq<AreaEntry>, areaBlock: seq<nat>, holder: nat, free: seq<FreeSlot>)
    requires Partition(g, mapped, areaBlock, holder, free) && Sorted(free)
    ensures free[0].Free? && free[g.F - 1].Vacant?
  {
    var s := SlotBlocks(free);
    OneOwner(g, mapped, areaBlock, holder, free, 0);
    hide Owned, Everything;
    assert 0 !in MapBlocks(mapped) && 0 !in areaBlock;
    assert multiset(s)[0] == g.F - Spares(g);
    assert free[g.F - 1].Free? ==> 0 !in s;
    if free[0].Vacant? {
      assert s == seq(g.F, _ => 0);
      CountConst(g.F, 0, 0);
    }
  }

  // ---------------------------------------------------------------- blocks change owners

  /** A block leaves the free table and another one enters it. */
  function Exchange(free: seq<FreeSlot>, i: nat, block: nat, ec: nat): (r: seq<FreeSlot>)
    requires i < |free|
    ensures |r| == |free|
  {
    Put(RemoveAt(free, i), block, ec)
  }

  lemma RemovedBlocks(free: seq<FreeSlot>, i: nat)
    requires i < |free| && free[i].Free?
    ensures multiset(SlotBlocks(RemoveAt(free, i))) == multiset(SlotBlocks(free)) - multiset{free[i].block} + multiset{0}
  {
    var x, y := SlotBlocks(free), SlotBlocks(RemoveAt(free, i));
    assert x == x[..i] + [free[i].block] + x[i + 1..];
    assert y == x[..i] + x[i + 1..] + [0];
  }

  lemma PutBlocks(s: seq<FreeSlot>, block: nat, ec: nat)
    requires |s| >= 1 && s[|s| - 1].Vacant?
    ensures multiset(SlotBlocks(Put(s, block, ec))) == multiset(SlotBlocks(s)) - multiset{0} + multiset{block}
  {
    hide Position;
    var n := |s| - 1;
    var k := Position(s, ec, n);
    var y := SlotBlocks(s);
    assert y[n] == 0;
    Inserted(y, k, block);
    assert SlotBlocks(Put(s, block, ec)) == y[..k] + [block] + y[k..n];
  }

  /** A number is put at place k, and the last one, a zero, falls off. */
  lemma Inserted(y: seq<nat>, k: nat, x: nat)
    requires k < |y| && y[|y| - 1] == 0
    ensures multiset(y[..k] + [x] + y[k..|y| - 1]) == multiset(y) - multiset{0} + multiset{x}
  {
    assert y == y[..k] + y[k..|y| - 1] + [0];
  }

  lemma ExchangeBlocks(free: seq<FreeSlot>, i: nat, block: nat, ec: nat)
    requires i < |free| && free[i].Free? && Sorted(free)
    ensures free[i].block in multiset(SlotBlocks(free))
    ensures multiset(SlotBlocks(Exchange(free, i, block, ec)))
         == multiset(SlotBlocks(free)) - multiset{free[i].block} + multiset{block}
    ensures Sorted(Exchange(free, i, block, ec))
  {
    var s := RemoveAt(free, i);
    RemoveKeepsSorted(free, i);
    PutKeepsSorted(s, block, ec);
    RemovedBlocks(free, i);
    assert s[|s| - 1].Vacant?;
    PutBlocks(s, block, ec);
    assert SlotBlocks(free)[i] == free[i].block;
    hide SlotBlocks, Put, RemoveAt, Sorted;
  }

  /** Two blocks change places between two of four owners. */
  lemma Trade(a: multiset<nat>, b: multiset<nat>, c: multiset<nat>, d: multiset<nat>, x: nat, y: nat)
    requires y in a && x in d
    ensures (a - multiset{y} + multiset{x}) + b + c + (d - multiset{x} + multiset{y}) == a + b + c + d
    ensures b + (a - multiset{y} + multiset{x}) + c + (d - multiset{x} + multiset{y}) == b + a + c + d
    ensures b + c + (a - multiset{y} + multiset{x}) + (d - multiset{x} + multiset{y}) == b + c + a + d
  {
  }

  lemma ExchangeSlots(free: seq<FreeSlot>, i: nat, block: nat, ec: nat)
    requires i < |free| && free[i].Free? && block > 0 && forall j :: 0 <= j < |free| && free[j].Free? ==> free[j].block > 0
    ensures forall j :: 0 <= j < |free| && Exchange(free, i, block, ec)[j].Free? ==> Exchange(free, i, block, ec)[j].block > 0
  {
  }

  lemma OwnedTrade(mapped: seq<AreaEntry>, areaBlock: seq<nat>, holder: nat, free: seq<FreeSlot>,
                   mapped1: seq<AreaEntry>, areaBlock1: seq<nat>, holder1: nat, free1: seq<FreeSlot>, x: nat, y: nat)
    requires x in multiset(SlotBlocks(free)) && multiset(SlotBlocks(free1)) == multiset(SlotBlocks(free)) - multiset{x} + multiset{y}
    requires
      || (y in multiset(MapBlocks(mapped)) && multiset(MapBlocks(mapped1)) == multiset(MapBlocks(mapped)) - multiset{y} + multiset{x}
          && areaBlock1 == areaBlock && holder1 == holder)
      || (y in multiset(areaBlock) && multiset(areaBlock1) == multiset(areaBlock) - multiset{y} + multiset{x}
          && mapped1 == mapped && holder1 == holder)
      || (y == holder && holder1 == x && mapped1 == mapped && areaBlock1 == areaBlock)
    ensures Owned(mapped1, areaBlock1, holder1, free1) == Owned(mapped, areaBlock, holder, free)
  {
    var a, b, c, d := multiset(MapBlocks(mapped)), multiset(areaBlock), multiset{holder}, multiset(SlotBlocks(free));
    hide MapBlocks, SlotBlocks;
    if y in a && mapped1 != mapped {
      Trade(a, b, c, d, x, y);
    } else if areaBlock1 != areaBlock {
      Trade(b, a, c, d, x, y);
    } else if holder1 != holder {
      Trade(c, a, b, d, x, y);
    }
  }

  /** A logical block moves to a free block. */
  lemma MapExchange(g: Device, mapped: seq<AreaEntry>, areaBlock: seq<nat>, holder: nat, free: seq<FreeSlot>, b: nat, i: nat, ec: nat, ecOld: nat)
    requires Partition(g, mapped, areaBlock, holder, free) && Sorted(free) && b < g.U && i < g.F && free[i].Free?
    ensures Partition(g, mapped[b := AreaEntry(free[i].block, ec)], areaBlock, holder, Exchange(free, i, mapped[b].block, ecOld))
    ensures Sorted(Exchange(free, i, mapped[b].block, ecOld))
  {
    hide Everything, Exchange, Sorted, Owned;
    var ms, mapped1 := MapBlocks(mapped), mapped[b := AreaEntry(free[i].block, ec)];
    ExchangeBlocks(free, i, mapped[b].block, ecOld);
    ExchangeSlots(free, i, mapped[b].block, ecOld);
    assert MapBlocks(mapped1) == ms[b := free[i].block] && ms[b] in multiset(ms);
    OwnedTrade(mapped, areaBlock, holder, free, mapped1, areaBlock, holder, Exchange(free, i, ms[b], ecOld), free[i].block, ms[b]);
  }

  /** An area table moves to a free block. */
  lemma AreaExchange(g: Device, mapped: seq<AreaEntry>, areaBlock: seq<nat>, holder: nat, free: seq<FreeSlot>, a: nat, i: nat, ecOld: nat)
    requires Partition(g, mapped, areaBlock, holder, free) && Sorted(free) && a < g.A && i < g.F && free[i].Free?
    ensures Partition(g, mapped, areaBlock[a := free[i].block], holder, Exchange(free, i, areaBlock[a], ecOld))
    ensures Sorted(Exchange(free, i, areaBlock[a], ecOld))
  {
    hide Everything, Exchange, Sorted, Owned;
    ExchangeBlocks(free, i, areaBlock[a], ecOld);
    ExchangeSlots(free, i, areaBlock[a], ecOld);
    var areas, x, y := areaBlock[a := free[i].block], free[i].block, areaBlock[a];
    assert y in multiset(areaBlock);
    OwnedTrade(mapped, areaBlock, holder, free, mapped, areas, holder, Exchange(free, i, y, ecOld), x, y);
  }

  /** The index table moves to a free block. */
  lemma HolderExchange(g: Device, mapped: seq<AreaEntry>, areaBlock: seq<nat>, holder: nat, free: seq<FreeSlot>, i: nat, ecOld: nat)
    requires Partition(g, mapped, areaBlock, holder, free) && Sorted(free) && i < g.F && free[i].Free?
    ensures Partition(g, mapped, areaBlock, free[i].block, Exchange(free, i, holder, ecOld))
    ensures Sorted(Exchange(free, i, holder, ecOld))
  {
    hide Everything, Exchange, Sorted, Owned;
    ExchangeBlocks(free, i, holder, ecOld);
    ExchangeSlots(free, i, holder, ecOld);
    OwnedTrade(mapped, areaBlock, holder, free, mapped, areaBlock, free[i].block, Exchange(free, i, holder, ecOld), free[i].block, holder);
  }
}
