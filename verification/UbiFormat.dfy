/** UBI_Format on a device without bad blocks: whatever the flash held, it then boots a mapping
    in which every logical block is erased. */
module UbiFormat {
  import G = Geometry
  import opened Flash
  import opened Nand
  import opened FreeTable
  import opened UbiSpec
  import opened UbiFlash
  import opened UbiState
  import opened UbiAnchor

  /** INVALID_BLOCK and INVALID_EC. */
  const INVALID: nat := 0xFFFF_FFFF

  ghost predicate Reliable(s: Ubi)
    reads s, s.nand
  {
    s.Sound() && s.Sized() && s.nand.faults == 0 && s.nand.power == None
  }

  // ---------------------------------------------------------------- the plan

  /** How many blocks the area that begins at `cur` gets; `limit` is DATA_BLOCK_COUNT. */
  function AreaSize(g: Device, limit: nat, cur: nat): nat
    requires cur < limit
  {
    if limit - cur < g.R then limit - cur else g.R
  }

  /** How many areas, and how many logical blocks, the loop of UBI_Format yet makes. */
  function AreasFrom(g: Device, limit: nat, cur: nat): nat
    decreases limit - cur
  {
    if cur < limit then 1 + AreasFrom(g, limit, cur + AreaSize(g, limit, cur) + 1) else 0
  }

  function LogicalFrom(g: Device, limit: nat, cur: nat): nat
    decreases limit - cur
  {
    if cur < limit then AreaSize(g, limit, cur) + LogicalFrom(g, limit, cur + AreaSize(g, limit, cur) + 1) else 0
  }

  /** AREA_COUNT tables are made, for total_data_block logical blocks. */
  ghost predicate Planned(g: Device, limit: nat) {
    AreasFrom(g, limit, DataLo(g)) == g.A && LogicalFrom(g, limit, DataLo(g)) == g.U
  }

  /** In closed form: every area but the last uses R blocks and one for its table. */
  lemma {:induction false} PlanIs(g: Device, limit: nat, cur: nat)
    requires cur <= limit
    ensures AreasFrom(g, limit, cur) == G.CeilDiv(limit - cur, g.R + 1)
    ensures LogicalFrom(g, limit, cur) == limit - cur - (limit - cur) / (g.R + 1)
    decreases limit - cur
  {
    var x, n := limit - cur, g.R + 1;
    if x >= n {
      PlanIs(g, limit, cur + n);
      OneLess(x, n);
    } else {
      SmallQuotient(x, n);
    }
  }

  lemma OneLess(x: nat, n: nat)
    requires x >= n >= 1
    ensures x / n == 1 + (x - n) / n && G.CeilDiv(x, n) == 1 + G.CeilDiv(x - n, n)
  {
    NextQuotient(x - n, n);
    NextQuotient(x - 1, n);
  }

  lemma NextQuotient(x: nat, n: nat)
    requires n >= 1
    ensures (x + n) / n == 1 + x / n
  {
    var q := x / n;
    assert x + n == (q + 1) * n + x % n;
    G.QuotientIs(n, q + 1, x % n);
  }

  lemma SmallQuotient(x: nat, n: nat)
    requires x < n
    ensures x / n == 0 && G.CeilDiv(x, n) == if x == 0 then 0 else 1
  {
    G.QuotientIs(n, 0, x);
    if x == 0 {
      G.QuotientIs(n, 0, n - 1);
    } else {
      G.QuotientIs(n, 1, x - 1);
    }
  }

  // ---------------------------------------------------------------- AREA_Format

  function FreshTable(g: Device, cur: nat, count: nat): (t: seq<AreaEntry>)
    ensures |t| == g.R
    ensures forall i :: 0 <= i < g.R ==> t[i] == if i < count then AreaEntry(cur + i, 0) else AreaEntry(INVALID, INVALID)
  {
    seq(g.R, i requires 0 <= i => if i < count then AreaEntry(cur + i, 0) else AreaEntry(INVALID, INVALID))
  }

  /** `count` erased blocks from `cur` on, and the block with their table. */
  ghost predicate AreaLaid(g: Device, cells: seq<PhysBlock>, now: seq<PhysBlock>, cur: nat, count: nat) {
    && |now| == |cells| == g.T && cur + count < g.T
    && (forall x :: 0 <= x < g.T && !(cur <= x <= cur + count) ==> now[x] == cells[x])
    && (forall x :: cur <= x < cur + count ==> now[x] == ClearBlock(g.P))
    && now[cur + count] == ClearBlock(g.P)[0 := Area(FreshTable(g, cur, count))]
  }

  /** AREA_Format. */
  method AreaFormat(s: Ubi, count: nat, cur: nat, area: nat) returns (next: nat)
    requires Reliable(s) && count <= s.g.R && area < s.g.A && cur + count < s.g.T
    modifies s`cached, s`areaBlock, s`areaEc, s`offset, s.nand
    ensures Reliable(s) && next == cur + count + 1
    ensures s.areaBlock == old(s.areaBlock)[area := cur + count] && s.areaEc == old(s.areaEc)[area := 0]
    ensures AreaLaid(s.g, old(s.nand.cells), s.nand.cells, cur, count)
  {
    var i := 0;
    while i < count
      invariant i <= count && Reliable(s) && s.areaBlock == old(s.areaBlock) && s.areaEc == old(s.areaEc)
      invariant forall x :: 0 <= x < s.g.T ==> s.nand.cells[x] == if cur <= x < cur + i then ClearBlock(s.g.P) else old(s.nand.cells)[x]
      invariant forall k :: 0 <= k < i ==> s.cached[k] == AreaEntry(cur + k, 0)
    {
      var _ := s.nand.Erase(cur + i);
      s.cached := s.cached[i := AreaEntry(cur + i, 0)];
      i := i + 1;
    }
    FillTable(s, count, cur);
    var n := cur + count;
    var _ := s.nand.Erase(n);
    var _ := s.nand.Program(n, 0, Area(s.cached));
    s.areaBlock, s.areaEc, s.offset := s.areaBlock[area := n], s.areaEc[area := 0], s.offset[area := Some(0)];
    next := n + 1;
  }

  /** The entries behind the area's blocks are invalid. */
  method FillTable(s: Ubi, count: nat, ghost cur: nat)
    requires s.Sized() && count <= s.g.R && forall k :: 0 <= k < count ==> s.cached[k] == AreaEntry(cur + k, 0)
    modifies s`cached
    ensures s.cached == FreshTable(s.g, cur, count)
  {
    var i := count;
    while i < s.g.R
      invariant count <= i <= s.g.R == |s.cached|
      invariant forall k :: 0 <= k < i ==> s.cached[k] == if k < count then AreaEntry(cur + k, 0) else AreaEntry(INVALID, INVALID)
    {
      s.cached := s.cached[i := AreaEntry(INVALID, INVALID)];
      i := i + 1;
    }
  }

  // ---------------------------------------------------------------- the areas so far

  function From(lo: nat, n: nat): (r: seq<nat>)
    ensures |r| == n && forall i :: 0 <= i < n ==> r[i] == lo + i
  {
    seq(n, i requires 0 <= i => lo + i)
  }

  ghost predicate AreaDone(g: Device, cells: seq<PhysBlock>, block: nat, cur: nat) {
    && DataLo(g) <= block < cur && block < |cells| && |cells[block]| == g.P
    && Prefix(cells[block], 1) && cells[block][0].Area? && |cells[block][0].entries| == g.R
  }

  ghost predicate BlockDone(g: Device, cells: seq<PhysBlock>, areaBlock: seq<nat>, b: nat, e: AreaEntry, cur: nat, n: nat) {
    && DataLo(g) <= e.block < cur && e.block < |cells| && cells[e.block] == ClearBlock(g.P) && e.ec == 0
    && b / g.R < n && b / g.R < |areaBlock| && EntryIn(TableAt(cells, areaBlock[b / g.R], 0), b % g.R) == e
  }

  /** n areas are formatted, up to block `cur`; `mapped` are their logical blocks. */
  ghost predicate Formatting(g: Device, cells: seq<PhysBlock>, areaBlock: seq<nat>, mapped: seq<AreaEntry>, cur: nat, n: nat) {
    && ShapedCells(cells, g.T, g.P) && DataLo(g) <= cur <= g.T && n <= g.A == |areaBlock|
    && (forall a :: 0 <= a < n ==> AreaDone(g, cells, areaBlock[a], cur))
    && (forall b :: 0 <= b < |mapped| ==> BlockDone(g, cells, areaBlock, b, mapped[b], cur, n))
    && multiset(MapBlocks(mapped)) + multiset(areaBlock[..n]) == multiset(From(DataLo(g), cur - DataLo(g)))
  }

  /** The blocks of the area are those that follow. */
  lemma MoreBlocks(lo: nat, cur: nat, count: nat, xs: seq<nat>, ys: seq<nat>)
    requires lo <= cur && multiset(xs) + multiset(ys) == multiset(From(lo, cur - lo))
    ensures multiset(xs + From(cur, count)) + multiset(ys + [cur + count]) == multiset(From(lo, cur + count + 1 - lo))
  {
    assert From(lo, cur + count + 1 - lo) == From(lo, cur - lo) + From(cur, count) + [cur + count];
  }

  /** What was formatted before stays. */
  lemma AreaKept(g: Device, cells: seq<PhysBlock>, now: seq<PhysBlock>, block: nat, cur: nat, count: nat)
    requires AreaDone(g, cells, block, cur) && AreaLaid(g, cells, now, cur, count)
    ensures AreaDone(g, now, block, cur + count + 1) && now[block] == cells[block]
  {
  }

  lemma BlockKept(g: Device, cells: seq<PhysBlock>, now: seq<PhysBlock>, areaBlock: seq<nat>, b: nat, e: AreaEntry, cur: nat, n: nat, count: nat)
    requires BlockDone(g, cells, areaBlock, b, e, cur, n) && AreaLaid(g, cells, now, cur, count) && n < |areaBlock|
    requires b / g.R < n && areaBlock[b / g.R] < cur
    ensures BlockDone(g, now, areaBlock[n := cur + count], b, e, cur + count + 1, n + 1)
  {
    hide FreshTable;
    var a := b / g.R;
    assert now[areaBlock[a]] == cells[areaBlock[a]];
  }

  lemma BlockAdded(g: Device, cells: seq<PhysBlock>, now: seq<PhysBlock>, areaBlock: seq<nat>, cur: nat, n: nat, count: nat, i: nat)
    requires AreaLaid(g, cells, now, cur, count) && DataLo(g) <= cur && n < |areaBlock| && i < count <= g.R
    ensures BlockDone(g, now, areaBlock[n := cur + count], n * g.R + i, AreaEntry(cur + i, 0), cur + count + 1, n + 1)
  {
    G.QuotientIs(g.R, n, i);
    assert TableAt(now, cur + count, 0) == FreshTable(g, cur, count);
  }

  lemma BlocksAdded(g: Device, cells: seq<PhysBlock>, now: seq<PhysBlock>, areaBlock: seq<nat>, mapped: seq<AreaEntry>, cur: nat, n: nat, count: nat, b: nat)
    requires Formatting(g, cells, areaBlock, mapped, cur, n) && n < g.A && |mapped| == n * g.R && count <= g.R
    requires AreaLaid(g, cells, now, cur, count) && ShapedCells(now, g.T, g.P)
    requires b < |mapped| + count
    ensures BlockDone(g, now, areaBlock[n := cur + count], b, (mapped + FreshTable(g, cur, count)[..count])[b], cur + count + 1, n + 1)
  {
    hide AreaDone, BlockDone, AreaLaid;
    if b < |mapped| {
      InDoneArea(g, cells, areaBlock, b, mapped[b], cur, n);
      BlockKept(g, cells, now, areaBlock, b, mapped[b], cur, n, count);
    } else {
      var i := b - |mapped|;
      BlockAdded(g, cells, now, areaBlock, cur, n, count, i);
    }
  }

  lemma CountsAdded(g: Device, areaBlock: seq<nat>, mapped: seq<AreaEntry>, cur: nat, n: nat, count: nat)
    requires DataLo(g) <= cur && n < |areaBlock| && count <= g.R
    requires multiset(MapBlocks(mapped)) + multiset(areaBlock[..n]) == multiset(From(DataLo(g), cur - DataLo(g)))
    ensures multiset(MapBlocks(mapped + FreshTable(g, cur, count)[..count])) + multiset(areaBlock[n := cur + count][..n + 1])
         == multiset(From(DataLo(g), cur + count + 1 - DataLo(g)))
  {
    MoreBlocks(DataLo(g), cur, count, MapBlocks(mapped), areaBlock[..n]);
    assert MapBlocks(mapped + FreshTable(g, cur, count)[..count]) == MapBlocks(mapped) + From(cur, count);
    assert areaBlock[n := cur + count][..n + 1] == areaBlock[..n] + [cur + count];
  }

  /** One more area. */
  lemma AreaAdded(g: Device, cells: seq<PhysBlock>, now: seq<PhysBlock>, areaBlock: seq<nat>, mapped: seq<AreaEntry>, cur: nat, n: nat, count: nat)
    requires Formatting(g, cells, areaBlock, mapped, cur, n) && n < g.A && |mapped| == n * g.R && count <= g.R
    requires AreaLaid(g, cells, now, cur, count) && ShapedCells(now, g.T, g.P)
    ensures Formatting(g, now, areaBlock[n := cur + count], mapped + FreshTable(g, cur, count)[..count], cur + count + 1, n + 1)
  {
    hide AreaDone, BlockDone, AreaLaid, FreshTable;
    var all, blocks := mapped + FreshTable(g, cur, count)[..count], areaBlock[n := cur + count];
    LaidFits(g, cells, now, cur, count);
    forall a | 0 <= a < n + 1
      ensures AreaDone(g, now, blocks[a], cur + count + 1)
    {
      if a < n {
        AreaKept(g, cells, now, areaBlock[a], cur, count);
      } else {
        TableDone(g, cells, now, cur, count);
      }
    }
    forall b | 0 <= b < |all|
      ensures BlockDone(g, now, blocks, b, all[b], cur + count + 1, n + 1)
    {
      BlocksAdded(g, cells, now, areaBlock, mapped, cur, n, count, b);
    }
    CountsAdded(g, areaBlock, mapped, cur, n, count);
  }

  lemma LaidFits(g: Device, cells: seq<PhysBlock>, now: seq<PhysBlock>, cur: nat, count: nat)
    requires AreaLaid(g, cells, now, cur, count)
    ensures cur + count < g.T
  {
  }

  lemma TableDone(g: Device, cells: seq<PhysBlock>, now: seq<PhysBlock>, cur: nat, count: nat)
    requires AreaLaid(g, cells, now, cur, count) && DataLo(g) <= cur
    ensures AreaDone(g, now, cur + count, cur + count + 1)
  {
  }

  lemma InDoneArea(g: Device, cells: seq<PhysBlock>, areaBlock: seq<nat>, b: nat, e: AreaEntry, cur: nat, n: nat)
    requires BlockDone(g, cells, areaBlock, b, e, cur, n) && n <= |areaBlock| && forall a :: 0 <= a < n ==> AreaDone(g, cells, areaBlock[a], cur)
    ensures b / g.R < n && areaBlock[b / g.R] < cur
  {
    hide Prefix;
    assert AreaDone(g, cells, areaBlock[b / g.R], cur);
  }

  // ---------------------------------------------------------------- INDEX_Format

  /** The free block table of a formatted device: every block from lo on, unworn. */
  function FreshFree(g: Device, lo: nat): (r: seq<FreeSlot>)
    ensures |r| == g.F
    ensures forall i :: 0 <= i < g.F ==> r[i] == if lo + i < g.T then Free(lo + i, 0) else Vacant
  {
    seq(g.F, i requires 0 <= i => if lo + i < g.T then Free(lo + i, 0) else Vacant)
  }

  /** The index table INDEX_Format writes on block cur, the first that no area took. */
  function FreshIndex(g: Device, cur: nat, areaBlock: seq<nat>, areaEc: seq<nat>): IndexTable {
    IndexTable(areaBlock, areaEc, FreshFree(g, cur + 1), NoPlr)
  }

  /** INDEX_Format: the first block left is for the index table, the others are free. */
  method IndexFormat(s: Ubi, cur: nat)
    requires Reliable(s) && cur < s.g.T && s.g.T - cur - 1 <= s.g.F
    modifies s`plr, s`anc, s.nand, s.free
    ensures Reliable(s) && s.Index() == FreshIndex(s.g, cur, s.areaBlock, s.areaEc)
    ensures s.anc == old(s.anc).(newBlock := cur, newEc := 0, oldBlock := None, oldEc := INVALID)
    ensures forall x :: 0 <= x < s.g.T ==>
              s.nand.cells[x] == if x == cur then ClearBlock(s.g.P)[0 := Index(s.Index())] else if x > cur then ClearBlock(s.g.P) else old(s.nand.cells)[x]
  {
    s.plr := NoPlr;
    FreeRest(s, cur);
    assert s.free[..] == FreshFree(s.g, cur + 1);
    var _ := s.nand.Erase(cur);
    var _ := s.nand.Program(cur, 0, Index(s.Index()));
    s.anc := s.anc.(newBlock := cur, newEc := 0, oldBlock := None, oldEc := INVALID);
  }

  /** The blocks from cur on are erased, and all but the first enter the free block table. */
  method FreeRest(s: Ubi, cur: nat)
    requires Reliable(s) && cur < s.g.T && s.g.T - cur - 1 <= s.g.F
    modifies s.nand, s.free
    ensures Reliable(s) && forall k :: 0 <= k < s.g.F ==> s.free[k] == if cur + 1 + k < s.g.T then Free(cur + 1 + k, 0) else Vacant
    ensures forall x :: 0 <= x < s.g.T ==> s.nand.cells[x] == if x >= cur then ClearBlock(s.g.P) else old(s.nand.cells)[x]
  {
    var b, n := cur, 0;
    while b < s.g.T
      invariant cur <= b <= s.g.T && n == (if b == cur then 0 else b - cur - 1) && Reliable(s)
      invariant forall x :: 0 <= x < s.g.T ==> s.nand.cells[x] == if cur <= x < b then ClearBlock(s.g.P) else old(s.nand.cells)[x]
      invariant forall k :: 0 <= k < n ==> s.free[k] == Free(cur + 1 + k, 0)
    {
      var _ := s.nand.Erase(b);
      if b > cur {
        s.free[n] := Free(b, 0);
        n := n + 1;
      }
      b := b + 1;
    }
    ghost var cells := s.nand.cells;
    while n < s.free.Length
      invariant s.g.T - cur - 1 <= n <= s.free.Length && Reliable(s) && s.nand.cells == cells
      invariant forall k :: 0 <= k < n ==> s.free[k] == if cur + 1 + k < s.g.T then Free(cur + 1 + k, 0) else Vacant
    {
      s.free[n] := Vacant;
      n := n + 1;
    }
  }

  // ---------------------------------------------------------------- ANCHOR_Format

  /** ANCHOR_Format: the anchor blocks are erased and the record is the first page of the first. */
  method AnchorFormat(s: Ubi)
    requires Reliable(s) && AnchorsGood(s.g, s.anc.bad)
    modifies s`anc, s`ancBlock, s`ancNext, s.nand
    ensures Reliable(s) && s.anc == old(s.anc).(previous := None) && s.ancBlock == s.g.aLo && s.ancNext == 1
    ensures forall x :: 0 <= x < s.g.T ==>
              s.nand.cells[x] == if x == s.g.aLo then ClearBlock(s.g.P)[0 := Anchor(s.anc)]
                                 else if s.g.aLo < x <= s.g.aHi then ClearBlock(s.g.P) else old(s.nand.cells)[x]
  {
    s.ancBlock, s.ancNext := s.g.aLo, 0;
    s.anc := s.anc.(previous := None);
    var b := s.g.aLo;
    while b <= s.g.aHi
      invariant s.g.aLo <= b <= s.g.aHi + 1 && Reliable(s) && s.ancBlock == s.g.aLo && s.ancNext == 0
      invariant s.anc == old(s.anc).(previous := None)
      invariant forall x :: 0 <= x < s.g.T ==> s.nand.cells[x] == if s.g.aLo <= x < b then ClearBlock(s.g.P) else old(s.nand.cells)[x]
    {
      var _ := s.nand.Erase(b);
      b := b + 1;
    }
    var _ := AnchorUpdate(s);
  }

  // ---------------------------------------------------------------- UBI_Format

  /** The mapping a formatted flash boots. */
  ghost function FreshRec(g: Device, anc: AnchorTable, cur: nat, ix: IndexTable, mapped: seq<AreaEntry>): Rec {
    Rec(anc, g.aLo, 1, cur, 0, 1, ix, seq(g.A, _ => 0), mapped)
  }

  lemma FreeBlocks(g: Device, cur: nat)
    requires DataLo(g) <= cur < g.T && g.T - cur - 1 == Spares(g)
    ensures multiset(SlotBlocks(FreshFree(g, cur + 1))) == multiset(From(cur + 1, Spares(g))) + multiset(seq(g.F - Spares(g), _ => 0))
  {
    assert SlotBlocks(FreshFree(g, cur + 1)) == From(cur + 1, Spares(g)) + seq(g.F - Spares(g), _ => 0);
  }

  lemma AllBlocks(g: Device, cur: nat)
    requires DataLo(g) <= cur < g.T && g.T - cur - 1 == Spares(g)
    ensures Everything(g) == multiset(From(DataLo(g), cur - DataLo(g))) + multiset{cur} + multiset(From(cur + 1, Spares(g)))
                             + multiset(seq(g.F - Spares(g), _ => 0))
  {
    var all := seq(g.T - DataLo(g), i requires 0 <= i => DataLo(g) + i);
    assert all == From(DataLo(g), cur - DataLo(g)) + [cur] + From(cur + 1, Spares(g));
  }

  /** Every block has one owner. */
  lemma FreshPartition(g: Device, cells: seq<PhysBlock>, areaBlock: seq<nat>, mapped: seq<AreaEntry>, cur: nat)
    requires Formatting(g, cells, areaBlock, mapped, cur, g.A) && |mapped| == g.U && cur == DataLo(g) + g.U + g.A
    ensures Partition(g, mapped, areaBlock, cur, FreshFree(g, cur + 1))
  {
    hide Prefix, TableAt;
    assert areaBlock[..g.A] == areaBlock;
    FreeBlocks(g, cur);
    AllBlocks(g, cur);
    hide Everything;
    forall a | 0 <= a < g.A
      ensures areaBlock[a] > 0
    {
      assert AreaDone(g, cells, areaBlock[a], cur);
    }
    forall b | 0 <= b < g.U
      ensures mapped[b].block > 0
    {
      assert BlockDone(g, cells, areaBlock, b, mapped[b], cur, g.A);
    }
  }

  /** Writing the index table and the anchor record after the areas. */
  lemma FormattedAreas(g: Device, cells: seq<PhysBlock>, now: seq<PhysBlock>, areaBlock: seq<nat>, mapped: seq<AreaEntry>, cur: nat, n: nat)
    requires Formatting(g, cells, areaBlock, mapped, cur, n) && ShapedCells(now, g.T, g.P)
    requires forall x :: DataLo(g) <= x < cur ==> now[x] == cells[x]
    ensures Formatting(g, now, areaBlock, mapped, cur, n)
  {
    forall a | 0 <= a < n
      ensures AreaDone(g, now, areaBlock[a], cur)
    {
      assert AreaDone(g, cells, areaBlock[a], cur);
    }
    hide AreaDone;
    forall b | 0 <= b < |mapped|
      ensures BlockDone(g, now, areaBlock, b, mapped[b], cur, n)
    {
      InDoneArea(g, cells, areaBlock, b, mapped[b], cur, n);
      assert AreaDone(g, cells, areaBlock[b / g.R], cur);
      assert DataLo(g) <= areaBlock[b / g.R] < cur by { DoneThere(g, cells, areaBlock[b / g.R], cur); }
    }
  }

  lemma DoneThere(g: Device, cells: seq<PhysBlock>, block: nat, cur: nat)
    requires AreaDone(g, cells, block, cur)
    ensures DataLo(g) <= block < cur
  {
  }

  lemma FreshLaid(g: Device, cells: seq<PhysBlock>, areaBlock: seq<nat>, areaEc: seq<nat>, mapped: seq<AreaEntry>, cur: nat)
    requires Formatting(g, cells, areaBlock, mapped, cur, g.A) && |mapped| == g.U && |areaEc| == g.A && cur == DataLo(g) + g.U + g.A
    ensures Laid(g, cells, FreshIndex(g, cur, areaBlock, areaEc), seq(g.A, _ => 0), cur, mapped)
  {
    var at := seq(g.A, _ => 0);
    FreshPartition(g, cells, areaBlock, mapped, cur);
    hide Partition, FreshFree;
    forall a | 0 <= a < g.A
      ensures AreaHeld(g, cells, areaBlock[a], at[a])
    {
      assert AreaDone(g, cells, areaBlock[a], cur);
    }
    hide Prefix;
    forall b | 0 <= b < g.U
      ensures MapOf(g, areaBlock, at, cells)[b] == mapped[b]
    {
      assert BlockDone(g, cells, areaBlock, b, mapped[b], cur, g.A);
    }
    assert MapOf(g, areaBlock, at, cells) == mapped;
  }

  /** Every block is on record as never erased. */
  ghost predicate Unworn(r: Rec) {
    && r.holderEc == 0 && (forall b :: 0 <= b < |r.mapped| ==> r.mapped[b].ec == 0)
    && (forall a :: 0 <= a < |r.ix.areaEc| ==> r.ix.areaEc[a] == 0)
    && (forall i :: 0 <= i < |r.ix.free| && r.ix.free[i].Free? ==> r.ix.free[i].ec == 0)
  }

  /** The flash after UBI_Format: erased logical blocks, and tables that a mount finds. */
  ghost predicate FormattedFlash(g: Device, cells: seq<PhysBlock>, r: Rec) {
    && Boots(g, cells, r) && |r.mapped| == g.U && Unworn(r)
    && forall b :: 0 <= b < g.U ==> r.mapped[b].block < |cells| && cells[r.mapped[b].block] == ClearBlock(g.P)
  }

  lemma FreshBoots(g: Device, cells: seq<PhysBlock>, anc: AnchorTable, areaBlock: seq<nat>, areaEc: seq<nat>, mapped: seq<AreaEntry>, cur: nat)
    requires Formatting(g, cells, areaBlock, mapped, cur, g.A) && |mapped| == g.U && |areaEc| == g.A && cur == DataLo(g) + g.U + g.A
    requires var ix := FreshIndex(g, cur, areaBlock, areaEc);
             forall x :: 0 <= x < g.T ==>
               && (x == cur ==> cells[x] == ClearBlock(g.P)[0 := Index(ix)])
               && (x == g.aLo ==> cells[x] == ClearBlock(g.P)[0 := Anchor(anc)])
               && (g.aLo < x <= g.aHi ==> cells[x] == ClearBlock(g.P))
    requires anc.newBlock == cur && anc.newEc == 0 && anc.bad == [] && forall a :: 0 <= a < g.A ==> areaEc[a] == 0
    ensures FormattedFlash(g, cells, FreshRec(g, anc, cur, FreshIndex(g, cur, areaBlock, areaEc), mapped))
  {
    FreshLaid(g, cells, areaBlock, areaEc, mapped, cur);
    hide Laid, AreaDone;
    forall b | 0 <= b < g.U
      ensures mapped[b].block < |cells| && cells[mapped[b].block] == ClearBlock(g.P) && mapped[b].ec == 0
    {
      assert BlockDone(g, cells, areaBlock, b, mapped[b], cur, g.A);
    }
    hide BlockDone;
    assert Unworn(FreshRec(g, anc, cur, FreshIndex(g, cur, areaBlock, areaEc), mapped));
  }

  lemma NoAreas(g: Device, cells: seq<PhysBlock>, areaBlock: seq<nat>)
    requires ShapedCells(cells, g.T, g.P) && |areaBlock| == g.A
    ensures Formatting(g, cells, areaBlock, [], DataLo(g), 0)
  {
    assert MapBlocks([]) == [] && areaBlock[..0] == [] && From(DataLo(g), 0) == [];
  }

  /** What the loop of UBI_Format has done, and has left to do. */
  ghost predicate Progress(g: Device, limit: nat, cur: nat, area: nat, total: nat) {
    && cur == DataLo(g) + total + area && (cur < limit ==> total == area * g.R)
    && area + AreasFrom(g, limit, cur) == g.A && total + LogicalFrom(g, limit, cur) == g.U
  }

  lemma NothingDone(g: Device, limit: nat)
    requires Planned(g, limit)
    ensures Progress(g, limit, DataLo(g), 0, 0)
  {
  }

  lemma OneArea(g: Device, limit: nat, cur: nat, area: nat, total: nat)
    requires Progress(g, limit, cur, area, total) && cur < limit
    ensures var count := AreaSize(g, limit, cur);
            && area < g.A && count <= g.R && cur + count < g.T && total == area * g.R
            && Progress(g, limit, cur + count + 1, area + 1, total + count)
  {
    var count := AreaSize(g, limit, cur);
    if cur + count + 1 < limit {
      assert count == g.R && total + count == (area + 1) * g.R;
    }
  }

  method NextArea(s: Ubi, limit: nat, cur: nat, area: nat, ghost mapped: seq<AreaEntry>) returns (count: nat, ghost more: seq<AreaEntry>)
    requires Reliable(s) && cur < limit && Progress(s.g, limit, cur, area, |mapped|)
    requires Formatting(s.g, s.nand.cells, s.areaBlock, mapped, cur, area)
    modifies s`cached, s`areaBlock, s`areaEc, s`offset, s.nand
    ensures Reliable(s) && |more| == |mapped| + count && Progress(s.g, limit, cur + count + 1, area + 1, |more|)
    ensures area < s.g.A && s.areaEc == old(s.areaEc)[area := 0]
    ensures Formatting(s.g, s.nand.cells, s.areaBlock, more, cur + count + 1, area + 1)
  {
    hide AreaLaid, Formatting, Progress;
    ghost var cells, blocks := s.nand.cells, s.areaBlock;
    count := if limit - cur < s.g.R then limit - cur else s.g.R;
    OneArea(s.g, limit, cur, area, |mapped|);
    var _ := AreaFormat(s, count, cur, area);
    AreaAdded(s.g, cells, s.nand.cells, blocks, mapped, cur, area, count);
    more := mapped + FreshTable(s.g, cur, count)[..count];
  }

  /** The areas of UBI_Format. */
  method AreasFormat(s: Ubi, limit: nat) returns (cur: nat, total: nat, ghost mapped: seq<AreaEntry>)
    requires Reliable(s) && Planned(s.g, limit) && DataLo(s.g) < limit
    modifies s`cached, s`areaBlock, s`areaEc, s`offset, s.nand
    ensures Reliable(s) && cur == DataLo(s.g) + s.g.U + s.g.A && |mapped| == total == s.g.U
    ensures Formatting(s.g, s.nand.cells, s.areaBlock, mapped, cur, s.g.A) && forall a :: 0 <= a < s.g.A ==> s.areaEc[a] == 0
  {
    hide Formatting, Progress, Planned, AreaLaid;
    var area := 0;
    cur, total, mapped := DataLo(s.g), 0, [];
    NoAreas(s.g, s.nand.cells, s.areaBlock);
    NothingDone(s.g, limit);
    while cur < limit
      invariant Reliable(s) && |mapped| == total && Progress(s.g, limit, cur, area, total)
      invariant Formatting(s.g, s.nand.cells, s.areaBlock, mapped, cur, area) && area <= s.g.A && forall a :: 0 <= a < area ==> s.areaEc[a] == 0
      decreases limit - cur
    {
      var count;
      count, mapped := NextArea(s, limit, cur, area, mapped);
      cur, area, total := cur + count + 1, area + 1, total + count;
    }
    AllAreas(s.g, limit, cur, area, total);
  }

  lemma AllAreas(g: Device, limit: nat, cur: nat, area: nat, total: nat)
    requires Progress(g, limit, cur, area, total) && cur >= limit
    ensures area == g.A && total == g.U && cur == DataLo(g) + g.U + g.A
  {
  }

  /** UBI_Format.  `unknown`: no anchor record was found, so every block is erased first. */
  method UbiFormat(s: Ubi, limit: nat, unknown: bool) returns (ghost r: Rec)
    requires Reliable(s) && Planned(s.g, limit) && DataLo(s.g) < limit && s.anc.bad == []
    modifies s, s.nand, s.free
    ensures Reliable(s) && FormattedFlash(s.g, s.nand.cells, r)
  {
    hide Formatting, FormattedFlash, Planned, FreshFree;
    if unknown {
      EraseAll(s);
    }
    ghost var mapped;
    var cur, total;
    cur, total, mapped := AreasFormat(s, limit);
    ghost var cells := s.nand.cells;
    IndexFormat(s, cur);
    AnchorFormat(s);
    FormattedAreas(s.g, cells, s.nand.cells, s.areaBlock, mapped, cur, s.g.A);
    FreshBoots(s.g, s.nand.cells, s.anc, s.areaBlock, s.areaEc, mapped, cur);
    r := FreshRec(s.g, s.anc, cur, s.Index(), mapped);
  }

  /** Every block is erased. */
  method EraseAll(s: Ubi)
    requires Reliable(s)
    modifies s.nand
    ensures Reliable(s) && forall b :: 0 <= b < s.g.T ==> s.nand.cells[b] == ClearBlock(s.g.P)
  {
    var b := 0;
    while b < s.g.T
      invariant Reliable(s) && b <= s.g.T && forall x :: 0 <= x < b ==> s.nand.cells[x] == ClearBlock(s.g.P)
    {
      var _ := s.nand.Erase(b);
      b := b + 1;
    }
  }
}
