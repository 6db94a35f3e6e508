/** What the block layer keeps on flash: the anchor record, the index table and the area tables,
    and the mapping a mount reads from them. */
module UbiFlash {
  import G = Geometry
  import opened Flash
  import opened Nand
  import opened FreeTable
  import opened UbiSpec

  // ---------------------------------------------------------------- the mapping on flash

  function TableAt(cells: seq<PhysBlock>, block: nat, page: nat): seq<AreaEntry> {
    if block < |cells| && page < |cells[block]| && cells[block][page].Area? then cells[block][page].entries else []
  }

  /** AREA_INDEX and BLOCK_OFFSET_AREA. */
  function AreaOf(g: Device, b: nat): (a: nat)
    requires b < g.U
    ensures a < g.A
  {
    InArea(g, b);
    b / g.R
  }

  lemma InArea(g: Device, b: nat)
    requires b < g.U
    ensures b / g.R < g.A
  {
    if b / g.R >= g.A {
      G.MulMono(g.A, b / g.R, g.R);
    }
  }

  function OffsetOf(g: Device, b: nat): (k: nat)
    ensures k < g.R
  {
    b % g.R
  }

  function EntryIn(t: seq<AreaEntry>, k: nat): AreaEntry {
    if k < |t| then t[k] else AreaEntry(0, 0)
  }

  /** The mapping of the area tables at the given pages. */
  function MapOf(g: Device, areaBlock: seq<nat>, at: seq<nat>, cells: seq<PhysBlock>): (r: seq<AreaEntry>)
    requires |areaBlock| == g.A && |at| == g.A
    ensures |r| == g.U
    ensures forall b :: 0 <= b < g.U ==> r[b] == EntryIn(TableAt(cells, areaBlock[AreaOf(g, b)], at[AreaOf(g, b)]), OffsetOf(g, b))
  {
    seq(g.U, b requires 0 <= b < g.U => EntryIn(TableAt(cells, areaBlock[AreaOf(g, b)], at[AreaOf(g, b)]), OffsetOf(g, b)))
  }

  /** The update the index table announces counts as done. */
  function Announced(m: seq<AreaEntry>, plr: Plr): (r: seq<AreaEntry>)
    ensures |r| == |m|
  {
    if plr.Plr? && plr.logical < |m| then m[plr.logical := plr.entry] else m
  }

  // ---------------------------------------------------------------- what a mount needs

  /** Page n - 1 is the newest of the block. */
  ghost predicate TopIs(b: PhysBlock, n: nat, page: Page) {
    1 <= n && Prefix(b, n) && b[n - 1] == page
  }

  /** The anchor block after b, in a ring. */
  function NextAnchor(g: Device, b: nat): nat {
    if b + 1 > g.aHi then g.aLo else b + 1
  }

  /** No anchor block is logged as bad. */
  predicate AnchorsGood(g: Device, bad: seq<nat>) {
    forall x :: g.aLo <= x <= g.aHi ==> x !in bad
  }

  /** One anchor block is written, up to page ancNext. */
  ghost predicate AnchorSpot(g: Device, cells: seq<PhysBlock>, ancBlock: nat, ancNext: nat) {
    && ShapedCells(cells, g.T, g.P) && g.aLo <= ancBlock <= g.aHi && 1 <= ancNext && Prefix(cells[ancBlock], ancNext)
    && forall x :: g.aLo <= x <= g.aHi && x != ancBlock ==> Prefix(cells[x], 0)
  }

  /** Its newest record is `anc`. */
  ghost predicate AnchorHeld(g: Device, cells: seq<PhysBlock>, ancBlock: nat, ancNext: nat, anc: AnchorTable)
    requires ShapedCells(cells, g.T, g.P)
  {
    && g.aLo <= ancBlock <= g.aHi && TopIs(cells[ancBlock], ancNext, Anchor(anc))
    && forall x :: g.aLo <= x <= g.aHi && x != ancBlock ==> Prefix(cells[x], 0)
  }

  /** A power loss in ANCHOR_Update may leave two anchor blocks: the full one, with record `older`,
      and the next in the ring, with the one record `newer`. */
  ghost predicate TwoAnchors(g: Device, cells: seq<PhysBlock>, block: nat, older: AnchorTable, newer: AnchorTable)
    requires ShapedCells(cells, g.T, g.P)
  {
    && g.aLo <= block <= g.aHi && TopIs(cells[block], g.P, Anchor(older))
    && TopIs(cells[NextAnchor(g, block)], 1, Anchor(newer)) && newer.previous == Some(block)
    && forall x :: g.aLo <= x <= g.aHi && x != block && x != NextAnchor(g, block) ==> Prefix(cells[x], 0)
  }

  /** The index table is on the anchor's new block or, as long as that is empty, on its old one;
      the record has the block's erase count. */
  ghost predicate IndexHeld(g: Device, cells: seq<PhysBlock>, anc: AnchorTable, holder: nat, holderEc: nat, next: nat, ix: IndexTable)
    requires ShapedCells(cells, g.T, g.P)
  {
    && DataLo(g) <= holder < g.T && TopIs(cells[holder], next, Index(ix))
    && ((anc.newBlock == holder && anc.newEc == holderEc)
        || (anc.oldBlock == Some(holder) && anc.oldEc == holderEc && DataLo(g) <= anc.newBlock < g.T && Prefix(cells[anc.newBlock], 0)))
  }

  ghost predicate AreaHeld(g: Device, cells: seq<PhysBlock>, block: nat, page: nat)
    requires ShapedCells(cells, g.T, g.P)
  {
    block < g.T && page < g.P && Prefix(cells[block], page + 1) && cells[block][page].Area? && |cells[block][page].entries| == g.R
  }

  ghost predicate AreasHeld(g: Device, cells: seq<PhysBlock>, areaBlock: seq<nat>, at: seq<nat>)
    requires ShapedCells(cells, g.T, g.P)
  {
    |areaBlock| == g.A && |at| == g.A && forall a :: 0 <= a < g.A ==> AreaHeld(g, cells, areaBlock[a], at[a])
  }

  /** Every physical block has one owner among the mapped blocks and the blocks an index table names. */
  ghost predicate Owners(g: Device, ix: IndexTable, holder: nat, mapped: seq<AreaEntry>) {
    && |ix.areaBlock| == |ix.areaEc| == g.A && Sorted(ix.free) && (ix.plr.Plr? ==> ix.plr.logical < g.U)
    && Partition(g, mapped, ix.areaBlock, holder, ix.free)
  }

  /** An index table and the area tables it names describe the mapping `mapped`, in which every
      physical block has one owner. */
  ghost predicate Laid(g: Device, cells: seq<PhysBlock>, ix: IndexTable, at: seq<nat>, holder: nat, mapped: seq<AreaEntry>) {
    && ShapedCells(cells, g.T, g.P) && AreasHeld(g, cells, ix.areaBlock, at) && Owners(g, ix, holder, mapped)
    && mapped == Announced(MapOf(g, ix.areaBlock, at, cells), ix.plr)
  }

  /** The announced update is in its area table, or that has room for it. */
  ghost predicate UpdateFits(g: Device, cells: seq<PhysBlock>, ix: IndexTable, at: seq<nat>, mapped: seq<AreaEntry>) {
    && |ix.areaBlock| == |at| == g.A
    && (MapOf(g, ix.areaBlock, at, cells) == mapped
        || (ix.plr.Plr? && ix.plr.logical < g.U && at[AreaOf(g, ix.plr.logical)] + 1 < g.P))
  }

  /** What a mount recovers. */
  datatype Rec = Rec(anc: AnchorTable, ancBlock: nat, ancNext: nat, holder: nat, holderEc: nat, next: nat,
               ix: IndexTable, at: seq<nat>, mapped: seq<AreaEntry>)

  ghost predicate Boots(g: Device, cells: seq<PhysBlock>, r: Rec) {
    && Laid(g, cells, r.ix, r.at, r.holder, r.mapped)
    && AnchorHeld(g, cells, r.ancBlock, r.ancNext, r.anc) && AnchorsGood(g, r.anc.bad)
    && IndexHeld(g, cells, r.anc, r.holder, r.holderEc, r.next, r.ix)
    && UpdateFits(g, cells, r.ix, r.at, r.mapped)
  }

  /** The same with two anchor blocks: both records lead to the index table, and a mount moves it
      whichever of them it takes. */
  ghost predicate BootsTwice(g: Device, cells: seq<PhysBlock>, r: Rec, newer: AnchorTable) {
    && Laid(g, cells, r.ix, r.at, r.holder, r.mapped)
    && TwoAnchors(g, cells, r.ancBlock, r.anc, newer) && AnchorsGood(g, r.anc.bad) && AnchorsGood(g, newer.bad)
    && IndexHeld(g, cells, r.anc, r.holder, r.holderEc, r.next, r.ix) && IndexHeld(g, cells, newer, r.holder, r.holderEc, r.next, r.ix)
    && newer.newBlock != r.holder && (r.anc.newBlock == r.holder ==> r.next == g.P)
    && UpdateFits(g, cells, r.ix, r.at, r.mapped)
  }

  /** A mount finds the tables of r. */
  ghost predicate Leads(g: Device, cells: seq<PhysBlock>, r: Rec) {
    Boots(g, cells, r) || exists newer :: BootsTwice(g, cells, r, newer)
  }

  // ---------------------------------------------------------------- what single flash steps keep

  /** The block is neither an area table nor the index table nor an anchor block. */
  ghost predicate Loose(g: Device, ix: IndexTable, holder: nat, x: nat) {
    DataLo(g) <= x < g.T && x != holder && x !in ix.areaBlock
  }

  /** The mapping depends on the area tables only. */
  lemma MapDepends(g: Device, areaBlock: seq<nat>, at: seq<nat>, cells: seq<PhysBlock>, cells': seq<PhysBlock>)
    requires |areaBlock| == g.A && |at| == g.A && |cells| == |cells'|
    requires forall a :: 0 <= a < g.A && areaBlock[a] < |cells| ==> cells'[areaBlock[a]] == cells[areaBlock[a]]
    ensures MapOf(g, areaBlock, at, cells') == MapOf(g, areaBlock, at, cells)
  {
  }

  lemma LaidDepends(g: Device, cells: seq<PhysBlock>, cells': seq<PhysBlock>, ix: IndexTable, at: seq<nat>, holder: nat, mapped: seq<AreaEntry>)
    requires Laid(g, cells, ix, at, holder, mapped) && ShapedCells(cells', g.T, g.P)
    requires forall a :: 0 <= a < g.A ==> cells'[ix.areaBlock[a]] == cells[ix.areaBlock[a]]
    ensures Laid(g, cells', ix, at, holder, mapped)
  {
    hide Partition, Sorted;
    forall a | 0 <= a < g.A
      ensures AreaHeld(g, cells', ix.areaBlock[a], at[a])
    {
      assert AreaHeld(g, cells, ix.areaBlock[a], at[a]);
    }
    MapDepends(g, ix.areaBlock, at, cells, cells');
    hide MapOf;
  }

  /** Erasing or writing a loose block changes nothing a mount sees. */
  lemma TouchKeeps(g: Device, cells: seq<PhysBlock>, r: Rec, x: nat, b: PhysBlock)
    requires Boots(g, cells, r) && Loose(g, r.ix, r.holder, x) && |b| == g.P
    requires x == r.anc.newBlock ==> Prefix(b, 0)
    ensures Boots(g, cells[x := b], r)
  {
    hide Partition, Sorted, MapOf, AreaOf;
    LaidDepends(g, cells, cells[x := b], r.ix, r.at, r.holder, r.mapped);
    MapDepends(g, r.ix.areaBlock, r.at, cells, cells[x := b]);
    hide Laid;
  }

  /** The tables do not depend on the anchor blocks. */
  lemma TablesStay(g: Device, cells: seq<PhysBlock>, now: seq<PhysBlock>, r: Rec)
    requires Laid(g, cells, r.ix, r.at, r.holder, r.mapped) && UpdateFits(g, cells, r.ix, r.at, r.mapped)
    requires ShapedCells(now, g.T, g.P) && forall x :: DataLo(g) <= x < g.T ==> now[x] == cells[x]
    ensures Laid(g, now, r.ix, r.at, r.holder, r.mapped) && UpdateFits(g, now, r.ix, r.at, r.mapped)
  {
    hide Sorted, MapOf, AreaOf;
    Apart(g, r.mapped, r.ix.areaBlock, r.holder, r.ix.free);
    hide Partition;
    LaidDepends(g, cells, now, r.ix, r.at, r.holder, r.mapped);
    MapDepends(g, r.ix.areaBlock, r.at, cells, now);
  }

  /** A record that announces a blank new block for the index table. */
  ghost predicate Announces(g: Device, cells: seq<PhysBlock>, anc: AnchorTable, holder: nat, holderEc: nat) {
    && ShapedCells(cells, g.T, g.P) && DataLo(g) <= anc.newBlock < g.T && Prefix(cells[anc.newBlock], 0)
    && anc.oldBlock == Some(holder) && anc.oldEc == holderEc && AnchorsGood(g, anc.bad)
  }

  /** Such a record leaves the index table where it is. */
  lemma AnchorKeeps(g: Device, cells: seq<PhysBlock>, r: Rec, now: seq<PhysBlock>, anc: AnchorTable, ancBlock: nat, ancNext: nat)
    requires Boots(g, cells, r) && ShapedCells(now, g.T, g.P) && forall x :: DataLo(g) <= x < g.T ==> now[x] == cells[x]
    requires Announces(g, cells, anc, r.holder, r.holderEc) && AnchorHeld(g, now, ancBlock, ancNext, anc)
    ensures Boots(g, now, r.(anc := anc, ancBlock := ancBlock, ancNext := ancNext))
  {
    hide Sorted, MapOf, AreaOf;
    TablesStay(g, cells, now, r);
    hide Laid, UpdateFits;
  }

  /** It does so, too, on a second anchor block while the first is still there. */
  lemma AnchorTwice(g: Device, cells: seq<PhysBlock>, r: Rec, anc: AnchorTable)
    requires Boots(g, cells, r) && r.ancNext == g.P && (r.anc.newBlock == r.holder ==> r.next == g.P)
    requires Announces(g, cells, anc, r.holder, r.holderEc) && anc.previous == Some(r.ancBlock)
    ensures NextAnchor(g, r.ancBlock) < |cells|
    ensures BootsTwice(g, cells[NextAnchor(g, r.ancBlock) := ClearBlock(g.P)[0 := Anchor(anc)]], r, anc)
  {
    hide Sorted, MapOf, AreaOf;
    var now := cells[NextAnchor(g, r.ancBlock) := ClearBlock(g.P)[0 := Anchor(anc)]];
    TablesStay(g, cells, now, r);
    hide Laid, UpdateFits;
  }

  /** Writing the index table makes the mapping it describes the one a mount recovers. */
  lemma IndexWritten(g: Device, cells: seq<PhysBlock>, anc: AnchorTable, ancBlock: nat, ancNext: nat,
                     holder: nat, holderEc: nat, next: nat, ix: IndexTable, at: seq<nat>, mapped: seq<AreaEntry>)
    requires Laid(g, cells, ix, at, holder, mapped) && AnchorHeld(g, cells, ancBlock, ancNext, anc) && anc.newBlock == holder && anc.newEc == holderEc
    requires DataLo(g) <= holder < g.T && next < g.P && Prefix(cells[holder], next) && AnchorsGood(g, anc.bad) && UpdateFits(g, cells, ix, at, mapped)
    ensures Boots(g, cells[holder := cells[holder][next := Index(ix)]], Rec(anc, ancBlock, ancNext, holder, holderEc, next + 1, ix, at, mapped))
  {
    hide Sorted, MapOf;
    Apart(g, mapped, ix.areaBlock, holder, ix.free);
    hide Partition;
    var w := cells[holder := cells[holder][next := Index(ix)]];
    LaidDepends(g, cells, w, ix, at, holder, mapped);
    MapDepends(g, ix.areaBlock, at, cells, w);
    hide Laid, AreaOf;
  }

  /** The area table with the entry of logical block b replaced. */
  function Updated(g: Device, t: seq<AreaEntry>, b: nat, e: AreaEntry): (r: seq<AreaEntry>)
    ensures |r| == |t|
  {
    if OffsetOf(g, b) < |t| then t[OffsetOf(g, b) := e] else t
  }

  lemma SameLogical(g: Device, b: nat, c: nat)
    requires b < g.U && c < g.U && AreaOf(g, b) == AreaOf(g, c) && OffsetOf(g, b) == OffsetOf(g, c)
    ensures b == c
  {
    G.PlaceOf(g.R, b);
    G.PlaceOf(g.R, c);
  }

  /** Wherever the updated table is written, the mapping changes at b only. */
  lemma TableMoved(g: Device, areaBlock: seq<nat>, at: seq<nat>, cells: seq<PhysBlock>, w: seq<PhysBlock>, b: nat, e: AreaEntry, block: nat, page: nat)
    requires |areaBlock| == g.A && |at| == g.A && b < g.U
    requires var t := TableAt(cells, areaBlock[AreaOf(g, b)], at[AreaOf(g, b)]);
             |t| == g.R && TableAt(w, block, page) == Updated(g, t, b, e)
    requires forall c :: 0 <= c < g.A && c != AreaOf(g, b) ==> TableAt(w, areaBlock[c], at[c]) == TableAt(cells, areaBlock[c], at[c])
    ensures var a := AreaOf(g, b);
            MapOf(g, areaBlock[a := block], at[a := page], w) == MapOf(g, areaBlock, at, cells)[b := e]
  {
    var a := AreaOf(g, b);
    var m, n := MapOf(g, areaBlock, at, cells), MapOf(g, areaBlock[a := block], at[a := page], w);
    hide AreaOf, OffsetOf, TableAt;
    forall c: nat | c < g.U
      ensures n[c] == if c == b then e else m[c]
    {
      if AreaOf(g, c) == a && OffsetOf(g, c) == OffsetOf(g, b) {
        SameLogical(g, b, c);
      }
    }
  }

  /** AREA_Update on a block with room. */
  lemma AreaWritten(g: Device, cells: seq<PhysBlock>, ix: IndexTable, at: seq<nat>, holder: nat, mapped: seq<AreaEntry>, b: nat, e: AreaEntry)
    requires Laid(g, cells, ix, at, holder, mapped) && ix.plr == Plr(b, e) && at[AreaOf(g, b)] + 1 < g.P
    ensures var a := AreaOf(g, b);
            var n := ix.areaBlock[a];
            var t := TableAt(cells, n, at[a]);
            && |t| == g.R && DataLo(g) <= n < g.T && n != holder && cells[n][at[a] + 1].Clear?
            && var w := cells[n := cells[n][at[a] + 1 := Area(Updated(g, t, b, e))]];
               && Laid(g, w, ix, at[a := at[a] + 1], holder, mapped)
               && AreaHeld(g, w, n, at[a] + 1) && MapOf(g, ix.areaBlock, at[a := at[a] + 1], w) == mapped
  {
    hide Sorted, MapOf, AreaOf, OffsetOf;
    Apart(g, mapped, ix.areaBlock, holder, ix.free);
    hide Partition;
    var a := AreaOf(g, b);
    var n := ix.areaBlock[a];
    assert AreaHeld(g, cells, n, at[a]);
    var t := TableAt(cells, n, at[a]);
    var w := cells[n := cells[n][at[a] + 1 := Area(Updated(g, t, b, e))]];
    forall c | 0 <= c < g.A
      ensures AreaHeld(g, w, ix.areaBlock[c], at[a := at[a] + 1][c])
      ensures c != a ==> TableAt(w, ix.areaBlock[c], at[c]) == TableAt(cells, ix.areaBlock[c], at[c])
    {
      assert AreaHeld(g, cells, ix.areaBlock[c], at[c]);
    }
    TableMoved(g, ix.areaBlock, at, cells, w, b, e, n, at[a] + 1);
    assert ix.areaBlock[a := n] == ix.areaBlock;
  }

  /** INDEX_Update_AreaReclaim and AREA_Update on the new block. */
  lemma AreaMoved(g: Device, cells: seq<PhysBlock>, ix: IndexTable, at: seq<nat>, holder: nat, mapped: seq<AreaEntry>, b: nat, e: AreaEntry, i: nat, ec: nat)
    requires Laid(g, cells, ix, at, holder, mapped) && ix.plr == Plr(b, e) && i < g.F && ix.free[i].Free?
    ensures var a := AreaOf(g, b);
            var n, o := ix.free[i].block, ix.areaBlock[a];
            var t := TableAt(cells, o, at[a]);
            && |t| == g.R && DataLo(g) <= n < g.T && n != o && n != holder
            && var ix1 := ix.(areaBlock := ix.areaBlock[a := n], areaEc := ix.areaEc[a := ec], free := Exchange(ix.free, i, o, ix.areaEc[a]));
               var w := cells[n := ClearBlock(g.P)[0 := Area(Updated(g, t, b, e))]];
               && Laid(g, w, ix1, at[a := 0], holder, mapped) && AreaHeld(g, w, n, 0)
               && MapOf(g, ix1.areaBlock, at[a := 0], w) == mapped
  {
    hide Sorted, MapOf, AreaOf, OffsetOf, Exchange;
    var a := AreaOf(g, b);
    var n, o := ix.free[i].block, ix.areaBlock[a];
    AreaExchange(g, mapped, ix.areaBlock, holder, ix.free, a, i, ix.areaEc[a]);
    Apart(g, mapped, ix.areaBlock, holder, ix.free);
    FreeApart(g, mapped, ix.areaBlock, holder, ix.free, i);
    hide Partition;
    assert AreaHeld(g, cells, o, at[a]);
    var t := TableAt(cells, o, at[a]);
    var w := cells[n := ClearBlock(g.P)[0 := Area(Updated(g, t, b, e))]];
    forall c | 0 <= c < g.A
      ensures AreaHeld(g, w, ix.areaBlock[a := n][c], at[a := 0][c])
      ensures c != a ==> TableAt(w, ix.areaBlock[c], at[c]) == TableAt(cells, ix.areaBlock[c], at[c])
    {
      assert AreaHeld(g, cells, ix.areaBlock[c], at[c]);
    }
    TableMoved(g, ix.areaBlock, at, cells, w, b, e, n, 0);
  }
}
