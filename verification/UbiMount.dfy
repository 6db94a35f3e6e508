/** UBI_Init: the tables are found on flash again, and an update that was cut short is finished. */
module UbiMount {
  import opened Flash
  import opened Nand
  import Table
  import opened FreeTable
  import opened UbiSpec
  import opened UbiFlash
  import opened UbiState
  import opened UbiIndex
  import opened UbiAnchor
  import opened UbiArea
  import opened UbiWear
  import opened UbiCommit

  // ---------------------------------------------------------------- ANCHOR_Init

  /** One or two anchor blocks are written: `lo` with n records, the last of them `first`, and
      perhaps a later block, whose last record is `second`. */
  ghost predicate AnchorBlocks(g: Device, cells: seq<PhysBlock>, lo: nat, n: nat, first: AnchorTable, hi: Option<nat>, m: nat, second: AnchorTable) {
    && ShapedCells(cells, g.T, g.P) && g.aLo <= lo <= g.aHi && TopIs(cells[lo], n, Anchor(first))
    && (hi.Some? ==> lo < hi.value <= g.aHi && TopIs(cells[hi.value], m, Anchor(second)))
    && forall x :: g.aLo <= x <= g.aHi && x != lo && hi != Some(x) ==> Prefix(cells[x], 0)
  }

  /** ANCHOR_Init takes the lower block if that names the other as the one before it. */
  function Keeps(lo: nat, first: AnchorTable, hi: Option<nat>): bool {
    hi.None? || first.previous == hi
  }

  /** ANCHOR_Init.  Of two written blocks the one that is out of date is erased; the record in RAM
      is that of the upper block, whichever is kept. */
  method AnchorInit(s: Ubi, ghost lo: nat, ghost n: nat, ghost first: AnchorTable, ghost hi: Option<nat>, ghost m: nat, ghost second: AnchorTable)
    returns (st: Status)
    requires s.Sound() && s.nand.faults == 0 && AnchorBlocks(s.g, s.nand.cells, lo, n, first, hi, m, second)
    requires hi.Some? && first.previous != hi ==> second.previous == Some(lo)
    modifies s`anc, s`ancBlock, s`ancNext, s.nand
    ensures s.Sound() && s.nand.faults == 0 && s.nand.power.Some? == old(s.nand.power).Some?
    ensures st == Success ==>
              && s.anc == (if hi.None? then first else second)
              && (if Keeps(lo, first, hi) then s.ancBlock == lo && s.ancNext == n else s.ancBlock == hi.value && s.ancNext == m)
              && lo < |old(s.nand.cells)| && (hi.Some? ==> hi.value < |old(s.nand.cells)|)
              && s.nand.cells == if hi.None? then old(s.nand.cells)
                                 else old(s.nand.cells)[(if Keeps(lo, first, hi) then hi.value else lo) := ClearBlock(s.g.P)]
    ensures st != Success ==> st == PowerLoss && old(s.nand.power).Some? && s.nand.cells == old(s.nand.cells)
  {
    var found, previous := false, None;
    var block := s.g.aLo;
    st := Success;
    while block <= s.g.aHi
      invariant s.g.aLo <= block <= s.g.aHi + 1 && s.Sound() && s.nand.faults == 0
      invariant found == (lo < block) && (hi.Some? ==> block <= hi.value)
      invariant found ==> s.anc == first && s.ancBlock == lo && s.ancNext == n && previous == first.previous
      invariant st == Success && s.nand.cells == old(s.nand.cells) && s.nand.power == old(s.nand.power)
    {
      var readable, c := Table.ReadAt(s.nand, block, 0);
      if readable == Success {
        var page;
        readable, page, c := Table.FindNewest(s.nand, block, if block == lo then n else m);
        s.anc := c.anchor;
        if !found {
          s.ancBlock, s.ancNext, previous, found := block, page + 1, s.anc.previous, true;
        } else {
          var stale := block;
          if previous != Some(block) {
            stale := s.anc.previous.value;
            s.ancBlock, s.ancNext := block, page + 1;
          }
          st := s.nand.Erase(stale);
          break;
        }
      }
      block := block + 1;
    }
  }

  // ---------------------------------------------------------------- INDEX_Init

  /** The index table read from flash becomes index_table. */
  method LoadIndex(s: Ubi, ix: IndexTable)
    requires s.Sound() && |ix.free| == s.g.F
    modifies s`areaBlock, s`areaEc, s`plr, s.free
    ensures s.Index() == ix
  {
    s.areaBlock, s.areaEc, s.plr := ix.areaBlock, ix.areaEc, ix.plr;
    forall i | 0 <= i < s.free.Length {
      s.free[i] := ix.free[i];
    }
    assert s.free[..] == ix.free;
  }

  /** The index table of w is on flash, and one anchor block. */
  ghost predicate Named(g: Device, cells: seq<PhysBlock>, w: Rec) {
    && ShapedCells(cells, g.T, g.P) && Owners(g, w.ix, w.holder, w.mapped)
    && AnchorHeld(g, cells, w.ancBlock, w.ancNext, w.anc) && IndexHeld(g, cells, w.anc, w.holder, w.holderEc, w.next, w.ix)
  }

  /** After ANCHOR_Init: the record in RAM leads to the same index table as w's.  If that is not the
      record on flash, the index table is about to move. */
  ghost predicate Anchored(s: Ubi, w: Rec)
    reads s, s.nand
  {
    && Named(s.g, s.nand.cells, w) && s.ancBlock == w.ancBlock && s.ancNext == w.ancNext && AnchorsGood(s.g, s.anc.bad)
    && IndexHeld(s.g, s.nand.cells, s.anc, w.holder, w.holderEc, w.next, w.ix)
    && (s.anc == w.anc || w.anc.newBlock != w.holder || w.next == s.g.P) && (s.anc == w.anc || s.anc.newBlock != w.holder || w.next == s.g.P)
  }

  lemma BootsNamed(g: Device, cells: seq<PhysBlock>, w: Rec)
    requires Boots(g, cells, w)
    ensures Named(g, cells, w)
  {
    hide Partition, Sorted, MapOf;
  }

  /** The index table names an erased block for area `lost`; the other area tables are there, and the
      announced update, if it is for one of those, is in its table. */
  ghost predicate AreasBut(g: Device, cells: seq<PhysBlock>, ix: IndexTable, at: seq<nat>, lost: nat) {
    && ShapedCells(cells, g.T, g.P) && |ix.areaBlock| == |at| == g.A && lost < g.A && AreaBlank(g, cells, ix.areaBlock[lost])
    && (forall a :: 0 <= a < g.A && a != lost ==> AreaHeld(g, cells, ix.areaBlock[a], at[a]))
    && (ix.plr.Plr? && ix.plr.logical < g.U && AreaOf(g, ix.plr.logical) != lost ==>
          EntryIn(TableAt(cells, ix.areaBlock[AreaOf(g, ix.plr.logical)], at[AreaOf(g, ix.plr.logical)]), OffsetOf(g, ix.plr.logical)) == ix.plr.entry)
  }

  /** What UBI_Init is run on: the tables of r are found, or an area table is lost. */
  ghost predicate Before(g: Device, cells: seq<PhysBlock>, r: Rec, lost: Option<nat>) {
    match lost
    case None => Leads(g, cells, r)
    case Some(a) => Named(g, cells, r) && AnchorsGood(g, r.anc.bad) && AreasBut(g, cells, r.ix, r.at, a)
  }

  /** The same after ANCHOR_Init. */
  ghost predicate Between(g: Device, cells: seq<PhysBlock>, w: Rec, lost: Option<nat>) {
    match lost
    case None => Boots(g, cells, w)
    case Some(a) => AreasBut(g, cells, w.ix, w.at, a)
  }

  /** The index table on flash and its place. */
  ghost function PlaceIn(r: Rec): Place {
    Place(r.ix, r.holder, r.holderEc)
  }

  /** The index table is found on the anchor's new block or else on its old one. */
  method FindIndex(s: Ubi, ghost w: Rec)
    requires s.Sound() && s.nand.faults == 0 && Anchored(s, w)
    modifies s`areaBlock, s`areaEc, s`plr, s`holder, s`holderEc, s`next, s.free
    ensures Standing(s, w.mapped) && s.Index() == w.ix && s.holder == w.holder && s.holderEc == w.holderEc
    ensures s.next == if s.anc.newBlock == w.holder then w.next else s.g.P
    ensures Boots(s.g, s.nand.cells, w) ==> Staged(s, w.at, w.mapped) && OnDisk(s, w)
  {
    hide Laid, AnchorHeld, AnchorSpot, UpdateFits, Boots, Owners;
    NamedParts(s.g, s.nand.cells, w);
    if Boots(s.g, s.nand.cells, w) {
      BootsParts(s.g, s.nand.cells, w);
    }
    NewOrOld(s.g, s.nand.cells, s.anc, w);
    var st, page, c := Table.FindNewest(s.nand, s.anc.newBlock, if s.anc.newBlock == w.holder then w.next else 0);
    if st == Success {
      LoadIndex(s, c.index);
      s.holder, s.holderEc, s.next := s.anc.newBlock, s.anc.newEc, page + 1;
    } else {
      st, page, c := Table.FindNewest(s.nand, s.anc.oldBlock.value, w.next);
      LoadIndex(s, c.index);
      s.holder, s.holderEc, s.next := s.anc.oldBlock.value, s.anc.oldEc, s.g.P;
    }
  }

  lemma NewOrOld(g: Device, cells: seq<PhysBlock>, anc: AnchorTable, r: Rec)
    requires ShapedCells(cells, g.T, g.P) && IndexHeld(g, cells, anc, r.holder, r.holderEc, r.next, r.ix)
    ensures r.holder < g.T && Prefix(cells[r.holder], r.next) && cells[r.holder][r.next - 1] == Index(r.ix)
    ensures 1 <= r.next <= g.P && anc.newBlock < g.T
    ensures if anc.newBlock == r.holder then anc.newEc == r.holderEc
            else Prefix(cells[anc.newBlock], 0) && anc.oldBlock == Some(r.holder) && anc.oldEc == r.holderEc
    ensures DataLo(g) <= r.holder
  {
  }

  lemma NamedParts(g: Device, cells: seq<PhysBlock>, r: Rec)
    requires Named(g, cells, r)
    ensures AnchorSpot(g, cells, r.ancBlock, r.ancNext) && |r.ix.free| == g.F >= 2
  {
  }

  /** What ANCHOR_Init leaves of two anchor blocks. */
  lemma OneLeft(g: Device, cells: seq<PhysBlock>, r: Rec, newer: AnchorTable, lo: nat, hi: nat)
    requires BootsTwice(g, cells, r, newer) && lo < hi
    requires (lo == r.ancBlock && hi == NextAnchor(g, r.ancBlock)) || (hi == r.ancBlock && lo == NextAnchor(g, r.ancBlock))
    ensures hi < |cells|
    ensures var first := if lo == r.ancBlock then r.anc else newer;
            var keep := Keeps(lo, first, Some(hi));
            Boots(g, cells[(if keep then hi else lo) := ClearBlock(g.P)],
                  if (if keep then lo else hi) == r.ancBlock then r.(ancNext := g.P)
                  else r.(anc := newer, ancBlock := NextAnchor(g, r.ancBlock), ancNext := 1))
  {
    hide Sorted, MapOf, AreaOf;
    var first := if lo == r.ancBlock then r.anc else newer;
    var gone := if Keeps(lo, first, Some(hi)) then hi else lo;
    TablesStay(g, cells, cells[gone := ClearBlock(g.P)], r);
    hide Laid, UpdateFits;
  }

  /** ANCHOR_Init on whatever a power loss left. */
  method FindAnchor(s: Ubi, ghost r: Rec, ghost lost: Option<nat>) returns (st: Status, ghost w: Rec)
    requires s.Sound() && s.nand.faults == 0 && Before(s.g, s.nand.cells, r, lost)
    modifies s`anc, s`ancBlock, s`ancNext, s.nand
    ensures s.Sound() && s.nand.faults == 0 && s.nand.power.Some? == old(s.nand.power).Some?
    ensures st == Success ==> Anchored(s, w) && SameTables(r, w) && Between(s.g, s.nand.cells, w, lost)
    ensures st != Success ==> st == PowerLoss && old(s.nand.power).Some? && Before(s.g, s.nand.cells, r, lost)
    ensures |s.nand.cells| == |old(s.nand.cells)| && forall x :: DataLo(s.g) <= x < s.g.T ==> s.nand.cells[x] == old(s.nand.cells)[x]
  {
    hide Laid, UpdateFits, IndexHeld, Owners, AreasBut;
    ghost var cells := s.nand.cells;
    ghost var lo, n, first, hi: Option<nat>, m, second := r.ancBlock, r.ancNext, r.anc, None, 0, r.anc;
    ghost var newer := r.anc;
    ghost var two := lost.None? && !Boots(s.g, cells, r);
    if two {
      var later: AnchorTable :| BootsTwice(s.g, cells, r, later);
      newer := later;
      var next := NextAnchor(s.g, r.ancBlock);
      if r.ancBlock < next {
        n, hi, m, second := s.g.P, Some(next), 1, newer;
        OneLeft(s.g, cells, r, newer, r.ancBlock, next);
      } else {
        lo, n, first, hi, m, second := next, 1, newer, Some(r.ancBlock), s.g.P, r.anc;
        OneLeft(s.g, cells, r, newer, next, r.ancBlock);
      }
    }
    st := AnchorInit(s, lo, n, first, hi, m, second);
    w := r;
    if two && st == Success {
      w := if s.ancBlock == r.ancBlock then r.(ancNext := s.g.P) else r.(anc := newer, ancBlock := NextAnchor(s.g, r.ancBlock), ancNext := 1);
      HeldElsewhere(s.g, cells, s.nand.cells, r, newer);
    }
    if st == Success && lost.None? {
      BootsNamed(s.g, s.nand.cells, w);
    }
  }

  /** Erasing an anchor block leaves the index table to be found. */
  lemma HeldElsewhere(g: Device, cells: seq<PhysBlock>, now: seq<PhysBlock>, r: Rec, newer: AnchorTable)
    requires BootsTwice(g, cells, r, newer) && ShapedCells(now, g.T, g.P) && forall x :: DataLo(g) <= x < g.T ==> now[x] == cells[x]
    ensures IndexHeld(g, now, r.anc, r.holder, r.holderEc, r.next, r.ix) && IndexHeld(g, now, newer, r.holder, r.holderEc, r.next, r.ix)
  {
    hide Laid, UpdateFits, TwoAnchors;
  }

  // ---------------------------------------------------------------- UBI_Init

  /** The index table is up to date; its announced update may still be missing from the area table. */
  ghost predicate Mounted(s: Ubi, at: seq<nat>, mapped: seq<AreaEntry>)
    reads s, s.nand, s.free
  {
    && Staged(s, at, mapped) && Boots(s.g, s.nand.cells, RecOf(s, at, mapped)) && s.next >= 1 && s.anc.newBlock == s.holder
    && CacheOk(s.g, s.Tables(), s.nand.cells, at) && |s.cached| == s.g.R && !s.updating && |s.areaEc| == s.g.A
  }

  /** The index table is up to date, but an area table is lost. */
  ghost predicate Halfway(s: Ubi, at: seq<nat>, lost: nat)
    reads s, s.nand, s.free
  {
    && s.Sound() && s.nand.faults == 0 && AreasBut(s.g, s.nand.cells, s.Index(), at, lost)
    && CacheOk(s.g, s.Tables(), s.nand.cells, at) && |s.cached| == s.g.R && !s.updating && s.offset[lost] == None
  }

  /** INDEX_Init is done. */
  ghost predicate Indexed(s: Ubi, at: seq<nat>, mapped: seq<AreaEntry>, lost: Option<nat>)
    reads s, s.nand, s.free
  {
    match lost
    case None => Mounted(s, at, mapped)
    case Some(a) => Halfway(s, at, a)
  }

  /** AREA_CheckUpdatePLR: whether the announced update is missing from the area table.  (The entry
      the source sets in the cache here is set again by AREA_Update.) */
  method NeedsUpdate(s: Ubi, ghost at: seq<nat>, ghost mapped: seq<AreaEntry>, ghost lost: Option<nat>) returns (need: bool)
    requires Indexed(s, at, mapped, lost) && s.plr.Plr? && s.plr.logical < s.g.U && s.cachedArea == Some(AreaOf(s.g, s.plr.logical))
    ensures lost.None? ==> |at| == |s.areaBlock| == s.g.A && (need <==> MapOf(s.g, s.areaBlock, at, s.nand.cells) != mapped)
    ensures lost.Some? && AreaOf(s.g, s.plr.logical) != lost.value ==> !need
  {
    hide Boots, AnchorHeld, AnchorSpot, AreaOf, OffsetOf, AreasHeld, Partition, Sorted, AreaHeld;
    CachedEntry(s, at, mapped, lost);
    need := s.cached[OffsetOf(s.g, s.plr.logical)] != s.plr.entry;
  }

  lemma CachedEntry(s: Ubi, at: seq<nat>, mapped: seq<AreaEntry>, lost: Option<nat>)
    requires Indexed(s, at, mapped, lost)
    ensures CacheOk(s.g, s.Tables(), s.nand.cells, at) && |s.cached| == s.g.R
  {
    hide Boots, Staged, AreasBut;
  }

  /** Reading one area, and finishing its update if it was cut short. */
  method InitArea(s: Ubi, a: nat, ghost at: seq<nat>, ghost mapped: seq<AreaEntry>, ghost lost: Option<nat>) returns (st: Status, ghost at': seq<nat>)
    requires Indexed(s, at, mapped, lost) && a < s.g.A
    modifies s, s.nand, s.free
    ensures s.Sound() && s.nand.faults == 0
    ensures MappedKept(old(s.nand.cells), s.nand.cells, mapped) && s.nand.power.Some? == old(s.nand.power).Some?
    ensures st == Success ==> Indexed(s, at', mapped, lost) && lost != Some(a) && Recorded(mapped, old(PlaceOf(s)), PlaceOf(s))
    ensures st == Success && lost.None? && (old(s.plr.Plr? && s.plr.logical < s.g.U && AreaOf(s.g, s.plr.logical) == a) || old(Steady(s, at, mapped))) ==>
              Steady(s, at', mapped)
    ensures st == Success && !old(s.plr.Plr? && s.plr.logical < s.g.U && AreaOf(s.g, s.plr.logical) == a) ==> s.plr == old(s.plr)
    ensures st != Success && lost.None? ==> old(s.nand.power).Some? && Finds(s.g, s.nand.cells, mapped)
  {
    hide Laid, AnchorHeld, AnchorSpot, Boots, AreaOf, MapOf, TableAt, Leads, AreaHeld, Owners, AreasBut, OffsetOf, Recorded;
    at' := at;
    AreaOnFlash(s, at, mapped, lost, a);
    SelfKept(s.nand.cells, mapped);
    SameRecorded(mapped, PlaceOf(s));
    st := AreaRead(s, a, at);
    if st == Success && s.plr.Plr? && s.plr.logical < s.g.U && AreaOf(s.g, s.plr.logical) == a {
      var need := NeedsUpdate(s, at, mapped, lost);
      if need {
        st, at' := FinishUpdate(s, at, mapped);
      }
    }
  }

  /** The announced update is carried out. */
  method FinishUpdate(s: Ubi, ghost at: seq<nat>, ghost mapped: seq<AreaEntry>) returns (st: Status, ghost at': seq<nat>)
    requires Mounted(s, at, mapped) && s.plr.Plr? && s.plr.logical < s.g.U
    requires |at| == |s.areaBlock| == s.g.A && MapOf(s.g, s.areaBlock, at, s.nand.cells) != mapped
    modifies s, s.nand, s.free
    ensures s.Sound() && s.nand.faults == 0
    ensures MappedKept(old(s.nand.cells), s.nand.cells, mapped) && s.nand.power.Some? == old(s.nand.power).Some?
    ensures st == Success ==> Mounted(s, at', mapped) && Steady(s, at', mapped) && Recorded(mapped, old(PlaceOf(s)), PlaceOf(s))
    ensures st != Success ==> old(s.nand.power).Some? && Finds(s.g, s.nand.cells, mapped)
  {
    hide Laid, AnchorHeld, AnchorSpot, AreaOf, MapOf, TableAt, Leads, AreasHeld, IndexHeld, Recorded, Committed, HolderChoice, NextArea, FreeAfterArea, BothTouched;
    ghost var place, next, b := PlaceOf(s), s.next, s.plr.logical;
    ghost var r := RecOf(s, at, mapped);
    s.updating := true;
    assert at[AreaOf(s.g, s.plr.logical)] + 1 < s.g.P;
    hide Boots;
    st, at' := Commit(s, s.plr.logical, s.plr.entry, at, mapped, r);
    if st == Success {
      CommittedRecorded(s.g, mapped, place, b, false, next);
      SteadyParts2(s, at', mapped);
    } else {
      FoundAgain(s.g, s.nand.cells, r, mapped);
    }
  }

  lemma FoundAgain(g: Device, cells: seq<PhysBlock>, r: Rec, mapped: seq<AreaEntry>)
    requires (StillBoots(g, cells, r) && r.mapped == mapped) || Finds(g, cells, mapped)
    ensures Finds(g, cells, mapped)
  {
    hide Leads;
  }

  lemma SelfKept(cells: seq<PhysBlock>, mapped: seq<AreaEntry>)
    ensures MappedKept(cells, cells, mapped)
  {
  }

  lemma SteadyParts2(s: Ubi, at: seq<nat>, mapped: seq<AreaEntry>)
    requires Steady(s, at, mapped)
    ensures |s.areaEc| == s.g.A
  {
    LaidParts(s.g, s.nand.cells, s.Index(), at, s.holder, mapped);
    hide Laid, AnchorHeld, Boots;
  }

  lemma AreaOnFlash(s: Ubi, at: seq<nat>, mapped: seq<AreaEntry>, lost: Option<nat>, a: nat)
    requires Indexed(s, at, mapped, lost) && a < s.g.A
    ensures |at| == |s.areaBlock| == s.g.A && s.Sound() && s.nand.faults == 0 && (lost.Some? ==> lost.value < s.g.A)
    ensures lost != Some(a) ==> AreaHeld(s.g, s.nand.cells, s.areaBlock[a], at[a])
    ensures lost == Some(a) ==> !AreaHeld(s.g, s.nand.cells, s.areaBlock[a], at[a]) && AreaBlank(s.g, s.nand.cells, s.areaBlock[a]) && s.offset[a] == None && s.cachedArea != Some(a)
  {
    hide Boots, MapOf, Partition, Sorted, AnchorSpot, AnchorHeld;
  }

  /** The index table moves to no area block. */
  lemma FreshOk(s: Ubi, w: Rec)
    requires Standing(s, w.mapped) && s.Index() == w.ix
    ensures CrashOk(s, w)
  {
    hide Standing, NextHolder;
    TablesApart(s, w.mapped);
  }

  /** INDEX_Init.  (One of its calls of index_update ignores the status, but a power loss in it ends
      the mount as well.) */
  method IndexInit(s: Ubi, ghost w: Rec, ghost lost: Option<nat>) returns (st: Status)
    requires s.Sound() && s.Sized() && s.nand.faults == 0 && Anchored(s, w) && Between(s.g, s.nand.cells, w, lost)
    modifies s, s.nand, s.free
    ensures s.Sound() && s.nand.faults == 0
    ensures MappedKept(old(s.nand.cells), s.nand.cells, w.mapped) && s.nand.power.Some? == old(s.nand.power).Some?
    ensures st == Success ==> Indexed(s, w.at, w.mapped, lost) && Recorded(w.mapped, PlaceIn(w), PlaceOf(s))
    ensures st == Success ==> s.next == PageAfter(s.g, if old(s.anc).newBlock == w.holder then w.next else s.g.P)
    ensures st != Success && lost.None? ==> old(s.nand.power).Some? && Finds(s.g, s.nand.cells, w.mapped)
  {
    hide Laid, Owners, AnchorHeld, AnchorSpot, Boots, MapOf, TableAt, UpdateFits, AreasBut, Named, Standing, NextHolder, StillBoots, OnDisk, CrashOk, IndexHeld, Relocated, Recorded;
    ghost var cells := s.nand.cells;
    s.updating := false;
    s.offset, s.cachedArea := seq(s.g.A, _ => None), None;
    FindIndex(s, w);
    FreshOk(s, w);
    TablesApart(s, w.mapped);
    SizesBetween(s.g, cells, w, lost);
    if lost.None? {
      assert Described(s, w.at, w.mapped) by { RecSizes(s.g, cells, w); }
    }
    RelocatedRecorded(s.g, w.mapped, PlaceIn(w), s.next);
    st := IndexUpdate(s, w.at, w.mapped, w);
    if st == Success {
      NothingCached(s, w.at);
      if lost.Some? {
        SpotShape(s, w.mapped);
        AreasButStay(s.g, cells, s.nand.cells, w.ix, s.Index(), w.at, lost.value);
      } else {
        RecSizes(s.g, s.nand.cells, RecOf(s, w.at, w.mapped));
      }
    } else if lost.None? {
      FoundAgain(s.g, s.nand.cells, w, w.mapped);
    }
  }

  lemma SpotShape(s: Ubi, mapped: seq<AreaEntry>)
    requires Standing(s, mapped)
    ensures ShapedCells(s.nand.cells, s.g.T, s.g.P)
  {
  }

  lemma SizesBetween(g: Device, cells: seq<PhysBlock>, w: Rec, lost: Option<nat>)
    requires Between(g, cells, w, lost)
    ensures |w.at| == |w.ix.areaBlock| == g.A && (lost.Some? ==> lost.value < g.A)
  {
    hide Partition, Sorted, MapOf, AnchorHeld;
  }

  lemma NothingCached(s: Ubi, at: seq<nat>)
    requires |s.offset| == |at| == |s.areaBlock| == s.g.A && s.cachedArea == None && forall a :: 0 <= a < s.g.A ==> s.offset[a] == None
    ensures CacheOk(s.g, s.Tables(), s.nand.cells, at)
  {
  }

  /** The area tables stay while the index table moves. */
  lemma AreasButStay(g: Device, cells: seq<PhysBlock>, now: seq<PhysBlock>, ix: IndexTable, u: IndexTable, at: seq<nat>, lost: nat)
    requires AreasBut(g, cells, ix, at, lost) && u.areaBlock == ix.areaBlock && u.plr == ix.plr && ShapedCells(now, g.T, g.P)
    requires forall a :: 0 <= a < g.A ==> now[ix.areaBlock[a]] == cells[ix.areaBlock[a]]
    ensures AreasBut(g, now, u, at, lost)
  {
    hide AreaOf, OffsetOf;
  }

  lemma RecSizes(g: Device, cells: seq<PhysBlock>, r: Rec)
    requires Boots(g, cells, r)
    ensures |r.at| == |r.ix.areaBlock| == |r.ix.areaEc| == g.A && |r.mapped| == g.U && UpdateFits(g, cells, r.ix, r.at, r.mapped)
    ensures r.ix.plr.Plr? ==> r.ix.plr.logical < g.U
    ensures r.ix.plr == NoPlr ==> MapOf(g, r.ix.areaBlock, r.at, cells) == r.mapped
  {
    LaidParts(g, cells, r.ix, r.at, r.holder, r.mapped);
    hide AnchorHeld, AreasHeld, Partition, MapOf, Sorted;
  }

  /** UBI_Init: whatever mapping is on flash is the mapping in RAM afterwards, the flash and the
      tables agree, and no logical block has changed.  If power fails, the mapping is still there. */
  method UbiInit(s: Ubi, ghost r: Rec, ghost lost: Option<nat>) returns (st: Status, ghost at: seq<nat>)
    requires s.Sound() && s.Sized() && s.nand.faults == 0 && Before(s.g, s.nand.cells, r, lost)
    modifies s, s.nand, s.free
    ensures s.Sound() && s.nand.faults == 0
    ensures MappedKept(old(s.nand.cells), s.nand.cells, r.mapped) && s.nand.power.Some? == old(s.nand.power).Some?
    ensures st == Success ==> lost.None? && Steady(s, at, r.mapped) && !s.updating && Recorded(r.mapped, PlaceIn(r), PlaceOf(s))
    ensures st != Success && lost.None? ==> old(s.nand.power).Some? && Finds(s.g, s.nand.cells, r.mapped)
  {
    hide Laid, AnchorHeld, AnchorSpot, Boots, Leads, MapOf, TableAt, Standing, CacheOk, AreaOf, Named, AreasBut, Indexed, Before, Between, Recorded;
    ghost var cells, mapped := s.nand.cells, r.mapped;
    ghost var w;
    MappedInData(s.g, cells, r, lost);
    st, w := FindAnchor(s, r, lost);
    at := w.at;
    if st == Success {
      ghost var mid := s.nand.cells;
      st := IndexInit(s, w, lost);
      KeptTrans(s.g, cells, mid, s.nand.cells, mapped);
    } else if lost.None? {
      LeadsFinds(s.g, s.nand.cells, r);
    }
    if st == Success {
      ghost var before := PlaceOf(s);
      st, at := InitAreas(s, at, mapped, cells, lost);
      if st == Success {
        RecordedTrans(mapped, PlaceIn(w), before, PlaceOf(s));
      }
    }
  }

  lemma LeadsFinds(g: Device, cells: seq<PhysBlock>, r: Rec)
    requires Before(g, cells, r, None)
    ensures Finds(g, cells, r.mapped)
  {
    hide Leads;
  }

  lemma MappedInData(g: Device, cells: seq<PhysBlock>, r: Rec, lost: Option<nat>)
    requires Before(g, cells, r, lost)
    ensures |cells| == g.T && |r.mapped| == g.U && forall c :: 0 <= c < g.U ==> DataLo(g) <= r.mapped[c].block < g.T
  {
    hide AnchorHeld, IndexHeld, AreasBut, AreasHeld, TwoAnchors, UpdateFits, MapOf, Sorted;
    assert Owners(g, r.ix, r.holder, r.mapped) && ShapedCells(cells, g.T, g.P);
    Apart(g, r.mapped, r.ix.areaBlock, r.holder, r.ix.free);
    hide Partition, Laid;
  }

  /** The loop over the areas. */
  method InitAreas(s: Ubi, ghost at0: seq<nat>, ghost mapped: seq<AreaEntry>, ghost cells: seq<PhysBlock>, ghost lost: Option<nat>)
    returns (st: Status, ghost at: seq<nat>)
    requires Indexed(s, at0, mapped, lost) && MappedKept(cells, s.nand.cells, mapped)
    modifies s, s.nand, s.free
    ensures s.Sound() && s.nand.faults == 0
    ensures MappedKept(cells, s.nand.cells, mapped) && s.nand.power.Some? == old(s.nand.power).Some?
    ensures st == Success ==> lost.None? && Steady(s, at, mapped) && !s.updating && Recorded(mapped, old(PlaceOf(s)), PlaceOf(s))
    ensures st != Success && lost.None? ==> old(s.nand.power).Some? && Finds(s.g, s.nand.cells, mapped)
  {
    hide Laid, AnchorHeld, AnchorSpot, Boots, Leads, MapOf, TableAt, Standing, CacheOk, AreaOf, AreasBut, Steady, Recorded;
    ghost var place := PlaceOf(s);
    SameRecorded(mapped, place);
    st, at := Success, at0;
    var a := 0;
    MountedNext(s, at, mapped, lost, 0);
    while a < s.g.A && st == Success
      invariant a <= s.g.A && MappedKept(cells, s.nand.cells, mapped) && s.nand.power.Some? == old(s.nand.power).Some?
      invariant s.Sound() && s.nand.faults == 0
      invariant st == Success ==> Indexed(s, at, mapped, lost) && (lost.Some? ==> a <= lost.value < s.g.A)
      invariant st == Success ==> Recorded(mapped, place, PlaceOf(s))
      invariant st == Success && lost.None? ==> Pending(s, a) || Steady(s, at, mapped)
      invariant st != Success && lost.None? ==> old(s.nand.power).Some? && Finds(s.g, s.nand.cells, mapped)
    {
      ghost var mid, before := s.nand.cells, PlaceOf(s);
      st, at := InitArea(s, a, at, mapped, lost);
      KeptTrans(s.g, cells, mid, s.nand.cells, mapped);
      if st == Success {
        RecordedTrans(mapped, place, before, PlaceOf(s));
        MountedNext(s, at, mapped, lost, a + 1);
      }
      a := a + 1;
    }
    if st == Success {
      MountedNext(s, at, mapped, lost, a);
    }
  }

  /** The announced update is for an area not read yet. */
  ghost predicate Pending(s: Ubi, a: nat)
    reads s
  {
    s.plr.Plr? && s.plr.logical < s.g.U && a <= AreaOf(s.g, s.plr.logical)
  }

  lemma MountedNext(s: Ubi, at: seq<nat>, mapped: seq<AreaEntry>, lost: Option<nat>, a: nat)
    requires Indexed(s, at, mapped, lost)
    ensures s.Sound() && s.nand.faults == 0 && !s.updating && (lost.Some? ==> lost.value < s.g.A)
    ensures a == 0 && lost.None? ==> Pending(s, 0) || Steady(s, at, mapped)
    ensures a >= s.g.A ==> !Pending(s, a)
  {
    hide Boots, Laid, AnchorHeld, AnchorSpot, CacheOk, MapOf;
    if lost.None? {
      RecSizes(s.g, s.nand.cells, RecOf(s, at, mapped));
    }
  }
}
