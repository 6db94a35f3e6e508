/** Power fails and comes back: UBI_Init finds the tables of the block layer again, whatever it
    interrupted; and a device on which it does not. */
module UbiRestart {
  import opened Flash
  import opened Nand
  import opened FreeTable
  import opened UbiSpec
  import opened UbiFlash
  import opened UbiState
  import opened UbiIndex
  import opened UbiArea
  import opened UbiCommit
  import opened UbiErase
  import UbiMount

  lemma SteadyFinds(s: Ubi, at: seq<nat>, mapped: seq<AreaEntry>)
    requires Steady(s, at, mapped)
    ensures Finds(s.g, s.nand.cells, mapped) && s.Sound() && s.nand.faults == 0
  {
    hide Boots, BootsTwice, Laid, AnchorHeld, AnchorSpot, MapOf, CacheOk;
    assert Leads(s.g, s.nand.cells, RecOf(s, at, mapped));
  }

  /** Power-on and UBI_Init. */
  method Mount(g: Device, nand: Nand, power: Option<nat>, ghost mapped: seq<AreaEntry>) returns (t: Ubi, st: Status, ghost at: seq<nat>)
    requires nand.Valid() && nand.blocks == g.T && nand.pages == g.P && nand.faults == 0 && Finds(g, nand.cells, mapped)
    modifies nand
    ensures nand.Valid() && nand.faults == 0 && Finds(g, nand.cells, mapped) && MappedKept(old(nand.cells), nand.cells, mapped)
    ensures fresh(t) && fresh(t.free) && t.g == g && t.nand == nand
    ensures st == Success ==> Steady(t, at, mapped) && !t.updating
    ensures power == None ==> st == Success && nand.power == None
  {
    hide Leads, MappedKept, Steady;
    ghost var r :| Leads(g, nand.cells, r) && r.mapped == mapped;
    nand.PowerOn(power);
    t := new Ubi(g, nand);
    st, at := UbiMount.UbiInit(t, r, None);
    if st == Success {
      SteadyFinds(t, at, mapped);
    }
  }

  /** However often power fails during UBI_Init, and wherever, the next UBI_Init finds the same
      mapping and the same logical blocks. */
  method Restart(g: Device, nand: Nand, cuts: seq<nat>, ghost mapped: seq<AreaEntry>) returns (t: Ubi, ghost at: seq<nat>)
    requires nand.Valid() && nand.blocks == g.T && nand.pages == g.P && nand.faults == 0 && Finds(g, nand.cells, mapped)
    modifies nand
    ensures fresh(t) && fresh(t.free) && t.g == g && t.nand == nand && nand.power == None
    ensures Steady(t, at, mapped) && !t.updating && MappedKept(old(nand.cells), nand.cells, mapped)
  {
    hide Finds, MappedKept, Steady;
    ghost var cells := nand.cells;
    UbiMount.SelfKept(cells, mapped);
    var st;
    for i := 0 to |cuts|
      invariant nand.Valid() && nand.faults == 0 && Finds(g, nand.cells, mapped) && MappedKept(cells, nand.cells, mapped)
    {
      ghost var mid := nand.cells;
      t, st, at := Mount(g, nand, Some(cuts[i]), mapped);
      KeptTrans(g, cells, mid, nand.cells, mapped);
    }
    ghost var mid := nand.cells;
    t, st, at := Mount(g, nand, None, mapped);
    KeptTrans(g, cells, mid, nand.cells, mapped);
  }

  /** After the restart: the old mapping with the logical blocks as they were, but for the one being
      erased, or the new mapping with that block erased. */
  ghost predicate OldOrNew(g: Device, cells: seq<PhysBlock>, now: seq<PhysBlock>, mapped: seq<AreaEntry>, found: seq<AreaEntry>,
                           b: nat, e: AreaEntry, moved: bool, n: nat) {
    || (found == mapped && OldKept(g, cells, now, mapped, b, moved, n))
    || (b < |mapped| && found == mapped[b := e] && ErasedTo(g, cells, now, mapped, b, e))
  }

  lemma KeptOld(g: Device, cells: seq<PhysBlock>, mid: seq<PhysBlock>, now: seq<PhysBlock>, mapped: seq<AreaEntry>, b: nat, moved: bool, n: nat)
    requires OldKept(g, cells, mid, mapped, b, moved, n) && MappedKept(mid, now, mapped)
    ensures OldKept(g, cells, now, mapped, b, moved, n)
  {
  }

  lemma KeptNew(g: Device, cells: seq<PhysBlock>, mid: seq<PhysBlock>, now: seq<PhysBlock>, mapped: seq<AreaEntry>, b: nat, e: AreaEntry)
    requires ErasedTo(g, cells, mid, mapped, b, e) && b < |mapped| && MappedKept(mid, now, mapped[b := e])
    ensures ErasedTo(g, cells, now, mapped, b, e)
  {
    var found := mapped[b := e];
    assert found[b] == e;
    forall c | 0 <= c < g.U && c != b && mapped[c].block < |cells|
      ensures now[mapped[c].block] == cells[mapped[c].block]
    {
      assert found[c] == mapped[c];
    }
  }

  /** Crash atomicity of UBI_Erase: power fails anywhere in it or not at all, then in any number of
      mounts; the last UBI_Init finds the old mapping or the new one, and its logical blocks. */
  method EraseAndRestart(s: Ubi, b: nat, dieIndex: nat, cuts: seq<nat>, ghost at: seq<nat>, ghost mapped: seq<AreaEntry>)
    returns (t: Ubi, ghost at': seq<nat>, ghost found: seq<AreaEntry>, ghost e: AreaEntry)
    requires Steady(s, at, mapped) && !s.updating && b < s.g.U
    requires |s.areaBlock| == |s.areaEc| == |at| == s.g.A && |mapped| == s.g.U && EraseOk(s, b, dieIndex, at, mapped[b])
    modifies s, s.nand, s.free
    ensures fresh(t) && t.g == s.g && t.nand == s.nand && s.nand.power == None
    ensures Steady(t, at', found) && !t.updating
    ensures OldOrNew(s.g, old(s.nand.cells), s.nand.cells, mapped, found, b, e, at[AreaOf(s.g, b)] == s.g.P - 1, old(AreaGoal(s, b, dieIndex, mapped[b])))
  {
    hide Steady, EraseOk, Finds, OldKept, ErasedTo, AreaGoal, AreaOf, MappedKept;
    ghost var cells, g, nand := s.nand.cells, s.g, s.nand;
    ghost var moved, n := at[AreaOf(s.g, b)] == s.g.P - 1, AreaGoal(s, b, dieIndex, mapped[b]);
    var st;
    st, at', e := EraseBlock(s, b, dieIndex, at, mapped);
    if st == Success {
      SteadyFinds(s, at', mapped[b := e]);
    }
    ghost var mid := s.nand.cells;
    ghost var newer := ErasedTo(g, cells, mid, mapped, b, e) && Finds(g, mid, mapped[b := e]);
    found := if newer then mapped[b := e] else mapped;
    t, at' := Restart(s.g, s.nand, cuts, found);
    if newer {
      KeptNew(g, cells, mid, s.nand.cells, mapped, b, e);
    } else {
      KeptOld(g, cells, mid, s.nand.cells, mapped, b, moved, n);
    }
  }

  // ---------------------------------------------------------------- a device that loses everything

  /** Eight blocks of two pages: code, two anchor blocks, one logical block, one area, the index
      table, and two free blocks. */
  const TINY: Device := Dims(8, 2, 1, 1, 3, 1, 1, 2, 1, 1)

  function TinyIndex(): IndexTable {
    IndexTable([4], [1], [Free(6, 0), Free(7, 0), Vacant], NoPlr)
  }

  function TinyAnchor(): AnchorTable {
    AnchorTable(5, 0, None, 0, None, [])
  }

  /** The area's block 4 and the index block 5 are full. */
  function TinyCells(): seq<PhysBlock> {
    [[Clear, Clear], [Anchor(TinyAnchor()), Clear], [Clear, Clear], [Clear, Clear],
     [Area([AreaEntry(3, 5)]), Area([AreaEntry(3, 5)])], [Index(TinyIndex()), Index(TinyIndex())], [Clear, Clear], [Clear, Clear]]
  }

  function TinyRec(): Rec {
    Rec(TinyAnchor(), 1, 1, 5, 0, 2, TinyIndex(), [1], [AreaEntry(3, 5)])
  }

  lemma TinyOwned()
    ensures Owned([AreaEntry(3, 5)], [4], 5, TinyIndex().free) == multiset{0, 3, 4, 5, 6, 7}
  {
    assert MapBlocks([AreaEntry(3, 5)]) == [3] && SlotBlocks(TinyIndex().free) == [6, 7, 0];
  }

  lemma SameCounts(m: multiset<nat>, n: multiset<nat>)
    requires forall x: nat :: m[x] == n[x]
    ensures m == n
  {
  }

  lemma TinyCount(x: nat)
    ensures Everything(TINY)[x] == if x == 0 || 3 <= x < 8 then 1 else 0
  {
    hide Everything;
    OnlyOnce(TINY, x);
  }

  lemma TinyEverything()
    ensures Everything(TINY) == multiset{0, 3, 4, 5, 6, 7}
  {
    hide Everything, ValidDims;
    forall x: nat
      ensures Everything(TINY)[x] == multiset{0, 3, 4, 5, 6, 7}[x]
    {
      TinyCount(x);
    }
    SameCounts(Everything(TINY), multiset{0, 3, 4, 5, 6, 7});
  }

  lemma TinyPartition()
    ensures Partition(TINY, [AreaEntry(3, 5)], [4], 5, TinyIndex().free)
  {
    TinyOwned();
    TinyEverything();
    hide Owned, Everything;
  }

  lemma TinyMap()
    ensures MapOf(TINY, [4], [1], TinyCells()) == [AreaEntry(3, 5)]
  {
    assert AreaOf(TINY, 0) == 0 && OffsetOf(TINY, 0) == 0;
  }

  lemma TinyLaid()
    ensures Laid(TINY, TinyCells(), TinyIndex(), [1], 5, [AreaEntry(3, 5)])
  {
    TinyPartition();
    TinyMap();
    hide Partition, MapOf;
  }

  lemma TinyBoots()
    ensures Boots(TINY, TinyCells(), TinyRec()) && AnchorSpot(TINY, TinyCells(), 1, 1)
  {
    TinyLaid();
    TinyMap();
    hide Laid, MapOf;
  }

  /** Erasing the logical block takes block 6 and releases block 3, which is worn much. */
  lemma TinyErase()
    ensures FreeAfterErase(TINY, TinyIndex().free, 0, AreaEntry(3, 5)) == [Free(7, 0), Free(3, 5), Vacant]
  {
    var s := [Free(7, 0), Vacant, Vacant];
    assert RemoveAt(TinyIndex().free, 0) == s && Position(s, 5, 2) == 1 && Put(s, 3, 5) == [Free(7, 0), Free(3, 5), Vacant];
  }

  /** The area table takes block 7 and releases block 4. */
  lemma TinyMove()
    ensures FreeAfterMove(TINY, [Free(7, 0), Free(3, 5), Vacant], 4, 1) == [Free(4, 1), Free(3, 5), Vacant]
  {
    var s := [Free(3, 5), Vacant, Vacant];
    assert RemoveAt([Free(7, 0), Free(3, 5), Vacant], 0) == s && Position(s, 1, 2) == 0 && Put(s, 4, 1) == [Free(4, 1), Free(3, 5), Vacant];
  }

  /** That is now worn least: the index table would go there. */
  lemma TinyChoices()
    ensures HolderChoice(TINY, FreeAfterMove(TINY, FreeAfterErase(TINY, TinyIndex().free, 0, AreaEntry(3, 5)), 4, 1), 5, 2) == 4
  {
    TinyErase();
    TinyMove();
    hide FreeAfterErase, FreeAfterMove, Exchange;
  }

  /** This device, mounted. */
  ghost predicate IsTiny(s: Ubi)
    reads s, s.nand, s.free
  {
    && s.g == TINY && s.Sound() && s.nand.cells == TinyCells() && s.nand.faults == 0 && s.Index() == TinyIndex() && !s.updating
    && s.holder == 5 && s.holderEc == 0 && s.next == 2 && s.offset == [Some(1)] && s.cached == [AreaEntry(3, 5)] && s.cachedArea == Some(0)
    && s.anc == TinyAnchor() && s.ancBlock == 1 && s.ancNext == 1
  }

  lemma TinySteady(s: Ubi)
    requires IsTiny(s)
    ensures Steady(s, [1], [AreaEntry(3, 5)])
  {
    assert RecOf(s, [1], [AreaEntry(3, 5)]) == TinyRec();
    TinyBoots();
    TinyLaid();
    TinyMap();
    hide Boots, Laid, AnchorSpot, AnchorHeld, MapOf;
  }

  lemma TinyNotOk(s: Ubi)
    requires IsTiny(s)
    ensures |s.areaBlock| == |s.areaEc| == 1 && !EraseOk(s, 0, 0, [1], AreaEntry(3, 5))
  {
    TinyChoices();
    assert s.free[..] == TinyIndex().free && s.areaBlock == [4] && s.areaEc == [1] && AreaOf(TINY, 0) == 0;
    hide FreeAfterErase, FreeAfterMove, HolderChoice;
  }

  method TinyNand() returns (nand: Nand)
    ensures fresh(nand) && nand.Valid() && nand.blocks == 8 && nand.pages == 2
    ensures nand.cells == TinyCells() && nand.power == Some(4) && nand.faults == 0
  {
    nand := new Nand(8, 2);
    nand.cells, nand.power := TinyCells(), Some(4);
  }

  method TinyDevice() returns (s: Ubi)
    ensures fresh(s) && fresh(s.nand) && fresh(s.free) && IsTiny(s) && s.nand.power == Some(4)
  {
    hide TinyCells, ShapedCells;
    var nand := TinyNand();
    s := new Ubi(TINY, nand);
    UbiMount.LoadIndex(s, TinyIndex());
    s.holder, s.holderEc, s.next, s.updating := 5, 0, 2, false;
    s.offset, s.cached, s.cachedArea := [Some(1)], [AreaEntry(3, 5)], Some(0);
    s.anc, s.ancBlock, s.ancNext := TinyAnchor(), 1, 1;
  }

  /** Power-on and UBI_Init on a flash that has lost an area table. */
  method MountLost(g: Device, nand: Nand, ghost r: Rec, ghost lost: nat) returns (t: Ubi, st: Status)
    requires nand.Valid() && nand.blocks == g.T && nand.pages == g.P && nand.faults == 0
    requires UbiMount.Before(g, nand.cells, r, Some(lost))
    modifies nand
    ensures fresh(t) && t.g == g && t.nand == nand && st != Success
  {
    hide UbiMount.Before;
    nand.PowerOn(None);
    t := new Ubi(g, nand);
    ghost var at;
    st, at := UbiMount.UbiInit(t, r, Some(lost));
  }

  /** Power fails after four steps of UBI_Erase on it.  No tables can be found on the flash then, and
      UBI_Init fails. */
  method TinyLoss() returns (t: Ubi, erased: Status, mounted: Status, ghost left: seq<PhysBlock>)
    ensures t.g == TINY && erased != Success && mounted != Success && forall w :: !Leads(TINY, left, w)
  {
    var s := TinyDevice();
    TinySteady(s);
    TinyNotOk(s);
    hide Steady, EraseOk, Leads, ErasedTo, AllOrNothing, TinyCells, UbiMount.Before, RecOf;
    ghost var at, e;
    ghost var r := RecOf(s, [1], [AreaEntry(3, 5)]);
    erased, at, e := EraseBlock(s, 0, 0, [1], [AreaEntry(3, 5)]);
    left := s.nand.cells;
    t, mounted := MountLost(TINY, s.nand, r, AreaOf(TINY, 0));
  }
}
