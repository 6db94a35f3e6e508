/** UBI_Erase: a logical block moves to an erased physical block, all or nothing. */
module UbiErase {
  import opened Flash
  import opened Nand
  import opened FreeTable
  import opened UbiSpec
  import opened UbiFlash
  import opened UbiState
  import opened UbiIndex
  import opened UbiAnchor
  import opened UbiArea
  import opened UbiWear
  import opened UbiCommit
  import UbiMount

  /** The free table once logical block b has left its block for one of the die. */
  ghost function FreeAfterErase(g: Device, free: seq<FreeSlot>, dieIndex: nat, e: AreaEntry): seq<FreeSlot> {
    var k := Choice(g, free, dieIndex);
    if k < |free| then Exchange(free, k, e.block, e.ec) else free
  }

  /** The free table once the area's table has moved, too. */
  ghost function FreeAfterMove(g: Device, free: seq<FreeSlot>, areaBlock: nat, areaEc: nat): seq<FreeSlot> {
    var k := Choice(g, free, areaBlock);
    if k < |free| then Exchange(free, k, areaBlock, areaEc) else free
  }

  /** If the area's block and the index block are both full, the index table does not take the
      area block just released. */
  ghost predicate EraseOk(s: Ubi, b: nat, dieIndex: nat, at: seq<nat>, e: AreaEntry)
    requires b < s.g.U && |s.areaBlock| == |s.areaEc| == |at| == s.g.A
    reads s, s.free
  {
    var a := AreaOf(s.g, b);
    s.next == s.g.P && at[a] == s.g.P - 1 ==>
      HolderChoice(s.g, FreeAfterMove(s.g, FreeAfterErase(s.g, s.free[..], dieIndex, e), s.areaBlock[a], s.areaEc[a]), s.holder, s.next)
      != s.areaBlock[a]
  }

  /** After a free block was taken, whatever was then written to it, the update is announced in RAM. */
  lemma RemapStaged(g: Device, cells: seq<PhysBlock>, ix: IndexTable, at: seq<nat>, holder: nat, mapped: seq<AreaEntry>, b: nat, k: nat, ec: nat,
                    ecOld: nat, now: seq<PhysBlock>)
    requires Laid(g, cells, ix, at, holder, mapped) && |at| == |ix.areaBlock| == g.A && MapOf(g, ix.areaBlock, at, cells) == mapped
    requires b < g.U && |mapped| == g.U && k < g.F == |ix.free| && ix.free[k].Free?
    requires ShapedCells(now, g.T, g.P) && ix.free[k].block < |cells| && now == cells[ix.free[k].block := now[ix.free[k].block]]
    ensures var x := ix.free[k].block;
            && DataLo(g) <= x < g.T
            && var u := ix.(free := Exchange(ix.free, k, mapped[b].block, ecOld), plr := Plr(b, AreaEntry(x, ec)));
               Laid(g, now, u, at, holder, mapped[b := AreaEntry(x, ec)]) && Owners(g, u, holder, mapped[b := AreaEntry(x, ec)])
  {
    hide Sorted, MapOf, Exchange;
    MapExchange(g, mapped, ix.areaBlock, holder, ix.free, b, k, ec, ecOld);
    FreeApart(g, mapped, ix.areaBlock, holder, ix.free, k);
    hide Partition;
    LaidDepends(g, cells, now, ix, at, holder, mapped);
    MapDepends(g, ix.areaBlock, at, cells, now);
  }

  /** The block taken belongs to nobody: what is on flash boots as before. */
  lemma TakenBoots(g: Device, cells: seq<PhysBlock>, r: Rec, k: nat)
    requires Boots(g, cells, r) && k < g.F && |r.ix.free| == g.F && r.ix.free[k].Free?
    ensures var x := r.ix.free[k].block;
            && DataLo(g) <= x < g.T && x < |cells| && x != r.holder && Loose(g, r.ix, r.holder, x)
            && Boots(g, cells[x := ClearBlock(g.P)], r)
            && |r.mapped| == g.U && (forall c :: 0 <= c < g.U ==> Loose(g, r.ix, r.holder, r.mapped[c].block) && r.mapped[c].block != x)
            && (forall c, d :: 0 <= d < c < g.U ==> r.mapped[d].block != r.mapped[c].block)
  {
    hide Sorted, MapOf;
    FreeApart(g, r.mapped, r.ix.areaBlock, r.holder, r.ix.free, k);
    Apart(g, r.mapped, r.ix.areaBlock, r.holder, r.ix.free);
    hide Partition;
    TouchKeeps(g, cells, r, r.ix.free[k].block, ClearBlock(g.P));
  }

  // ---------------------------------------------------------------- the logical blocks

  /** The other logical blocks hold what they held. */
  ghost predicate OthersKept(g: Device, cells: seq<PhysBlock>, now: seq<PhysBlock>, mapped: seq<AreaEntry>, b: nat) {
    && |mapped| == g.U && |now| == |cells|
    && forall c :: 0 <= c < g.U && c != b && mapped[c].block < |cells| ==> now[mapped[c].block] == cells[mapped[c].block]
  }

  /** Logical block b is on another block, which is erased. */
  ghost predicate ErasedTo(g: Device, cells: seq<PhysBlock>, now: seq<PhysBlock>, mapped: seq<AreaEntry>, b: nat, e: AreaEntry) {
    && |mapped| == g.U && b < g.U && e.block < |now| && now[e.block] == ClearBlock(g.P)
    && (forall c :: 0 <= c < g.U ==> mapped[c].block != e.block)
    && OthersKept(g, cells, now, mapped, b)
  }

  /** The other logical blocks are untouched, and block b holds what it held, or is erased, or, if
      its area's block was full, is the block n that the area table was to move to. */
  ghost predicate OldKept(g: Device, cells: seq<PhysBlock>, now: seq<PhysBlock>, mapped: seq<AreaEntry>, b: nat, moved: bool, n: nat) {
    && OthersKept(g, cells, now, mapped, b) && b < g.U && mapped[b].block < |cells|
    && (now[mapped[b].block] == cells[mapped[b].block] || now[mapped[b].block] == ClearBlock(g.P) || (moved && mapped[b].block == n))
  }

  /** What a power loss in UBI_Erase leaves: a mount finds the old mapping, or the new one with
      block b erased. */
  ghost predicate AllOrNothing(g: Device, cells: seq<PhysBlock>, now: seq<PhysBlock>, mapped: seq<AreaEntry>, b: nat, e: AreaEntry, moved: bool, n: nat) {
    || (Finds(g, now, mapped) && OldKept(g, cells, now, mapped, b, moved, n))
    || (|mapped| == g.U && b < g.U && Finds(g, now, mapped[b := e]) && ErasedTo(g, cells, now, mapped, b, e))
  }

  lemma SteadyParts(s: Ubi, at: seq<nat>, mapped: seq<AreaEntry>)
    requires Steady(s, at, mapped)
    ensures |at| == |s.areaBlock| == |s.areaEc| == s.g.A && |mapped| == s.g.U
  {
    LaidParts(s.g, s.nand.cells, s.Index(), at, s.holder, mapped);
    hide Laid, AnchorHeld, Boots;
  }

  /** INDEX_FreeBlock_Get for the logical block: a free block is erased; what is on flash boots
      as before. */
  method TakeBlock(s: Ubi, dieIndex: nat, ghost at: seq<nat>, ghost mapped: seq<AreaEntry>, ghost k: nat)
    returns (st: Status, x: nat, ec: nat)
    requires Steady(s, at, mapped) && k == Choice(s.g, s.free[..], dieIndex)
    modifies s`anc, s.nand, s.free
    ensures s.Sound() && s.nand.faults == 0
    ensures st == Success ==>
              && s.anc == old(s.anc) && s.Index() == old(s.Index()).(free := RemoveAt(old(s.free[..]), k))
              && k < |old(s.free[..])| && old(s.free[..])[k].Free? && old(s.free[..])[k].block == x
              && ec == CountOnce(old(s.free[..]), k) && LeastWorn(s.g, old(s.free[..]), dieIndex, x, ec)
              && BlockErased(s.g, old(s.nand.cells), x, s.nand.cells)
              && Boots(s.g, s.nand.cells, old(RecOf(s, at, mapped))) && s.nand.power == Spent(old(s.nand.power), 1)
    ensures st != Success ==> st == PowerLoss && s.nand.cells == old(s.nand.cells)
    ensures s.nand.power.Some? == old(s.nand.power).Some?
    ensures st != Success <==> old(s.nand.power) == Some(0)
  {
    hide Laid, AnchorHeld, AnchorSpot, Boots, Choice, RemoveAt;
    StagedFree(s, mapped);
    ghost var free, r := s.free[..], RecOf(s, at, mapped);
    TakenBoots(s.g, s.nand.cells, r, k);
    ghost var m;
    st, x, ec, m := Get(s, dieIndex);
    assert Drained(free, DieOf(s.g, dieIndex), s.g.D, 0) == free;
  }

  /** INDEX_FreeBlock_Put of the old block, and INDEX_Update_AreaUpdate. */
  method StageRemap(s: Ubi, b: nat, x: nat, ec: nat, block: nat, blockEc: nat, ghost at: seq<nat>, ghost mapped: seq<AreaEntry>,
                    ghost r: Rec, ghost cells: seq<PhysBlock>, ghost k: nat)
    requires s.Sound() && s.nand.faults == 0 && AnchorsGood(s.g, s.anc.bad) && b < s.g.U == |mapped| && s.next <= s.g.P
    requires Boots(s.g, cells, r) && r.at == at && r.mapped == mapped && k < |r.ix.free| && r.ix.free[k].Free? && r.ix.free[k].block == x
    requires |at| == |r.ix.areaBlock| == s.g.A && MapOf(s.g, r.ix.areaBlock, at, cells) == mapped && mapped[b].block == block
    requires s.Index() == r.ix.(free := RemoveAt(r.ix.free, k)) && s.holder == r.holder && s.holderEc == r.holderEc
    requires r.anc == s.anc && r.ancBlock == s.ancBlock && r.ancNext == s.ancNext && s.anc.newBlock == s.holder && r.next == s.next
    requires x < |cells| && s.nand.cells == cells[x := s.nand.cells[x]] && Boots(s.g, s.nand.cells, r)
    requires CacheOk(s.g, s.Tables().(ix := r.ix), s.nand.cells, at) && |s.cached| == s.g.R
    modifies s`plr, s`updating, s.free
    ensures Updating(s, at, mapped[b := AreaEntry(x, ec)], r, b, AreaEntry(x, ec))
    ensures s.Index() == r.ix.(free := Exchange(r.ix.free, k, block, blockEc), plr := Plr(b, AreaEntry(x, ec)))
  {
    hide Boots, AnchorHeld, AnchorSpot, IndexHeld, Put, RemoveAt, MapOf, Partition, Sorted, TableAt, Laid;
    BootsParts(s.g, cells, r);
    BootsParts(s.g, s.nand.cells, r);
    TableLength(s.g, cells, r.ix, at, r.holder, mapped);
    RemapStaged(s.g, cells, r.ix, at, s.holder, mapped, b, k, ec, blockEc, s.nand.cells);
    PutInPlace(s.free, block, blockEc);
    s.plr, s.updating := Plr(b, AreaEntry(x, ec)), true;
  }

  lemma AreaApart(g: Device, cells: seq<PhysBlock>, r: Rec, k: nat, b: nat, now: seq<PhysBlock>)
    requires Boots(g, cells, r) && k < |r.ix.free| && r.ix.free[k].Free? && b < g.U
    requires r.ix.free[k].block < |cells| && |now| == |cells| && now == cells[r.ix.free[k].block := now[r.ix.free[k].block]] && Boots(g, now, r)
    ensures |r.ix.areaBlock| == |r.at| == g.A
    ensures forall a :: 0 <= a < g.A && r.ix.areaBlock[a] < |cells| ==> now[r.ix.areaBlock[a]] == cells[r.ix.areaBlock[a]]
    ensures AreaHeld(g, now, r.ix.areaBlock[AreaOf(g, b)], r.at[AreaOf(g, b)])
  {
    hide Sorted, MapOf, AreaOf;
    FreeApart(g, r.mapped, r.ix.areaBlock, r.holder, r.ix.free, k);
  }

  /** The old block of b, read through the area table after the new one was taken. */
  method OldEntry(s: Ubi, b: nat, ghost at: seq<nat>, ghost r: Rec, ghost cells: seq<PhysBlock>, ghost k: nat) returns (e: AreaEntry)
    requires s.Sound() && b < s.g.U && Boots(s.g, cells, r) && r.at == at && k < |r.ix.free| && r.ix.free[k].Free?
    requires r.ix.free[k].block < |cells| == |s.nand.cells| && s.nand.cells == cells[r.ix.free[k].block := s.nand.cells[r.ix.free[k].block]]
    requires Boots(s.g, s.nand.cells, r) && s.areaBlock == r.ix.areaBlock && CacheOk(s.g, s.Tables().(ix := r.ix), cells, at)
    modifies s`offset, s`cached, s`cachedArea
    ensures CacheOk(s.g, s.Tables().(ix := r.ix), s.nand.cells, at) && |s.cached| == s.g.R && |at| == |r.ix.areaBlock| == s.g.A
    ensures e == MapOf(s.g, r.ix.areaBlock, at, cells)[b]
  {
    hide Boots, AnchorHeld, AreaOf, OffsetOf, MapOf, TableAt, Laid, AreaHeld;
    AreaApart(s.g, cells, r, k, b, s.nand.cells);
    CacheDepends(s.g, s.Tables().(ix := r.ix), s.Tables(), cells, s.nand.cells, at);
    MapDepends(s.g, r.ix.areaBlock, at, cells, s.nand.cells);
    e := AreaGet(s, b, at);
  }

  /** The condition on the commit is that on the erase. */
  lemma CommitReady(s: Ubi, b: nat, at: seq<nat>, mapped: seq<AreaEntry>, r: Rec, e: AreaEntry)
    requires Updating(s, at, mapped, r, b, e) && |s.areaBlock| == |s.areaEc| == s.g.A
    ensures FreeAfterArea(s, b) == FreeAfterMove(s.g, s.free[..], s.areaBlock[AreaOf(s.g, b)], s.areaEc[AreaOf(s.g, b)])
  {
    hide Laid, AnchorHeld, AnchorSpot, Boots, AreaOf, HolderChoice, Exchange, Choice;
    AreaChoice(s, b, at, mapped);
  }

  /** The block the area's table would move to, after the erase has released its block. */
  ghost function AreaGoal(s: Ubi, b: nat, dieIndex: nat, e: AreaEntry): nat
    requires b < s.g.U && |s.areaBlock| == s.g.A
    reads s, s.free
  {
    ChosenBlock(s.g, FreeAfterErase(s.g, s.free[..], dieIndex, e), s.areaBlock[AreaOf(s.g, b)], 0)
  }

  /** From the commit's outcome to the erase's. */
  lemma EraseOutcome(g: Device, cells: seq<PhysBlock>, mid: seq<PhysBlock>, now: seq<PhysBlock>, r: Rec, b: nat, e: AreaEntry, n: nat, moved: bool)
    requires Boots(g, cells, r) && b < g.U && |r.mapped| == g.U && BlockErased(g, cells, e.block, mid)
    requires forall c :: 0 <= c < g.U ==> Loose(g, r.ix, r.holder, r.mapped[c].block) && r.mapped[c].block != e.block
    requires DataLo(g) <= e.block < g.T == |cells|
    requires MappedKept(mid, now, r.mapped[b := e])
    requires EitherMapping(g, mid, now, r, r.mapped[b := e], if moved then n else r.holder)
    ensures AllOrNothing(g, cells, now, r.mapped, b, e, moved, n)
  {
    hide Boots, Leads;
    assert OthersKept(g, cells, now, r.mapped, b) by {
      forall c | 0 <= c < g.U && c != b
        ensures now[r.mapped[c].block] == cells[r.mapped[c].block]
      {
        assert r.mapped[b := e][c] == r.mapped[c];
      }
    }
    assert now[e.block] == ClearBlock(g.P) by {
      assert r.mapped[b := e][b] == e;
    }
    if StillBoots(g, now, r) && Spared(g, mid, now, r, if moved then n else r.holder) {
      var w :| Leads(g, now, w) && SameTables(r, w);
      assert w.mapped == r.mapped;
      assert Loose(g, r.ix, r.holder, r.mapped[b].block);
    }
  }

  /** UBI_Erase up to the commit. */
  method AnnounceErase(s: Ubi, b: nat, dieIndex: nat, ghost at: seq<nat>, ghost mapped: seq<AreaEntry>, ghost k: nat)
    returns (st: Status, e: AreaEntry)
    requires Steady(s, at, mapped) && b < s.g.U == |mapped| && k == Choice(s.g, s.free[..], dieIndex)
    modifies s, s.nand, s.free
    ensures s.Sound() && s.nand.faults == 0
    ensures st == Success ==>
              && Updating(s, at, mapped[b := e], old(RecOf(s, at, mapped)), b, e)
              && s.Index() == old(s.Index()).(free := FreeAfterErase(s.g, old(s.free[..]), dieIndex, mapped[b]), plr := Plr(b, e))
              && s.holder == old(s.holder) && s.holderEc == old(s.holderEc) && s.next == old(s.next) && s.ancNext == old(s.ancNext)
              && PlaceOf(s) == Remapped(old(PlaceOf(s)), b, mapped[b], k, e)
              && k < |old(s.free[..])| && old(s.free[..])[k].Free? && old(s.free[..])[k].block == e.block
              && e.ec == CountOnce(old(s.free[..]), k) && LeastWorn(s.g, old(s.free[..]), dieIndex, e.block, e.ec)
              && BlockErased(s.g, old(s.nand.cells), e.block, s.nand.cells) && s.nand.power == Spent(old(s.nand.power), 1)
              && s.areaBlock == old(s.areaBlock) && s.areaEc == old(s.areaEc)
    ensures st != Success ==> st == PowerLoss && s.nand.cells == old(s.nand.cells)
    ensures s.nand.power.Some? == old(s.nand.power).Some?
    ensures st != Success <==> old(s.nand.power) == Some(0)
  {
    hide Laid, AnchorHeld, AnchorSpot, Boots, AreaOf, Choice, Exchange, MapOf, TableAt, RemoveAt;
    ghost var r, cells := RecOf(s, at, mapped), s.nand.cells;
    SteadyParts(s, at, mapped);
    e := AreaEntry(0, 0);
    var x, ec;
    st, x, ec := TakeBlock(s, dieIndex, at, mapped, k);
    if st == Success {
      e := AreaEntry(x, ec);
      var was := OldEntry(s, b, at, r, cells, k);
      StageRemap(s, b, x, ec, was.block, was.ec, at, mapped, r, cells, k);
    }
  }

  /** UBI_Erase.  The logical block gets a least worn free block of the die, whose erase count goes
      up by one like that of every block taken for a table.  If power fails, a mount finds the old mapping or the new one, unless the
      condition fails: then four steps lead to a flash on which UBI_Init fails. */
  method EraseBlock(s: Ubi, b: nat, dieIndex: nat, ghost at: seq<nat>, ghost mapped: seq<AreaEntry>)
    returns (st: Status, ghost at': seq<nat>, ghost e: AreaEntry)
    requires Steady(s, at, mapped) && !s.updating && b < s.g.U
    requires |s.areaBlock| == |s.areaEc| == |at| == s.g.A && |mapped| == s.g.U
    modifies s, s.nand, s.free
    ensures s.Sound() && s.nand.faults == 0
    ensures st == Success ==>
              && Steady(s, at', mapped[b := e]) && !s.updating && ErasedTo(s.g, old(s.nand.cells), s.nand.cells, mapped, b, e)
    ensures st == Success ==>
              && LeastWorn(s.g, old(s.free[..]), dieIndex, e.block, e.ec)
              && RecordedTo(mapped, old(PlaceOf(s)), e, mapped[b := e], PlaceOf(s))
              && PlaceOf(s) == Committed(s.g, Remapped(old(PlaceOf(s)), b, mapped[b], old(Choice(s.g, s.free[..], dieIndex)), e), b,
                                         at[AreaOf(s.g, b)] == s.g.P - 1, old(s.next))
    ensures st != Success && old(EraseOk(s, b, dieIndex, at, mapped[b])) ==>
              AllOrNothing(s.g, old(s.nand.cells), s.nand.cells, mapped, b, e, at[AreaOf(s.g, b)] == s.g.P - 1, old(AreaGoal(s, b, dieIndex, mapped[b])))
    ensures old(!EraseOk(s, b, dieIndex, at, mapped[b]) && s.nand.power == Some(4)) ==>
              && st != Success && UbiMount.Before(s.g, s.nand.cells, old(RecOf(s, at, mapped)), Some(AreaOf(s.g, b)))
              && forall w :: !Leads(s.g, s.nand.cells, w)
    ensures st == Success || st == PowerLoss || st == Failure
    ensures s.nand.power.Some? == old(s.nand.power).Some?
    ensures old(s.nand.power) == None ==> st == Success
  {
    hide Laid, AnchorHeld, AnchorSpot, Boots, Leads, AreaOf, Choice, Exchange, HolderChoice, ChosenBlock, AllOrNothing, MapOf, TableAt, EitherMapping, CacheOk, FreeAfterErase, FreeAfterMove, FreeAfterArea, BothTouched, UbiMount.Before, LeastWorn, RecordedTo, Committed;
    ghost var k, r, cells := Choice(s.g, s.free[..], dieIndex), RecOf(s, at, mapped), s.nand.cells;
    ghost var goal, moved := AreaGoal(s, b, dieIndex, mapped[b]), at[AreaOf(s.g, b)] == s.g.P - 1;
    ghost var place, next := PlaceOf(s), s.next;
    ghost var fine, power := EraseOk(s, b, dieIndex, at, mapped[b]), s.nand.power;
    at' := at;
    StagedFree(s, mapped);
    TakenBoots(s.g, cells, r, k);
    var entry;
    st, entry := AnnounceErase(s, b, dieIndex, at, mapped, k);
    e := entry;
    NothingErased(s.g, cells, r, b, e, moved, goal);
    if st == Success {
      ghost var mid := s.nand.cells;
      CommitReady(s, b, at, mapped[b := e], r, e);
      GoalLoose(s, b, at, mapped[b := e], r, e);
      st, at' := Commit(s, b, entry, at, mapped[b := e], r);
      if st == Success {
        RemapRecorded(s.g, mapped, place, b, k, e, moved, next);
      }
      if st != Success && fine {
        EraseOutcome(s.g, cells, mid, s.nand.cells, r, b, e, goal, moved);
      }
      if !fine && power == Some(4) {
        NothingLeft(s.g, cells, mid, s.nand.cells, r, e.block, goal, AreaOf(s.g, b));
      }
    }
  }

  /** The block the area table moves to belongs to no table. */
  lemma GoalLoose(s: Ubi, b: nat, at: seq<nat>, mapped: seq<AreaEntry>, r: Rec, e: AreaEntry)
    requires Updating(s, at, mapped, r, b, e) && |s.areaBlock| == |s.areaEc| == s.g.A
    ensures Loose(s.g, r.ix, r.holder, NextArea(s, b))
  {
    hide AnchorHeld, AnchorSpot, Boots, AreaOf, Exchange, Choice, NextArea, FreeAfterArea, MapOf, Sorted, AreasHeld;
    AreaChoice(s, b, at, mapped);
    FreeApart(s.g, mapped, s.areaBlock, s.holder, s.free[..], Choice(s.g, s.free[..], s.areaBlock[AreaOf(s.g, b)]));
    hide Partition;
  }

  lemma NothingErased(g: Device, cells: seq<PhysBlock>, r: Rec, b: nat, e: AreaEntry, moved: bool, n: nat)
    requires Boots(g, cells, r) && b < g.U && |r.mapped| == g.U && r.mapped[b].block < |cells|
    ensures AllOrNothing(g, cells, cells, r.mapped, b, e, moved, n)
  {
    hide Boots, BootsTwice;
    assert Leads(g, cells, r);
  }

  // ---------------------------------------------------------------- where atomicity ends

  lemma SamePrefix(b: PhysBlock, m: nat, n: nat)
    requires Prefix(b, m) && Prefix(b, n)
    ensures m == n
  {
    assert (m < |b| ==> b[m].Clear?) && (n < |b| ==> b[n].Clear?);
  }

  lemma BlankIsNoArea(g: Device, cells: seq<PhysBlock>, r: Rec)
    requires Boots(g, cells, r) && r.anc.newBlock != r.holder
    ensures r.anc.newBlock !in r.ix.areaBlock && r.anc.newBlock < |cells| && cells[r.anc.newBlock] != [] && cells[r.anc.newBlock][0].Clear?
  {
    hide Sorted, MapOf, Partition;
    forall a | 0 <= a < |r.ix.areaBlock|
      ensures r.ix.areaBlock[a] != r.anc.newBlock
    {
      assert AreaHeld(g, cells, r.ix.areaBlock[a], r.at[a]);
      assert !cells[r.ix.areaBlock[a]][0].Clear?;
    }
  }

  /** Two records that boot, where all but area tables is alike, have the same index table. */
  lemma SameIndex(g: Device, cells: seq<PhysBlock>, now: seq<PhysBlock>, r: Rec, w: Rec)
    requires Boots(g, cells, r) && Boots(g, now, w)
    requires forall x :: 0 <= x < g.T && x !in r.ix.areaBlock ==> now[x] == cells[x]
    ensures w.ix == r.ix && w.holder == r.holder
  {
    hide Sorted, MapOf;
    Apart(g, r.mapped, r.ix.areaBlock, r.holder, r.ix.free);
    hide Partition;
    forall x | 0 <= x <= g.aHi || x == r.holder
      ensures now[x] == cells[x]
    {
    }
    assert !now[w.ancBlock][0].Clear? && w.ancBlock == r.ancBlock;
    SamePrefix(cells[r.ancBlock], r.ancNext, w.ancNext);
    if r.anc.newBlock != r.holder {
      BlankIsNoArea(g, cells, r);
      assert now[r.anc.newBlock][0].Clear?;
    }
    hide Laid;
    assert !now[w.holder][0].Clear? && !cells[r.holder][0].Clear?;
    assert w.holder == r.holder;
    SamePrefix(cells[r.holder], r.next, w.next);
  }

  /** What boots has kept every area table. */
  lemma BootsHasArea(g: Device, cells: seq<PhysBlock>, now: seq<PhysBlock>, r: Rec, w: Rec, a: nat)
    requires Boots(g, cells, r) && a < g.A && ShapedCells(now, g.T, g.P) && |r.ix.areaBlock| == g.A
    requires forall x :: 0 <= x < g.T && x !in r.ix.areaBlock ==> now[x] == cells[x]
    ensures Boots(g, now, w) ==> r.ix.areaBlock[a] < |now| && !now[r.ix.areaBlock[a]][0].Clear?
  {
    if Boots(g, now, w) {
      SameIndex(g, cells, now, r, w);
      assert AreaHeld(g, now, w.ix.areaBlock[a], w.at[a]);
    }
  }

  /** Where one anchor block is written, two are not. */
  lemma OneAnchor(g: Device, cells: seq<PhysBlock>, now: seq<PhysBlock>, r: Rec, w: Rec, newer: AnchorTable)
    requires Boots(g, cells, r) && ShapedCells(now, g.T, g.P) && forall x :: 0 <= x < g.T && x !in r.ix.areaBlock ==> now[x] == cells[x]
    ensures !BootsTwice(g, now, w, newer)
  {
    hide Sorted, MapOf;
    Apart(g, r.mapped, r.ix.areaBlock, r.holder, r.ix.free);
    hide Partition, IndexHeld, AreasHeld, UpdateFits;
    if BootsTwice(g, now, w, newer) {
      assert false;
    }
  }

  /** The area tables and the mapping agree. */
  ghost predicate UpToDate(g: Device, cells: seq<PhysBlock>, r: Rec) {
    |r.ix.areaBlock| == |r.at| == g.A && MapOf(g, r.ix.areaBlock, r.at, cells) == r.mapped
  }

  lemma OthersOnFlash(g: Device, cells: seq<PhysBlock>, r: Rec, lost: nat)
    requires Boots(g, cells, r) && UpToDate(g, cells, r) && lost < g.A
    ensures r.ix.areaBlock[lost] < |cells|
    ensures UbiMount.AreasBut(g, cells[r.ix.areaBlock[lost] := ClearBlock(g.P)], r.ix, r.at, lost)
  {
    hide Sorted, AreaOf, OffsetOf, TableAt;
    Apart(g, r.mapped, r.ix.areaBlock, r.holder, r.ix.free);
    hide Partition;
    var o := r.ix.areaBlock[lost];
    assert AreaHeld(g, cells, o, r.at[lost]);
    var now := cells[o := ClearBlock(g.P)];
    forall a | 0 <= a < g.A && a != lost
      ensures AreaHeld(g, now, r.ix.areaBlock[a], r.at[a]) && TableAt(now, r.ix.areaBlock[a], r.at[a]) == TableAt(cells, r.ix.areaBlock[a], r.at[a])
    {
      assert AreaHeld(g, cells, r.ix.areaBlock[a], r.at[a]);
      SameTable(cells, now, r.ix.areaBlock[a], r.at[a]);
    }
    if r.ix.plr.Plr? {
      assert MapOf(g, r.ix.areaBlock, r.at, cells)[r.ix.plr.logical] == r.ix.plr.entry;
    }
  }

  lemma SameTable(cells: seq<PhysBlock>, now: seq<PhysBlock>, block: nat, page: nat)
    requires |now| == |cells| && block < |cells| && now[block] == cells[block]
    ensures TableAt(now, block, page) == TableAt(cells, block, page)
  {
  }

  /** A flash that has lost an area table is one that UBI_Init fails on. */
  lemma LossIsBefore(g: Device, cells: seq<PhysBlock>, r: Rec, lost: nat)
    requires Boots(g, cells, r) && UpToDate(g, cells, r) && lost < g.A
    ensures r.ix.areaBlock[lost] < |cells|
    ensures UbiMount.Before(g, cells[r.ix.areaBlock[lost] := ClearBlock(g.P)], r, Some(lost))
  {
    hide Sorted, MapOf, AreaOf;
    Apart(g, r.mapped, r.ix.areaBlock, r.holder, r.ix.free);
    OthersOnFlash(g, cells, r, lost);
    hide Partition;
    if r.anc.newBlock != r.holder {
      BlankIsNoArea(g, cells, r);
    }
  }

  /** Once the flash has lost an area table that its index table names, no tables can be found on it,
      and it is one that UBI_Init fails on. */
  lemma AreaLossIsFatal(g: Device, cells: seq<PhysBlock>, r: Rec, a: nat, w: Rec)
    requires Boots(g, cells, r) && a < g.A
    ensures |r.ix.areaBlock| == g.A && r.ix.areaBlock[a] < |cells|
    ensures !Leads(g, cells[r.ix.areaBlock[a] := ClearBlock(g.P)], w)
    ensures UpToDate(g, cells, r) ==> UbiMount.Before(g, cells[r.ix.areaBlock[a] := ClearBlock(g.P)], r, Some(a))
  {
    assert AreaHeld(g, cells, r.ix.areaBlock[a], r.at[a]);
    var now := cells[r.ix.areaBlock[a] := ClearBlock(g.P)];
    BootsHasArea(g, cells, now, r, w, a);
    forall newer: AnchorTable
      ensures !BootsTwice(g, now, w, newer)
    {
      OneAnchor(g, cells, now, r, w, newer);
    }
    if UpToDate(g, cells, r) {
      LossIsBefore(g, cells, r, a);
    }
    hide Boots, BootsTwice;
    assert now[r.ix.areaBlock[a]][0].Clear?;
  }

  /** After the logical block's new block x was erased and the area table written to its new block
      n, moving the index table to the released area block leaves nothing to be found. */
  lemma BothFullLosesAll(g: Device, cells: seq<PhysBlock>, r: Rec, x: nat, n: nat, page: PhysBlock, a: nat, w: Rec)
    requires Boots(g, cells, r) && r.anc.newBlock == r.holder && a < g.A && |page| == g.P && UpToDate(g, cells, r)
    requires Loose(g, r.ix, r.holder, x) && Loose(g, r.ix, r.holder, n)
    ensures x < |cells| && n < |cells| && |r.ix.areaBlock| == g.A && r.ix.areaBlock[a] < |cells|
    ensures var now := cells[x := ClearBlock(g.P)][n := page][r.ix.areaBlock[a] := ClearBlock(g.P)];
            !Leads(g, now, w) && UbiMount.Before(g, now, r, Some(a))
  {
    hide UbiMount.Before, MapOf, Leads, Boots;
    assert |cells| == g.T by { BootsParts(g, cells, r); }
    TouchKeeps(g, cells, r, x, ClearBlock(g.P));
    TouchKeeps(g, cells[x := ClearBlock(g.P)], r, n, page);
    MapDepends(g, r.ix.areaBlock, r.at, cells, cells[x := ClearBlock(g.P)][n := page]);
    AreaLossIsFatal(g, cells[x := ClearBlock(g.P)][n := page], r, a, w);
  }

  lemma NothingLeft(g: Device, cells: seq<PhysBlock>, mid: seq<PhysBlock>, now: seq<PhysBlock>, r: Rec, x: nat, n: nat, a: nat)
    requires Boots(g, cells, r) && r.anc.newBlock == r.holder && a < g.A && |r.ix.areaBlock| == g.A && UpToDate(g, cells, r)
    requires Loose(g, r.ix, r.holder, x) && Loose(g, r.ix, r.holder, n)
    requires BlockErased(g, cells, x, mid) && BothTouched(g, mid, n, r.ix.areaBlock[a], now)
    ensures UbiMount.Before(g, now, r, Some(a)) && forall w :: !Leads(g, now, w)
  {
    hide Boots, Leads, Loose, UbiMount.Before, UpToDate;
    assert ShapedCells(cells, g.T, g.P) by { BootsParts(g, cells, r); }
    var end :| Rewritten(mid, n, end) && BlockErased(g, end, r.ix.areaBlock[a], now);
    BothFullLosesAll(g, cells, r, x, n, end[n], a, r);
    forall w: Rec
      ensures !Leads(g, now, w)
    {
      BothFullLosesAll(g, cells, r, x, n, end[n], a, w);
    }
  }
}
