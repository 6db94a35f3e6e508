/** ubi_index.c: the free block table, and the index table on flash. */
module UbiIndex {
  import opened Flash
  import opened Nand
  import opened FreeTable
  import opened UbiSpec
  import opened UbiFlash
  import opened UbiState

  // ---------------------------------------------------------------- INDEX_FreeBlock_Get

  /** The free table after m blocks chosen for a die could not be erased. */
  function Drained(s: seq<FreeSlot>, die: nat, dice: nat, m: nat): (r: seq<FreeSlot>)
    requires dice >= 1 && |s| >= 1
    ensures |r| == |s|
  {
    if m == 0 then s
    else
      var t := Drained(s, die, dice, m - 1);
      RemoveAt(t, Pick(t, die, dice, 0))
  }

  /** ANCHOR_LogBadBlock: a full table takes no more. */
  function Logged(bad: seq<nat>, block: nat, limit: nat): seq<nat> {
    if block in bad || |bad| >= limit then bad else bad + [block]
  }

  /** The block of entry k, if it is valid. */
  function BlockIn(s: seq<FreeSlot>, k: nat): (r: seq<nat>)
    ensures |r| <= 1
  {
    if k < |s| && s[k].Free? then [s[k].block] else []
  }

  /** The blocks that could not be erased. */
  function Lost(s: seq<FreeSlot>, die: nat, dice: nat, m: nat): (r: seq<nat>)
    requires dice >= 1 && |s| >= 1
    ensures |r| <= m
  {
    if m == 0 then []
    else
      var t := Drained(s, die, dice, m - 1);
      Lost(s, die, dice, m - 1) + BlockIn(t, Pick(t, die, dice, 0))
  }

  /** n invalid entries, which count as the code block. */
  function Codes(n: nat): (r: seq<nat>)
    ensures |r| == n && forall i :: 0 <= i < n ==> r[i] == 0
  {
    seq(n, _ => 0)
  }

  lemma RemovedOne(free: seq<FreeSlot>, i: nat)
    requires i < |free|
    ensures multiset(SlotBlocks(RemoveAt(free, i))) + multiset(BlockIn(free, i)) == multiset(SlotBlocks(free)) + multiset(Codes(|BlockIn(free, i)|))
  {
    var x, y := SlotBlocks(free), SlotBlocks(RemoveAt(free, i));
    assert x == x[..i] + [x[i]] + x[i + 1..];
    assert y == x[..i] + x[i + 1..] + [0];
    assert Codes(1) == [0] && Codes(0) == [];
  }

  lemma MoreCodes(n: nat, k: nat)
    ensures multiset(Codes(n + k)) == multiset(Codes(n)) + multiset(Codes(k))
  {
    assert Codes(n + k) == Codes(n) + Codes(k);
  }

  lemma StepBlocks(now: seq<nat>, was: seq<nat>, all: seq<nat>, before: seq<nat>, more: seq<nat>)
    requires multiset(now) + multiset(more) == multiset(was) + multiset(Codes(|more|))
    requires multiset(was) + multiset(before) == multiset(all) + multiset(Codes(|before|))
    ensures multiset(now) + multiset(before + more) == multiset(all) + multiset(Codes(|before + more|))
  {
    hide Codes;
    MoreCodes(|before|, |more|);
    var a, b, c, d, e := multiset(now), multiset(more), multiset(was), multiset(before), multiset(all);
    assert a + (d + b) == (a + b) + d == (c + d) + multiset(Codes(|more|));
  }

  /** What the free table loses is lost. */
  lemma {:induction false} DrainedBlocks(s: seq<FreeSlot>, die: nat, dice: nat, m: nat)
    requires dice >= 1 && |s| >= 1
    ensures multiset(SlotBlocks(Drained(s, die, dice, m))) + multiset(Lost(s, die, dice, m))
         == multiset(SlotBlocks(s)) + multiset(Codes(|Lost(s, die, dice, m)|))
  {
    hide RemoveAt, SlotBlocks, Pick, Codes, BlockIn;
    if m == 0 {
      NoCodes();
    } else {
      DrainedBlocks(s, die, dice, m - 1);
      var t := Drained(s, die, dice, m - 1);
      var k := Pick(t, die, dice, 0);
      RemovedOne(t, k);
      StepBlocks(SlotBlocks(RemoveAt(t, k)), SlotBlocks(t), SlotBlocks(s), Lost(s, die, dice, m - 1), BlockIn(t, k));
    }
  }

  lemma NoCodes()
    ensures Codes(0) == []
  {
  }

  /** Every data block has exactly one owner, or it could not be erased. */
  ghost predicate PartitionBut(g: Device, mapped: seq<AreaEntry>, areaBlock: seq<nat>, holder: nat, free: seq<FreeSlot>, lost: seq<nat>) {
    && |mapped| == g.U && |areaBlock| == g.A && |free| == g.F
    && Owned(mapped, areaBlock, holder, free) + multiset(lost) == Everything(g) + multiset(Codes(|lost|))
  }

  lemma Regroup(a: multiset<nat>, now: multiset<nat>, was: multiset<nat>, lost: multiset<nat>, zeros: multiset<nat>)
    requires now + lost == was + zeros
    ensures (a + now) + lost == (a + was) + zeros
  {
    assert (a + now) + lost == a + (now + lost);
  }

  /** Failed erases move blocks from the free table to the lost ones, and no others. */
  lemma FailuresKeepPartition(g: Device, mapped: seq<AreaEntry>, areaBlock: seq<nat>, holder: nat, free: seq<FreeSlot>, dieIndex: nat, m: nat)
    requires Partition(g, mapped, areaBlock, holder, free)
    ensures PartitionBut(g, mapped, areaBlock, holder, Drained(free, DieOf(g, dieIndex), g.D, m), Lost(free, DieOf(g, dieIndex), g.D, m))
  {
    hide Everything, Drained, Lost, MapBlocks, SlotBlocks;
    DrainedBlocks(free, DieOf(g, dieIndex), g.D, m);
    var lost := Lost(free, DieOf(g, dieIndex), g.D, m);
    Regroup(multiset(MapBlocks(mapped)) + multiset(areaBlock) + multiset{holder},
            multiset(SlotBlocks(Drained(free, DieOf(g, dieIndex), g.D, m))), multiset(SlotBlocks(free)),
            multiset(lost), multiset(Codes(|lost|)));
  }

  lemma CodesAlone(n: nat, x: nat)
    requires x != 0
    ensures multiset(Codes(n))[x] == 0
  {
    assert x !in multiset(Codes(n));
  }

  lemma OneOwnerOrLost(g: Device, mapped: seq<AreaEntry>, areaBlock: seq<nat>, holder: nat, free: seq<FreeSlot>, lost: seq<nat>, x: nat)
    requires PartitionBut(g, mapped, areaBlock, holder, free, lost) && DataLo(g) <= x < g.T
    ensures Owned(mapped, areaBlock, holder, free)[x] + multiset(lost)[x] == 1
  {
    OnlyOnce(g, x);
    CodesAlone(|lost|, x);
    hide Owned, Everything;
    assert (Owned(mapped, areaBlock, holder, free) + multiset(lost))[x] == (Everything(g) + multiset(Codes(|lost|)))[x];
  }

  /** Every block taken out makes the table smaller. */
  lemma RemovedSize(s: seq<FreeSlot>, i: nat)
    requires i < |s| && s[i].Free?
    ensures Size(RemoveAt(s, i)) == Size(s) - 1
  {
    RemoveTakesOne(s, i);
  }

  /** A table whose first entry is invalid has none. */
  lemma PickFree(s: seq<FreeSlot>, die: nat, dice: nat, i: nat)
    requires |s| >= 1 && dice >= 1 && i <= |s| && s[0].Free?
    ensures s[Pick(s, die, dice, i)].Free?
    decreases |s| - i
  {
    if i < |s| && s[i].Free? && s[i].block % dice != die {
      PickFree(s, die, dice, i + 1);
    }
  }

  /** `die % TOTAL_DIE_COUNT`. */
  function DieOf(g: Device, dieIndex: nat): nat {
    dieIndex % g.D
  }

  /** The entry chosen for the die. */
  function Choice(g: Device, s: seq<FreeSlot>, dieIndex: nat): (k: nat)
    ensures |s| > 0 ==> k < |s|
  {
    Pick(s, DieOf(g, dieIndex), g.D, 0)
  }

  /** Only the given block was erased. */
  ghost predicate BlockErased(g: Device, cells: seq<PhysBlock>, block: nat, now: seq<PhysBlock>) {
    block < |cells| && now == cells[block := ClearBlock(g.P)]
  }

  ghost predicate InFlash(g: Device, s: seq<FreeSlot>) {
    |s| == g.F && forall i :: 0 <= i < |s| && s[i].Free? ==> s[i].block < g.T
  }

  /** The table loses its chosen block, whose count is one below ec. */
  ghost predicate Taken(g: Device, t: seq<FreeSlot>, dieIndex: nat, block: nat, ec: nat, now: seq<FreeSlot>) {
    |t| == g.F && ec > 0 && t[Choice(g, t, dieIndex)] == Free(block, ec - 1) && now == RemoveAt(t, Choice(g, t, dieIndex))
  }

  /** Some valid entry is a block of the die asked for. */
  ghost predicate HasDie(g: Device, t: seq<FreeSlot>, dieIndex: nat) {
    exists i :: 0 <= i < |t| && t[i].Free? && t[i].block % g.D == dieIndex % g.D
  }

  /** Entry k is a least worn one of the die asked for or, if the table has none of that die, of all. */
  ghost predicate LeastWornAt(g: Device, t: seq<FreeSlot>, dieIndex: nat, k: nat) {
    && k < |t| && t[k].Free? && (HasDie(g, t, dieIndex) ==> t[k].block % g.D == dieIndex % g.D)
    && forall i :: 0 <= i < |t| && t[i].Free? && (HasDie(g, t, dieIndex) ==> t[i].block % g.D == dieIndex % g.D) ==> t[k].ec <= t[i].ec
  }

  /** The block is such a one, and its erase count goes up by one to ec. */
  ghost predicate LeastWorn(g: Device, t: seq<FreeSlot>, dieIndex: nat, block: nat, ec: nat) {
    ec > 0 && exists k: nat :: LeastWornAt(g, t, dieIndex, k) && t[k] == Free(block, ec - 1)
  }

  lemma ChoiceIsLeastWorn(g: Device, t: seq<FreeSlot>, dieIndex: nat)
    requires Sorted(t) && |t| > 0 && t[Choice(g, t, dieIndex)].Free?
    ensures LeastWornAt(g, t, dieIndex, Choice(g, t, dieIndex))
  {
    var die := dieIndex % g.D;
    PickIsLeastWorn(t, die, g.D, 0);
    hide Pick, Sorted;
    assert HasDie(g, t, dieIndex) <==> exists j :: 0 <= j < |t| && t[j].Free? && t[j].block % g.D == die;
  }

  lemma TakenIsLeastWorn(g: Device, t: seq<FreeSlot>, dieIndex: nat, block: nat, ec: nat, now: seq<FreeSlot>)
    requires Sorted(t) && |t| > 0 && Taken(g, t, dieIndex, block, ec, now)
    ensures LeastWorn(g, t, dieIndex, block, ec)
  {
    ChoiceIsLeastWorn(g, t, dieIndex);
    hide LeastWornAt, Choice, Sorted, RemoveAt;
  }

  lemma {:induction false} DrainedSorted(s: seq<FreeSlot>, die: nat, dice: nat, m: nat)
    requires dice >= 1 && |s| >= 1 && Sorted(s)
    ensures Sorted(Drained(s, die, dice, m))
  {
    if m > 0 {
      DrainedSorted(s, die, dice, m - 1);
      var t := Drained(s, die, dice, m - 1);
      RemoveKeepsSorted(t, Pick(t, die, dice, 0));
    }
  }

  /** So is every block that could not be erased: each failed try takes away a least worn one. */
  lemma EveryTryLeastWorn(g: Device, s: seq<FreeSlot>, dieIndex: nat, m: nat) returns (k: nat)
    requires |s| >= 1 && Sorted(s)
    requires var t := Drained(s, DieOf(g, dieIndex), g.D, m); t[Choice(g, t, dieIndex)].Free?
    ensures LeastWornAt(g, Drained(s, DieOf(g, dieIndex), g.D, m), dieIndex, k)
    ensures Drained(s, DieOf(g, dieIndex), g.D, m + 1) == RemoveAt(Drained(s, DieOf(g, dieIndex), g.D, m), k)
  {
    var t := Drained(s, DieOf(g, dieIndex), g.D, m);
    DrainedSorted(s, DieOf(g, dieIndex), g.D, m);
    k := Choice(g, t, dieIndex);
    ChoiceIsLeastWorn(g, t, dieIndex);
    hide LeastWornAt, Sorted, RemoveAt, Pick;
  }

  lemma RemovedInFlash(g: Device, s: seq<FreeSlot>, i: nat)
    requires InFlash(g, s) && i < |s|
    ensures InFlash(g, RemoveAt(s, i))
  {
  }

  /** One try of INDEX_FreeBlock_Get. */
  method TryGet(s: Ubi, dieIndex: nat) returns (st: Status, block: nat, ec: nat)
    requires s.Sound() && InFlash(s.g, s.free[..])
    modifies s`anc, s.nand, s.free
    ensures s.Sound() && InFlash(s.g, s.free[..])
    ensures st == TooManyBadBlocks <==> old(s.free[..])[Choice(s.g, old(s.free[..]), dieIndex)].Vacant?
    ensures st == TooManyBadBlocks ==> s.free[..] == old(s.free[..]) && s.nand.faults == old(s.nand.faults)
    ensures st == Success ==> Taken(s.g, old(s.free[..]), dieIndex, block, ec, s.free[..])
    ensures st == Success ==> BlockErased(s.g, old(s.nand.cells), block, s.nand.cells) && s.anc == old(s.anc)
    ensures st == BadBlock || st == PowerLoss ==> s.free[..] == RemoveAt(old(s.free[..]), Choice(s.g, old(s.free[..]), dieIndex))
    ensures st == Success || st == TooManyBadBlocks ==> s.anc == old(s.anc)
    ensures st != TooManyBadBlocks ==> Size(s.free[..]) < Size(old(s.free[..]))
    ensures s.anc == old(s.anc).(bad := s.anc.bad)
    ensures st == BadBlock ==> s.nand.faults + 1 == old(s.nand.faults)
    ensures st == BadBlock ==>
              s.anc.bad == Logged(old(s.anc.bad), old(s.free[..])[Choice(s.g, old(s.free[..]), dieIndex)].block, s.g.B)
    ensures st != BadBlock ==> s.nand.faults == old(s.nand.faults)
    ensures st == PowerLoss || st == TooManyBadBlocks ==> s.nand.cells == old(s.nand.cells)
    ensures s.nand.power.Some? == old(s.nand.power).Some?
    ensures old(s.nand.power) == None ==> st != PowerLoss
    ensures st == Success || st == BadBlock ==> old(s.nand.power) != Some(0) && s.nand.power == Spent(old(s.nand.power), 1)
    ensures st == PowerLoss ==> old(s.nand.power) == Some(0) && s.nand.power == Some(0)
    ensures st == Success || st == BadBlock || st == PowerLoss || st == TooManyBadBlocks
  {
    hide Size, RemoveAt;
    var i := Search(s.free, DieOf(s.g, dieIndex), s.g.D);
    if s.free[i].Vacant? {
      return TooManyBadBlocks, 0, 0;
    }
    block, ec := s.free[i].block, s.free[i].ec + 1;
    st := s.nand.Erase(block);
    RemovedSize(s.free[..], i);
    RemovedInFlash(s.g, s.free[..], i);
    if st != Success {
      s.anc := s.anc.(bad := Logged(s.anc.bad, block, s.g.B));
    }
    RemoveInPlace(s.free, i);
  }

  /** The lost blocks are logged while the table of bad blocks has room. */
  ghost predicate LostLogged(bad: seq<nat>, was: seq<nat>, lost: seq<nat>, m: nat, limit: nat) {
    was <= bad && |bad| <= |was| + m && (|was| + m <= limit ==> forall b :: b in lost ==> b in bad)
  }

  lemma NothingLost(s: seq<FreeSlot>, die: nat, dice: nat, bad: seq<nat>, limit: nat)
    requires dice >= 1 && |s| >= 1
    ensures LostLogged(bad, bad, Lost(s, die, dice, 0), 0, limit)
  {
  }

  lemma LogStep(s: seq<FreeSlot>, die: nat, dice: nat, m: nat, bad: seq<nat>, was: seq<nat>, limit: nat)
    requires dice >= 1 && |s| >= 1 && LostLogged(bad, was, Lost(s, die, dice, m), m, limit)
    requires Drained(s, die, dice, m)[Pick(Drained(s, die, dice, m), die, dice, 0)].Free?
    ensures LostLogged(Logged(bad, Drained(s, die, dice, m)[Pick(Drained(s, die, dice, m), die, dice, 0)].block, limit), was,
                       Lost(s, die, dice, m + 1), m + 1, limit)
  {
    hide Drained, Pick;
  }

  lemma NothingDrained(s: seq<FreeSlot>, die: nat, dice: nat)
    requires dice >= 1 && |s| >= 1
    ensures Drained(s, die, dice, 0) == s
  {
  }

  lemma NextDrained(s: seq<FreeSlot>, die: nat, dice: nat, m: nat)
    requires dice >= 1 && |s| >= 1
    ensures Drained(s, die, dice, m + 1) == RemoveAt(Drained(s, die, dice, m), Pick(Drained(s, die, dice, m), die, dice, 0))
  {
    hide RemoveAt, Pick;
  }

  /** INDEX_FreeBlock_Get: the block chosen for the die is erased and leaves the table with its
      erase count plus one; a block that cannot be erased is logged as bad and the search goes
      on, which ends because the table shrinks.  `m` counts the failures.  In a sorted table the
      block is a least worn one of the die, or of all if the table has none of that die. */
  method Get(s: Ubi, dieIndex: nat) returns (st: Status, block: nat, ec: nat, ghost m: nat)
    requires s.Sound() && InFlash(s.g, s.free[..])
    modifies s`anc, s.nand, s.free
    ensures s.Sound() && InFlash(s.g, s.free[..]) && m + s.nand.faults == old(s.nand.faults)
    ensures st == Success || st == TooManyBadBlocks || st == PowerLoss
    ensures st == Success ==> Taken(s.g, Drained(old(s.free[..]), DieOf(s.g, dieIndex), s.g.D, m), dieIndex, block, ec, s.free[..])
    ensures st == Success && Sorted(old(s.free[..])) ==> LeastWorn(s.g, Drained(old(s.free[..]), DieOf(s.g, dieIndex), s.g.D, m), dieIndex, block, ec)
    ensures m == 0 && st == Success && Sorted(old(s.free[..])) ==> LeastWorn(s.g, old(s.free[..]), dieIndex, block, ec)
    ensures st == TooManyBadBlocks ==>
              var t := Drained(old(s.free[..]), DieOf(s.g, dieIndex), s.g.D, m); s.free[..] == t && t[Choice(s.g, t, dieIndex)].Vacant?
    ensures m == 0 && st == Success ==> BlockErased(s.g, old(s.nand.cells), block, s.nand.cells) && s.anc == old(s.anc)
    ensures m == 0 && st != Success ==> s.nand.cells == old(s.nand.cells)
    ensures s.anc == old(s.anc).(bad := s.anc.bad)
    ensures s.nand.power.Some? == old(s.nand.power).Some?
    ensures old(s.nand.power) == None ==> st != PowerLoss
    ensures st != PowerLoss ==> LostLogged(s.anc.bad, old(s.anc.bad), Lost(old(s.free[..]), DieOf(s.g, dieIndex), s.g.D, m), m, s.g.B)
    ensures m == 0 && st == Success ==> old(s.nand.power) != Some(0) && s.nand.power == Spent(old(s.nand.power), 1)
    ensures m == 0 && st == PowerLoss ==> old(s.nand.power) == Some(0) && s.nand.power == Some(0)
  {
    hide Size, RemoveAt, InFlash, Taken, BlockErased, LostLogged, Lost, Logged, LeastWorn, Sorted, Drained;
    ghost var first := s.free[..];
    NothingDrained(first, DieOf(s.g, dieIndex), s.g.D);
    NothingLost(first, DieOf(s.g, dieIndex), s.g.D, s.anc.bad, s.g.B);
    m, block, ec := 0, 0, 0;
    st := BadBlock;
    while st == BadBlock
      invariant s.Sound() && InFlash(s.g, s.free[..]) && m + s.nand.faults == old(s.nand.faults)
      invariant st == BadBlock ==> s.free[..] == Drained(first, DieOf(s.g, dieIndex), s.g.D, m)
      invariant st == BadBlock || st == Success || st == TooManyBadBlocks || st == PowerLoss
      invariant st == Success ==> Taken(s.g, Drained(first, DieOf(s.g, dieIndex), s.g.D, m), dieIndex, block, ec, s.free[..])
      invariant st == TooManyBadBlocks ==>
                  var t := Drained(first, DieOf(s.g, dieIndex), s.g.D, m); s.free[..] == t && t[Choice(s.g, t, dieIndex)].Vacant?
      invariant m == 0 && st == Success ==> BlockErased(s.g, old(s.nand.cells), block, s.nand.cells) && s.anc == old(s.anc)
      invariant m == 0 && st != Success ==> s.nand.cells == old(s.nand.cells) && (st == BadBlock ==> s.anc == old(s.anc))
      invariant s.anc == old(s.anc).(bad := s.anc.bad)
      invariant s.nand.power.Some? == old(s.nand.power).Some? && (old(s.nand.power) == None ==> st != PowerLoss)
      invariant st != PowerLoss ==> LostLogged(s.anc.bad, old(s.anc.bad), Lost(first, DieOf(s.g, dieIndex), s.g.D, m), m, s.g.B)
      invariant m == 0 && st == BadBlock ==> s.nand.power == old(s.nand.power)
      invariant m == 0 && st == Success ==> old(s.nand.power) != Some(0) && s.nand.power == Spent(old(s.nand.power), 1)
      invariant m == 0 && st == PowerLoss ==> old(s.nand.power) == Some(0) && s.nand.power == Some(0)
      decreases Size(s.free[..]), st == BadBlock
    {
      ghost var bad := s.anc.bad;
      st, block, ec := TryGet(s, dieIndex);
      if st == BadBlock {
        NextDrained(first, DieOf(s.g, dieIndex), s.g.D, m);
        LogStep(first, DieOf(s.g, dieIndex), s.g.D, m, bad, old(s.anc.bad), s.g.B);
        m := m + 1;
      }
    }
    if st == Success && Sorted(first) {
      DrainedSorted(first, DieOf(s.g, dieIndex), s.g.D, m);
      TakenIsLeastWorn(s.g, Drained(first, DieOf(s.g, dieIndex), s.g.D, m), dieIndex, block, ec, s.free[..]);
    }
  }
}
