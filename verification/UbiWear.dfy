/** The erase counts: every block's is on record with its owner, and goes up by one whenever the
    block is taken from the free table. */
module UbiWear {
  import opened Flash
  import opened Nand
  import opened FreeTable
  import opened UbiSpec
  import opened UbiFlash
  import opened UbiIndex

  // ---------------------------------------------------------------- how the tables move

  /** The index table, the block it is on, and that block's erase count. */
  datatype Place = Place(ix: IndexTable, holder: nat, ec: nat)

  /** The index table after an area reclaim: the area's table is on free block k. */
  function AreaReclaimed(g: Device, ix: IndexTable, b: nat, k: nat, ec: nat): IndexTable
    requires b < g.U
  {
    var a := AreaOf(g, b);
    if a < |ix.areaBlock| && a < |ix.areaEc| && k < |ix.free| && ix.free[k].Free? then
      ix.(areaBlock := ix.areaBlock[a := ix.free[k].block], areaEc := ix.areaEc[a := ec],
          free := Exchange(ix.free, k, ix.areaBlock[a], ix.areaEc[a]))
    else ix
  }

  /** The erase count of free block k once it is taken. */
  function CountOnce(free: seq<FreeSlot>, k: nat): nat {
    if k < |free| && free[k].Free? then free[k].ec + 1 else 0
  }

  /** The table of b's area has moved to a free block of its die. */
  function Reclaimed(g: Device, p: Place, b: nat): Place
    requires b < g.U
  {
    if |p.ix.areaBlock| != g.A then p
    else
      var k := Choice(g, p.ix.free, p.ix.areaBlock[AreaOf(g, b)]);
      p.(ix := AreaReclaimed(g, p.ix, b, k, CountOnce(p.ix.free, k)))
  }

  /** If its block was full, the index table has moved to a free block of its die. */
  function Relocated(g: Device, p: Place, next: nat): Place {
    var k := Choice(g, p.ix.free, p.holder);
    if next < g.P || k >= |p.ix.free| || p.ix.free[k].Vacant? then p
    else Place(p.ix.(free := Exchange(p.ix.free, k, p.holder, p.ec)), p.ix.free[k].block, CountOnce(p.ix.free, k))
  }

  /** After INDEX_Update_Commit for logical block b. */
  function Committed(g: Device, p: Place, b: nat, full: bool, next: nat): Place
    requires b < g.U
  {
    Relocated(g, if full then Reclaimed(g, p, b) else p, next)
  }

  // ---------------------------------------------------------------- what is on record

  function MapCounts(mapped: seq<AreaEntry>): (r: seq<FreeSlot>)
    ensures |r| == |mapped| && forall b :: 0 <= b < |r| ==> r[b] == Free(mapped[b].block, mapped[b].ec)
  {
    seq(|mapped|, b requires 0 <= b < |mapped| => Free(mapped[b].block, mapped[b].ec))
  }

  function AreaCounts(ix: IndexTable): (r: seq<FreeSlot>)
    ensures |r| == |ix.areaBlock| && forall a :: 0 <= a < |r| ==> r[a] == Free(ix.areaBlock[a], if a < |ix.areaEc| then ix.areaEc[a] else 0)
  {
    seq(|ix.areaBlock|, a requires 0 <= a < |ix.areaBlock| => Free(ix.areaBlock[a], if a < |ix.areaEc| then ix.areaEc[a] else 0))
  }

  /** Every block on record, with its erase count. */
  ghost function Ledger(mapped: seq<AreaEntry>, p: Place): multiset<FreeSlot> {
    multiset(MapCounts(mapped)) + multiset(AreaCounts(p.ix)) + multiset{Free(p.holder, p.ec)} + multiset(p.ix.free)
  }

  /** The count of one block has gone up by one. */
  ghost function Worn(l: multiset<FreeSlot>, x: FreeSlot): multiset<FreeSlot>
    requires x.Free?
  {
    l - multiset{x} + multiset{Free(x.block, x.ec + 1)}
  }

  /** The counts of the blocks taken have gone up by one each, in turn, and nothing else is different. */
  ghost predicate Ages(l: multiset<FreeSlot>, taken: seq<FreeSlot>, m: multiset<FreeSlot>)
    decreases |taken|
  {
    if taken == [] then m == l
    else taken[0] in l && taken[0].Free? && Ages(Worn(l, taken[0]), taken[1..], m)
  }

  lemma {:induction false} AgesTrans(l: multiset<FreeSlot>, taken: seq<FreeSlot>, m: multiset<FreeSlot>, more: seq<FreeSlot>, n: multiset<FreeSlot>)
    requires Ages(l, taken, m) && Ages(m, more, n)
    ensures Ages(l, taken + more, n)
    decreases |taken|
  {
    hide Worn;
    if taken == [] {
      assert taken + more == more;
    } else {
      AgesTrans(Worn(l, taken[0]), taken[1..], m, more, n);
      assert (taken + more)[1..] == taken[1..] + more;
    }
  }

  lemma AgesOnce(l: multiset<FreeSlot>, x: FreeSlot)
    requires x in l && x.Free?
    ensures Ages(l, [x], Worn(l, x))
  {
    assert Ages(Worn(l, x), [], Worn(l, x)) && [x][1..] == [];
  }

  /** How often block x is among those taken. */
  ghost function Times(taken: seq<FreeSlot>, x: nat): nat {
    if taken == [] then 0 else (if taken[0].Free? && taken[0].block == x then 1 else 0) + Times(taken[1..], x)
  }

  /** Block x is on record once, with count n. */
  ghost predicate Counts(l: multiset<FreeSlot>, x: nat, n: nat) {
    l[Free(x, n)] == 1 && forall k :: k != n ==> l[Free(x, k)] == 0
  }

  /** A block's count is what it was plus the number of times the block was taken. */
  lemma {:induction false} EveryCount(l: multiset<FreeSlot>, taken: seq<FreeSlot>, m: multiset<FreeSlot>, x: nat, n: nat)
    requires Ages(l, taken, m) && Counts(l, x, n)
    ensures Counts(m, x, n + Times(taken, x))
    decreases |taken|
  {
    if taken != [] {
      var t := taken[0];
      EveryCount(Worn(l, t), taken[1..], m, x, if t.block == x then n + 1 else n);
    }
  }

  // ---------------------------------------------------------------- what each move does to the record

  lemma ExchangeCounts(free: seq<FreeSlot>, i: nat, block: nat, ec: nat)
    requires i < |free| && free[i].Free?
    ensures free[i] in multiset(free) && multiset(Exchange(free, i, block, ec)) == multiset(free) - multiset{free[i]} + multiset{Free(block, ec)}
  {
    RemoveTakesOne(free, i);
    assert RemoveAt(free, i)[|free| - 1].Vacant?;
    PutAddsOne(RemoveAt(free, i), block, ec);
    hide Put, RemoveAt;
  }

  lemma TradeOne(a: multiset<FreeSlot>, rest: multiset<FreeSlot>, d: multiset<FreeSlot>, x: FreeSlot, y: FreeSlot, z: FreeSlot)
    requires x.Free? && x in d && y in a
    ensures ((a - multiset{y} + multiset{Free(x.block, x.ec + 1)}) + rest + (d - multiset{x} + multiset{y}))[z] == Worn(a + rest + d, x)[z]
  {
  }

  /** A block leaves the free table, counted once more, and another one enters it from its owner. */
  lemma Trade(a: multiset<FreeSlot>, rest: multiset<FreeSlot>, d: multiset<FreeSlot>, x: FreeSlot, y: FreeSlot)
    requires x.Free? && x in d && y in a
    ensures (a - multiset{y} + multiset{Free(x.block, x.ec + 1)}) + rest + (d - multiset{x} + multiset{y}) == Worn(a + rest + d, x)
  {
    forall z: FreeSlot
      ensures ((a - multiset{y} + multiset{Free(x.block, x.ec + 1)}) + rest + (d - multiset{x} + multiset{y}))[z] == Worn(a + rest + d, x)[z]
    {
      TradeOne(a, rest, d, x, y, z);
    }
    hide Worn;
  }

  lemma Ordered(a: multiset<FreeSlot>, b: multiset<FreeSlot>, c: multiset<FreeSlot>, d: multiset<FreeSlot>)
    ensures a + b + c + d == a + (b + c) + d == b + (a + c) + d == c + (a + b) + d
  {
  }

  lemma HolderTraded(m: multiset<FreeSlot>, n: multiset<FreeSlot>, d: multiset<FreeSlot>, x: FreeSlot, y: FreeSlot)
    requires x.Free? && x in d
    ensures m + n + multiset{Free(x.block, x.ec + 1)} + (d - multiset{x} + multiset{y}) == Worn(m + n + multiset{y} + d, x)
  {
    hide Worn;
    var c, u := multiset{y}, multiset{Free(x.block, x.ec + 1)};
    Trade(c, m + n, d, x, y);
    Ordered(m, n, c, d);
    assert c - multiset{y} + u == u;
    Ordered(m, n, u, d - multiset{x} + multiset{y});
  }

  lemma MapCountsSet(mapped: seq<AreaEntry>, b: nat, e: AreaEntry)
    requires b < |mapped|
    ensures Free(mapped[b].block, mapped[b].ec) in multiset(MapCounts(mapped))
    ensures multiset(MapCounts(mapped[b := e])) == multiset(MapCounts(mapped)) - multiset{Free(mapped[b].block, mapped[b].ec)} + multiset{Free(e.block, e.ec)}
  {
    assert MapCounts(mapped)[b] in MapCounts(mapped);
    assert MapCounts(mapped[b := e]) == MapCounts(mapped)[b := Free(e.block, e.ec)];
  }

  lemma AreaCountsSet(ix: IndexTable, u: IndexTable, a: nat, block: nat, ec: nat)
    requires |ix.areaEc| == |ix.areaBlock| && a < |ix.areaBlock|
    requires u.areaBlock == ix.areaBlock[a := block] && u.areaEc == ix.areaEc[a := ec]
    ensures Free(ix.areaBlock[a], ix.areaEc[a]) in multiset(AreaCounts(ix))
    ensures multiset(AreaCounts(u)) == multiset(AreaCounts(ix)) - multiset{Free(ix.areaBlock[a], ix.areaEc[a])} + multiset{Free(block, ec)}
  {
    assert AreaCounts(ix)[a] in AreaCounts(ix);
    assert AreaCounts(u) == AreaCounts(ix)[a := Free(block, ec)];
  }

  lemma AreaCountsSame(ix: IndexTable, u: IndexTable)
    requires u.areaBlock == ix.areaBlock && u.areaEc == ix.areaEc
    ensures AreaCounts(u) == AreaCounts(ix)
  {
  }

  /** A logical block moves to free block k. */
  lemma RemappedAges(mapped: seq<AreaEntry>, p: Place, b: nat, k: nat, q: Place)
    requires b < |mapped| && k < |p.ix.free| && p.ix.free[k].Free?
    requires q.holder == p.holder && q.ec == p.ec && q.ix.areaBlock == p.ix.areaBlock && q.ix.areaEc == p.ix.areaEc
    requires q.ix.free == Exchange(p.ix.free, k, mapped[b].block, mapped[b].ec)
    ensures Ages(Ledger(mapped, p), [p.ix.free[k]], Ledger(mapped[b := AreaEntry(p.ix.free[k].block, p.ix.free[k].ec + 1)], q))
  {
    hide MapCounts, AreaCounts, Exchange, Worn, Ages;
    var x := p.ix.free[k];
    var y, e := Free(mapped[b].block, mapped[b].ec), AreaEntry(x.block, x.ec + 1);
    ExchangeCounts(p.ix.free, k, y.block, y.ec);
    MapCountsSet(mapped, b, e);
    AreaCountsSame(p.ix, q.ix);
    var a, b1, c, d := multiset(MapCounts(mapped)), multiset(AreaCounts(p.ix)), multiset{Free(p.holder, p.ec)}, multiset(p.ix.free);
    Trade(a, b1 + c, d, x, y);
    Ordered(a, b1, c, d);
    Ordered(a - multiset{y} + multiset{Free(x.block, x.ec + 1)}, b1, c, d - multiset{x} + multiset{y});
    AgesOnce(Ledger(mapped, p), x);
  }

  /** The area's table moves to a free block. */
  lemma ReclaimedAges(g: Device, mapped: seq<AreaEntry>, p: Place, b: nat) returns (taken: seq<FreeSlot>)
    requires b < g.U && |p.ix.areaEc| == |p.ix.areaBlock| == g.A
    ensures |taken| <= 1 && Ages(Ledger(mapped, p), taken, Ledger(mapped, Reclaimed(g, p, b)))
  {
    hide MapCounts, AreaCounts, Exchange, Worn, Choice, AreaOf;
    var a, ix, q := AreaOf(g, b), p.ix, Reclaimed(g, p, b);
    var k := Choice(g, ix.free, ix.areaBlock[a]);
    taken := [];
    if k < |ix.free| && ix.free[k].Free? {
      var x, y := ix.free[k], Free(ix.areaBlock[a], ix.areaEc[a]);
      taken := [x];
      ExchangeCounts(ix.free, k, y.block, y.ec);
      AreaCountsSet(ix, q.ix, a, x.block, x.ec + 1);
      var m, n, c, d := multiset(MapCounts(mapped)), multiset(AreaCounts(ix)), multiset{Free(p.holder, p.ec)}, multiset(ix.free);
      Trade(n, m + c, d, x, y);
      Ordered(m, n, c, d);
      Ordered(m, n - multiset{y} + multiset{Free(x.block, x.ec + 1)}, c, d - multiset{x} + multiset{y});
      AgesOnce(Ledger(mapped, p), x);
    }
  }

  /** The index table moves to a free block, or stays. */
  lemma RelocatedAges(g: Device, mapped: seq<AreaEntry>, p: Place, next: nat) returns (taken: seq<FreeSlot>)
    ensures |taken| <= 1 && Ages(Ledger(mapped, p), taken, Ledger(mapped, Relocated(g, p, next)))
  {
    hide MapCounts, AreaCounts, Exchange, Worn, Choice;
    var ix, q := p.ix, Relocated(g, p, next);
    var k := Choice(g, ix.free, p.holder);
    taken := [];
    if next >= g.P && k < |ix.free| && ix.free[k].Free? {
      var x, y := ix.free[k], Free(p.holder, p.ec);
      taken := [x];
      ExchangeCounts(ix.free, k, y.block, y.ec);
      AreaCountsSame(ix, q.ix);
      HolderTraded(multiset(MapCounts(mapped)), multiset(AreaCounts(ix)), multiset(ix.free), x, y);
      AgesOnce(Ledger(mapped, p), x);
    }
  }

  /** The commit takes at most two blocks, and keeps every other count. */
  lemma CommittedAges(g: Device, mapped: seq<AreaEntry>, p: Place, b: nat, full: bool, next: nat) returns (taken: seq<FreeSlot>)
    requires b < g.U && |p.ix.areaEc| == |p.ix.areaBlock| == g.A
    ensures |taken| <= 2 && Ages(Ledger(mapped, p), taken, Ledger(mapped, Committed(g, p, b, full, next)))
  {
    hide Ledger, Reclaimed, Relocated;
    var q := if full then Reclaimed(g, p, b) else p;
    taken := [];
    if full {
      taken := ReclaimedAges(g, mapped, p, b);
    }
    var more := RelocatedAges(g, mapped, q, next);
    AgesTrans(Ledger(mapped, p), taken, Ledger(mapped, q), more, Ledger(mapped, Committed(g, p, b, full, next)));
    taken := taken + more;
  }

  /** From one record to the other every block taken has been counted, and nothing else is different. */
  ghost predicate Recorded(mapped: seq<AreaEntry>, p: Place, q: Place) {
    exists taken :: Ages(Ledger(mapped, p), taken, Ledger(mapped, q))
  }

  lemma SameRecorded(mapped: seq<AreaEntry>, p: Place)
    ensures Recorded(mapped, p, p)
  {
    assert Ages(Ledger(mapped, p), [], Ledger(mapped, p));
    hide Ledger;
  }

  lemma RecordedTrans(mapped: seq<AreaEntry>, p: Place, q: Place, z: Place)
    requires Recorded(mapped, p, q) && Recorded(mapped, q, z)
    ensures Recorded(mapped, p, z)
  {
    hide Ledger, Ages;
    var taken :| Ages(Ledger(mapped, p), taken, Ledger(mapped, q));
    var more :| Ages(Ledger(mapped, q), more, Ledger(mapped, z));
    AgesTrans(Ledger(mapped, p), taken, Ledger(mapped, q), more, Ledger(mapped, z));
  }

  lemma RelocatedRecorded(g: Device, mapped: seq<AreaEntry>, p: Place, next: nat)
    ensures Recorded(mapped, p, Relocated(g, p, next))
  {
    hide Ledger, Ages, Relocated;
    var taken := RelocatedAges(g, mapped, p, next);
  }

  lemma CommittedRecorded(g: Device, mapped: seq<AreaEntry>, p: Place, b: nat, full: bool, next: nat)
    requires b < g.U && |p.ix.areaEc| == |p.ix.areaBlock| == g.A
    ensures Recorded(mapped, p, Committed(g, p, b, full, next))
  {
    hide Ledger, Ages, Committed;
    var taken := CommittedAges(g, mapped, p, b, full, next);
  }

  /** UBI_Erase on the record: the logical block's new block e has been taken, then at most two
      blocks for the tables. */
  ghost predicate RecordedTo(mapped: seq<AreaEntry>, p: Place, e: AreaEntry, now: seq<AreaEntry>, q: Place) {
    e.ec > 0 && exists more :: |more| <= 2 && Ages(Ledger(mapped, p), [Free(e.block, e.ec - 1)] + more, Ledger(now, q))
  }

  /** The remap of logical block b is announced: free block k takes the place of its block. */
  function Remapped(p: Place, b: nat, was: AreaEntry, k: nat, e: AreaEntry): Place {
    if k < |p.ix.free| then p.(ix := p.ix.(free := Exchange(p.ix.free, k, was.block, was.ec), plr := Plr(b, e))) else p
  }

  lemma RemapRecorded(g: Device, mapped: seq<AreaEntry>, p: Place, b: nat, k: nat, e: AreaEntry, full: bool, next: nat)
    requires b < g.U && |p.ix.areaEc| == |p.ix.areaBlock| == g.A && b < |mapped| && k < |p.ix.free|
    requires e.ec > 0 && p.ix.free[k] == Free(e.block, e.ec - 1)
    ensures RecordedTo(mapped, p, e, mapped[b := e], Committed(g, Remapped(p, b, mapped[b], k, e), b, full, next))
  {
    hide Ledger, Ages, Committed, Exchange;
    var q := Remapped(p, b, mapped[b], k, e);
    RemappedAges(mapped, p, b, k, q);
    var more := CommittedAges(g, mapped[b := e], q, b, full, next);
    AgesTrans(Ledger(mapped, p), [p.ix.free[k]], Ledger(mapped[b := e], q), more, Ledger(mapped[b := e], Committed(g, q, b, full, next)));
  }
}
