/** The free block table of ubi_index.c, kept sorted by erase count in place. */
module FreeTable {
  import opened Flash
  import opened Nand

  const STATIC_WL_THRESHOLD: nat := 1000

  // ---------------------------------------------------------------- the table as a value

  /** An invalid entry counts as worn beyond any erase count. */
  predicate Heavier(s: FreeSlot, ec: nat) {
    s.Vacant? || s.ec > ec
  }

  /** Valid entries first, in non-decreasing erase count. */
  ghost predicate Sorted(s: seq<FreeSlot>) {
    forall i, j :: 0 <= i < j < |s| && s[j].Free? ==> s[i].Free? && s[i].ec <= s[j].ec
  }

  /** The number of valid entries. */
  ghost function Size(s: seq<FreeSlot>): (n: nat)
    ensures n <= |s|
  {
    VacantAtMost(s);
    |s| - multiset(s)[Vacant]
  }

  lemma VacantAtMost(s: seq<FreeSlot>)
    ensures multiset(s)[Vacant] <= |s|
  {
    assert |multiset(s)| == |s|;
  }

  /** Where an entry of erase count ec goes among the first i: after every entry no more worn. */
  function Position(s: seq<FreeSlot>, ec: nat, i: nat): (k: nat)
    requires i <= |s|
    ensures k <= i
    ensures forall j :: k <= j < i ==> Heavier(s[j], ec)
    ensures k > 0 ==> !Heavier(s[k - 1], ec)
  {
    if i > 0 && Heavier(s[i - 1], ec) then Position(s, ec, i - 1) else i
  }

  /** The entry is inserted among the first n; entry n makes room and is lost. */
  function Insert(s: seq<FreeSlot>, n: nat, block: nat, ec: nat): (r: seq<FreeSlot>)
    requires n < |s|
    ensures |r| == |s|
  {
    var k := Position(s, ec, n);
    s[..k] + [Free(block, ec)] + s[k..n] + s[n + 1..]
  }

  /** INDEX_FreeBlock_Put: the last item is dropped to make room. */
  function Put(s: seq<FreeSlot>, block: nat, ec: nat): (r: seq<FreeSlot>)
    requires |s| >= 1
    ensures |r| == |s|
  {
    Insert(s, |s| - 1, block, ec)
  }

  /** Where the search of INDEX_FreeBlock_Get stops: the first block of the die among the valid
      entries, or entry 0. */
  function Pick(s: seq<FreeSlot>, die: nat, dice: nat, i: nat): (k: nat)
    requires i <= |s| && dice >= 1
    ensures k < |s| || |s| == 0
    decreases |s| - i
  {
    if i == |s| || s[i].Vacant? then 0
    else if s[i].block % dice == die then i
    else Pick(s, die, dice, i + 1)
  }

  function RemoveAt(s: seq<FreeSlot>, i: nat): (r: seq<FreeSlot>)
    requires i < |s|
    ensures |r| == |s|
  {
    s[..i] + s[i + 1..] + [Vacant]
  }

  // ---------------------------------------------------------------- what the steps keep

  lemma InsertKeepsSorted(s: seq<FreeSlot>, n: nat, block: nat, ec: nat)
    requires n < |s| && Sorted(s) && forall j :: n < j < |s| ==> s[j].Vacant?
    ensures Sorted(Insert(s, n, block, ec))
  {
  }

  lemma PutKeepsSorted(s: seq<FreeSlot>, block: nat, ec: nat)
    requires |s| >= 1 && Sorted(s)
    ensures Sorted(Put(s, block, ec))
  {
    InsertKeepsSorted(s, |s| - 1, block, ec);
  }

  /** Put adds exactly one entry, provided the last one was invalid. */
  lemma PutAddsOne(s: seq<FreeSlot>, block: nat, ec: nat)
    requires |s| >= 1 && s[|s| - 1].Vacant?
    ensures multiset(Put(s, block, ec)) == multiset(s) - multiset{Vacant} + multiset{Free(block, ec)}
  {
    var k := Position(s, ec, |s| - 1);
    assert s == s[..k] + s[k..|s| - 1] + [Vacant];
  }

  lemma RemoveKeepsSorted(s: seq<FreeSlot>, i: nat)
    requires i < |s| && Sorted(s)
    ensures Sorted(RemoveAt(s, i))
  {
  }

  lemma RemoveTakesOne(s: seq<FreeSlot>, i: nat)
    requires i < |s|
    ensures multiset(RemoveAt(s, i)) == multiset(s) - multiset{s[i]} + multiset{Vacant}
  {
    assert s == s[..i] + [s[i]] + s[i + 1..];
  }

  /** Get picks a least-worn block of the die, or a least-worn block overall if the die has none. */
  lemma {:induction false} PickIsLeastWorn(s: seq<FreeSlot>, die: nat, dice: nat, i: nat)
    requires Sorted(s) && i <= |s| && dice >= 1 && |s| >= 1 && s[0].Free?
    requires forall j :: 0 <= j < i ==> s[j].Free? && s[j].block % dice != die
    ensures var k := Pick(s, die, dice, i);
            && s[k].Free?
            && (if exists j :: 0 <= j < |s| && s[j].Free? && s[j].block % dice == die
                then s[k].block % dice == die
                     && forall j :: 0 <= j < |s| && s[j].Free? && s[j].block % dice == die ==> s[k].ec <= s[j].ec
                else k == 0 && forall j :: 0 <= j < |s| && s[j].Free? ==> s[k].ec <= s[j].ec)
    decreases |s| - i
  {
    if i < |s| && s[i].Free? && s[i].block % dice != die {
      PickIsLeastWorn(s, die, dice, i + 1);
    }
  }

  // ---------------------------------------------------------------- INDEX_FreeBlock_SwapMaxECBlock

  /** The last valid entry among the first i + 1, looking no lower than entry 0. */
  function LastValid(s: seq<FreeSlot>, i: nat): (m: nat)
    requires i < |s|
    ensures m <= i
    ensures m > 0 ==> s[m].Free?
    ensures forall j :: m < j <= i ==> s[j].Vacant?
  {
    if i > 0 && s[i].Vacant? then LastValid(s, i - 1) else i
  }

  /** The most worn block is replaced by a block whose count is lower by more than the threshold. */
  function SwapMax(s: seq<FreeSlot>, block: nat, ec: nat): (r: seq<FreeSlot>)
    requires |s| >= 1
    ensures |r| == |s|
  {
    var m := LastValid(s, |s| - 1);
    if s[m].Free? && s[m].ec > ec && s[m].ec - ec > STATIC_WL_THRESHOLD then
      Insert(s, m, block, ec)
    else s
  }

  lemma SwapKeepsSorted(s: seq<FreeSlot>, block: nat, ec: nat)
    requires |s| >= 1 && Sorted(s)
    ensures Sorted(SwapMax(s, block, ec))
  {
    hide Insert;
    var m := LastValid(s, |s| - 1);
    InsertKeepsSorted(s, m, block, ec);
  }

  lemma InsertReplaces(s: seq<FreeSlot>, n: nat, block: nat, ec: nat)
    requires n < |s|
    ensures multiset(Insert(s, n, block, ec)) == multiset(s) - multiset{s[n]} + multiset{Free(block, ec)}
  {
    var k := Position(s, ec, n);
    assert s == s[..k] + s[k..n] + [s[n]] + s[n + 1..];
  }

  /** Entry m is a most worn one. */
  ghost predicate MostWorn(s: seq<FreeSlot>, m: nat) {
    m < |s| && s[m].Free? && forall j :: 0 <= j < |s| && s[j].Free? ==> s[j].ec <= s[m].ec
  }

  /** Swap replaces a most worn entry, when the gap is above the threshold, and nothing else. */
  lemma SwapReplacesMax(s: seq<FreeSlot>, block: nat, ec: nat) returns (m: nat)
    requires |s| >= 1 && Sorted(s) && s[0].Free?
    ensures MostWorn(s, m)
    ensures multiset(SwapMax(s, block, ec))
         == if s[m].ec > ec + STATIC_WL_THRESHOLD then multiset(s) - multiset{s[m]} + multiset{Free(block, ec)} else multiset(s)
  {
    m := LastValid(s, |s| - 1);
    InsertReplaces(s, m, block, ec);
    hide Insert;
    assert s[m].Free?;
  }

  // ---------------------------------------------------------------- the table in place

  lemma InsertIs(s: seq<FreeSlot>, r: seq<FreeSlot>, n: nat, k: nat, block: nat, ec: nat)
    requires n < |s| == |r| && k == Position(s, ec, n) && r[k] == Free(block, ec)
    requires forall j :: 0 <= j < k || n < j < |s| ==> r[j] == s[j]
    requires forall j {:trigger r[j]} :: k < j <= n ==> r[j] == s[j - 1]
    ensures r == Insert(s, n, block, ec)
  {
    hide Position;
  }

  /** The scan from entry n - 1 downwards: heavier entries move back by one, and the new entry
      takes the place that becomes free. */
  method InsertInPlace(a: array<FreeSlot>, n: nat, block: nat, ec: nat)
    requires 1 <= n < a.Length
    modifies a
    ensures a[..] == Insert(old(a[..]), n, block, ec)
  {
    ghost var s := a[..];
    var i := n - 1;
    while i > 0 && Heavier(a[i], ec)
      invariant 0 <= i < n && Position(s, ec, n) == Position(s, ec, i + 1)
      invariant forall j :: 0 <= j <= i || n < j < a.Length ==> a[j] == s[j]
      invariant forall j {:trigger a[j]} :: i + 2 <= j <= n ==> a[j] == s[j - 1]
    {
      a[i + 1] := a[i];
      i := i - 1;
    }
    if i > 0 {
      a[i + 1] := Free(block, ec);
    } else if Heavier(a[0], ec) {
      a[1] := a[0];
      a[0] := Free(block, ec);
      i := -1;
    } else {
      a[1] := Free(block, ec);
    }
    hide Insert;
    InsertIs(s, a[..], n, i + 1, block, ec);
  }

  /** INDEX_FreeBlock_Put. */
  method PutInPlace(a: array<FreeSlot>, block: nat, ec: nat)
    requires a.Length >= 2
    modifies a
    ensures a[..] == Put(old(a[..]), block, ec)
  {
    InsertInPlace(a, a.Length - 1, block, ec);
  }

  /** The search of INDEX_FreeBlock_Get. */
  method Search(a: array<FreeSlot>, die: nat, dice: nat) returns (k: nat)
    requires a.Length >= 1 && dice >= 1
    ensures k == Pick(a[..], die, dice, 0) && k < a.Length
  {
    var i := 0;
    while i < a.Length
      invariant i <= a.Length && Pick(a[..], die, dice, 0) == Pick(a[..], die, dice, i)
    {
      if a[i].Vacant? {
        return 0;
      } else if a[i].block % dice == die {
        return i;
      }
      i := i + 1;
    }
    k := 0;
  }

  /** The entries after entry i move forward. */
  method RemoveInPlace(a: array<FreeSlot>, i: nat)
    requires i < a.Length
    modifies a
    ensures a[..] == RemoveAt(old(a[..]), i)
  {
    ghost var s := a[..];
    var j := i;
    while j < a.Length - 1
      invariant i <= j <= a.Length - 1
      invariant forall k :: 0 <= k < i ==> a[k] == s[k]
      invariant forall k :: i <= k < j ==> a[k] == s[k + 1]
      invariant forall k :: j <= k < a.Length ==> a[k] == s[k]
    {
      a[j] := a[j + 1];
      j := j + 1;
    }
    a[j] := Vacant;
    assert a[..] == RemoveAt(s, i);
  }

  /** INDEX_FreeBlock_SwapMaxECBlock; with fewer than two valid entries the source's unsigned
      index would wrap around. */
  method SwapMaxInPlace(a: array<FreeSlot>, block: nat, ec: nat)
    requires a.Length >= 2 && a[0].Free? && a[1].Free?
    modifies a
    ensures a[..] == SwapMax(old(a[..]), block, ec)
  {
    hide Insert;
    var i := a.Length - 1;
    while i > 0 && a[i].Vacant?
      invariant 1 <= i < a.Length && LastValid(a[..], a.Length - 1) == LastValid(a[..], i)
    {
      i := i - 1;
    }
    if a[i].ec > ec && a[i].ec - ec > STATIC_WL_THRESHOLD {
      InsertInPlace(a, i, block, ec);
    }
  }
}
