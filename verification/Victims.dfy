/** The selection loop of DATA_Reclaim. */
module Victims {
  import opened Geometry
  import opened Flash
  import opened Counting

  /** A data block outside the journals js[lo..hi]. */
  predicate Outside(g: Geometry, js: seq<Loc>, lo: int, hi: int, b: int) {
    InData(g, b) && forall i :: lo <= i < hi && 0 <= i < |js| ==> js[i].block != b
  }

  /** A data block outside the other temperature's journals. */
  predicate Eligible(g: Geometry, other: seq<Loc>, b: int) {
    Outside(g, other, 0, |other|, b)
  }

  ghost predicate Distinct(vs: seq<nat>) {
    forall i, k :: 0 <= i < k < |vs| ==> vs[i] != vs[k]
  }

  /** Non-increasing dirty counts. */
  ghost predicate Ordered(dirty: seq<nat>, vs: seq<nat>) {
    && (forall i :: 0 <= i < |vs| ==> vs[i] < |dirty|)
    && forall i, k :: 0 <= i < k < |vs| ==> dirty[vs[i]] >= dirty[vs[k]]
  }

  /** Blocks outside js[lo..hi] with a dirty page. */
  function DirtyOutside(g: Geometry, js: seq<Loc>, lo: int, hi: int, dirty: seq<nat>): set<int>
    requires |dirty| >= g.U
  {
    set b | b in Range(g.dataLo, g.U) && Outside(g, js, lo, hi, b) && dirty[b] >= 1
  }

  function Candidates(g: Geometry, other: seq<Loc>, dirty: seq<nat>): set<int>
    requires |dirty| >= g.U
  {
    DirtyOutside(g, other, 0, |other|, dirty)
  }

  /** J distinct blocks outside js[lo..hi], each with a dirty page, in non-increasing dirty order, and
      none that was left out is dirtier than a chosen one. */
  ghost predicate Dirtiest(g: Geometry, js: seq<Loc>, lo: int, hi: int, dirty: seq<nat>, vs: seq<nat>)
    requires |dirty| >= g.U
  {
    && |vs| == g.J && Distinct(vs) && Ordered(dirty, vs)
    && (forall i :: 0 <= i < g.J ==> Outside(g, js, lo, hi, vs[i]) && dirty[vs[i]] >= 1)
    && (forall b: int, i :: Outside(g, js, lo, hi, b) && b !in vs && 0 <= i < g.J ==> dirty[b] <= dirty[vs[i]])
  }

  /** What the loop returns. */
  ghost predicate Chosen(g: Geometry, other: seq<Loc>, dirty: seq<nat>, vs: seq<nat>)
    requires |dirty| >= g.U
  {
    Dirtiest(g, other, 0, |other|, dirty, vs)
  }

  /** Between two passes: the blocks chosen are exactly the eligible ones dirtier than target. */
  ghost predicate Partial(g: Geometry, other: seq<Loc>, dirty: seq<nat>, vs: seq<nat>, target: nat)
    requires |dirty| >= g.U
  {
    && Distinct(vs) && Ordered(dirty, vs)
    && (forall i :: 0 <= i < |vs| ==> Eligible(g, other, vs[i]) && dirty[vs[i]] > target)
    && (forall b: nat :: Eligible(g, other, b) && dirty[b] > target ==> b in vs)
  }

  /** While fewer than J blocks are chosen, another candidate is left. */
  lemma SomeCandidateLeft(g: Geometry, other: seq<Loc>, dirty: seq<nat>, vs: seq<nat>)
    requires |dirty| >= g.U && |vs| < g.J <= |Candidates(g, other, dirty)|
    ensures exists b: nat :: Eligible(g, other, b) && dirty[b] >= 1 && b !in vs
  {
    var c := Candidates(g, other, dirty);
    if forall b: nat :: Eligible(g, other, b) && dirty[b] >= 1 ==> b in vs {
      forall b | b in c
        ensures b in Members(vs)
      {
      }
      SubsetSize(c, Members(vs));
    }
  }

  function Members(vs: seq<nat>): (r: set<int>)
    ensures forall i :: 0 <= i < |vs| ==> vs[i] in r
    ensures |r| <= |vs|
  {
    if vs == [] then {} else
      var n := |vs| - 1;
      assert forall i :: 0 <= i < n ==> vs[i] == vs[..n][i];
      Members(vs[..n]) + {vs[n] as int}
  }

  /** Whether the block is one of the other temperature's journals. */
  method IsExcluded(g: Geometry, other: seq<Loc>, b: nat) returns (r: bool)
    requires InData(g, b)
    ensures r <==> !Eligible(g, other, b)
  {
    var j := 0;
    while j < |other|
      invariant j <= |other| && forall i :: 0 <= i < j ==> other[i].block != b
    {
      if other[j].block == b {
        return true;
      }
      j := j + 1;
    }
    return false;
  }

  /** Inside a pass, before block i is looked at. */
  ghost predicate Scan(g: Geometry, other: seq<Loc>, dirty: seq<nat>, vs: seq<nat>, target: nat, next: nat, i: nat)
    requires |dirty| >= g.U
  {
    && Distinct(vs) && Ordered(dirty, vs)
    && (forall k :: 0 <= k < |vs| ==> Eligible(g, other, vs[k]) && dirty[vs[k]] >= target)
    && (forall k :: 0 <= k < |vs| && dirty[vs[k]] == target ==> vs[k] < i)
    && (forall b: nat :: Eligible(g, other, b) && dirty[b] > target ==> b in vs)
    && (forall b: nat :: Eligible(g, other, b) && b < i && dirty[b] > next ==> b in vs)
    && (next < target || next == 0)
  }

  lemma ScanTakes(g: Geometry, other: seq<Loc>, dirty: seq<nat>, vs: seq<nat>, target: nat, next: nat, i: nat)
    requires |dirty| >= g.U && Scan(g, other, dirty, vs, target, next, i)
    requires Eligible(g, other, i) && dirty[i] == target
    ensures Scan(g, other, dirty, vs + [i], target, next, i + 1)
  {
    var ws, j := vs + [i], i + 1;
    assert forall b: nat :: b in vs ==> b in ws;
    assert i == ws[|vs|];
    assert Distinct(ws) && Ordered(dirty, ws);
    hide Eligible, Distinct, Ordered;
  }

  lemma ScanPasses(g: Geometry, other: seq<Loc>, dirty: seq<nat>, vs: seq<nat>, target: nat, next: nat, next': nat, i: nat)
    requires |dirty| >= g.U && Scan(g, other, dirty, vs, target, next, i)
    requires Eligible(g, other, i) ==> dirty[i] != target
    requires next' == if Eligible(g, other, i) && dirty[i] < target && dirty[i] > next then dirty[i] else next
    ensures Scan(g, other, dirty, vs, target, next', i + 1)
  {
    hide Eligible, Distinct, Ordered;
  }

  /** One pass over the data blocks. */
  method Pass(g: Geometry, other: seq<Loc>, dirty: seq<nat>, vs0: seq<nat>, target: nat)
    returns (vs: seq<nat>, next: nat)
    requires |dirty| >= g.U && |vs0| < g.J && Partial(g, other, dirty, vs0, target)
    ensures |vs0| <= |vs| <= g.J && Distinct(vs) && Ordered(dirty, vs)
    ensures forall i :: 0 <= i < |vs| ==> Eligible(g, other, vs[i]) && dirty[vs[i]] >= target
    ensures forall b: nat :: Eligible(g, other, b) && dirty[b] > target ==> b in vs
    ensures |vs| < g.J && target > 0 ==> next < target && Partial(g, other, dirty, vs, next)
  {
    hide Distinct, Ordered, Eligible, Scan, Partial;
    vs, next := vs0, 0;
    ScanBegins(g, other, dirty, vs, target);
    var i := g.dataLo;
    while i < g.U
      invariant g.dataLo <= i <= g.U && |vs0| <= |vs| < g.J
      invariant Scan(g, other, dirty, vs, target, next, i)
    {
      var excluded := IsExcluded(g, other, i);
      if !excluded && dirty[i] == target {
        ScanTakes(g, other, dirty, vs, target, next, i);
        vs := vs + [i];
        if |vs| == g.J {
          ScanEnds(g, other, dirty, vs, target, next, i + 1);
          return;
        }
      } else {
        var below := if !excluded && dirty[i] < target && dirty[i] > next then dirty[i] else next;
        ScanPasses(g, other, dirty, vs, target, next, below, i);
        next := below;
      }
      i := i + 1;
    }
    ScanEnds(g, other, dirty, vs, target, next, i);
  }

  lemma ScanBegins(g: Geometry, other: seq<Loc>, dirty: seq<nat>, vs: seq<nat>, target: nat)
    requires |dirty| >= g.U && Partial(g, other, dirty, vs, target)
    ensures Scan(g, other, dirty, vs, target, 0, g.dataLo)
  {
    hide Distinct, Ordered;
  }

  lemma ScanEnds(g: Geometry, other: seq<Loc>, dirty: seq<nat>, vs: seq<nat>, target: nat, next: nat, i: nat)
    requires |dirty| >= g.U && Scan(g, other, dirty, vs, target, next, i)
    ensures Distinct(vs) && Ordered(dirty, vs)
    ensures forall k :: 0 <= k < |vs| ==> Eligible(g, other, vs[k]) && dirty[vs[k]] >= target
    ensures forall b: nat :: Eligible(g, other, b) && dirty[b] > target ==> b in vs
    ensures i == g.U && next < target ==> Partial(g, other, dirty, vs, next)
    ensures target > 0 ==> next < target
  {
    hide Distinct, Ordered;
  }

  /** The selection loop: J distinct eligible blocks in non-increasing dirty order, none of
      those left out dirtier than a chosen one.  The target strictly decreases. */
  method SelectVictims(g: Geometry, other: seq<Loc>, dirty: seq<nat>) returns (vs: seq<nat>)
    requires |dirty| >= g.U && |Candidates(g, other, dirty)| >= g.J
    requires forall b :: InData(g, b) ==> dirty[b] <= g.M
    ensures Chosen(g, other, dirty, vs)
  {
    vs := [];
    var target := g.M;
    while |vs| != g.J
      invariant |vs| <= g.J
      invariant |vs| < g.J ==> Partial(g, other, dirty, vs, target)
      invariant |vs| == g.J ==> Chosen(g, other, dirty, vs)
      decreases |vs| < g.J, target
    {
      SomeCandidateLeft(g, other, dirty, vs);
      hide Distinct, Ordered, Eligible;
      var next;
      vs, next := Pass(g, other, dirty, vs, target);
      target := next;
    }
  }
}
