/** Garbage collection of the data region (DATA_Reclaim) as steps on the value of DataSpec:
    which blocks may be reclaimed, why enough of them are dirty, and what copying their live
    pages and rotating the journals keep true.

    `t` is the offset of the journals being renewed in `js`: 0 for hot, J for cold. */
module Reclaim {
  import opened Geometry
  import opened Flash
  import opened Counting
  import opened DataSpec
  import V = Victims

  predicate Offset(g: Geometry, t: nat) {
    t == 0 || t == g.J
  }

  /** A data block outside the other temperature's journals. */
  predicate Eligible(g: Geometry, js: seq<Loc>, t: nat, b: int)
    requires Offset(g, t) && |js| == 3 * g.J
  {
    V.Outside(g, js, g.J - t, 2 * g.J - t, b)
  }

  /** Both journal sets are settled and the one at t is full. */
  ghost predicate JournalFull(g: Geometry, v: View, t: nat) {
    && Offset(g, t) && Shape(g, v) && JournalsOk(g, v) && Settled(g, v)
    && forall i :: t <= i < t + g.J ==> v.js[i].page == g.M
  }

  // ---------------------------------------------------------------- the capacity theorem

  function BlocksOf(js: seq<Loc>, lo: nat, n: nat): (r: set<int>)
    requires lo + n <= |js|
    ensures forall i :: lo <= i < lo + n ==> js[i].block in r
    ensures forall b :: b in r ==> exists i :: lo <= i < lo + n && js[i].block == b
    ensures |r| <= n
  {
    if n == 0 then {} else BlocksOf(js, lo, n - 1) + {js[lo + n - 1].block as int}
  }

  /** Eligible blocks with at least one dirty page. */
  function DirtyBlocks(g: Geometry, v: View, t: nat): set<int>
    requires Offset(g, t) && |v.js| == 3 * g.J && |v.dirty| >= g.U
  {
    V.DirtyOutside(g, v.js, g.J - t, 2 * g.J - t, v.dirty)
  }

  /** Blocks outside the journals whose pages are all live. */
  function CrammedBlocks(g: Geometry, v: View, t: nat): set<int>
    requires Offset(g, t) && |v.js| == 3 * g.J && |v.dirty| >= g.U
  {
    set b | b in Range(g.dataLo, g.U) - BlocksOf(v.js, g.J - t, g.J) - BlocksOf(v.js, 2 * g.J, g.J) && v.dirty[b] == 0
  }

  lemma FullOrClosed(g: Geometry, v: View, t: nat, b: nat)
    requires JournalFull(g, v, t) && CountsOk(g, v) && InData(g, b)
    requires forall i :: g.J - t <= i < 2 * g.J - t ==> v.js[i].block != b
    requires forall i :: 2 * g.J <= i < 3 * g.J ==> v.js[i].block != b
    ensures v.dirty[b] + Mapped(v, b) == g.M
  {
    hide Mapped;
    if OnJournal(v.js, b) {
      var k :| 0 <= k < |v.js| && v.js[k].block == b;
      assert t <= k < t + g.J;
    }
  }

  lemma Fewer(n: nat, k: nat, m: nat, c: nat)
    requires n * m <= c < k * m
    ensures n < k
  {
    if n >= k {
      MulMono(k, n, m);
    }
  }

  lemma DataRoom(g: Geometry)
    ensures g.dataLo + 3 * g.J < g.U && g.cap < (g.U - g.dataLo - 3 * g.J + 1) * g.M
  {
  }

  lemma CrammedFull(g: Geometry, v: View, t: nat, b: int)
    requires JournalFull(g, v, t) && CountsOk(g, v) && b in CrammedBlocks(g, v, t)
    ensures b >= 0 && multiset(MapBlocks(v.pm))[b] >= g.M
  {
    hide CountsOk, JournalsOk, Settled;
    FullOrClosed(g, v, t, b);
  }

  lemma FullShape(g: Geometry, v: View, t: nat)
    requires JournalFull(g, v, t)
    ensures Offset(g, t) && |v.js| == 3 * g.J && |v.dirty| >= g.U && |v.pm| == g.cap
  {
  }

  lemma CrammedFew(g: Geometry, v: View, t: nat)
    requires JournalFull(g, v, t) && CountsOk(g, v)
    ensures |CrammedBlocks(g, v, t)| <= g.U - g.dataLo - 3 * g.J
  {
    hide ValidDims, CrammedBlocks, CountsOk, JournalFull;
    DataRoom(g);
    FullShape(g, v, t);
    var Z := CrammedBlocks(g, v, t);
    var ms := multiset(MapBlocks(v.pm));
    forall b | b in Z
      ensures ms[b] >= g.M
    {
      CrammedFull(g, v, t, b);
    }
    Pigeonhole(ms, Z, g.M);
    Fewer(|Z|, g.U - g.dataLo - 3 * g.J + 1, g.M, g.cap);
  }

  /** Capacity theorem: when a journal set is full, at least J eligible blocks have a dirty
      page.  It follows from dirty-count conservation and the arithmetic of FTL_Capacity. */
  lemma EnoughDirtyBlocks(g: Geometry, v: View, t: nat)
    requires JournalFull(g, v, t) && CountsOk(g, v)
    ensures |DirtyBlocks(g, v, t)| >= g.J
  {
    CrammedFew(g, v, t);
    DataRoom(g);
    RangeSize(g.dataLo, g.U);
    Covered(g, v, t);
    hide ValidDims, CountsOk, JournalFull, DirtyBlocks, CrammedBlocks;
    CoverSize(Range(g.dataLo, g.U), DirtyBlocks(g, v, t), CrammedBlocks(g, v, t),
              BlocksOf(v.js, g.J - t, g.J), BlocksOf(v.js, 2 * g.J, g.J));
  }

  lemma CoveredAt(g: Geometry, v: View, t: nat, b: int)
    requires Offset(g, t) && |v.js| == 3 * g.J && |v.dirty| >= g.U && InData(g, b)
    ensures b in DirtyBlocks(g, v, t) || b in CrammedBlocks(g, v, t)
         || b in BlocksOf(v.js, g.J - t, g.J) || b in BlocksOf(v.js, 2 * g.J, g.J)
  {
    hide BlocksOf, Range, ValidDims;
    if b !in BlocksOf(v.js, g.J - t, g.J) {
      assert Eligible(g, v.js, t, b);
    }
  }

  lemma Covered(g: Geometry, v: View, t: nat)
    requires Offset(g, t) && |v.js| == 3 * g.J && |v.dirty| >= g.U
    ensures Range(g.dataLo, g.U) <= DirtyBlocks(g, v, t) + CrammedBlocks(g, v, t)
              + BlocksOf(v.js, g.J - t, g.J) + BlocksOf(v.js, 2 * g.J, g.J)
  {
    hide DirtyBlocks, CrammedBlocks, BlocksOf, Range, ValidDims;
    forall b | b in Range(g.dataLo, g.U)
      ensures b in DirtyBlocks(g, v, t) || b in CrammedBlocks(g, v, t)
           || b in BlocksOf(v.js, g.J - t, g.J) || b in BlocksOf(v.js, 2 * g.J, g.J)
    {
      CoveredAt(g, v, t, b);
    }
  }

  lemma CoverSize(all: set<int>, a: set<int>, b: set<int>, c: set<int>, d: set<int>)
    requires all <= a + b + c + d
    ensures |all| <= |a| + |b| + |c| + |d|
  {
    SubsetSize(all, a + b + c + d);
  }

  // ---------------------------------------------------------------- victims

  /** What the selection loop returns: J distinct eligible blocks, each with a dirty page, in
      non-increasing dirty order, and no eligible block left out is dirtier than a chosen one. */
  ghost predicate Victims(g: Geometry, js: seq<Loc>, dirty: seq<nat>, t: nat, vs: seq<nat>)
    requires Offset(g, t) && |js| == 3 * g.J && |dirty| >= g.U
  {
    V.Dirtiest(g, js, g.J - t, 2 * g.J - t, dirty, vs)
  }

  /** A chosen block is no reclaim block, and its pages are dirty or live. */
  lemma VictimCounts(g: Geometry, v: View, t: nat, b: nat)
    requires JournalFull(g, v, t) && CountsOk(g, v) && Eligible(g, v.js, t, b) && v.dirty[b] >= 1
    ensures forall i :: 2 * g.J <= i < 3 * g.J ==> v.js[i].block != b
    ensures v.dirty[b] + Mapped(v, b) == g.M
  {
    hide Mapped;
    forall i: nat | 2 * g.J <= i < 3 * g.J
      ensures v.js[i].block != b
    {
      assert v.dirty[v.js[i].block] + Mapped(v, v.js[i].block) == v.js[i].page;
    }
    FullOrClosed(g, v, t, b);
  }

  // ---------------------------------------------------------------- copying live pages

  /** No journal but those at t holds a victim. */
  ghost predicate Apart(g: Geometry, js: seq<Loc>, t: nat, vs: seq<nat>) {
    && Offset(g, t) && |js| == 3 * g.J && |vs| == g.J
    && V.Distinct(vs) && (forall i :: 0 <= i < g.J ==> InData(g, vs[i]))
    && (forall i, k :: 0 <= i < g.J && 0 <= k < 3 * g.J && !(t <= k < t + g.J) ==> js[k].block != vs[i])
  }

  /** The journals at t are full and their lists are on flash. */
  ghost predicate Sealed(g: Geometry, v: View, t: nat)
    requires Offset(g, t) && Shape(g, v) && JournalsOk(g, v)
  {
    && (forall i: nat {:trigger v.js[i]} :: t <= i < t + g.J ==> v.js[i].page == g.M)
    && (forall i: nat {:trigger v.js[i]} :: i < 2 * g.J && v.js[i].page == g.M ==>
          v.blk[v.js[i].block][g.M].Programmed?)
  }

  /** The reclaim block for victim i: it holds what the victim's dirty count has grown by since
      the reclaim began (d0), and `metas` lists it.  Victims before j are drained, those after
      j untouched. */
  ghost predicate Tally(g: Geometry, v: View, d0: seq<nat>, t: nat, vs: seq<nat>, j: nat, i: nat) {
    && Shape(g, v) && Offset(g, t) && |d0| == |v.dirty| && |vs| == g.J && i < g.J && vs[i] < g.U
    && JournalOk(g, v, 2 * g.J + i) && RowOk(g, v, 2 * g.J + i, t + i)
    && var r := v.js[2 * g.J + i];
       && v.dirty[r.block] == 0
       && 1 <= d0[vs[i]]
       && r.page + d0[vs[i]] == v.dirty[vs[i]]
       && (i < j ==> v.dirty[vs[i]] == g.M)
       && (i > j ==> r.page == 0)
  }

  ghost predicate Tallies(g: Geometry, v: View, d0: seq<nat>, t: nat, vs: seq<nat>, j: nat) {
    forall i: nat :: i < g.J ==> Tally(g, v, d0, t, vs, j, i)
  }

  /** Nothing is mapped into victim j before `page`. */
  ghost predicate Drained(g: Geometry, v: View, b: nat, page: nat)
    requires Shape(g, v)
  {
    forall a: nat :: a < g.cap && v.pm[a].At? && v.pm[a].loc.block == b ==> v.pm[a].loc.page >= page
  }

  /** The state of DATA_Reclaim's copy loops before page `page` of victim j. */
  ghost predicate Copying(g: Geometry, v: View, d0: seq<nat>, t: nat, vs: seq<nat>, j: nat, page: nat) {
    && Inv(g, v) && |d0| == |v.dirty| && Apart(g, v.js, t, vs) && j <= g.J && page <= g.M
    && Sealed(g, v, t) && Tallies(g, v, d0, t, vs, j)
    && (j < g.J ==> Drained(g, v, vs[j], page))
  }

  lemma VictimsApart(g: Geometry, v: View, t: nat, vs: seq<nat>)
    requires JournalFull(g, v, t) && CountsOk(g, v) && Victims(g, v.js, v.dirty, t, vs)
    ensures Apart(g, v.js, t, vs)
  {
    hide JournalsOk, Settled, CountsOk;
    forall i | 0 <= i < g.J
      ensures InData(g, vs[i])
      ensures forall k :: 2 * g.J <= k < 3 * g.J ==> v.js[k].block != vs[i]
    {
      VictimCounts(g, v, t, vs[i]);
    }
  }

  lemma TallyBegins(g: Geometry, v: View, t: nat, vs: seq<nat>, i: nat)
    requires Shape(g, v) && JournalsOk(g, v) && CountsOk(g, v) && Settled(g, v) && Offset(g, t)
    requires |vs| == g.J && i < g.J && InData(g, vs[i]) && v.dirty[vs[i]] >= 1
    ensures Tally(g, v, v.dirty, t, vs, 0, i)
  {
    hide Mapped;
    var k := 2 * g.J + i;
    assert v.js[k].page == 0;
    assert v.dirty[v.js[k].block] + Mapped(v, v.js[k].block) == v.js[k].page;
    assert JournalOk(g, v, k);
  }

  lemma TalliesBegin(g: Geometry, v: View, t: nat, vs: seq<nat>)
    requires Shape(g, v) && JournalsOk(g, v) && CountsOk(g, v) && Settled(g, v) && Apart(g, v.js, t, vs)
    requires forall i :: 0 <= i < g.J ==> v.dirty[vs[i]] >= 1
    ensures Tallies(g, v, v.dirty, t, vs, 0)
  {
    hide JournalsOk, CountsOk, Settled, Tally;
    forall i: nat | i < g.J
      ensures Tally(g, v, v.dirty, t, vs, 0, i)
    {
      TallyBegins(g, v, t, vs, i);
    }
  }

  lemma CopyBegins(g: Geometry, v: View, t: nat, vs: seq<nat>)
    requires Inv(g, v) && JournalFull(g, v, t) && Victims(g, v.js, v.dirty, t, vs)
    ensures Copying(g, v, v.dirty, t, vs, 0, 0) && v.js[2 * g.J].page == 0
  {
    VictimsApart(g, v, t, vs);
    assert v.js[2 * g.J].page == 0;
    TalliesBegin(g, v, t, vs);
    hide UserPagesOk, ListsOk, RowsOk, MapOk, CountsOk, Tallies, JournalsOk, Shape, Victims;
  }

  lemma VictimBalance(g: Geometry, v: View, t: nat, vs: seq<nat>, i: nat)
    requires Shape(g, v) && JournalsOk(g, v) && CountsOk(g, v) && Apart(g, v.js, t, vs) && Sealed(g, v, t) && i < g.J
    ensures v.dirty[vs[i]] + Mapped(v, vs[i]) == g.M
  {
    hide Mapped;
    var b := vs[i];
    if OnJournal(v.js, b) {
      var k :| 0 <= k < |v.js| && v.js[k].block == b;
      assert t <= k < t + g.J;
    }
  }

  lemma MappedAt(v: View, a: nat)
    requires a < |v.pm| && v.pm[a].At?
    ensures Mapped(v, v.pm[a].loc.block) > 0
  {
    var s := MapBlocks(v.pm);
    assert s[a] == v.pm[a].loc.block;
    CountPositive(s, s[a]);
  }

  /** The reclaim block has room for one more live page. */
  lemma CopyReady(g: Geometry, v: View, d0: seq<nat>, t: nat, vs: seq<nat>, j: nat, page: nat, a: nat)
    requires Copying(g, v, d0, t, vs, j, page) && j < g.J && page < g.M && a < g.cap
    requires v.pm[a] == At(Loc(vs[j], page))
    ensures Appendable(g, v, 2 * g.J + j, t + j, a)
  {
    hide UserPagesOk, ListsOk, RowsOk, MapOk;
    var k, row := 2 * g.J + j, t + j;
    VictimBalance(g, v, t, vs, j);
    MappedAt(v, a);
    hide Mapped, CountsOk;
    assert Tally(g, v, d0, t, vs, j, j);
    assert v.js[k].page < g.M;
    assert RowFree(g, v, k, row) by {
      assert v.js[row].page == g.M;
      assert JournalOk(g, v, row);
    }
  }

  ghost predicate IsCopy(g: Geometry, v: View, w: View, t: nat, vs: seq<nat>, j: nat, page: nat, addr: nat, n: nat) {
    j < |vs| && IsAppend(g, v, w, 2 * g.J + j, t + j, addr, n, DataAt(v.blk, Loc(vs[j], page)))
  }

  /** A live page of the victim is appended to its reclaim block. */
  ghost function CopyPage(g: Geometry, v: View, t: nat, vs: seq<nat>, j: nat, page: nat, a: nat, n: nat): View
    requires Shape(g, v) && Offset(g, t) && j < g.J == |vs| && a < g.cap
    requires v.js[2 * g.J + j].block < g.U && v.js[2 * g.J + j].page < g.M
  {
    Append(g, v, 2 * g.J + j, t + j, a, n, DataAt(v.blk, Loc(vs[j], page)))
  }

  lemma CopyReads(g: Geometry, v: View, t: nat, vs: seq<nat>, j: nat, page: nat, a: nat, n: nat)
    requires Inv(g, v) && Offset(g, t) && j < g.J == |vs| && Appendable(g, v, 2 * g.J + j, t + j, a)
    requires v.pm[a] == At(Loc(vs[j], page))
    ensures var w := CopyPage(g, v, t, vs, j, page, a, n);
            Inv(g, w) && SameReads(v, w)
  {
    hide JournalsOk, UserPagesOk, ListsOk, RowsOk, MapOk, CountsOk, DataAt, Append, Appendable;
    AppendKeeps(g, v, 2 * g.J + j, t + j, a, n, DataAt(v.blk, Loc(vs[j], page)));
    AppendMap(g, v, 2 * g.J + j, t + j, a, n, DataAt(v.blk, Loc(vs[j], page)));
  }

  lemma CopyTally(g: Geometry, v: View, d0: seq<nat>, t: nat, vs: seq<nat>, j: nat, page: nat, a: nat, n: nat, i: nat)
    requires Appendable(g, v, 2 * g.J + j, t + j, a) && |d0| == |v.dirty|
    requires Apart(g, v.js, t, vs) && j < g.J && i < g.J && v.pm[a] == At(Loc(vs[j], page))
    requires Tally(g, v, d0, t, vs, j, i)
    requires i != j ==> v.js[2 * g.J + i].block != v.js[2 * g.J + j].block
    requires var w := CopyPage(g, v, t, vs, j, page, a, n); Shape(g, w) && JournalsOk(g, w)
    ensures Tally(g, CopyPage(g, v, t, vs, j, page, a, n), d0, t, vs, j, i)
  {
    var w := CopyPage(g, v, t, vs, j, page, a, n);
    var k := 2 * g.J + i;
    assert w.js[k].page == w.js[k].page;
    assert JournalOk(g, w, k);
    assert vs[i] != v.js[k].block && vs[j] != v.js[k].block;
  }

  lemma CopyTallies(g: Geometry, v: View, d0: seq<nat>, t: nat, vs: seq<nat>, j: nat, page: nat, a: nat, n: nat)
    requires Appendable(g, v, 2 * g.J + j, t + j, a) && |d0| == |v.dirty|
    requires Apart(g, v.js, t, vs) && j < g.J && v.pm[a] == At(Loc(vs[j], page))
    requires Tallies(g, v, d0, t, vs, j) && Distinct(v.js)
    requires var w := CopyPage(g, v, t, vs, j, page, a, n); Shape(g, w) && JournalsOk(g, w) && Apart(g, w.js, t, vs)
    ensures Tallies(g, CopyPage(g, v, t, vs, j, page, a, n), d0, t, vs, j)
  {
    var w := CopyPage(g, v, t, vs, j, page, a, n);
    hide Tally, Append, CopyPage;
    forall i: nat | i < g.J
      ensures Tally(g, w, d0, t, vs, j, i)
    {
      assert Tally(g, v, d0, t, vs, j, i);
      CopyTally(g, v, d0, t, vs, j, page, a, n, i);
    }
  }

  lemma CopyFrame(g: Geometry, v: View, t: nat, vs: seq<nat>, j: nat, page: nat, a: nat, n: nat)
    requires Appendable(g, v, 2 * g.J + j, t + j, a) && Apart(g, v.js, t, vs) && Sealed(g, v, t) && j < g.J
    requires v.pm[a] == At(Loc(vs[j], page)) && MapOk(g, v) && Drained(g, v, vs[j], page)
    requires var w := CopyPage(g, v, t, vs, j, page, a, n); Shape(g, w) && JournalsOk(g, w)
    ensures var w := CopyPage(g, v, t, vs, j, page, a, n);
            Apart(g, w.js, t, vs) && Sealed(g, w, t) && Drained(g, w, vs[j], page + 1)
  {
    var w := CopyPage(g, v, t, vs, j, page, a, n);
    assert EntryOk(g, v, a);
    forall x: nat | x < g.cap && w.pm[x].At? && w.pm[x].loc.block == vs[j]
      ensures w.pm[x].loc.page >= page + 1
    {
      assert EntryOk(g, v, x);
    }
    forall i: nat | i < 2 * g.J
      ensures w.js[i] == v.js[i] && w.blk[w.js[i].block] == v.blk[v.js[i].block]
    {
      assert v.js[i].block != v.js[2 * g.J + j].block;
    }
  }

  /** Copying one live page keeps every logical page as it was. */
  lemma CopyKeeps(g: Geometry, v: View, d0: seq<nat>, t: nat, vs: seq<nat>, j: nat, page: nat, a: nat, n: nat)
    requires Copying(g, v, d0, t, vs, j, page) && j < g.J && page < g.M && a < g.cap
    requires v.pm[a] == At(Loc(vs[j], page))
    ensures Appendable(g, v, 2 * g.J + j, t + j, a)
    ensures var w := CopyPage(g, v, t, vs, j, page, a, n);
            && Copying(g, w, d0, t, vs, j, page + 1)
            && SameReads(v, w)
  {
    CopyReady(g, v, d0, t, vs, j, page, a);
    CopyReads(g, v, t, vs, j, page, a, n);
    hide Inv;
    var w := CopyPage(g, v, t, vs, j, page, a, n);
    assert Shape(g, w) && JournalsOk(g, w) by { InvParts(g, w); }
    assert MapOk(g, v) by { InvParts(g, v); }
    CopyFrame(g, v, t, vs, j, page, a, n);
    CopyTallies(g, v, d0, t, vs, j, page, a, n);
    hide Tallies, Apart, Sealed, Drained, JournalsOk;
  }

  /** What the copy of one live page needs. */
  lemma CopyFacts(g: Geometry, v: View, d0: seq<nat>, t: nat, vs: seq<nat>, j: nat, page: nat, addr: nat)
    requires Copying(g, v, d0, t, vs, j, page) && j < g.J && page < g.M && addr < g.cap
    requires v.pm[addr] == At(Loc(vs[j], page)) && Lists(g, v.blk, vs[j], page, addr)
    ensures InData(g, vs[j]) && v.dirty[vs[j]] < g.M && Shape(g, v)
    ensures v.blk[vs[j]][page].Programmed? && v.blk[vs[j]][page].content.UserPage?
    ensures DataAt(v.blk, Loc(vs[j], page)) == v.blk[vs[j]][page].content.data
  {
    hide CountsOk, RowsOk, JournalsOk, Tallies, Sealed;
    Leaving(g, v, addr);
    Listed(g, v, vs[j], page);
  }

  /** The victims' pages stay as they are while they are copied. */
  ghost predicate Untouched(blk: seq<Block>, blk': seq<Block>, vs: seq<nat>) {
    |blk| == |blk'| && forall i :: 0 <= i < |vs| && vs[i] < |blk| ==> blk'[vs[i]] == blk[vs[i]]
  }

  /** The copy fills the reclaim block by one page and leaves the victim as it is. */
  lemma CopyEffects(g: Geometry, v: View, w: View, d0: seq<nat>, t: nat, vs: seq<nat>, j: nat, page: nat, addr: nat, n: nat)
    requires Copying(g, v, d0, t, vs, j, page) && j < g.J && IsCopy(g, v, w, t, vs, j, page, addr, n)
    ensures |w.js| == |v.js| == 3 * g.J && |w.blk| == |v.blk| == g.U && vs[j] < g.U
    ensures w.js[2 * g.J + j].page == v.js[2 * g.J + j].page + 1
    ensures Untouched(v.blk, w.blk, vs)
    ensures forall k :: 0 <= k < 2 * g.J ==> w.js[k] == v.js[k]
  {
    hide Inv, Tallies, Sealed, Drained;
  }

  /** What reading a victim's last page gives, and where the copy stands. */
  lemma CopyStart(g: Geometry, v: View, d0: seq<nat>, t: nat, vs: seq<nat>, j: nat, page: nat)
    requires Copying(g, v, d0, t, vs, j, page) && j < g.J
    ensures |vs| == g.J && InData(g, vs[j]) && |v.blk| == g.U && |v.blk[vs[j]]| == g.P && |v.js| == 3 * g.J
    ensures v.blk[vs[j]][g.M].Programmed? ==>
              && v.blk[vs[j]][g.M].content.DataList? && |v.blk[vs[j]][g.M].content.spares| == g.P
              && forall p: nat :: p < g.M ==>
                   v.blk[vs[j]][g.M].content.spares[p].Words? && v.blk[vs[j]][g.M].content.spares[p].addr < g.cap
  {
    hide CountsOk, RowsOk, JournalsOk, Tallies, Sealed;
    if v.blk[vs[j]][g.M].Programmed? {
      forall p: nat | p < g.M
        ensures v.blk[vs[j]][g.M].content.DataList? && |v.blk[vs[j]][g.M].content.spares| == g.P
        ensures v.blk[vs[j]][g.M].content.spares[p].Words? && v.blk[vs[j]][g.M].content.spares[p].addr < g.cap
      {
        Listed(g, v, vs[j], p);
      }
      Listed(g, v, vs[j], 0);
    }
  }

  lemma InvParts(g: Geometry, v: View)
    requires Inv(g, v)
    ensures Shape(g, v) && JournalsOk(g, v) && MapOk(g, v)
  {
  }

  /** What the list of a closed victim says about its page. */
  lemma Listed(g: Geometry, v: View, b: nat, page: nat)
    requires Shape(g, v) && UserPagesOk(g, v) && ListsOk(g, v) && InData(g, b) && page < g.M
    requires v.blk[b][g.M].Programmed?
    ensures v.blk[b][g.M].content.DataList? && |v.blk[b][g.M].content.spares| == g.P
    ensures v.blk[b][g.M].content.spares[page].Words? && v.blk[b][g.M].content.spares[page].addr < g.cap
    ensures v.blk[b][page].Programmed? && v.blk[b][page].spare == v.blk[b][g.M].content.spares[page]
    ensures v.blk[b][page].content.UserPage?
  {
    assert ListOk(g, v, b);
  }

  /** A page whose listed address has moved away holds nothing live. */
  lemma SkipKeeps(g: Geometry, v: View, d0: seq<nat>, t: nat, vs: seq<nat>, j: nat, page: nat, addr: nat)
    requires Copying(g, v, d0, t, vs, j, page) && j < g.J && page < g.M && addr < g.cap
    requires Lists(g, v.blk, vs[j], page, addr) && v.pm[addr] != At(Loc(vs[j], page))
    ensures Copying(g, v, d0, t, vs, j, page + 1)
  {
    hide CountsOk, RowsOk, JournalsOk, Tallies, Sealed;
    Listed(g, v, vs[j], page);
    forall x: nat | x < g.cap && v.pm[x].At? && v.pm[x].loc.block == vs[j]
      ensures v.pm[x].loc.page >= page + 1
    {
      assert EntryOk(g, v, x);
    }
  }

  lemma VictimClosed(g: Geometry, v: View, t: nat, vs: seq<nat>, j: nat)
    requires Shape(g, v) && JournalsOk(g, v) && Apart(g, v.js, t, vs) && Sealed(g, v, t) && j < g.J
    requires OnJournal(v.js, vs[j])
    ensures v.blk[vs[j]][g.M].Programmed?
  {
    var k :| 0 <= k < |v.js| && v.js[k].block == vs[j];
    assert t <= k < t + g.J;
    assert v.js[k].page == g.M;
  }

  /** A victim whose last page was never written holds nothing live at all. */
  lemma UnlistedKeeps(g: Geometry, v: View, d0: seq<nat>, t: nat, vs: seq<nat>, j: nat)
    requires Copying(g, v, d0, t, vs, j, 0) && j < g.J && v.blk[vs[j]][g.M].Erased?
    ensures Copying(g, v, d0, t, vs, j, g.M)
  {
    if OnJournal(v.js, vs[j]) {
      VictimClosed(g, v, t, vs, j);
    }
    hide CountsOk, RowsOk, Tallies, Sealed, JournalsOk, OnJournal;
    forall x: nat | x < g.cap && v.pm[x].At?
      ensures v.pm[x].loc.block != vs[j]
    {
      assert EntryOk(g, v, x);
    }
  }

  /** A drained victim is wholly dirty, and its reclaim block holds what was live in it. */
  lemma DrainedVictim(g: Geometry, v: View, d0: seq<nat>, t: nat, vs: seq<nat>, j: nat)
    requires Copying(g, v, d0, t, vs, j, g.M) && j < g.J
    ensures v.dirty[vs[j]] == g.M && Mapped(v, vs[j]) == 0
    ensures Tally(g, v, d0, t, vs, j, j) && v.js[2 * g.J + j].page == g.M - d0[vs[j]]
  {
    VictimBalance(g, v, t, vs, j);
    assert Tally(g, v, d0, t, vs, j, j);
    var s := MapBlocks(v.pm);
    hide CountsOk, RowsOk, JournalsOk, Tallies, Sealed;
    CountPositive(s, vs[j]);
    forall i | 0 <= i < |s|
      ensures s[i] != vs[j]
    {
      assert EntryOk(g, v, i);
    }
  }

  lemma NextVictim(g: Geometry, v: View, d0: seq<nat>, t: nat, vs: seq<nat>, j: nat)
    requires Copying(g, v, d0, t, vs, j, g.M) && j < g.J
    ensures Copying(g, v, d0, t, vs, j + 1, 0)
    ensures v.js[2 * g.J + j].page == g.M - d0[vs[j]]
    ensures j + 1 < g.J ==> v.js[2 * g.J + j + 1].page == 0
  {
    DrainedVictim(g, v, d0, t, vs, j);
    hide Inv, Sealed, Apart, Mapped, RowOk, JournalOk;
    var next := j + 1;
    forall i: nat | i < g.J
      ensures Tally(g, v, d0, t, vs, next, i)
    {
      assert Tally(g, v, d0, t, vs, j, i);
    }
    if next < g.J {
      assert Tally(g, v, d0, t, vs, j, next);
    }
  }

  // ---------------------------------------------------------------- renewing the journals

  /** Blocks vs are erased, and the journals are rearranged: entry k comes from entry src[k],
      or is one of the erased blocks where src[k] is -1. */
  ghost predicate Renewed(g: Geometry, v: View, w: View, vs: seq<nat>, src: seq<int>) {
    && Shape(g, v) && Shape(g, w) && w.metas == v.metas && w.pm == v.pm && |w.dirty| == |v.dirty|
    && (forall b :: 0 <= b < g.U ==> w.blk[b] == if b in vs then Blank(g.P) else v.blk[b])
    && (forall b :: 0 <= b < |v.dirty| ==> w.dirty[b] == if b in vs then 0 else v.dirty[b])
    && |src| == 3 * g.J && Distinct(w.js)
    && (forall k :: 0 <= k < 3 * g.J ==> -1 <= src[k] < 3 * g.J)
    && (forall k :: 0 <= k < 3 * g.J && src[k] == -1 ==> w.js[k].block in vs && w.js[k].page == 0)
    && (forall k :: 0 <= k < 3 * g.J && src[k] >= 0 ==> w.js[k] == v.js[src[k]] && v.js[src[k]].block !in vs)
  }

  /** The blocks that may be erased or dropped from the journals. */
  ghost predicate Spent(g: Geometry, v: View, w: View, vs: seq<nat>)
    requires Shape(g, v)
  {
    && (forall b :: b in vs ==> InData(g, b) && Mapped(v, b) == 0 && OnJournal(w.js, b))
    && (forall b :: InData(g, b) && OnJournal(v.js, b) && !OnJournal(w.js, b) && b !in vs ==>
          v.dirty[b] + Mapped(v, b) == g.M && v.blk[b][g.M].Programmed?)
  }

  ghost predicate RowsMove(g: Geometry, v: View, src: seq<int>)
    requires Shape(g, v) && JournalsOk(g, v)
  {
    |src| == 3 * g.J &&
    forall k: nat {:trigger src[k]} :: k < 2 * g.J && 0 <= src[k] < 3 * g.J && v.blk[v.js[src[k]].block][g.M].Erased? ==>
      RowOk(g, v, src[k], k)
  }

  lemma RenewJournals(g: Geometry, v: View, w: View, vs: seq<nat>, src: seq<int>)
    requires Renewed(g, v, w, vs, src) && JournalsOk(g, v) && Spent(g, v, w, vs)
    ensures JournalsOk(g, w)
  {
    hide Distinct, Mapped, OnJournal;
    forall k: nat | k < 3 * g.J
      ensures JournalOk(g, w, k)
    {
      if src[k] >= 0 {
        assert JournalOk(g, v, src[k]);
      }
    }
  }

  lemma RenewRows(g: Geometry, v: View, w: View, vs: seq<nat>, src: seq<int>)
    requires Renewed(g, v, w, vs, src) && JournalsOk(g, v) && JournalsOk(g, w) && RowsMove(g, v, src)
    ensures RowsOk(g, w)
  {
    hide Distinct;
    forall k: nat | k < 2 * g.J && w.blk[w.js[k].block][g.M].Erased?
      ensures RowOk(g, w, k, k)
    {
      assert JournalOk(g, w, k);
      if src[k] >= 0 {
        assert JournalOk(g, v, src[k]);
      }
    }
  }

  lemma RenewPages(g: Geometry, v: View, w: View, vs: seq<nat>, src: seq<int>)
    requires Renewed(g, v, w, vs, src) && UserPagesOk(g, v) && ListsOk(g, v)
    ensures UserPagesOk(g, w) && ListsOk(g, w)
  {
    hide Distinct;
    forall b | InData(g, b)
      ensures ListOk(g, w, b)
    {
      assert ListOk(g, v, b);
    }
  }

  lemma NoneMapped(v: View, b: int, a: nat)
    requires Mapped(v, b) == 0 && a < |v.pm| && v.pm[a].At?
    ensures v.pm[a].loc.block != b
  {
    var s := MapBlocks(v.pm);
    assert s[a] == v.pm[a].loc.block;
    CountPositive(s, b);
  }

  lemma RenewEntry(g: Geometry, v: View, w: View, vs: seq<nat>, src: seq<int>, a: nat)
    requires Renewed(g, v, w, vs, src) && Spent(g, v, w, vs) && a < g.cap && EntryOk(g, v, a)
    ensures EntryOk(g, w, a) && SameRead(v, w, a)
  {
    hide Distinct, Mapped;
    if v.pm[a].At? {
      var b := v.pm[a].loc.block;
      if b in vs {
        NoneMapped(v, b, a);
      }
      hide OnJournal;
    }
  }

  lemma RenewMap(g: Geometry, v: View, w: View, vs: seq<nat>, src: seq<int>)
    requires Renewed(g, v, w, vs, src) && Spent(g, v, w, vs) && MapOk(g, v)
    ensures MapOk(g, w) && SameReads(v, w)
  {
    hide Spent;
    forall a: nat | a < g.cap
      ensures EntryOk(g, w, a) && SameRead(v, w, a)
    {
      assert EntryOk(g, v, a);
      RenewEntry(g, v, w, vs, src, a);
    }
  }

  lemma RenewCountOn(g: Geometry, v: View, w: View, vs: seq<nat>, src: seq<int>, k: nat)
    requires Renewed(g, v, w, vs, src) && Spent(g, v, w, vs) && JournalsOk(g, v) && CountsOk(g, v) && k < 3 * g.J
    requires w.js[k].block < g.U
    ensures w.dirty[w.js[k].block] + Mapped(w, w.js[k].block) == w.js[k].page
  {
    assert Mapped(w, w.js[k].block) == Mapped(v, w.js[k].block);
    hide Mapped, Distinct, JournalsOk, OnJournal;
    if src[k] >= 0 {
      var s: nat := src[k];
      assert v.dirty[v.js[s].block] + Mapped(v, v.js[s].block) == v.js[s].page;
    }
  }

  lemma RenewCountOff(g: Geometry, v: View, w: View, vs: seq<nat>, src: seq<int>, b: nat)
    requires Renewed(g, v, w, vs, src) && Spent(g, v, w, vs) && JournalsOk(g, v) && CountsOk(g, v)
    requires InData(g, b) && !OnJournal(w.js, b)
    ensures w.dirty[b] + Mapped(w, b) == g.M
  {
    assert Mapped(w, b) == Mapped(v, b);
    hide Mapped, Distinct, JournalsOk, OnJournal;
    assert b !in vs;
  }

  lemma RenewCounts(g: Geometry, v: View, w: View, vs: seq<nat>, src: seq<int>)
    requires Renewed(g, v, w, vs, src) && Spent(g, v, w, vs) && JournalsOk(g, v) && CountsOk(g, v) && JournalsOk(g, w)
    ensures CountsOk(g, w)
  {
    hide Mapped, Distinct, OnJournal, Spent;
    forall k: nat | k < 3 * g.J
      ensures w.dirty[w.js[k].block] + Mapped(w, w.js[k].block) == w.js[k].page
    {
      assert JournalOk(g, w, k);
      RenewCountOn(g, v, w, vs, src, k);
    }
    hide JournalsOk;
    forall b | InData(g, b) && !OnJournal(w.js, b)
      ensures w.dirty[b] + Mapped(w, b) == g.M
    {
      RenewCountOff(g, v, w, vs, src, b);
    }
  }

  /** Erasing spent blocks and rearranging the journals keeps every logical page. */
  lemma RenewKeeps(g: Geometry, v: View, w: View, vs: seq<nat>, src: seq<int>)
    requires Inv(g, v) && Renewed(g, v, w, vs, src) && Spent(g, v, w, vs) && RowsMove(g, v, src)
    ensures Inv(g, w) && SameReads(v, w)
  {
    RenewJournals(g, v, w, vs, src);
    RenewRows(g, v, w, vs, src);
    RenewPages(g, v, w, vs, src);
    RenewMap(g, v, w, vs, src);
    RenewCounts(g, v, w, vs, src);
    hide JournalsOk, UserPagesOk, ListsOk, RowsOk, MapOk, CountsOk, Spent, RowsMove;
  }

  // ---------------------------------------------------------------- the two endings of DATA_Reclaim

  /** Where entry k of the journals comes from after a copying reclaim. */
  function RotateSource(g: Geometry, t: nat): (src: seq<int>)
    ensures |src| == 3 * g.J
    ensures forall k :: 0 <= k < 3 * g.J ==>
              src[k] == if k >= 2 * g.J then -1 else if t <= k < t + g.J then k - t + 2 * g.J else k
  {
    seq(3 * g.J, k => if k >= 2 * g.J then -1 else if t <= k < t + g.J then k - t + 2 * g.J else k)
  }

  /** Victims are erased and become reclaim blocks; the filled reclaim blocks become journals. */
  ghost function RotateJs(g: Geometry, js: seq<Loc>, t: nat, vs: seq<nat>): (r: seq<Loc>)
    requires Offset(g, t) && |js| == 3 * g.J && |vs| == g.J
    ensures |r| == 3 * g.J
    ensures forall k :: 0 <= k < 3 * g.J ==>
              r[k] == if k >= 2 * g.J then Loc(vs[k - 2 * g.J], 0) else if t <= k < t + g.J then js[k - t + 2 * g.J] else js[k]
  {
    seq(3 * g.J, k requires 0 <= k < 3 * g.J =>
      if k >= 2 * g.J then Loc(vs[k - 2 * g.J], 0) else if t <= k < t + g.J then js[k - t + 2 * g.J] else js[k])
  }

  /** Victims are erased and become journals at once. */
  ghost function RecycleJs(g: Geometry, js: seq<Loc>, t: nat, vs: seq<nat>): (r: seq<Loc>)
    requires Offset(g, t) && |js| == 3 * g.J && |vs| == g.J
    ensures |r| == 3 * g.J
    ensures forall k :: 0 <= k < 3 * g.J ==> r[k] == if t <= k < t + g.J then Loc(vs[k - t], 0) else js[k]
  {
    seq(3 * g.J, k requires 0 <= k < 3 * g.J => if t <= k < t + g.J then Loc(vs[k - t], 0) else js[k])
  }

  function RecycleSource(g: Geometry, t: nat): (src: seq<int>)
    ensures |src| == 3 * g.J
    ensures forall k :: 0 <= k < 3 * g.J ==> src[k] == if t <= k < t + g.J then -1 else k
  {
    seq(3 * g.J, k => if t <= k < t + g.J then -1 else k)
  }

  /** Every block of vs erased, with no dirty page; nothing else changed. */
  ghost predicate Wiped(g: Geometry, v: View, w: View, vs: seq<nat>)
    requires Shape(g, v)
  {
    && w.metas == v.metas && w.pm == v.pm && |w.dirty| == |v.dirty| && |w.blk| == |v.blk|
    && (forall b :: 0 <= b < g.U ==> w.blk[b] == if b in vs then Blank(g.P) else v.blk[b])
    && (forall b :: 0 <= b < |v.dirty| ==> w.dirty[b] == if b in vs then 0 else v.dirty[b])
  }

  lemma RotateDistinct(g: Geometry, js: seq<Loc>, t: nat, vs: seq<nat>)
    requires Distinct(js) && Apart(g, js, t, vs)
    ensures Distinct(RotateJs(g, js, t, vs))
  {
    var r := RotateJs(g, js, t, vs);
    forall i, k | 0 <= i < k < |r|
      ensures r[i].block != r[k].block
    {
      if k < 2 * g.J {
        var i', k' := (if t <= i < t + g.J then i - t + 2 * g.J else i), (if t <= k < t + g.J then k - t + 2 * g.J else k);
        assert i' != k';
      }
    }
  }

  lemma RecycleDistinct(g: Geometry, js: seq<Loc>, t: nat, vs: seq<nat>)
    requires Distinct(js) && Apart(g, js, t, vs)
    ensures Distinct(RecycleJs(g, js, t, vs))
  {
  }

  /** A victim is one of the new reclaim blocks, and nothing on it is live. */
  lemma VictimSpent(g: Geometry, v: View, w: View, d0: seq<nat>, t: nat, vs: seq<nat>, i: nat)
    requires Copying(g, v, d0, t, vs, g.J, 0) && w.js == RotateJs(g, v.js, t, vs) && i < g.J
    ensures |vs| == g.J && InData(g, vs[i]) && Mapped(v, vs[i]) == 0 && OnJournal(w.js, vs[i])
  {
    hide UserPagesOk, ListsOk, RowsOk, MapOk, Mapped, RowOk;
    VictimBalance(g, v, t, vs, i);
    assert Tally(g, v, d0, t, vs, g.J, i);
    assert w.js[2 * g.J + i].block == vs[i];
  }

  lemma RotateSpent(g: Geometry, v: View, w: View, d0: seq<nat>, t: nat, vs: seq<nat>)
    requires Copying(g, v, d0, t, vs, g.J, 0) && w.js == RotateJs(g, v.js, t, vs)
    ensures Spent(g, v, w, vs)
  {
    hide JournalsOk, UserPagesOk, ListsOk, RowsOk, MapOk, CountsOk, Mapped, OnJournal, Tallies, Settled;
    forall i: nat | i < g.J
      ensures InData(g, vs[i]) && Mapped(v, vs[i]) == 0 && OnJournal(w.js, vs[i])
    {
      VictimSpent(g, v, w, d0, t, vs, i);
    }
    forall b | InData(g, b) && OnJournal(v.js, b) && !OnJournal(w.js, b) && b !in vs
      ensures v.dirty[b] + Mapped(v, b) == g.M && v.blk[b][g.M].Programmed?
    {
      RotateDropped(g, v, w, t, vs, b);
    }
  }

  lemma RotateDropped(g: Geometry, v: View, w: View, t: nat, vs: seq<nat>, b: nat)
    requires Shape(g, v) && JournalsOk(g, v) && CountsOk(g, v) && Offset(g, t) && Sealed(g, v, t) && |vs| == g.J
    requires w.js == RotateJs(g, v.js, t, vs) && OnJournal(v.js, b) && !OnJournal(w.js, b)
    ensures InData(g, b) && v.dirty[b] + Mapped(v, b) == g.M && v.blk[b][g.M].Programmed?
  {
    hide Mapped;
    var k: nat :| k < |v.js| && v.js[k].block == b;
    assert w.js[if k >= 2 * g.J then k - 2 * g.J + t else k].block != b;
    assert t <= k < t + g.J;
    assert JournalOk(g, v, k);
  }

  lemma RotateRows(g: Geometry, v: View, d0: seq<nat>, t: nat, vs: seq<nat>)
    requires Shape(g, v) && JournalsOk(g, v) && RowsOk(g, v) && Offset(g, t) && Tallies(g, v, d0, t, vs, g.J)
    ensures RowsMove(g, v, RotateSource(g, t))
  {
    var src := RotateSource(g, t);
    forall k: nat | k < 2 * g.J && v.blk[v.js[src[k]].block][g.M].Erased?
      ensures RowOk(g, v, src[k], k)
    {
      if t <= k < t + g.J {
        assert Tally(g, v, d0, t, vs, g.J, k - t);
      } else {
        assert RowOk(g, v, k, k);
      }
    }
  }

  lemma RotateRenewed(g: Geometry, v: View, w: View, t: nat, vs: seq<nat>)
    requires Shape(g, v) && Distinct(v.js) && Apart(g, v.js, t, vs) && Wiped(g, v, w, vs) && w.js == RotateJs(g, v.js, t, vs)
    ensures Renewed(g, v, w, vs, RotateSource(g, t))
  {
    RotateDistinct(g, v.js, t, vs);
    hide Distinct;
  }

  /** Each renewed journal holds the live pages of its victim, and so has room. */
  ghost predicate Refilled(g: Geometry, js: seq<Loc>, d0: seq<nat>, t: nat, vs: seq<nat>) {
    |js| == 3 * g.J && forall k: nat :: t <= k < t + g.J ==> RefilledAt(g, js, d0, t, vs, k)
  }

  ghost predicate RefilledAt(g: Geometry, js: seq<Loc>, d0: seq<nat>, t: nat, vs: seq<nat>, k: nat) {
    t <= k < |js| && k - t < |vs| && vs[k - t] < |d0| && js[k].page == g.M - d0[vs[k - t]] < g.M
  }

  lemma RefilledRoom(g: Geometry, js: seq<Loc>, d0: seq<nat>, t: nat, vs: seq<nat>)
    requires Refilled(g, js, d0, t, vs) && t <= 2 * g.J
    ensures forall k :: t <= k < t + g.J ==> js[k].page < g.M
  {
    forall k: nat | t <= k < t + g.J
      ensures js[k].page < g.M
    {
      assert RefilledAt(g, js, d0, t, vs, k);
    }
  }

  lemma RotateSettled(g: Geometry, v: View, w: View, d0: seq<nat>, t: nat, vs: seq<nat>)
    requires Copying(g, v, d0, t, vs, g.J, 0) && Wiped(g, v, w, vs) && w.js == RotateJs(g, v.js, t, vs)
    requires Shape(g, w) && JournalsOk(g, w)
    ensures Settled(g, w) && Refilled(g, w.js, d0, t, vs)
  {
    hide Inv, CountsOk, RowOk;
    assert Shape(g, v) && JournalsOk(g, v) by { InvParts(g, v); }
    hide Distinct;
    RotateCursors(g, v, w, d0, t, vs);
    assert Offset(g, t) && |vs| == g.J;
    RefilledRoom(g, w.js, d0, t, vs);
    hide Refilled, RefilledAt, Sealed, Tallies, Drained;
    forall k: nat | k < 2 * g.J && w.js[k].page == g.M
      ensures w.blk[w.js[k].block][g.M].Programmed?
    {
      assert !(t <= k < t + g.J);
      assert JournalOk(g, w, k);
      assert w.js[k] == v.js[k];
      assert v.js[k].block !in vs;
    }
  }

  lemma RotateCursors(g: Geometry, v: View, w: View, d0: seq<nat>, t: nat, vs: seq<nat>)
    requires Copying(g, v, d0, t, vs, g.J, 0) && w.js == RotateJs(g, v.js, t, vs)
    ensures Refilled(g, w.js, d0, t, vs)
  {
    hide Inv, Tally, Apart, Sealed, Drained, RotateJs;
    assert Shape(g, v) by { InvParts(g, v); }
    assert Offset(g, t) && |vs| == g.J by { assert Tally(g, v, d0, t, vs, g.J, 0); TallyShape(g, v, d0, t, vs, 0); }
    forall k: nat | t <= k < t + g.J
      ensures RefilledAt(g, w.js, d0, t, vs, k)
    {
      assert Tally(g, v, d0, t, vs, g.J, k - t);
      RotateCursor(g, v, d0, t, vs, k);
    }
  }

  lemma TallyShape(g: Geometry, v: View, d0: seq<nat>, t: nat, vs: seq<nat>, i: nat)
    requires Tally(g, v, d0, t, vs, g.J, i)
    ensures Offset(g, t) && |vs| == g.J && |v.js| == 3 * g.J
  {
    hide JournalOk, RowOk;
  }

  lemma RotateCursor(g: Geometry, v: View, d0: seq<nat>, t: nat, vs: seq<nat>, k: nat)
    requires Offset(g, t) && |vs| == g.J && |v.js| == 3 * g.J && t <= k < t + g.J && Tally(g, v, d0, t, vs, g.J, k - t)
    ensures RefilledAt(g, RotateJs(g, v.js, t, vs), d0, t, vs, k)
  {
    hide JournalOk, RowOk;
  }

  /** Ending of a reclaim that copied pages: the map is unchanged, the renewed journals have
      room, and the reclaim blocks are empty again. */
  lemma RotateKeeps(g: Geometry, v: View, w: View, d0: seq<nat>, t: nat, vs: seq<nat>)
    requires Copying(g, v, d0, t, vs, g.J, 0) && Wiped(g, v, w, vs) && w.js == RotateJs(g, v.js, t, vs)
    ensures Inv(g, w) && SameReads(v, w) && Settled(g, w) && Refilled(g, w.js, d0, t, vs)
  {
    hide UserPagesOk, ListsOk, RowsOk, MapOk, CountsOk, JournalOk, Sealed, Tallies, Wiped, Spent, RowsMove, SameReads, Refilled;
    RotateSpent(g, v, w, d0, t, vs);
    RotateRows(g, v, d0, t, vs);
    RotateRenewed(g, v, w, t, vs);
    RenewKeeps(g, v, w, vs, RotateSource(g, t));
    hide Inv, Copying, Settled, Distinct;
    InvParts(g, w);
    RotateSettled(g, v, w, d0, t, vs);
  }

  /** Ending of a reclaim that found nothing to copy. */
  ghost predicate AllDirty(g: Geometry, v: View, t: nat, vs: seq<nat>) {
    && Inv(g, v) && JournalFull(g, v, t) && Apart(g, v.js, t, vs)
    && forall i :: 0 <= i < g.J ==> v.dirty[vs[i]] == g.M
  }

  lemma RecycleSpent(g: Geometry, v: View, w: View, t: nat, vs: seq<nat>)
    requires AllDirty(g, v, t, vs) && w.js == RecycleJs(g, v.js, t, vs)
    ensures Spent(g, v, w, vs)
  {
    hide UserPagesOk, ListsOk, RowsOk, MapOk, Mapped, RowOk;
    forall i: nat | i < g.J
      ensures InData(g, vs[i]) && Mapped(v, vs[i]) == 0 && OnJournal(w.js, vs[i])
    {
      FullOrClosed(g, v, t, vs[i]);
      assert w.js[t + i].block == vs[i];
    }
    forall b | InData(g, b) && OnJournal(v.js, b) && !OnJournal(w.js, b) && b !in vs
      ensures v.dirty[b] + Mapped(v, b) == g.M && v.blk[b][g.M].Programmed?
    {
      RecycleDropped(g, v, w, t, vs, b);
    }
  }

  lemma RecycleDropped(g: Geometry, v: View, w: View, t: nat, vs: seq<nat>, b: nat)
    requires JournalFull(g, v, t) && CountsOk(g, v) && |vs| == g.J
    requires w.js == RecycleJs(g, v.js, t, vs) && OnJournal(v.js, b) && !OnJournal(w.js, b)
    ensures InData(g, b) && v.dirty[b] + Mapped(v, b) == g.M && v.blk[b][g.M].Programmed?
  {
    hide Mapped;
    var k: nat :| k < |v.js| && v.js[k].block == b;
    assert w.js[k].block != b;
    assert t <= k < t + g.J;
    assert JournalOk(g, v, k);
  }

  lemma RecycleRows(g: Geometry, v: View, t: nat)
    requires Shape(g, v) && JournalsOk(g, v) && RowsOk(g, v)
    ensures RowsMove(g, v, RecycleSource(g, t))
  {
  }

  lemma RecycleRenewed(g: Geometry, v: View, w: View, t: nat, vs: seq<nat>)
    requires Shape(g, v) && Distinct(v.js) && Apart(g, v.js, t, vs) && Wiped(g, v, w, vs) && w.js == RecycleJs(g, v.js, t, vs)
    ensures Renewed(g, v, w, vs, RecycleSource(g, t))
  {
    RecycleDistinct(g, v.js, t, vs);
    hide Distinct;
  }

  lemma RecycleKeeps(g: Geometry, v: View, w: View, t: nat, vs: seq<nat>)
    requires AllDirty(g, v, t, vs) && Wiped(g, v, w, vs) && w.js == RecycleJs(g, v.js, t, vs)
    ensures Inv(g, w) && SameReads(v, w) && Settled(g, w)
    ensures forall k :: t <= k < t + g.J ==> w.js[k].page == 0 < g.M
  {
    hide UserPagesOk, ListsOk, RowsOk, MapOk, CountsOk, JournalOk, Spent, RowsMove, SameReads;
    RecycleSpent(g, v, w, t, vs);
    RecycleRows(g, v, t);
    RecycleRenewed(g, v, w, t, vs);
    RenewKeeps(g, v, w, vs, RecycleSource(g, t));
    RecycleSettled(g, v, w, t, vs);
  }

  lemma RecycleSettled(g: Geometry, v: View, w: View, t: nat, vs: seq<nat>)
    requires JournalFull(g, v, t) && Apart(g, v.js, t, vs) && Wiped(g, v, w, vs) && w.js == RecycleJs(g, v.js, t, vs)
    requires Shape(g, w) && JournalsOk(g, w)
    ensures Settled(g, w)
  {
    hide Distinct;
    forall k: nat | k < 2 * g.J && w.js[k].page == g.M
      ensures w.js[k].block < g.U && w.blk[w.js[k].block][g.M].Programmed?
    {
      assert JournalOk(g, w, k);
      assert w.js[k] == v.js[k];
      assert v.js[k].block !in vs;
    }
  }

  // ---------------------------------------------------------------- the erase loops, step by step

  /** The first n victims are erased and their dirty counts cleared. */
  ghost predicate WipedTo(g: Geometry, v: View, w: View, vs: seq<nat>, n: nat)
    requires n <= |vs|
  {
    && w.metas == v.metas && w.pm == v.pm && |w.dirty| == |v.dirty| == g.U && |w.blk| == |v.blk| == g.U
    && (forall b :: 0 <= b < g.U ==> w.blk[b] == if b in vs[..n] then Blank(g.P) else v.blk[b])
    && (forall b :: 0 <= b < g.U ==> w.dirty[b] == if b in vs[..n] then 0 else v.dirty[b])
  }

  lemma WipedStep(g: Geometry, v: View, w: View, x: View, vs: seq<nat>, n: nat)
    requires n < |vs| && WipedTo(g, v, w, vs, n) && vs[n] < g.U
    requires x.metas == w.metas && x.pm == w.pm
    requires x.blk == w.blk[vs[n] := Blank(g.P)] && x.dirty == w.dirty[vs[n] := 0]
    ensures WipedTo(g, v, x, vs, n + 1)
  {
    assert vs[..n + 1] == vs[..n] + [vs[n]];
  }

  /** The journals after the first n steps of the copying ending. */
  ghost predicate RotatedTo(g: Geometry, js: seq<Loc>, ks: seq<Loc>, t: nat, vs: seq<nat>, n: nat) {
    && Offset(g, t) && n <= g.J && |js| == |ks| == 3 * g.J && |vs| == g.J
    && (forall k :: 2 * g.J <= k < 2 * g.J + n ==> ks[k] == Loc(vs[k - 2 * g.J], 0))
    && (forall k :: t <= k < t + n ==> ks[k] == js[k - t + 2 * g.J])
    && (forall k :: 0 <= k < 3 * g.J && !(2 * g.J <= k < 2 * g.J + n) && !(t <= k < t + n) ==> ks[k] == js[k])
  }

  lemma RotatedStep(g: Geometry, js: seq<Loc>, ks: seq<Loc>, t: nat, vs: seq<nat>, n: nat)
    requires n < g.J && RotatedTo(g, js, ks, t, vs, n)
    ensures ks[2 * g.J + n] == js[2 * g.J + n]
    ensures RotatedTo(g, js, ks[t + n := ks[2 * g.J + n]][2 * g.J + n := Loc(vs[n], 0)], t, vs, n + 1)
  {
  }

  /** The journals after the first n steps of the other ending. */
  ghost predicate RecycledTo(g: Geometry, js: seq<Loc>, ks: seq<Loc>, t: nat, vs: seq<nat>, n: nat) {
    && Offset(g, t) && n <= g.J && |js| == |ks| == 3 * g.J && |vs| == g.J
    && forall k :: 0 <= k < 3 * g.J ==> ks[k] == if t <= k < t + n then Loc(vs[k - t], 0) else js[k]
  }

  lemma RecycledStep(g: Geometry, js: seq<Loc>, ks: seq<Loc>, t: nat, vs: seq<nat>, n: nat)
    requires n < g.J && RecycledTo(g, js, ks, t, vs, n)
    ensures RecycledTo(g, js, ks[t + n := Loc(vs[n], 0)], t, vs, n + 1)
  {
  }

  lemma WipedAll(g: Geometry, v: View, w: View, vs: seq<nat>)
    requires Shape(g, v) && |vs| == g.J && WipedTo(g, v, w, vs, g.J)
    ensures Wiped(g, v, w, vs)
  {
    assert vs[..g.J] == vs;
  }

  lemma RotatedAll(g: Geometry, js: seq<Loc>, ks: seq<Loc>, t: nat, vs: seq<nat>)
    requires RotatedTo(g, js, ks, t, vs, g.J)
    ensures ks == RotateJs(g, js, t, vs)
  {
  }

  lemma RecycledAll(g: Geometry, js: seq<Loc>, ks: seq<Loc>, t: nat, vs: seq<nat>)
    requires RecycledTo(g, js, ks, t, vs, g.J)
    ensures ks == RecycleJs(g, js, t, vs)
  {
  }

  /** What the copying ending may rely on. */
  lemma CopyingErasable(g: Geometry, v: View, d0: seq<nat>, t: nat, vs: seq<nat>)
    requires Copying(g, v, d0, t, vs, g.J, 0)
    ensures |vs| == g.J && |v.js| == 3 * g.J && |v.blk| == g.U && Shape(g, v)
    ensures forall i :: 0 <= i < g.J ==> InData(g, vs[i])
    ensures forall k :: 2 * g.J <= k < 3 * g.J ==> InData(g, v.js[k].block) && v.dirty[v.js[k].block] == 0
  {
    hide UserPagesOk, ListsOk, RowsOk, MapOk, CountsOk, Sealed, Distinct;
    forall k | 2 * g.J <= k < 3 * g.J
      ensures InData(g, v.js[k].block) && v.dirty[v.js[k].block] == 0
    {
      assert Tally(g, v, d0, t, vs, g.J, k - 2 * g.J);
    }
  }

  /** Some page is live among the victims exactly when the last of them is not wholly dirty,
      and then its list is on flash. */
  lemma LastVictimListed(g: Geometry, v: View, t: nat, vs: seq<nat>)
    requires Inv(g, v) && JournalFull(g, v, t) && Victims(g, v.js, v.dirty, t, vs) && v.dirty[vs[g.J - 1]] < g.M
    ensures v.blk[vs[g.J - 1]][g.M].Programmed?
  {
    hide UserPagesOk, ListsOk, RowsOk;
    var b := vs[g.J - 1];
    VictimCounts(g, v, t, b);
    var s := MapBlocks(v.pm);
    CountPositive(s, b);
    var a :| 0 <= a < |s| && s[a] == b;
    assert EntryOk(g, v, a);
    hide Mapped, CountsOk, MapOk;
    if OnJournal(v.js, b) {
      var k: nat :| k < |v.js| && v.js[k].block == b;
      assert t <= k < t + g.J;
      assert v.js[k].page == g.M;
    }
  }

  /** The selection loop's result, seen from the journals. */
  lemma ChosenAreVictims(g: Geometry, v: View, t: nat, other: seq<Loc>, dirty: seq<nat>, vs: seq<nat>)
    requires Offset(g, t) && |v.js| == 3 * g.J && |v.dirty| == g.U && |dirty| >= g.U && |other| == g.J
    requires forall i :: 0 <= i < g.J ==> other[i] == v.js[g.J - t + i]
    requires forall b :: InData(g, b) ==> dirty[b] == v.dirty[b]
    requires V.Chosen(g, other, dirty, vs)
    ensures Victims(g, v.js, v.dirty, t, vs)
  {
    forall b: int
      ensures Eligible(g, v.js, t, b) == V.Eligible(g, other, b)
    {
      SameEligible(g, v.js, t, other, b);
    }
    hide V.Outside;
    assert forall i :: 0 <= i < g.J ==> V.Eligible(g, other, vs[i]) && InData(g, vs[i]) by { EligibleInData(g, other); }
    EligibleInData(g, other);
  }

  lemma SameEligible(g: Geometry, js: seq<Loc>, t: nat, other: seq<Loc>, b: int)
    requires Offset(g, t) && |js| == 3 * g.J && |other| == g.J
    requires forall i :: 0 <= i < g.J ==> other[i] == js[g.J - t + i]
    ensures Eligible(g, js, t, b) == V.Eligible(g, other, b)
  {
    assert forall k :: g.J - t <= k < 2 * g.J - t ==> js[k] == other[k - (g.J - t)];
  }

  lemma EligibleInData(g: Geometry, other: seq<Loc>)
    ensures forall b: int :: V.Eligible(g, other, b) ==> InData(g, b)
  {
  }

  /** The selection loop finds enough blocks. */
  lemma EnoughCandidates(g: Geometry, v: View, t: nat, other: seq<Loc>, dirty: seq<nat>)
    requires JournalFull(g, v, t) && CountsOk(g, v) && |v.dirty| == g.U && |dirty| >= g.U && |other| == g.J
    requires forall i :: 0 <= i < g.J ==> other[i] == v.js[g.J - t + i]
    requires forall b :: InData(g, b) ==> dirty[b] == v.dirty[b]
    ensures |V.Candidates(g, other, dirty)| >= g.J
  {
    EnoughDirtyBlocks(g, v, t);
    hide JournalsOk, CountsOk, Settled;
    forall b: int | b in DirtyBlocks(g, v, t)
      ensures b in V.Candidates(g, other, dirty)
    {
      SameEligible(g, v.js, t, other, b);
    }
    hide DirtyBlocks, V.Candidates;
    SubsetSize(DirtyBlocks(g, v, t), V.Candidates(g, other, dirty));
  }

  /** No dirty count exceeds M. */
  lemma DirtyBounded(g: Geometry, v: View)
    requires Shape(g, v) && JournalsOk(g, v) && CountsOk(g, v)
    ensures forall b: nat :: InData(g, b) ==> v.dirty[b] <= g.M
  {
    hide Mapped;
    forall b: nat | InData(g, b)
      ensures v.dirty[b] <= g.M
    {
      if OnJournal(v.js, b) {
        var k: nat :| k < |v.js| && v.js[k].block == b;
        assert JournalOk(g, v, k);
      }
    }
  }
}
