/** The volume seen as an array of sectors. */
module Sectors {
  import G = Geometry
  import opened Flash
  import opened Buffers

  /** Every page has n sectors. */
  ghost predicate Paged(pages: seq<PageData>, n: nat) {
    n > 0 && forall a :: 0 <= a < |pages| ==> |pages[a]| == n
  }

  lemma InPage(pages: seq<PageData>, n: nat, k: nat)
    requires n > 0 && k < |pages| * n
    ensures k / n < |pages| && k % n < n
  {
    if k / n >= |pages| {
      G.MulMono(|pages|, k / n, n);
    }
  }

  function SectorIn(pages: seq<PageData>, p: nat, i: nat): Sector {
    if p < |pages| && i < |pages[p]| then pages[p][i] else []
  }

  /** The sectors of the pages in order. */
  ghost function SectorsOf(pages: seq<PageData>, n: nat): (r: seq<Sector>)
    ensures |r| == |pages| * n
    ensures n > 0 ==> forall k :: 0 <= k < |r| ==> r[k] == SectorIn(pages, k / n, k % n)
  {
    seq(|pages| * n, k requires 0 <= k => if n > 0 then SectorIn(pages, k / n, k % n) else [])
  }

  /** A page replaced is a page replaced, wherever its sectors are counted. */
  lemma SectorReplaced(pages: seq<PageData>, p: nat, x: PageData, q: nat, m: nat)
    requires p < |pages| && |x| == |pages[p]|
    ensures SectorIn(pages[p := x], q, m) == if q == p && m < |x| then x[m] else SectorIn(pages, q, m)
  {
  }

  /** Where sector j is when page p is replaced. */
  lemma PageReplaced(pages: seq<PageData>, n: nat, p: nat, x: PageData, j: nat)
    requires Paged(pages, n) && p < |pages| && |x| == n && j < |pages| * n
    ensures var w := SectorIn(pages[p := x], j / n, j % n);
            if p * n <= j < p * n + n then w == x[j - p * n] && SectorIn(pages, j / n, j % n) == pages[p][j - p * n]
            else w == SectorIn(pages, j / n, j % n)
  {
    G.InStretch(n, p, j);
    SectorReplaced(pages, p, x, j / n, j % n);
  }

  /** A sector changes in the page it belongs to. */
  lemma OneSector(pages: seq<PageData>, n: nat, p: nat, i: nat, x: Sector)
    requires Paged(pages, n) && p < |pages| && i < n
    ensures var k := p * n + i; k < |pages| * n && SectorsOf(pages[p := pages[p][i := x]], n) == SectorsOf(pages, n)[k := x]
  {
    var a, page := p * n, pages[p][i := x];
    G.MulMono(p + 1, |pages|, n);
    var s, t := SectorsOf(pages, n), SectorsOf(pages[p := page], n);
    forall j | 0 <= j < |s|
      ensures t[j] == s[a + i := x][j]
    {
      PageReplaced(pages, n, p, page, j);
      hide SectorsOf, SectorIn;
    }
  }

  /** A whole page is n sectors. */
  lemma WholePage(pages: seq<PageData>, n: nat, p: nat, x: PageData)
    requires Paged(pages, n) && p < |pages| && |x| == n
    ensures p * n + n <= |pages| * n && Paged(pages[p := x], n)
    ensures SectorsOf(pages[p := x], n) == SectorsOf(pages, n)[..p * n] + x + SectorsOf(pages, n)[p * n + n..]
    ensures SectorsOf(pages, n)[p * n..p * n + n] == pages[p]
  {
    G.MulMono(p + 1, |pages|, n);
    var s, t, a := SectorsOf(pages, n), SectorsOf(pages[p := x], n), p * n;
    forall j | 0 <= j < |s|
      ensures t[j] == if a <= j < a + n then x[j - a] else s[j]
      ensures a <= j < a + n ==> s[j] == pages[p][j - a]
    {
      PageReplaced(pages, n, p, x, j);
    }
  }

  /** Putting a sector and then merging is merging and then changing the sector. */
  lemma MergedOne(base: PageData, over: PageData, written: seq<bool>, i: nat, x: Sector)
    requires |base| == |over| == |written| && i < |base|
    ensures Merged(base, over[i := x], written[i := true]) == Merged(base, over, written)[i := x]
  {
  }

  lemma MergedNothing(base: PageData, over: PageData, written: seq<bool>)
    requires |base| == |over| == |written| && forall i :: 0 <= i < |written| ==> !written[i]
    ensures Merged(base, over, written) == base
  {
  }
}
