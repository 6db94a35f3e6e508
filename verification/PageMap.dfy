/** The page map seen from outside: one entry for every logical page address. */
module PageMap {
  import opened Geometry
  import opened Flash
  import opened PmtSpec

  /** CLUSTER_INDEX. */
  function ClusterIndex(g: Geometry, a: nat): (c: nat)
    requires a < g.cap
    ensures c < g.K
  {
    QuotientBound(a, g.N, g.K);
    a / g.N
  }

  /** PAGE_IN_CLUSTER. */
  function PageInCluster(g: Geometry, a: nat): (k: nat)
    ensures k < g.N
  {
    a % g.N
  }

  lemma QuotientBound(a: nat, n: nat, k: nat)
    requires n > 0 && a < k * n
    ensures a / n < k
  {
    if a / n >= k {
      MulMono(k, a / n, n);
    }
  }

  /** An address is its cluster and its place in it. */
  lemma SameAddress(g: Geometry, a: nat, b: nat)
    requires a < g.cap && b < g.cap
    requires ClusterIndex(g, a) == ClusterIndex(g, b) && PageInCluster(g, a) == PageInCluster(g, b)
    ensures a == b
  {
    assert a == (a / g.N) * g.N + a % g.N;
    assert b == (b / g.N) * g.N + b % g.N;
  }

  ghost function EntryOf(g: Geometry, v: View, a: nat): Entry
    requires |v.nodes| == g.K && a < g.cap
  {
    var c := ClusterOf(v, ClusterIndex(g, a));
    if PageInCluster(g, a) < |c| then c[PageInCluster(g, a)] else Nowhere
  }

  /** The whole map. */
  ghost function MapOf(g: Geometry, v: View): (m: seq<Entry>)
    requires |v.nodes| == g.K
    ensures |m| == g.cap
    ensures forall a :: 0 <= a < g.cap ==> m[a] == EntryOf(g, v, a)
  {
    seq(g.cap, a requires 0 <= a < g.cap => EntryOf(g, v, a))
  }

  lemma SameMapOf(g: Geometry, v: View, w: View)
    requires |v.nodes| == g.K && SameMap(v, w)
    ensures MapOf(g, v) == MapOf(g, w)
  {
    hide ClusterOf, ClusterIndex, PageInCluster, ValidDims;
    forall a: nat | a < g.cap
      ensures EntryOf(g, v, a) == EntryOf(g, w, a)
    {
    }
  }

  /** Every cluster has its N entries. */
  lemma ClusterSize(g: Geometry, v: View, c: nat)
    requires Stable(g, v) && c < g.K
    ensures |ClusterOf(v, c)| == g.N
  {
    hide ListsOk, CountsOk, SlackOk;
    assert HomeOk(g, v, c);
    StableHome(g, v, c);
    if v.nodes[c].Cached? {
      assert SlotOk(g, v, 0, v.nodes[c].slot);
    }
  }

  lemma StableHome(g: Geometry, v: View, c: nat)
    requires Stable(g, v) && c < g.K
    ensures HomeOf(v.nodes, v.slots, c).block != v.blank
  {
    hide Inv;
    StableShape(g, v);
    NoneLive(v, v.blank, c);
  }

  /** Replacing one entry of a cached cluster replaces one entry of the map. */
  lemma SetMapOf(g: Geometry, v: View, w: View, a: nat, e: Entry)
    requires |v.nodes| == |w.nodes| == g.K && a < g.cap
    requires |ClusterOf(v, ClusterIndex(g, a))| == g.N
    requires ClusterOf(w, ClusterIndex(g, a)) == ClusterOf(v, ClusterIndex(g, a))[PageInCluster(g, a) := e]
    requires forall d :: 0 <= d < g.K && d != ClusterIndex(g, a) ==> ClusterOf(w, d) == ClusterOf(v, d)
    ensures MapOf(g, w) == MapOf(g, v)[a := e]
  {
    hide ClusterOf, ClusterIndex, PageInCluster, ValidDims;
    forall b: nat | b < g.cap
      ensures EntryOf(g, w, b) == if b == a then e else EntryOf(g, v, b)
    {
      if ClusterIndex(g, b) == ClusterIndex(g, a) && PageInCluster(g, b) == PageInCluster(g, a) {
        SameAddress(g, a, b);
      }
    }
  }
}
