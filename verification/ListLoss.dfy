/** The list of the page-map block being filled is lost with the power, and PMT_Init does not
    rebuild it: when that matters, and what it costs. */
module ListLoss {
  import opened Geometry
  import opened Flash
  import opened PmtSpec

  /** The page map with a list of zeros. */
  ghost function Forgotten(g: Geometry, v: View): View {
    v.(meta := seq(g.P, _ => 0))
  }

  /** A cluster other than the first has its home in the block being filled. */
  ghost predicate InOpenBlock(g: Geometry, v: View) {
    exists c: nat :: 0 < c < g.K && c < |v.nodes| && HomeOf(v.nodes, v.slots, c).block == v.open.block
  }

  lemma HomeListed(g: Geometry, v: View, c: nat)
    requires Stable(g, v) && c < g.K && HomeOf(v.nodes, v.slots, c).block == v.open.block
    ensures HomeOf(v.nodes, v.slots, c).page < v.open.page && v.meta[HomeOf(v.nodes, v.slots, c).page] == c
  {
    hide ListsOk, CountsOk, SlackOk, SlotsOk, NodesOk;
    assert HomeOk(g, v, c);
  }

  lemma ForgottenHome(g: Geometry, v: View, c: nat)
    requires Shape(g, v) && Shape(g, Forgotten(g, v)) && c < g.K && HomeOk(g, v, c)
    requires HomeOf(v.nodes, v.slots, c).block == v.open.block ==> c == 0
    ensures HomeOk(g, Forgotten(g, v), c)
  {
  }

  /** A mount finds the page map in order if and only if no cluster but the first has its home in
      the block that was being filled. */
  lemma ForgottenIsStable(g: Geometry, v: View)
    requires Stable(g, v)
    ensures Stable(g, Forgotten(g, v)) <==> !InOpenBlock(g, v)
  {
    var w := Forgotten(g, v);
    if InOpenBlock(g, v) {
      var c: nat :| 0 < c < g.K && c < |v.nodes| && HomeOf(v.nodes, v.slots, c).block == v.open.block;
      HomeListed(g, v, c);
      if Stable(g, w) {
        HomeListed(g, w, c);
        assert false;
      }
    } else {
      forall c: nat | c < g.K
        ensures HomeOk(g, w, c)
      {
        assert HomeOk(g, v, c);
        ForgottenHome(g, v, c);
      }
      LiveDepends(v, w);
      hide Live, HomesOk, SlotOk, NodesOk;
      assert NodesOk(g, w, 0) && SlotsOk(g, w, 0) by { SlotsDepend(g, v, w); }
    }
  }

  /** It does so whenever nothing has been written to that block yet. */
  lemma FreshBlockIsStable(g: Geometry, v: View)
    requires Stable(g, v) && v.open.page == 0
    ensures Stable(g, Forgotten(g, v))
  {
    hide Stable, Forgotten;
    if InOpenBlock(g, v) {
      var c: nat :| 0 < c < g.K && c < |v.nodes| && HomeOf(v.nodes, v.slots, c).block == v.open.block;
      HomeListed(g, v, c);
      assert false;
    }
    ForgottenIsStable(g, v);
  }

  // ---------------------------------------------------------------- what a wrong list costs

  /** The state inside the copy loop as far as one cluster is concerned: its page is still on the
      victim. */
  ghost predicate Waiting(g: Geometry, v: View, victim: nat, c: nat, l: Loc, n: nat) {
    && c < g.K == |v.nodes| && v.nodes[c] == OnFlash(l) && l.block == victim && |v.meta| == g.P
    && Shaped(v.blk, g.U, g.P) && victim < g.U && v.open.block < g.U && v.open.block != victim && v.open.page <= n
  }

  /** Its page has been copied. */
  ghost predicate Copied(g: Geometry, v: View, victim: nat, c: nat, entries: seq<Entry>) {
    && c < g.K == |v.nodes| && v.nodes[c].OnFlash? && victim < |v.blk| && v.open.block != victim
    && v.nodes[c].loc.block == v.open.block && v.nodes[c].loc.page < v.open.page
    && EntriesAt(v.blk, v.nodes[c].loc) == entries
  }

  lemma {:induction false} Waits(g: Geometry, v: View, victim: nat, clusters: seq<nat>, n: nat, c: nat, l: Loc)
    requires n <= |clusters| && Waiting(g, v, victim, c, l, 0) && (l.page < n ==> clusters[l.page] != c)
    ensures Waiting(g, Sweep(g, v, victim, clusters, n), victim, c, l, n)
    ensures Sweep(g, v, victim, clusters, n).blk[victim] == v.blk[victim]
  {
    hide ValidDims;
    if n > 0 {
      Waits(g, v, victim, clusters, n - 1, c, l);
    }
  }

  lemma {:induction false} IsCopied(g: Geometry, v: View, victim: nat, clusters: seq<nat>, n: nat, c: nat, l: Loc)
    requires l.page < n <= |clusters| && n <= g.M && Waiting(g, v, victim, c, l, 0) && clusters[l.page] == c && EntriesAt(v.blk, l) != []
    ensures Copied(g, Sweep(g, v, victim, clusters, n), victim, c, EntriesAt(v.blk, l))
    decreases n
  {
    hide ValidDims;
    if l.page == n - 1 {
      Waits(g, v, victim, clusters, n - 1, c, l);
    } else {
      IsCopied(g, v, victim, clusters, n - 1, c, l);
    }
  }

  /** A reclaim keeps a cluster that lives in its victim if and only if the victim's list names
      the cluster at its page.  A cluster it does not name is erased: its addresses are lost. */
  lemma KeptIfListed(g: Geometry, v: View, victim: nat, clusters: seq<nat>, c: nat)
    requires g.M <= |clusters| && c < |v.nodes| && v.nodes[c].OnFlash? && v.open.page == 0 && ClusterOf(v, c) != []
    requires Waiting(g, v, victim, c, v.nodes[c].loc, 0) && v.nodes[c].loc.page < g.M && v.open.block < |v.dirty| && victim < |v.dirty|
    ensures var w := Sweep(g, v, victim, clusters, g.M);
            && victim < |w.blk| && victim < |w.dirty| && w.open.block < |w.dirty| && |w.nodes| == |v.nodes|
            && ClusterOf(EndMove(g, w, victim), c) == if clusters[v.nodes[c].loc.page] == c then ClusterOf(v, c) else []
  {
    hide ValidDims;
    var l := v.nodes[c].loc;
    if clusters[l.page] == c {
      IsCopied(g, v, victim, clusters, g.M, c, l);
    } else {
      Waits(g, v, victim, clusters, g.M, c, l);
    }
  }
}
