/** ftl_api.c: the volume of logical pages. */
module FtlApi {
  import opened Geometry
  import opened Flash
  import D = DataSpec
  import L = Lanes
  import PmtSpec
  import PageMap
  import opened FtlState
  import opened Logs
  import RootSpec
  import opened Commit
  import opened Data
  import opened DataReclaim

  /** The FTL between calls, but for the list of the page-map block being filled. */
  ghost predicate Mounted(s: Ftl)
    reads s, s.ubi, s.ubi.Repr
  {
    && Consistent(s) && D.Settled(s.g, s.Data())
    && HasRoom(s.g, s.Data().js, true) && HasRoom(s.g, s.Data().js, false)
  }

  /** The FTL between calls. */
  ghost predicate Valid(s: Ftl)
    reads s, s.ubi, s.ubi.Repr
  {
    s.listKept && Mounted(s)
  }

  /** DATA_Commit, seen from the data region. */
  method CommitData(s: Ftl)
    requires s.listKept
    requires Ready(s) && Arrays(s)
    modifies s, s.ubi.Repr
    ensures Ready(s) && Arrays(s) && s.Data() == old(s.Data())
    ensures JustCommitted(s)
  {
    hide PmtSpec.Stable, LogsOk, PageMap.MapOf, DataBlocks, DataDirty, DataKept, PmtSpec.SameMap, JustCommitted;
    ghost var v := s.Pmt();
    MapShape(s);
    DataCommit(s);
    ShapeOf(s);
    DataKeptMasks(s);
    PageMap.SameMapOf(s.g, v, s.Pmt());
    MapShape(s);
  }

  /** DATA_Reclaim of a full set of journals, then DATA_Commit. */
  method Renew(s: Ftl, isHot: bool)
    requires Consistent(s) && D.Settled(s.g, s.Data()) && s.listKept && !HasRoom(s.g, s.Data().js, isHot)
    modifies s, s.ubi.Repr
    ensures Consistent(s) && D.Settled(s.g, s.Data()) && D.SameReads(old(s.Data()), s.Data())
    ensures HasRoom(s.g, s.Data().js, isHot) && OtherKept(s.g, old(s.Data()), s.Data(), isHot)
    ensures JustCommitted(s) && Renewed(s.g, s.Data().js, Off(s.g, isHot))
  {
    hide Ready, Ftl.Data, D.Inv, D.Settled, D.SameReads, HasRoom, JustCommitted, Renewed, Outcome;
    ghost var vs := Reclaim(s, isHot);
    CommitData(s);
  }

  lemma RoomKept(g: Geometry, v: D.View, w: D.View, isHot: bool)
    requires OtherKept(g, v, w, isHot) && HasRoom(g, v.js, !isHot)
    ensures HasRoom(g, w.js, !isHot)
  {
    var k: nat :| Off(g, !isHot) <= k < Off(g, !isHot) + g.J && v.js[k].page < g.M;
    assert w.js[k].page < g.M;
  }

  lemma StillRoom(g: Geometry, v: D.View, w: D.View, addr: nat, buffer: Option<PageData>, isHot: bool, edition: nat)
    requires |v.js| == 3 * g.J && D.Inv(g, v) && D.Settled(g, v)
    requires HasRoom(g, v.js, isHot) && (buffer.Some? ==> RoomForTwo(g, v.js, isHot))
    requires if buffer.Some? then SomewhereWritten(g, v, w, isHot, addr, buffer.value, edition) else L.Dropped(v, w, addr)
    ensures |w.js| == 3 * g.J && HasRoom(g, w.js, isHot)
  {
    hide D.Inv, D.Settled, D.Appendable, D.Written, D.Updated, RoomForTwo, HasRoom;
    if buffer.Some? {
      var j: nat :| WrittenOn(g, v, w, isHot, j, addr, buffer.value, edition);
      D.WrittenOutcome(g, v, Off(g, isHot) + j, addr, edition, buffer.value);
      RoomForOne(g, v.js, w.js, isHot, Off(g, isHot) + j);
    }
  }

  /** A page for a set that has no room for two fills it. */
  lemma LastFills(g: Geometry, v: D.View, w: D.View, addr: nat, data: PageData, isHot: bool, edition: nat)
    requires |v.js| == 3 * g.J && D.Inv(g, v) && D.Settled(g, v) && !RoomForTwo(g, v.js, isHot)
    requires SomewhereWritten(g, v, w, isHot, addr, data, edition)
    ensures |w.js| == 3 * g.J && !HasRoom(g, w.js, isHot)
  {
    hide D.Inv, D.Settled, D.Written, D.Updated;
    var j: nat :| WrittenOn(g, v, w, isHot, j, addr, data, edition);
    D.WrittenOutcome(g, v, Off(g, isHot) + j, addr, edition, data);
    if HasRoom(g, w.js, isHot) {
      RoomForBoth(g, v.js, w.js, isHot, Off(g, isHot) + j);
    }
  }

  lemma RoomForBoth(g: Geometry, js: seq<Loc>, ks: seq<Loc>, isHot: bool, j: nat)
    requires |js| == |ks| == 3 * g.J && HasRoom(g, ks, isHot) && Off(g, isHot) <= j < Off(g, isHot) + g.J && js[j].page < g.M
    requires forall i :: 0 <= i < |js| ==> ks[i].page == if i == j then js[j].page + 1 else js[i].page
    ensures RoomForTwo(g, js, isHot)
  {
    var k: nat :| Off(g, isHot) <= k < Off(g, isHot) + g.J && ks[k].page < g.M;
    assert js[j].page < g.M && js[k].page < g.M;
  }

  lemma RoomForOne(g: Geometry, js: seq<Loc>, ks: seq<Loc>, isHot: bool, j: nat)
    requires |js| == |ks| == 3 * g.J && RoomForTwo(g, js, isHot)
    requires forall i :: 0 <= i < |js| ==> ks[i].page == js[i].page || (i == j && ks[i].page == js[i].page + 1)
    ensures HasRoom(g, ks, isHot)
  {
    var i: nat, k: nat {:trigger js[i], js[k]} :|
      && Off(g, isHot) <= i < Off(g, isHot) + g.J && Off(g, isHot) <= k < Off(g, isHot) + g.J
      && if i == k then js[k].page + 1 < g.M else js[i].page < g.M && js[k].page < g.M;
    assert ks[i].page < g.M || ks[k].page < g.M;
  }

  /** FTL_Write; a missing buffer trims the page.  Whatever the hot-data heuristic answers,
      exactly one logical page changes.  `w` is the data region as DATA_Write leaves it.  It stays
      so unless the set of journals is full; then, in particular when the set had room for this
      one page only, the set is renewed and everything committed.  DATA_Write itself commits what
      was there before if the address's cluster does not fit in the cache.  The list of the
      page-map block being filled matters only if there is a commit. */
  method FtlWrite(s: Ftl, addr: nat, buffer: Option<PageData>, isHot: bool) returns (ghost w: D.View)
    requires Mounted(s) && addr < s.g.cap
    requires s.listKept || (Roomy(s, PageMap.ClusterIndex(s.g, addr)) && (buffer.Some? ==> RoomForTwo(s.g, s.Data().js, isHot)))
    modifies s, s.ubi.Repr
    ensures buffer.Some? && old(s.ubi.polls) == 0 ==>
              PushedOn(s.g, old(s.Data()), w, isHot, addr, buffer.value, old(Edition(s, isHot)))
    ensures buffer.Some? ==> SomewhereWritten(s.g, old(s.Data()), w, isHot, addr, buffer.value, old(Edition(s, isHot)))
    ensures buffer.None? ==> L.Dropped(old(s.Data()), w, addr)
    ensures |w.js| == 3 * s.g.J && OtherKept(s.g, old(s.Data()), w, isHot)
    ensures if HasRoom(s.g, w.js, isHot) then s.Data() == w
            else JustCommitted(s) && OtherKept(s.g, w, s.Data(), isHot) && Renewed(s.g, s.Data().js, Off(s.g, isHot))
    ensures buffer.Some? && !old(RoomForTwo(s.g, s.Data().js, isHot)) ==> !HasRoom(s.g, w.js, isHot)
    ensures HasRoom(s.g, w.js, isHot) ==>
              && InCache(s, PageMap.ClusterIndex(s.g, addr))
              && if old(Roomy(s, PageMap.ClusterIndex(s.g, addr))) then
                   Calm(s, PageMap.ClusterIndex(s.g, addr), if buffer.Some? && isHot then 1 else 0, if buffer.Some? && !isHot then 1 else 0)
                 else Saved(s, old(s.Data()))
    ensures Mounted(s) && (s.listKept ==> Valid(s))
    ensures s.Pages() == old(s.Pages())[addr := if buffer.Some? then buffer.value else ZeroPage(s.g)]
  {
    hide Ready, Ftl.Data, D.Inv, D.Updated, D.Settled, D.SameReads, HasRoom, OtherKept, PushedOn, L.Dropped, Roomy, RoomForTwo, SomewhereWritten, JustCommitted, OnRecord, Renewed, Calm, InCache;
    ghost var v, edition := s.Data(), Edition(s, isHot);
    DataWrite(s, addr, buffer, isHot);
    w := s.Data();
    RoomKept(s.g, v, w, isHot);
    if buffer.Some? && !old(RoomForTwo(s.g, s.Data().js, isHot)) {
      LastFills(s.g, v, w, addr, buffer.value, isHot, edition);
    }
    if !s.listKept {
      StillRoom(s.g, v, w, addr, buffer, isHot, edition);
    }
    var full := IsFull(s, isHot);
    if full {
      Renew(s, isHot);
      RoomKept(s.g, w, s.Data(), isHot);
      D.UpdatedThenSame(v, w, s.Data(), addr, buffer);
    }
    D.UpdatedPages(v, s.Data(), addr, buffer, ZeroPage(s.g));
  }

  /** FTL_Read.  If the address's cluster is not cached and the cache is full, everything has been
      committed. */
  method FtlRead(s: Ftl, addr: nat) returns (page: PageData)
    requires Mounted(s) && addr < s.g.cap && (s.listKept || Roomy(s, PageMap.ClusterIndex(s.g, addr)))
    modifies s, s.ubi.Repr
    ensures Mounted(s) && (s.listKept ==> Valid(s)) && s.Pages() == old(s.Pages())
    ensures if old(Roomy(s, PageMap.ClusterIndex(s.g, addr))) then Calm(s, PageMap.ClusterIndex(s.g, addr), 0, 0) else Saved(s, s.Data())
    ensures s.Data() == old(s.Data()) && |s.Pages()| == s.g.cap && page == s.Pages()[addr]
  {
    hide Ready, Ftl.Data, D.Settled, HasRoom, D.Inv, Roomy, D.DataAt, OnRecord;
    ghost var v := s.Data();
    var e := SearchMap(s, addr);
    if e.At? {
      EntryRead(s.g, v, addr);
      var cell := ReadData(s, e.loc.block, e.loc.page);
      page := cell.content.data;
    } else {
      page := ZeroPage(s.g);
    }
  }

  /** A mapped address has its page. */
  lemma EntryRead(g: Geometry, v: D.View, a: nat)
    requires D.Inv(g, v) && a < g.cap && a < |v.pm| && v.pm[a].At?
    ensures var l := v.pm[a].loc;
            && InData(g, l.block) && l.page < g.P && l.block < |v.blk| && l.page < |v.blk[l.block]|
            && v.blk[l.block][l.page].Programmed? && v.blk[l.block][l.page].content.UserPage?
            && v.blk[l.block][l.page].content.data == D.DataAt(v.blk, l)
  {
    hide D.UserPagesOk, D.ListsOk, D.RowsOk, D.CountsOk, D.JournalsOk;
    assert D.EntryOk(g, v, a);
  }

  lemma PagesSize(s: Ftl)
    requires Valid(s)
    ensures |s.Pages()| == s.g.cap
  {
    hide Ready, D.Settled, HasRoom;
  }

  /** FTL_Trim: the pages from start to end, both included. */
  method FtlTrim(s: Ftl, start: nat, end: nat, hot: nat -> bool)
    requires Valid(s) && end < s.g.cap
    modifies s, s.ubi.Repr
    ensures Valid(s) && |s.Pages()| == |old(s.Pages())|
    ensures forall a :: 0 <= a < |s.Pages()| ==>
              s.Pages()[a] == if start <= a <= end then ZeroPage(s.g) else old(s.Pages())[a]
  {
    hide Mounted, Ftl.Pages;
    PagesSize(s);
    var addr := start;
    while addr <= end
      invariant Valid(s) && start <= addr && (addr <= end + 1 || addr == start)
      invariant |s.Pages()| == |old(s.Pages())| == s.g.cap
      invariant forall a :: 0 <= a < |s.Pages()| ==>
                  s.Pages()[a] == if start <= a < addr then ZeroPage(s.g) else old(s.Pages())[a]
    {
      ghost var w := FtlWrite(s, addr, None, hot(addr));
      addr := addr + 1;
    }
  }

  /** FTL_Flush: the volume is unchanged; what a mount needs is on flash, with the root, the dirty
      table and the page map those in RAM, and no node of it a RAM pointer.  Every die is idle. */
  method FtlFlush(s: Ftl)
    requires Valid(s)
    modifies s, s.ubi.Repr
    ensures Valid(s) && s.Pages() == old(s.Pages())
    ensures s.Data() == old(s.Data()) && JustCommitted(s) && s.ubi.polls == 0
  {
    hide Ready, Ftl.Data, D.Inv, D.Settled, HasRoom, Logs.Stored, StoredMap;
    CommitData(s);
    FlushDies(s);
  }
}
