/** DATA_Replay: the pages written since the last commit are found on the journals again. */
module Replay {
  import opened Geometry
  import opened Flash
  import opened ReplaySpec
  import opened Lanes
  import opened ReplayData
  import D = DataSpec
  import PmtSpec
  import PageMap
  import opened FtlState
  import opened Logs
  import opened Commit
  import opened Data
  import opened DataReclaim

  /** The tables in RAM are those of view v; the flash may be ahead of them. */
  ghost predicate Tracks(d: D.View, v: D.View) {
    d.js == v.js && d.pm == v.pm && d.dirty == v.dirty
  }

  /** The blocks of the journals from entry o on. */
  ghost function FlashOf(g: Geometry, d: D.View, o: nat): (fs: seq<Block>)
    ensures |fs| == g.J
    ensures forall j :: 0 <= j < g.J ==> fs[j] == BlockAt(d, o + j)
  {
    seq(g.J, j requires 0 <= j => BlockAt(d, o + j))
  }

  ghost function BlockAt(d: D.View, k: nat): Block {
    if k < |d.js| && d.js[k].block < |d.blk| then d.blk[d.js[k].block] else []
  }

  /** The journals' places. */
  ghost function Places(g: Geometry, js: seq<Loc>, o: nat): (r: seq<Loc>)
    ensures |r| == g.J
    ensures forall j :: 0 <= j < g.J ==> r[j] == if o + j < |js| then js[o + j] else Loc(0, 0)
  {
    seq(g.J, j requires 0 <= j => if o + j < |js| then js[o + j] else Loc(0, 0))
  }

  ghost predicate InRegion(g: Geometry, js: seq<Loc>) {
    |js| == 3 * g.J && forall k :: 0 <= k < 3 * g.J ==> InData(g, js[k].block) && js[k].page <= g.M
  }

  /** No commit: outside the data region the flash is as it was, and so is the other edition. */
  twostate predicate Spared(s: Ftl, isHot: bool)
    reads s, s.ubi
  {
    s.listed == old(s.listed) && BelowKept(s.g, old(s.ubi.blk), s.ubi.blk) && Edition(s, !isHot) == old(Edition(s, !isHot))
  }

  method SetEdition(s: Ftl, isHot: bool, e: nat)
    requires Ready(s) && Arrays(s)
    modifies s`hotEdition, s`coldEdition
    ensures Ready(s) && Arrays(s) && s.Data() == old(s.Data()) && s.root == old(s.root) && Edition(s, isHot) == e && Spared(s, isHot)
  {
    StartEditions(s, isHot, e);
  }

  /** The page at the cursor of journal j. */
  method PageAtCursor(s: Ftl, isHot: bool, j: nat, ghost d: D.View) returns (c: Cell)
    requires Ready(s) && Arrays(s) && d == s.Data() && InRegion(s.g, d.js) && j < s.g.J
    modifies s.ubi.Repr
    ensures Ready(s) && Arrays(s) && s.Data() == d && s.root == old(s.root) && Edition(s, isHot) == old(Edition(s, isHot)) && Spared(s, isHot)
    ensures var o := Off(s.g, isHot);
            var l, b := Places(s.g, d.js, o)[j], FlashOf(s.g, d, o)[j];
            l.page < |b| && c == b[l.page]
  {
    hide Ready, DataBlocks, DataDirty, PageMap.MapOf, Places, FlashOf;
    var l := JournalOf(s, isHot, j);
    c := ReadData(s, l.block, l.page);
  }

  /** One pass over the journals. */
  method ScanPass(s: Ftl, isHot: bool, e: nat, ghost d: D.View) returns (f: Found)
    requires Ready(s) && Arrays(s) && d == s.Data() && InRegion(s.g, d.js)
    modifies s, s.ubi.Repr
    ensures Ready(s) && Arrays(s) && s.Data() == d && s.root == old(s.root) && Spared(s, isHot)
    ensures f == Scan(Places(s.g, d.js, Off(s.g, isHot)), FlashOf(s.g, d, Off(s.g, isHot)), e, 0)
    ensures Edition(s, isHot) == CounterAfter(Places(s.g, d.js, Off(s.g, isHot)), FlashOf(s.g, d, Off(s.g, isHot)), e, old(Edition(s, isHot)), 0)
  {
    hide Ready, DataBlocks, DataDirty, PageMap.MapOf, Places, FlashOf;
    ghost var o := Off(s.g, isHot);
    ghost var at, fs := Places(s.g, d.js, o), FlashOf(s.g, d, o);
    var edition, j := e, 0;
    while j < s.g.J
      invariant j <= s.g.J && Ready(s) && Arrays(s) && s.Data() == d && s.root == old(s.root) && Spared(s, isHot)
      invariant Scan(at, fs, e, 0) == Scan(at, fs, edition, j)
      invariant CounterAfter(at, fs, e, old(Edition(s, isHot)), 0) == CounterAfter(at, fs, edition, Edition(s, isHot), j)
    {
      var c := PageAtCursor(s, isHot, j, d);
      if c.Programmed? {
        if EditionOf(c.spare) == edition {
          return Match(j, AddrOf(c.spare));
        }
      } else {
        SetEdition(s, isHot, edition);
        edition := MAX_UINT32;
      }
      j := j + 1;
    }
    f := if edition == MAX_UINT32 then Ended else Unmatched;
  }

  // ---------------------------------------------------------------- replaying the pages

  /** What is on the journals' blocks: the lanes of v0 with the pages of ws, the last list
      missing if `torn`, and the lanes whose lists are there first. */
  ghost predicate Pending(g: Geometry, v0: D.View, o: nat, ws: seq<PageWrite>, torn: bool, fs: seq<Block>) {
    && Offset(g, o) && D.Inv(g, v0) && D.Settled(g, v0)
    && LanesOk(g.M, LanesOf(g, v0, o)) && AllTidy(g.M, LanesOf(g, v0, o)) && ListedFirst(g.M, LanesOf(g, v0, o), ws, torn)
    && RoomFor(g.M, LanesOf(g, v0, o), ws) && |ws| < MAX_UINT32 && Addressed(g, ws)
    && HeldBy(g.M, LanesOf(g, v0, o), ws, torn, fs)
  }

  lemma PlacesAre(g: Geometry, v: D.View, o: nat)
    requires D.Inv(g, v) && Offset(g, o)
    ensures InRegion(g, v.js) && Cursors(LanesOf(g, v, o)) == Places(g, v.js, o)
  {
    hide D.UserPagesOk, D.ListsOk, D.RowsOk, D.MapOk, D.CountsOk;
    forall k: nat | k < 3 * g.J
      ensures InData(g, v.js[k].block) && v.js[k].page <= g.M
    {
      assert D.JournalOk(g, v, k);
    }
    forall j: nat | j < g.J
      ensures Cursors(LanesOf(g, v, o))[j] == Places(g, v.js, o)[j]
    {
      assert LanesOf(g, v, o)[j] == LaneAt(v, o + j);
    }
  }

  /** The edition counter a replay leaves. */
  ghost function CounterLeft(g: Geometry, v0: D.View, o: nat, ws: seq<PageWrite>, torn: bool): nat {
    if LanesOk(g.M, LanesOf(g, v0, o)) && OneOpen(g.M, LanesOf(g, v0, o), ws, torn) then |ws| else MAX_UINT32
  }

  /** The last pass leaves it. */
  lemma PassLeaves(g: Geometry, v0: D.View, v: D.View, o: nat, ws: seq<PageWrite>, torn: bool, fs: seq<Block>, now: nat)
    requires Pending(g, v0, o, ws, torn, fs) && Replayed(g, v0, v, o, ws, |ws|)
    ensures CounterAfter(Places(g, v.js, o), fs, |ws|, now, 0) == CounterLeft(g, v0, o, ws, torn)
  {
    hide D.Inv, AllTidy, ListedFirst, HeldBy, Open, CounterAfter, D.Settled, LanesOf, Cursors, Places, LanesOk, PushAll, OneOpen;
    PlacesAre(g, v, o);
    assert Open(g.M, PushAll(g.M, LanesOf(g, v0, o), ws, |ws|)) < |LanesOf(g, v0, o)|;
    CounterRestored(g.M, LanesOf(g, v0, o), ws, torn, fs, now);
  }

  /** What one pass finds after i pages. */
  lemma PassFinds(g: Geometry, v0: D.View, v: D.View, o: nat, ws: seq<PageWrite>, i: nat, torn: bool, fs: seq<Block>)
    requires Pending(g, v0, o, ws, torn, fs) && Replayed(g, v0, v, o, ws, i)
    ensures InRegion(g, v.js)
    ensures Scan(Places(g, v.js, o), fs, i, 0)
         == if i < |ws| then Match(Open(g.M, LanesOf(g, v, o)), ws[i].addr) else Ended
  {
    hide D.Inv, AllTidy, ListedFirst, HeldBy, Open, Scan, D.Settled, LanesOf, Cursors, Places, LanesOk, PushAll;
    PlacesAre(g, v, o);
    assert Open(g.M, PushAll(g.M, LanesOf(g, v0, o), ws, i)) < |LanesOf(g, v0, o)|;
    if i < |ws| {
      ScanFinds(g.M, LanesOf(g, v0, o), ws, torn, fs, i);
    } else {
      ReplayEndsExactly(g.M, LanesOf(g, v0, o), ws, torn, fs);
    }
  }

  /** The pages belong to the clusters T. */
  ghost predicate Within(g: Geometry, T: set<nat>, ws: seq<PageWrite>) {
    forall i :: 0 <= i < |ws| ==> Among(g, T, ws[i].addr)
  }

  /** One page is remapped and the journal's cursor moves past it.  No commit is needed while the
      cache has room for every cluster of T. */
  method ReplayOne(s: Ftl, isHot: bool, j: nat, addr: nat, ghost v: D.View, ghost x: D.View, ghost T: set<nat>)
    requires Ready(s) && Arrays(s) && Tracks(s.Data(), v) && j < s.g.J
    requires NextReplayed(s.g, v, x, Off(s.g, isHot) + j, addr) && |v.pm| == s.g.cap
    requires s.listKept || (CachedIn(s, T) && Among(s.g, T, addr))
    modifies s, s.ubi.Repr
    ensures old(CachedIn(s, T)) && Among(s.g, T, addr) ==> CachedIn(s, T) && Spared(s, isHot)
    ensures Ready(s) && Arrays(s) && Tracks(s.Data(), x)
    ensures s.Data().blk == old(s.Data().blk) && s.Data().metas == old(s.Data().metas)
  {
    hide Ready, Ftl.Data, Ftl.Map, PageMap.ClusterIndex, Roomy, Saved, InCache;
    var l := JournalOf(s, isHot, j);
    ghost var c := PageMap.ClusterIndex(s.g, addr);
    if CachedIn(s, T) && Among(s.g, T, addr) {
      RoomInCache(s, T, c);
    }
    Remap(s, isHot, j, l, addr);
  }

  /** One turn of the first loop of DATA_Replay: a pass over the journals, and the page it finds. */
  method ReplayPass(s: Ftl, isHot: bool, edition: nat, ghost v0: D.View, ghost v: D.View, ghost ws: seq<PageWrite>, ghost torn: bool,
                    ghost T: set<nat>) returns (f: Found, ghost x: D.View)
    requires Ready(s) && Arrays(s) && Tracks(s.Data(), v) && edition <= |ws|
    requires Pending(s.g, v0, Off(s.g, isHot), ws, torn, FlashOf(s.g, s.Data(), Off(s.g, isHot)))
    requires Replayed(s.g, v0, v, Off(s.g, isHot), ws, edition)
    requires s.listKept || (CachedIn(s, T) && Within(s.g, T, ws))
    modifies s, s.ubi.Repr
    ensures Ready(s) && Arrays(s) && Tracks(s.Data(), x)
    ensures s.Data().blk == old(s.Data().blk) && s.Data().metas == old(s.Data().metas)
    ensures if edition < |ws| then f.Match? && Replayed(s.g, v0, x, Off(s.g, isHot), ws, edition + 1)
            else f.Ended? && x == v && Edition(s, isHot) == CounterLeft(s.g, v0, Off(s.g, isHot), ws, torn)
    ensures old(CachedIn(s, T)) && Within(s.g, T, ws) ==> CachedIn(s, T) && Spared(s, isHot)
  {
    hide Ready, Ftl.Data, Pending, Replayed, NextReplayed, Open, Among, FlashOf, Places, Scan, CounterAfter, CounterLeft;
    ghost var d, o := s.Data(), Off(s.g, isHot);
    PassFinds(s.g, v0, v, o, ws, edition, torn, FlashOf(s.g, d, o));
    assert d.js == v.js;
    if edition == |ws| {
      PassLeaves(s.g, v0, v, o, ws, torn, FlashOf(s.g, d, o), Edition(s, isHot));
    }
    f := ScanPass(s, isHot, edition, d);
    x := v;
    assert old(CachedIn(s, T)) ==> CachedIn(s, T) && Spared(s, isHot);
    hide CachedIn;
    if f.Match? {
      x := PendingStep(s.g, v0, v, o, ws, edition, torn, FlashOf(s.g, d, o));
      ReplayOne(s, isHot, f.lane, f.addr, v, x, T);
    }
  }

  /** The first loop of DATA_Replay. */
  method ReplayPages(s: Ftl, isHot: bool, ghost v0: D.View, ghost ws: seq<PageWrite>, ghost torn: bool, ghost T: set<nat>)
    returns (ghost v: D.View)
    requires Ready(s) && Arrays(s) && Tracks(s.Data(), v0)
    requires Pending(s.g, v0, Off(s.g, isHot), ws, torn, FlashOf(s.g, s.Data(), Off(s.g, isHot)))
    requires s.listKept || (CachedIn(s, T) && Within(s.g, T, ws))
    modifies s, s.ubi.Repr
    ensures old(CachedIn(s, T)) && Within(s.g, T, ws) ==> CachedIn(s, T) && Spared(s, isHot)
    ensures Ready(s) && Arrays(s) && Tracks(s.Data(), v)
    ensures s.Data().blk == old(s.Data().blk) && s.Data().metas == old(s.Data().metas)
    ensures Replayed(s.g, v0, v, Off(s.g, isHot), ws, |ws|) && Edition(s, isHot) == CounterLeft(s.g, v0, Off(s.g, isHot), ws, torn)
  {
    hide Ready, Ftl.Data, Pending, Replayed, CachedIn, Within, FlashOf, Tracks, CounterLeft;
    ghost var o, few := Off(s.g, isHot), CachedIn(s, T) && Within(s.g, T, ws);
    PendingBegins(s.g, v0, o, ws, torn, FlashOf(s.g, s.Data(), o));
    v := v0;
    ghost var i := 0;
    var edition := 0;
    while edition != MAX_UINT32
      invariant Ready(s) && Arrays(s) && Tracks(s.Data(), v)
      invariant s.Data().blk == old(s.Data().blk) && s.Data().metas == old(s.Data().metas)
      invariant i <= |ws| < MAX_UINT32 && Replayed(s.g, v0, v, o, ws, i)
      invariant edition == i || (edition == MAX_UINT32 && i == |ws| && Edition(s, isHot) == CounterLeft(s.g, v0, o, ws, torn))
      invariant few ==> CachedIn(s, T) && Spared(s, isHot)
      decreases |ws| - i, edition != MAX_UINT32
    {
      SameFlash(s.g, v0, v, o, ws, i, torn, old(s.Data()), s.Data());
      var f;
      f, v := ReplayPass(s, isHot, edition, v0, v, ws, torn, T);
      if f.Match? {
        i, edition := i + 1, edition + 1;
      } else if f.Ended? {
        edition := MAX_UINT32;
      }
    }
  }

  lemma PendingBegins(g: Geometry, v0: D.View, o: nat, ws: seq<PageWrite>, torn: bool, fs: seq<Block>)
    requires Pending(g, v0, o, ws, torn, fs)
    ensures Replayed(g, v0, v0, o, ws, 0) && |ws| < MAX_UINT32
  {
    hide D.Inv, AllTidy, ListedFirst, HeldBy, D.Settled, LanesOf, LanesOk, Replayed;
    ReplayBegins(g, v0, o, ws);
  }

  lemma PendingStep(g: Geometry, v0: D.View, v: D.View, o: nat, ws: seq<PageWrite>, i: nat, torn: bool, fs: seq<Block>) returns (x: D.View)
    requires Pending(g, v0, o, ws, torn, fs) && Replayed(g, v0, v, o, ws, i) && i < |ws|
    ensures Replayed(g, v0, x, o, ws, i + 1) && |v.pm| == g.cap
    ensures NextReplayed(g, v, x, o + Open(g.M, LanesOf(g, v, o)), ws[i].addr)
    ensures Open(g.M, LanesOf(g, v, o)) < g.J
  {
    hide AllTidy, ListedFirst, HeldBy, D.Settled, LanesOf, LanesOk, Replayed, NextReplayed, Open;
    x := ReplayStep(g, v0, v, o, ws, i);
    PendingRoom(g, v0, v, o, ws, i);
  }

  lemma PendingRoom(g: Geometry, v0: D.View, v: D.View, o: nat, ws: seq<PageWrite>, i: nat)
    requires Replayed(g, v0, v, o, ws, i) && Offset(g, o) && D.Inv(g, v0) && RoomFor(g.M, LanesOf(g, v0, o), ws)
    ensures Open(g.M, LanesOf(g, v, o)) < g.J && |v.pm| == g.cap
  {
    hide Open, LanesOf, LanesOk, D.JournalsOk, D.UserPagesOk, D.ListsOk, D.RowsOk, D.MapOk, D.CountsOk;
    assert Open(g.M, PushAll(g.M, LanesOf(g, v0, o), ws, i)) < |LanesOf(g, v0, o)|;
  }

  /** Replaying moves no journal to another block. */
  lemma SameFlash(g: Geometry, v0: D.View, v: D.View, o: nat, ws: seq<PageWrite>, i: nat, torn: bool, d0: D.View, d: D.View)
    requires Replayed(g, v0, v, o, ws, i) && Tracks(d0, v0) && Tracks(d, v) && d.blk == d0.blk
    ensures FlashOf(g, d, o) == FlashOf(g, d0, o)
  {
    hide D.Inv, D.Settled, LanesOk, LanesOf, Overridden, PushAll;
    forall k: nat | o <= k < o + g.J
      ensures BlockAt(d, k) == BlockAt(d0, k)
    {
      assert k < 3 * g.J ==> v.js[k].block == v0.js[k].block;
    }
  }

  // ---------------------------------------------------------------- rebuilding the RAM lists

  /** The block of journal k is that of the view, but its list may be missing. */
  ghost predicate Matches(g: Geometry, v: D.View, d: D.View, k: nat, torn: bool) {
    && k < |v.js| && v.js[k].block < |v.blk| && v.js[k].block < |d.blk|
    && |v.blk[v.js[k].block]| == g.P && v.js[k].page <= g.M
    && (torn ==> v.js[k].page == g.M)
    && d.blk[v.js[k].block] == if torn then v.blk[v.js[k].block][g.M := Erased] else v.blk[v.js[k].block]
  }

  /** How many pages of the block can be read. */
  function Readable(g: Geometry, l: Loc, torn: bool): nat {
    if l.page < g.M then l.page else if torn then g.M else g.P
  }

  lemma ReadableFilled(g: Geometry, v: D.View, d: D.View, k: nat, torn: bool)
    requires D.Inv(g, v) && D.Settled(g, v) && k < 2 * g.J && Matches(g, v, d, k, torn)
    ensures InData(g, v.js[k].block) && Filled(d.blk[v.js[k].block], Readable(g, v.js[k], torn))
  {
    hide D.UserPagesOk, D.ListsOk, D.RowsOk, D.MapOk, D.CountsOk;
    assert D.JournalOk(g, v, k);
  }

  /** The spare words of the first n pages. */
  ghost predicate RowReads(row: seq<Spare>, b: Block, n: nat) {
    n <= |row| && n <= |b| && forall p :: 0 <= p < n ==> b[p].Programmed? && row[p] == b[p].spare
  }

  /** The pages of a journal block are read until one is erased, and their spare words noted. */
  method ReadRow(s: Ftl, isHot: bool, j: nat, ghost d: D.View, ghost n: nat) returns (page: nat)
    requires Ready(s) && Arrays(s) && d == s.Data() && j < s.g.J
    requires var k := Off(s.g, isHot) + j;
             && k < |d.js| && k < |d.metas| && |d.metas[k]| == s.g.P && InData(s.g, d.js[k].block)
             && d.js[k].block < |d.blk| && |d.blk[d.js[k].block]| == s.g.P && Filled(d.blk[d.js[k].block], n)
    modifies s, s.ubi.Repr
    ensures Ready(s) && Arrays(s) && page == n && s.root == old(s.root) && Edition(s, isHot) == old(Edition(s, isHot)) && Spared(s, isHot)
    ensures var k := Off(s.g, isHot) + j;
            && k < |d.metas| && k < |s.Data().metas| && k < |d.js| && d.js[k].block < |d.blk|
            && s.Data() == d.(metas := d.metas[k := s.Data().metas[k]])
            && |s.Data().metas[k]| == s.g.P && RowReads(s.Data().metas[k], d.blk[d.js[k].block], n)
  {
    hide Ready, DataBlocks, DataDirty, PageMap.MapOf;
    ghost var k := Off(s.g, isHot) + j;
    var l := JournalOf(s, isHot, j);
    page := 0;
    while page < s.g.P
      invariant Ready(s) && Arrays(s) && page <= n && s.root == old(s.root) && Edition(s, isHot) == old(Edition(s, isHot)) && Spared(s, isHot)
      invariant k < |s.Data().metas| && |s.Data().metas[k]| == s.g.P
      invariant s.Data() == d.(metas := d.metas[k := s.Data().metas[k]])
      invariant RowReads(s.Data().metas[k], d.blk[l.block], page)
    {
      var c := ReadData(s, l.block, page);
      if c.Erased? {
        break;
      }
      SetSpare(s, isHot, j, page, c.spare);
      page := page + 1;
    }
  }

  /** The list of journal j is read back; if all pages but the last can be read, it is written. */
  method BuildRow(s: Ftl, isHot: bool, j: nat, ghost v: D.View, ghost torn: bool, ghost d: D.View) returns (ghost w: D.View)
    requires Ready(s) && Arrays(s) && d == s.Data() && j < s.g.J && Tracks(d, v)
    requires D.Inv(s.g, v) && D.Settled(s.g, v) && Matches(s.g, v, d, Off(s.g, isHot) + j, torn)
    requires |d.metas| == 2 * s.g.J && |d.metas[Off(s.g, isHot) + j]| == s.g.P
    modifies s, s.ubi.Repr
    ensures Ready(s) && Arrays(s) && IsRebuilt(s.g, v, w, d, s.Data(), Off(s.g, isHot) + j, torn) && s.root == old(s.root)
    ensures Edition(s, isHot) == old(Edition(s, isHot)) && Spared(s, isHot) && (!torn ==> s.Data().blk == d.blk)
  {
    hide Ready, Ftl.Data, D.Inv, D.Settled, Matches;
    ghost var k := Off(s.g, isHot) + j;
    ReadableFilled(s.g, v, d, k, torn);
    MatchShape(s.g, v, d, k, torn);
    var page := ReadRow(s, isHot, j, d, Readable(s.g, v.js[k], torn));
    ghost var row := s.Data().metas[k];
    w := Rebuild(s.g, v, d, k, row, torn);
    if page == s.g.P - 1 {
      var l := JournalOf(s, isHot, j);
      CloseJournal(s, isHot, j, l);
    }
    assert page == s.g.P - 1 <==> torn by { MatchTorn(s.g, v, d, k, torn); }
    RebuiltIs(s.g, v, w, d, s.Data(), k, row, torn);
  }

  lemma MatchTorn(g: Geometry, v: D.View, d: D.View, k: nat, torn: bool)
    requires Matches(g, v, d, k, torn)
    ensures Readable(g, v.js[k], torn) == g.M <==> torn
  {
  }

  lemma RebuiltIs(g: Geometry, v: D.View, w: D.View, d: D.View, e: D.View, k: nat, row: seq<Spare>, torn: bool)
    requires D.Inv(g, v) && D.Settled(g, v) && k < 2 * g.J && Matches(g, v, d, k, torn) && Tracks(d, v)
    requires |row| == g.P && RowReads(row, d.blk[v.js[k].block], Readable(g, v.js[k], torn))
    requires w == Rebuild(g, v, d, k, row, torn) && |d.metas| == 2 * g.J
    requires v.js[k].block < |d.blk| && g.M < |d.blk[v.js[k].block]|
    requires e == d.(metas := d.metas[k := row],
                     blk := if torn then Program(d.blk, v.js[k].block, g.M, Programmed(DataList(row), AllOnes)) else d.blk)
    ensures IsRebuilt(g, v, w, d, e, k, torn)
  {
    hide D.JournalsOk, D.UserPagesOk, D.ListsOk, D.RowsOk, D.MapOk, D.CountsOk, D.Settled, Rebuild, Readable, RowReads, OnlyList;
  }

  lemma MatchShape(g: Geometry, v: D.View, d: D.View, k: nat, torn: bool)
    requires Matches(g, v, d, k, torn) && Tracks(d, v)
    ensures k < |d.js| && d.js[k].block < |d.blk| && |d.blk[d.js[k].block]| == g.P
  {
  }

  /** Journal k is as in the new view w, and nothing else has changed. */
  ghost predicate IsRebuilt(g: Geometry, v: D.View, w: D.View, d: D.View, e: D.View, k: nat, torn: bool) {
    && D.Inv(g, w) && D.Settled(g, w) && Tracks(e, w) && v.js == w.js && v.pm == w.pm && v.dirty == w.dirty
    && k < |v.js| && k < |v.metas| && k < |d.metas| && v.js[k].block < |v.blk| && v.js[k].block < |d.blk|
    && |w.metas| == |v.metas| && |w.blk| == |v.blk| && |e.metas| == |d.metas| && |e.blk| == |d.blk|
    && w.metas == v.metas[k := w.metas[k]] && w.blk == v.blk[v.js[k].block := w.blk[v.js[k].block]]
    && e.metas == d.metas[k := w.metas[k]] && |w.metas[k]| == g.P
    && e.blk == d.blk[v.js[k].block := w.blk[v.js[k].block]]
    && OnlyList(g, v.blk[v.js[k].block], w.blk[v.js[k].block])
  }

  /** Only the last page differs. */
  ghost predicate OnlyList(g: Geometry, b: Block, c: Block) {
    |b| == |c| == g.P && forall p :: 0 <= p < g.M ==> c[p] == b[p]
  }

  /** The view in which the list is rebuilt. */
  ghost function Rebuild(g: Geometry, v: D.View, d: D.View, k: nat, row: seq<Spare>, torn: bool): (w: D.View)
    requires D.Inv(g, v) && D.Settled(g, v) && k < 2 * g.J && Matches(g, v, d, k, torn)
    requires |row| == g.P && RowReads(row, d.blk[v.js[k].block], Readable(g, v.js[k], torn))
    ensures D.Inv(g, w) && D.Settled(g, w) && v.js == w.js && v.pm == w.pm && v.dirty == w.dirty
    ensures k < |v.metas| && w.metas == v.metas[k := row]
    ensures w.blk == v.blk[v.js[k].block := w.blk[v.js[k].block]] && OnlyList(g, v.blk[v.js[k].block], w.blk[v.js[k].block])
    ensures w.blk[v.js[k].block] == if torn then d.blk[v.js[k].block][g.M := Programmed(DataList(row), AllOnes)] else d.blk[v.js[k].block]
  {
    RowReadsFits(g, v, d, k, row, torn);
    RebuiltKeeps(g, v, k, row, torn);
    Rebuilt(g, v, k, row, torn)
  }

  lemma RowReadsFits(g: Geometry, v: D.View, d: D.View, k: nat, row: seq<Spare>, torn: bool)
    requires Matches(g, v, d, k, torn)
    requires |row| == g.P && RowReads(row, d.blk[v.js[k].block], Readable(g, v.js[k], torn))
    ensures RowFits(g, v, k, row)
  {
    var n, b := v.js[k].page, v.js[k].block;
    assert n <= Readable(g, v.js[k], torn);
    forall p | 0 <= p < n
      ensures v.blk[b][p].Programmed? && row[p] == v.blk[b][p].spare
    {
      assert d.blk[b][p] == v.blk[b][p];
    }
  }

  ghost predicate Restored(v: D.View, d: D.View, k: nat) {
    && k < |v.js| && k < |v.metas| && k < |d.metas| && v.js[k].block < |v.blk| && v.js[k].block < |d.blk|
    && d.metas[k] == v.metas[k] && d.blk[v.js[k].block] == v.blk[v.js[k].block]
  }

  ghost predicate OnlyLists(g: Geometry, x: seq<Block>, y: seq<Block>) {
    |x| == |y| && forall b :: 0 <= b < |x| ==> x[b] == y[b] || OnlyList(g, x[b], y[b])
  }

  ghost predicate MatchesAt(g: Geometry, v: D.View, d: D.View, k: nat, t: int) {
    Matches(g, v, d, k, k == t)
  }

  /** Up to entry j the lists are rebuilt; t is the journal whose list is missing. */
  ghost predicate LanesBuilt(g: Geometry, v: D.View, d: D.View, o: nat, j: nat, t: int) {
    && (forall k: nat :: o <= k < o + j ==> Restored(v, d, k))
    && (forall k: nat :: o + j <= k < o + g.J ==> MatchesAt(g, v, d, k, t))
    && |d.metas| == 2 * g.J && (forall k :: o <= k < o + g.J && k < |d.metas| ==> |d.metas[k]| == g.P)
  }

  /** Only lists of the journals from entry o on were written. */
  ghost predicate OnlyTheirLists(g: Geometry, v: D.View, w: D.View, o: nat) {
    Elsewhere(g, v, w, o) && OnlyLists(g, v.blk, w.blk)
  }

  ghost predicate Building(g: Geometry, v0: D.View, d0: D.View, v: D.View, d: D.View, o: nat, j: nat, t: int) {
    && j <= g.J && Offset(g, o) && D.Inv(g, v) && D.Settled(g, v) && Tracks(d, v)
    && v.js == v0.js && v.pm == v0.pm && v.dirty == v0.dirty
    && OnlyTheirLists(g, v0, v, o) && OnlyTheirLists(g, d0, d, o)
    && LanesBuilt(g, v, d, o, j, t)
  }

  lemma BuildingStep(g: Geometry, v0: D.View, d0: D.View, v: D.View, d: D.View, w: D.View, e: D.View, o: nat, j: nat, t: int)
    requires Building(g, v0, d0, v, d, o, j, t) && j < g.J
    requires IsRebuilt(g, v, w, d, e, o + j, o + j == t)
    ensures Building(g, v0, d0, w, e, o, j + 1, t)
  {
    hide D.Settled, D.Inv, OnlyTheirLists, LanesBuilt, D.Distinct;
    LanesStep(g, v, d, w, e, o, j, t);
    FramesStep(g, v0, d0, v, d, w, e, o, j, t);
  }

  lemma DistinctJournals(g: Geometry, v: D.View)
    requires D.Inv(g, v)
    ensures D.Distinct(v.js) && |v.js| == 3 * g.J
  {
  }

  lemma LanesStep(g: Geometry, v: D.View, d: D.View, w: D.View, e: D.View, o: nat, j: nat, t: int)
    requires LanesBuilt(g, v, d, o, j, t) && j < g.J && D.Inv(g, v) && Tracks(d, v)
    requires IsRebuilt(g, v, w, d, e, o + j, o + j == t) && Offset(g, o)
    ensures LanesBuilt(g, w, e, o, j + 1, t)
  {
    hide D.Settled, D.Inv, Restored, Matches, OnlyList;
    DistinctJournals(g, v);
    var i := o + j;
    assert Restored(w, e, i) by { JustRestored(g, v, w, d, e, i, i == t); }
    forall k: nat | o <= k < i
      ensures Restored(w, e, k)
    {
      LaneStays(g, v, d, w, e, i, k, i == t, k == t);
    }
    forall k: nat | i + 1 <= k < o + g.J
      ensures MatchesAt(g, w, e, k, t)
    {
      assert MatchesAt(g, v, d, k, t);
      LaneStays(g, v, d, w, e, i, k, i == t, k == t);
    }
  }

  lemma JustRestored(g: Geometry, v: D.View, w: D.View, d: D.View, e: D.View, i: nat, torn: bool)
    requires IsRebuilt(g, v, w, d, e, i, torn)
    ensures Restored(w, e, i)
  {
    hide D.Settled, D.Inv, OnlyList;
  }

  lemma LaneStays(g: Geometry, v: D.View, d: D.View, w: D.View, e: D.View, i: nat, k: nat, torn: bool, missing: bool)
    requires IsRebuilt(g, v, w, d, e, i, torn) && k != i && k < |v.js| && D.Distinct(v.js)
    ensures Restored(v, d, k) ==> Restored(w, e, k)
    ensures Matches(g, v, d, k, missing) ==> Matches(g, w, e, k, missing)
  {
    hide D.Settled, D.Inv, OnlyList;
    assert v.js[k].block != v.js[i].block;
  }

  lemma FramesStep(g: Geometry, v0: D.View, d0: D.View, v: D.View, d: D.View, w: D.View, e: D.View, o: nat, j: nat, t: int)
    requires OnlyTheirLists(g, v0, v, o) && OnlyTheirLists(g, d0, d, o) && LanesBuilt(g, v, d, o, j, t)
    requires j < g.J && Offset(g, o) && Tracks(d, v) && IsRebuilt(g, v, w, d, e, o + j, o + j == t)
    ensures OnlyTheirLists(g, v0, w, o) && OnlyTheirLists(g, d0, e, o)
  {
    hide D.Settled, D.Inv, OnlyTheirLists, LanesBuilt, Matches, OnlyList, IsRebuilt;
    assert MatchesAt(g, v, d, o + j, t) by { LaneMatches(g, v, d, o, j, t); }
    TheirShape(g, v0, v, o);
    TheirShape(g, d0, d, o);
    ListWritten(g, v, d, w, e, o, o + j, o + j == t);
    ListsTrans(g, v0, v, w, o);
    ListsTrans(g, d0, d, e, o);
  }

  lemma TheirShape(g: Geometry, v: D.View, w: D.View, o: nat)
    requires OnlyTheirLists(g, v, w, o)
    ensures |w.js| == 3 * g.J && |w.metas| == 2 * g.J && |w.blk| == g.U
  {
  }

  lemma LaneMatches(g: Geometry, v: D.View, d: D.View, o: nat, j: nat, t: int)
    requires LanesBuilt(g, v, d, o, j, t) && j < g.J
    ensures MatchesAt(g, v, d, o + j, t)
  {
    hide Restored, MatchesAt;
  }

  lemma ListWritten(g: Geometry, v: D.View, d: D.View, w: D.View, e: D.View, o: nat, k: nat, torn: bool)
    requires Matches(g, v, d, k, torn) && Tracks(d, v) && IsRebuilt(g, v, w, d, e, k, torn) && o <= k < o + g.J && Offset(g, o)
    requires |v.js| == 3 * g.J && |v.metas| == |d.metas| == 2 * g.J && |v.blk| == |d.blk| == g.U
    ensures OnlyTheirLists(g, v, w, o) && OnlyTheirLists(g, d, e, o)
  {
    hide D.Settled, D.Inv;
    assert InLanes(g, v.js, o, v.js[k].block);
  }

  lemma ListsTrans(g: Geometry, v: D.View, w: D.View, x: D.View, o: nat)
    requires OnlyTheirLists(g, v, w, o) && OnlyTheirLists(g, w, x, o) && Offset(g, o)
    ensures OnlyTheirLists(g, v, x, o)
  {
    ElsewhereTrans(g, v, w, x, o);
    hide Elsewhere;
    forall b | 0 <= b < |v.blk|
      ensures v.blk[b] == x.blk[b] || OnlyList(g, v.blk[b], x.blk[b])
    {
      assert v.blk[b] == w.blk[b] || OnlyList(g, v.blk[b], w.blk[b]);
      assert w.blk[b] == x.blk[b] || OnlyList(g, w.blk[b], x.blk[b]);
    }
  }

  /** The journal whose list is missing, if there is one. */
  ghost function TornJournal(g: Geometry, v0: D.View, o: nat, ws: seq<PageWrite>, torn: bool): int {
    if torn && LanesOk(g.M, LanesOf(g, v0, o)) then o + TornLane(g.M, LanesOf(g, v0, o), ws) else -1
  }

  /** Once every page is replayed, the journals' blocks are those of the view. */
  lemma AllReplayed(g: Geometry, v0: D.View, v: D.View, d: D.View, o: nat, ws: seq<PageWrite>, torn: bool)
    requires Offset(g, o) && Replayed(g, v0, v, o, ws, |ws|) && Tracks(d, v) && |d.blk| == g.U
    requires HeldBy(g.M, LanesOf(g, v0, o), ws, torn, FlashOf(g, d, o))
    ensures forall k: nat :: o <= k < o + g.J ==> MatchesAt(g, v, d, k, TornJournal(g, v0, o, ws, torn))
  {
    hide D.UserPagesOk, D.ListsOk, D.RowsOk, D.MapOk, D.CountsOk, D.Settled, TornLane, PushAll, Overridden, Elsewhere;
    var zs, fs := LanesOf(g, v, o), FlashOf(g, d, o);
    forall k: nat | o <= k < o + g.J
      ensures MatchesAt(g, v, d, k, TornJournal(g, v0, o, ws, torn))
    {
      assert D.JournalOk(g, v, k);
      assert zs[k - o] == LaneAt(v, k) && fs[k - o] == BlockAt(d, k);
    }
  }

  /** The second loop of DATA_Replay. */
  method BuildRows(s: Ftl, isHot: bool, ghost v0: D.View, ghost d0: D.View, ghost t: int) returns (ghost v: D.View)
    requires Ready(s) && Arrays(s) && d0 == s.Data() && Building(s.g, v0, d0, v0, d0, Off(s.g, isHot), 0, t)
    modifies s, s.ubi.Repr
    ensures Ready(s) && Arrays(s) && Building(s.g, v0, d0, v, s.Data(), Off(s.g, isHot), s.g.J, t) && s.root == old(s.root)
    ensures Edition(s, isHot) == old(Edition(s, isHot)) && Spared(s, isHot) && (t < 0 ==> s.Data().blk == d0.blk)
  {
    hide Ready, Ftl.Data, Building, IsRebuilt, Tracks, Matches, D.Inv, D.Settled, Off;
    ghost var o := Off(s.g, isHot);
    v := v0;
    var j := 0;
    while j < s.g.J
      invariant j <= s.g.J && Ready(s) && Arrays(s) && Building(s.g, v0, d0, v, s.Data(), o, j, t) && s.root == old(s.root)
      invariant Edition(s, isHot) == old(Edition(s, isHot)) && Spared(s, isHot) && (t < 0 ==> s.Data().blk == d0.blk)
    {
      ghost var d := s.Data();
      BuildingParts(s.g, v0, d0, v, d, o, j, t);
      ghost var w := BuildRow(s, isHot, j, v, o + j == t, d);
      BuildingStep(s.g, v0, d0, v, d, w, s.Data(), o, j, t);
      v := w;
      j := j + 1;
    }
  }

  lemma BuildingParts(g: Geometry, v0: D.View, d0: D.View, v: D.View, d: D.View, o: nat, j: nat, t: int)
    requires Building(g, v0, d0, v, d, o, j, t) && j < g.J
    ensures D.Inv(g, v) && D.Settled(g, v) && Tracks(d, v) && Matches(g, v, d, o + j, o + j == t)
    ensures |d.metas| == 2 * g.J && |d.metas[o + j]| == g.P
  {
    hide D.Inv, D.Settled, OnlyTheirLists, Matches;
    LaneMatches(g, v, d, o, j, t);
  }

  // ---------------------------------------------------------------- DATA_Replay

  /** What one replay leaves: the view v is v0 with the pages of ws remapped in edition order,
      the journals from entry o on agree with the flash, and only their lists were written. */
  ghost predicate ReplayDone(g: Geometry, v0: D.View, d0: D.View, v: D.View, d: D.View, o: nat, ws: seq<PageWrite>) {
    && Offset(g, o) && D.Inv(g, v) && D.Settled(g, v) && Tracks(d, v)
    && LanesOk(g.M, LanesOf(g, v0, o))
    && Places(g, v.js, o) == Cursors(PushAll(g.M, LanesOf(g, v0, o), ws, |ws|))
    && v.pm == Overridden(g.M, LanesOf(g, v0, o), v0.pm, ws, |ws|)
    && Elsewhere(g, v0, v, o) && OnlyTheirLists(g, d0, d, o)
    && forall k: nat :: o <= k < o + g.J ==> Restored(v, d, k)
  }

  ghost predicate RowsSized(g: Geometry, d: D.View) {
    |d.metas| == 2 * g.J && (forall k :: 0 <= k < 2 * g.J ==> |d.metas[k]| == g.P) && |d.blk| == g.U
  }

  method DataReplay(s: Ftl, isHot: bool, ghost v0: D.View, ghost d0: D.View, ghost ws: seq<PageWrite>, ghost torn: bool, ghost T: set<nat>)
    returns (ghost v: D.View)
    requires Ready(s) && Arrays(s) && d0 == s.Data() && Tracks(d0, v0) && RowsSized(s.g, d0)
    requires Pending(s.g, v0, Off(s.g, isHot), ws, torn, FlashOf(s.g, d0, Off(s.g, isHot)))
    requires s.listKept || (CachedIn(s, T) && Within(s.g, T, ws))
    modifies s, s.ubi.Repr
    ensures old(CachedIn(s, T)) && Within(s.g, T, ws) ==> CachedIn(s, T) && Spared(s, isHot)
    ensures Ready(s) && Arrays(s) && ReplayDone(s.g, v0, d0, v, s.Data(), Off(s.g, isHot), ws)
    ensures Edition(s, isHot) == CounterLeft(s.g, v0, Off(s.g, isHot), ws, torn) && (!torn ==> s.Data().blk == d0.blk)
  {
    hide Ready, Ftl.Data, Building, Pending, Replayed, ReplayDone, RowsSized, Tracks, Off, FlashOf, Within, CounterLeft;
    ghost var o := Off(s.g, isHot);
    ghost var v1 := ReplayPages(s, isHot, v0, ws, torn, T);
    ghost var d1 := s.Data();
    BuildingBegins(s.g, v0, d0, v1, d1, o, ws, torn);
    v := BuildRows(s, isHot, v1, d1, TornJournal(s.g, v0, o, ws, torn));
    ReplayEnds(s.g, v0, d0, v1, d1, v, s.Data(), o, ws, TornJournal(s.g, v0, o, ws, torn));
  }

  lemma BuildingBegins(g: Geometry, v0: D.View, d0: D.View, v: D.View, d: D.View, o: nat, ws: seq<PageWrite>, torn: bool)
    requires Replayed(g, v0, v, o, ws, |ws|) && Tracks(d0, v0) && Tracks(d, v) && d.blk == d0.blk && d.metas == d0.metas
    requires RowsSized(g, d0) && Pending(g, v0, o, ws, torn, FlashOf(g, d0, o))
    ensures Building(g, v, d, v, d, o, 0, TornJournal(g, v0, o, ws, torn))
  {
    hide D.Inv, D.Settled, ListedFirst, AllTidy, RoomFor, Addressed, HeldBy, Replayed, MatchesAt, TornJournal, LanesOf;
    SameFlash(g, v0, v, o, ws, |ws|, torn, d0, d);
    ReplayedInv(g, v0, v, o, ws, |ws|);
    AllReplayed(g, v0, v, d, o, ws, torn);
    JournalBlocks(g, v);
  }

  lemma ReplayedInv(g: Geometry, v0: D.View, v: D.View, o: nat, ws: seq<PageWrite>, i: nat)
    requires Replayed(g, v0, v, o, ws, i)
    ensures D.Inv(g, v) && D.Settled(g, v)
  {
  }

  lemma JournalBlocks(g: Geometry, v: D.View)
    requires D.Inv(g, v)
    ensures |v.js| == 3 * g.J && |v.metas| == 2 * g.J && |v.blk| == g.U
  {
  }

  lemma ReplayEnds(g: Geometry, v0: D.View, d0: D.View, v1: D.View, d1: D.View, v: D.View, d: D.View, o: nat, ws: seq<PageWrite>, t: int)
    requires Replayed(g, v0, v1, o, ws, |ws|) && Tracks(d0, v0) && Tracks(d1, v1) && d1.blk == d0.blk && d1.metas == d0.metas
    requires RowsSized(g, d0) && Building(g, v1, d1, v, d, o, g.J, t)
    ensures ReplayDone(g, v0, d0, v, d, o, ws)
  {
    hide D.Inv, D.Settled, Restored, MatchesAt, LanesOk, OnlyList, PushAll, Overridden;
    FirstLoop(g, v0, d0, v1, d1, o, ws);
    ElsewhereTrans(g, v0, v1, v, o);
    ListsTrans(g, d0, d1, d, o);
    hide Elsewhere, OnlyTheirLists, LanesOf;
    PlacesAre(g, v1, o);
  }

  lemma FirstLoop(g: Geometry, v0: D.View, d0: D.View, v1: D.View, d1: D.View, o: nat, ws: seq<PageWrite>)
    requires Replayed(g, v0, v1, o, ws, |ws|) && Tracks(d0, v0) && Tracks(d1, v1) && d1.blk == d0.blk && d1.metas == d0.metas
    requires RowsSized(g, d0)
    ensures OnlyTheirLists(g, d0, d1, o)
  {
    hide D.Inv, D.Settled, LanesOk, PushAll, Overridden, LanesOf;
  }
}
