/** UBI_Read and UBI_Write (without write buffers held for a die), and ubi_reclaim_badblock. */
module UbiWrite {
  import opened Flash
  import opened Nand
  import opened FreeTable
  import opened UbiSpec
  import opened UbiFlash
  import opened UbiState
  import opened UbiIndex
  import opened UbiAnchor
  import opened UbiArea
  import opened UbiWear
  import opened UbiCommit
  import opened UbiErase

  /** Writing to a mapped block concerns no table. */
  lemma PayloadKeeps(g: Device, cells: seq<PhysBlock>, r: Rec, b: nat, page: PhysBlock)
    requires Boots(g, cells, r) && b < |r.mapped| && |page| == g.P && r.anc.newBlock == r.holder
    ensures r.mapped[b].block < |cells| && Boots(g, cells[r.mapped[b].block := page], r)
    ensures forall a :: 0 <= a < |r.ix.areaBlock| ==> r.ix.areaBlock[a] != r.mapped[b].block
    ensures DataLo(g) <= r.mapped[b].block < g.T && r.mapped[b].block != r.holder
    ensures |r.ix.areaBlock| == |r.at| == g.A
  {
    hide Sorted, MapOf;
    Apart(g, r.mapped, r.ix.areaBlock, r.holder, r.ix.free);
    hide Partition;
    TouchKeeps(g, cells, r, r.mapped[b].block, page);
  }

  lemma StagedAgain(s: Ubi, at: seq<nat>, mapped: seq<AreaEntry>)
    requires s.Sound() && s.nand.faults == 0 && AnchorsGood(s.g, s.anc.bad) && Boots(s.g, s.nand.cells, RecOf(s, at, mapped)) && s.anc.newBlock == s.holder
    ensures Staged(s, at, mapped) && s.next >= 1
  {
    BootsParts(s.g, s.nand.cells, RecOf(s, at, mapped));
    hide Boots, Laid, AnchorHeld, AnchorSpot;
  }

  /** Like `Steady`, while an operation may still report a bad block. */
  ghost predicate Settled(s: Ubi, at: seq<nat>, mapped: seq<AreaEntry>)
    reads s, s.nand, s.free
  {
    && s.Sound() && Boots(s.g, s.nand.cells, RecOf(s, at, mapped)) && AnchorsGood(s.g, s.anc.bad)
    && s.anc.newBlock == s.holder && CacheOk(s.g, s.Tables(), s.nand.cells, at) && |s.cached| == s.g.R
    && |s.areaBlock| == s.g.A && MapOf(s.g, s.areaBlock, at, s.nand.cells) == mapped
  }

  lemma SettledIsSteady(s: Ubi, at: seq<nat>, mapped: seq<AreaEntry>)
    ensures Steady(s, at, mapped) ==> Settled(s, at, mapped) && s.nand.faults == 0
    ensures Settled(s, at, mapped) ==> |s.nand.cells| == s.g.T && forall x :: 0 <= x < s.g.T ==> |s.nand.cells[x]| == s.g.P
    ensures Settled(s, at, mapped) && s.nand.faults == 0 ==> Steady(s, at, mapped)
  {
    hide Boots, CacheOk, MapOf;
    if Settled(s, at, mapped) && s.nand.faults == 0 {
      StagedAgain(s, at, mapped);
    }
  }

  /** UBI_Read. */
  method ReadBlock(s: Ubi, b: nat, page: nat, ghost at: seq<nat>, ghost mapped: seq<AreaEntry>) returns (st: Status, c: Page)
    requires Settled(s, at, mapped) && b < s.g.U && page < s.g.P
    modifies s`offset, s`cached, s`cachedArea
    ensures Settled(s, at, mapped)
    ensures b < |mapped| && mapped[b].block < s.g.T && c == s.nand.cells[mapped[b].block][page] && st == if c.Clear? then Failure else Success
  {
    hide Boots, AreaOf, OffsetOf, TableAt, MapOf;
    AreaThere(s, at, mapped, b);
    var e := AreaGet(s, b, at);
    st, c := s.nand.Read(e.block, page);
  }

  lemma AreaThere(s: Ubi, at: seq<nat>, mapped: seq<AreaEntry>, b: nat)
    requires Settled(s, at, mapped) && b < s.g.U
    ensures |at| == s.g.A && AreaHeld(s.g, s.nand.cells, s.areaBlock[AreaOf(s.g, b)], at[AreaOf(s.g, b)])
    ensures b < |mapped| && DataLo(s.g) <= mapped[b].block < s.g.T
  {
    Apart(s.g, mapped, s.areaBlock, s.holder, s.free[..]);
    hide Partition, Sorted, MapOf, AreaOf;
  }

  // ---------------------------------------------------------------- UBI_Write

  /** One page of logical block b is programmed; the operation may report a bad block. */
  method ProgramPage(s: Ubi, b: nat, e: AreaEntry, page: nat, c: Page, ghost at: seq<nat>, ghost mapped: seq<AreaEntry>) returns (st: Status)
    requires Settled(s, at, mapped) && b < s.g.U && page < s.g.P && !c.Clear? && s.nand.power == None
    requires b < |mapped| && e == mapped[b] && e.block < s.g.T && s.nand.cells[e.block][page].Clear?
    modifies s.nand
    ensures Settled(s, at, mapped) && s.nand.power == None && (st == Success || st == BadBlock)
    ensures e.block < |old(s.nand.cells)| && page < |old(s.nand.cells)[e.block]|
    ensures s.nand.cells == old(s.nand.cells)[e.block := old(s.nand.cells)[e.block][page := c]]
    ensures st == BadBlock <==> s.nand.faults < old(s.nand.faults)
    ensures s.nand.faults + (if st == BadBlock then 1 else 0) == old(s.nand.faults)
  {
    hide Boots, MapOf, TableAt;
    ghost var cells, r, t := s.nand.cells, RecOf(s, at, mapped), s.Tables();
    PayloadKeeps(s.g, cells, r, b, cells[e.block][page := c]);
    st := s.nand.Program(e.block, page, c);
    CacheDepends(s.g, t, s.Tables(), cells, s.nand.cells, at);
    MapDepends(s.g, s.areaBlock, at, cells, s.nand.cells);
  }

  // ---------------------------------------------------------------- ubi_reclaim_badblock

  /** The first n pages are those of the other block, the rest is erased. */
  ghost predicate CopiedTo(b: PhysBlock, from: PhysBlock, n: nat) {
    |b| == |from| && n <= |b| && (forall i :: 0 <= i < n ==> b[i] == from[i]) && (forall i :: n <= i < |b| ==> b[i].Clear?)
  }

  /** The earlier pages are copied to the new block. */
  method CopyEarlier(s: Ubi, from: nat, x: nat, n: nat)
    requires s.Sound() && s.nand.faults == 0 && s.nand.power == None && from < s.g.T && x < s.g.T && from != x && n <= s.g.P
    requires s.nand.cells[x] == ClearBlock(s.g.P) && forall i :: 0 <= i < n ==> !s.nand.cells[from][i].Clear?
    modifies s.nand
    ensures s.Sound() && s.nand.faults == 0 && s.nand.power == None
    ensures x < |old(s.nand.cells)| && s.nand.cells == old(s.nand.cells)[x := s.nand.cells[x]] && CopiedTo(s.nand.cells[x], s.nand.cells[from], n)
  {
    ghost var cells := s.nand.cells;
    var i := 0;
    while i < n
      invariant i <= n && s.Sound() && s.nand.faults == 0 && s.nand.power == None
      invariant s.nand.cells == cells[x := s.nand.cells[x]] && CopiedTo(s.nand.cells[x], cells[from], i)
    {
      var _, c := s.nand.Read(from, i);
      var _ := s.nand.Program(x, i, c);
      i := i + 1;
    }
  }

  /** A free block takes the place of the bad one. */
  lemma TakenWritten(g: Device, cells: seq<PhysBlock>, r: Rec, k: nat, page: PhysBlock)
    requires Boots(g, cells, r) && k < g.F && |r.ix.free| == g.F && r.ix.free[k].Free? && r.anc.newBlock == r.holder && |page| == g.P
    ensures r.ix.free[k].block < |cells| && Boots(g, cells[r.ix.free[k].block := page], r)
    ensures forall a :: 0 <= a < |r.ix.areaBlock| ==> r.ix.areaBlock[a] != r.ix.free[k].block
  {
    hide Sorted, MapOf;
    FreeApart(g, r.mapped, r.ix.areaBlock, r.holder, r.ix.free, k);
    hide Partition;
    TouchKeeps(g, cells, r, r.ix.free[k].block, page);
  }

  /** A bad block goes back to the free table as if it were worn much more. */
  function Raised(e: AreaEntry): AreaEntry {
    e.(ec := e.ec + STATIC_WL_THRESHOLD)
  }

  /** ubi_reclaim_badblock up to the commit. */
  method AnnounceReclaim(s: Ubi, b: nat, e: AreaEntry, badPage: nat, ghost at: seq<nat>, ghost mapped: seq<AreaEntry>, ghost k: nat)
    returns (x: nat, ec: nat)
    requires Steady(s, at, mapped) && b < s.g.U == |mapped| && s.nand.power == None && k == Choice(s.g, s.free[..], e.block)
    requires e == mapped[b] && e.block < s.g.T && badPage < s.g.P && forall i :: 0 <= i < badPage ==> !s.nand.cells[e.block][i].Clear?
    modifies s, s.nand, s.free
    ensures Updating(s, at, mapped[b := AreaEntry(x, ec)], old(RecOf(s, at, mapped)), b, AreaEntry(x, ec)) && s.nand.power == None
    ensures |old(s.free[..])| > k && s.free[..] == Exchange(old(s.free[..]), k, e.block, e.ec + STATIC_WL_THRESHOLD) && s.next == old(s.next)
    ensures PlaceOf(s) == Remapped(old(PlaceOf(s)), b, Raised(e), k, AreaEntry(x, ec))
    ensures LeastWorn(s.g, old(s.free[..]), e.block, x, ec) && old(s.free[..])[k] == Free(x, ec - 1)
    ensures s.areaBlock == old(s.areaBlock) && s.areaEc == old(s.areaEc)
    ensures x < |old(s.nand.cells)| && s.nand.cells == old(s.nand.cells)[x := s.nand.cells[x]]
    ensures CopiedTo(s.nand.cells[x], old(s.nand.cells)[e.block], badPage)
    ensures forall c :: 0 <= c < |mapped| ==> mapped[c].block != x
  {
    hide Laid, AnchorHeld, AnchorSpot, Boots, AreaOf, Choice, Exchange, MapOf, TableAt, RemoveAt;
    ghost var r, cells, t := RecOf(s, at, mapped), s.nand.cells, s.Tables();
    SteadyParts(s, at, mapped);
    StagedFree(s, mapped);
    TakenBoots(s.g, cells, r, k);
    var st;
    st, x, ec := TakeBlock(s, e.block, at, mapped, k);
    CopyEarlier(s, e.block, x, badPage);
    TakenWritten(s.g, cells, r, k, s.nand.cells[x]);
    CacheDepends(s.g, t, s.Tables().(ix := r.ix), cells, s.nand.cells, at);
    StageRemap(s, b, x, ec, e.block, e.ec + STATIC_WL_THRESHOLD, at, mapped, r, cells, k);
  }

  /** ubi_reclaim_badblock: logical block b moves to a new block with its earlier pages; the bad
      block goes back to the free table with a much higher erase count. */
  method ReclaimBadBlock(s: Ubi, b: nat, e: AreaEntry, badPage: nat, ghost at: seq<nat>, ghost mapped: seq<AreaEntry>)
    returns (ne: AreaEntry, ghost at': seq<nat>)
    requires Steady(s, at, mapped) && !s.updating && b < s.g.U == |mapped| && s.nand.power == None
    requires e == mapped[b] && e.block < s.g.T && badPage < s.g.P && forall i :: 0 <= i < badPage ==> !s.nand.cells[e.block][i].Clear?
    requires |at| == s.g.A
    modifies s, s.nand, s.free
    ensures Steady(s, at', mapped[b := ne]) && !s.updating && s.nand.power == None
    ensures ne.block < s.g.T && e.block < |old(s.nand.cells)| && CopiedTo(s.nand.cells[ne.block], old(s.nand.cells)[e.block], badPage)
    ensures OthersKept(s.g, old(s.nand.cells), s.nand.cells, mapped, b) && ne.block != e.block
    ensures LeastWorn(s.g, old(s.free[..]), e.block, ne.block, ne.ec)
    ensures RecordedTo(mapped[b := Raised(e)], old(PlaceOf(s)), ne, mapped[b := ne], PlaceOf(s))
    ensures PlaceOf(s) == Committed(s.g, Remapped(old(PlaceOf(s)), b, Raised(e), old(Choice(s.g, s.free[..], e.block)), ne), b,
                                    at[AreaOf(s.g, b)] == s.g.P - 1, old(s.next))
  {
    hide Laid, AnchorHeld, AnchorSpot, Boots, AreaOf, Choice, Exchange, MapOf, TableAt, CacheOk, CopiedTo, LeastWorn, RecordedTo, Committed;
    ghost var k, r, cells := Choice(s.g, s.free[..], e.block), RecOf(s, at, mapped), s.nand.cells;
    SteadyParts(s, at, mapped);
    ghost var place, next := PlaceOf(s), s.next;
    var x, ec := AnnounceReclaim(s, b, e, badPage, at, mapped, k);
    ne := AreaEntry(x, ec);
    ghost var mid, now := s.nand.cells, mapped[b := ne];
    CommitReady(s, b, at, now, r, ne);
    var st;
    st, at' := Commit(s, b, ne, at, now, r);
    RemapRecorded(s.g, mapped[b := Raised(e)], place, b, k, ne, at[AreaOf(s.g, b)] == s.g.P - 1, next);
    assert mapped[b := Raised(e)][b := ne] == now;
    assert now[b] == ne && s.nand.cells[ne.block] == mid[ne.block];
    assert forall c :: 0 <= c < |mapped| && c != b ==> now[c] == mapped[c];
  }

  /** A page was programmed at its place in the block; the later pages are erased. */
  ghost predicate Programmed(before: PhysBlock, after: PhysBlock, page: nat, c: Page) {
    page < |before| && after == before[page := c]
  }

  /** The page has reached logical block b: behind the earlier pages, which may have moved with
      it to another physical block; then the bad one is back in the free table as if worn much
      more, and every block taken is counted. */
  ghost predicate Landed(s: Ubi, at': seq<nat>, now: seq<AreaEntry>, b: nat, page: nat, c: Page,
                         cells: seq<PhysBlock>, at: seq<nat>, mapped: seq<AreaEntry>, faults: nat, place: Place)
    reads s, s.nand, s.free
  {
    && Settled(s, at', now) && !s.updating && s.nand.power == None && s.nand.faults <= faults
    && b < s.g.U == |now| == |mapped| && now[b].block < s.g.T && mapped[b].block < s.g.T == |cells|
    && Programmed(cells[mapped[b].block], s.nand.cells[now[b].block], page, c)
    && now == mapped[b := now[b]] && OthersKept(s.g, cells, s.nand.cells, mapped, b)
    && (s.nand.faults == faults ==> now == mapped && at' == at && PlaceOf(s) == place)
    && (s.nand.faults < faults ==>
          && now[b].block != mapped[b].block
          && RecordedTo(mapped[b := Raised(mapped[b])], place, now[b], now, PlaceOf(s)))
  }

  lemma OnlyMapped(g: Device, cells: seq<PhysBlock>, now: seq<PhysBlock>, r: Rec, b: nat)
    requires Boots(g, cells, r) && b < g.U == |r.mapped| && |now| == |cells| && r.mapped[b].block < |cells|
    requires now == cells[r.mapped[b].block := now[r.mapped[b].block]]
    ensures OthersKept(g, cells, now, r.mapped, b)
  {
    Apart(g, r.mapped, r.ix.areaBlock, r.holder, r.ix.free);
    hide Partition, Sorted, MapOf;
  }

  lemma OthersTrans(g: Device, cells: seq<PhysBlock>, mid: seq<PhysBlock>, now: seq<PhysBlock>, mapped: seq<AreaEntry>, mapped1: seq<AreaEntry>, b: nat)
    requires OthersKept(g, cells, mid, mapped, b) && OthersKept(g, mid, now, mapped1, b) && b < |mapped| && mapped1 == mapped[b := mapped1[b]]
    ensures OthersKept(g, cells, now, mapped, b)
  {
    assert forall c :: 0 <= c < |mapped| && c != b ==> mapped1[c] == mapped[c];
  }

  /** After a bad-block status: the block is replaced and the page programmed again. */
  method Retry(s: Ubi, b: nat, e: AreaEntry, page: nat, c: Page, ghost at: seq<nat>, ghost mapped: seq<AreaEntry>, ghost cells: seq<PhysBlock>)
    returns (st: Status, ghost at': seq<nat>, ghost now: seq<AreaEntry>)
    requires Settled(s, at, mapped) && s.nand.faults == 0 && !s.updating && s.nand.power == None
    requires b < s.g.U == |mapped| && e == mapped[b] && e.block < s.g.T == |cells| && page < s.g.P && !c.Clear? && |at| == s.g.A
    requires Prefix(cells[e.block], page) && Programmed(cells[e.block], s.nand.cells[e.block], page, c) && OthersKept(s.g, cells, s.nand.cells, mapped, b)
    modifies s, s.nand, s.free
    ensures st == Success && Landed(s, at', now, b, page, c, cells, at, mapped, 1, old(PlaceOf(s)))
  {
    hide Boots, AreaOf, OffsetOf, TableAt, MapOf, CacheOk, RecordedTo, Committed, Remapped, LeastWorn, Choice, OthersKept;
    ghost var cells1 := s.nand.cells;
    SettledIsSteady(s, at, mapped);
    var ne;
    ne, at' := ReclaimBadBlock(s, b, e, page, at, mapped);
    now := mapped[b := ne];
    ghost var cells2 := s.nand.cells;
    SettledIsSteady(s, at', now);
    SteadySize(s, at', now);
    st := ProgramPage(s, b, ne, page, c, at', now);
    OnlyMapped(s.g, cells2, s.nand.cells, RecOf(s, at', now), b);
    OthersTrans(s.g, cells, cells1, cells2, mapped, mapped, b);
    OthersTrans(s.g, cells, cells2, s.nand.cells, mapped, now, b);
    assert s.nand.cells[ne.block] == cells[e.block][page := c];
  }

  /** UBI_Write, synchronous: the page lands on logical block b even if the block turns bad
      under it, and the other logical blocks are untouched. */
  method WriteBlock(s: Ubi, b: nat, page: nat, c: Page, ghost at: seq<nat>, ghost mapped: seq<AreaEntry>)
    returns (ghost at': seq<nat>, ghost now: seq<AreaEntry>)
    requires Settled(s, at, mapped) && !s.updating && s.nand.power == None && s.nand.faults <= 1
    requires b < s.g.U == |mapped| && page < s.g.P && !c.Clear? && |at| == s.g.A
    requires mapped[b].block < s.g.T && Prefix(s.nand.cells[mapped[b].block], page)
    modifies s, s.nand, s.free
    ensures Landed(s, at', now, b, page, c, old(s.nand.cells), at, mapped, old(s.nand.faults), old(PlaceOf(s)))
  {
    hide Boots, AreaOf, OffsetOf, TableAt, MapOf, CacheOk, RecordedTo, Committed, Remapped, LeastWorn, Choice, OthersKept;
    AreaThere(s, at, mapped, b);
    at', now := at, mapped;
    ghost var cells, r, faults, place := s.nand.cells, RecOf(s, at, mapped), s.nand.faults, PlaceOf(s);
    var e := AreaGet(s, b, at);
    var st := ProgramPage(s, b, e, page, c, at, mapped);
    OnlyMapped(s.g, cells, s.nand.cells, r, b);
    while st == BadBlock
      invariant st == BadBlock ==> Settled(s, at, mapped) && !s.updating && s.nand.power == None && s.nand.faults == 0 && faults == 1 && PlaceOf(s) == place
      invariant st == BadBlock ==> Programmed(cells[e.block], s.nand.cells[e.block], page, c) && OthersKept(s.g, cells, s.nand.cells, mapped, b)
      invariant st != BadBlock ==> Landed(s, at', now, b, page, c, cells, at, mapped, faults, place)
      decreases st == BadBlock
    {
      st, at', now := Retry(s, b, e, page, c, at, mapped, cells);
    }
  }

  lemma SteadySize(s: Ubi, at: seq<nat>, mapped: seq<AreaEntry>)
    requires Steady(s, at, mapped)
    ensures |mapped| == s.g.U && Boots(s.g, s.nand.cells, RecOf(s, at, mapped))
  {
    SteadyParts(s, at, mapped);
  }
}
