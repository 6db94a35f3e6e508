/** ftl_data.c: writing pages to the journals. */
module Data {
  import opened Geometry
  import opened Flash
  import D = DataSpec
  import R = Reclaim
  import PmtSpec
  import PageMap
  import opened FtlState
  import opened Logs
  import opened Commit
  import L = Lanes
  import ReplaySpec

  /** Where the journals of a temperature begin in the data view. */
  function Off(g: Geometry, isHot: bool): nat {
    if isHot then 0 else g.J
  }

  /** The tables agree with the flash, whatever the journals' fill. */
  ghost predicate Consistent(s: Ftl)
    reads s, s.ubi, s.ubi.Repr
  {
    Ready(s) && Arrays(s) && D.Inv(s.g, s.Data())
  }

  // ---------------------------------------------------------------- the journals' own arrays

  function JournalOf(s: Ftl, isHot: bool, j: nat): (l: Loc)
    requires Arrays(s) && j < s.g.J
    reads s
    ensures l == s.Data().js[Off(s.g, isHot) + j]
  {
    if isHot then s.root.hot[j] else s.root.cold[j]
  }

  method SetJournal(s: Ftl, isHot: bool, j: nat, l: Loc)
    requires Ready(s) && Arrays(s) && j < s.g.J
    modifies s`root
    ensures Calm(s, s.g.K, 0, 0) && s.root.nodes == old(s.root.nodes)
    ensures Ready(s) && Arrays(s) && s.Map() == old(s.Map())
    ensures s.Data() == old(s.Data()).(js := old(s.Data().js)[Off(s.g, isHot) + j := l])
  {
    hide PmtSpec.Stable, LogsOk, PageMap.MapOf, DataBlocks, DataDirty;
    if isHot {
      s.root := s.root.(hot := s.root.hot[j := l]);
    } else {
      s.root := s.root.(cold := s.root.cold[j := l]);
    }
    assert s.Pmt() == old(s.Pmt());
    assert s.Data().js == old(s.Data().js)[Off(s.g, isHot) + j := l];
  }

  method SetReclaim(s: Ftl, j: nat, l: Loc)
    requires Ready(s) && Arrays(s) && j < s.g.J
    modifies s`root
    ensures Ready(s) && Arrays(s) && s.Map() == old(s.Map())
    ensures s.Data() == old(s.Data()).(js := old(s.Data().js)[2 * s.g.J + j := l])
  {
    hide PmtSpec.Stable, LogsOk, PageMap.MapOf, DataBlocks, DataDirty;
    s.root := s.root.(reclaim := s.root.reclaim[j := l]);
    assert s.Pmt() == old(s.Pmt());
    assert s.Data().js == old(s.Data().js)[2 * s.g.J + j := l];
  }

  /** The spare words of a page, kept for the list on the block's last page. */
  method SetSpare(s: Ftl, isHot: bool, j: nat, p: nat, w: Spare)
    requires Ready(s) && Arrays(s) && j < s.g.J
    requires p < |s.Data().metas[Off(s.g, isHot) + j]|
    modifies s`hotMeta, s`coldMeta
    ensures Ready(s) && Arrays(s) && s.Map() == old(s.Map())
    ensures var k := Off(s.g, isHot) + j;
            s.Data() == old(s.Data()).(metas := old(s.Data().metas)[k := old(s.Data().metas)[k][p := w]])
  {
    hide PmtSpec.Stable, LogsOk, PageMap.MapOf, DataBlocks, DataDirty;
    if isHot {
      s.hotMeta := s.hotMeta[j := s.hotMeta[j][p := w]];
    } else {
      s.coldMeta := s.coldMeta[j := s.coldMeta[j][p := w]];
    }
    assert s.Pmt() == old(s.Pmt());
    ghost var k := Off(s.g, isHot) + j;
    assert s.Data().metas == old(s.Data().metas)[k := old(s.Data().metas)[k][p := w]];
  }

  /** A page of the data region is programmed. */
  method ProgramData(s: Ftl, b: nat, p: nat, content: Content, spare: Spare)
    requires Ready(s) && Arrays(s) && InData(s.g, b) && p < s.g.P && Filled(s.Data().blk[b], p)
    modifies s.ubi.Repr
    ensures Calm(s, s.g.K, 0, 0) && s.root == old(s.root) && s.slots == old(s.slots)
    ensures Ready(s) && Arrays(s) && s.Map() == old(s.Map()) && s.Journals() == old(s.Journals())
    ensures s.Data() == old(s.Data()).(blk := Program(old(s.Data().blk), b, p, Programmed(content, spare)))
  {
    hide PmtSpec.Inv, PmtSpec.SameMap, LogsOk, PageMap.MapOf;
    ghost var v, blk := s.Pmt(), s.ubi.blk;
    PmtSpec.StableShape(s.g, v);
    s.ubi.Write(b, p, content, spare);
    LogsDepend(s.g, blk, s.Logs(), s.ubi.blk);
    PmtSpec.StableDepends(s.g, v, s.Pmt());
    hide PmtSpec.Stable;
    PageMap.SameMapOf(s.g, v, s.Pmt());
    assert DataBlocks(s.g, s.ubi.blk) == Program(DataBlocks(s.g, blk), b, p, Programmed(content, spare));
  }

  /** A block of the data region is erased. */
  method EraseData(s: Ftl, b: nat, die: nat)
    requires Ready(s) && Arrays(s) && InData(s.g, b)
    modifies s.ubi.Repr
    ensures Ready(s) && Arrays(s) && s.Map() == old(s.Map()) && s.Journals() == old(s.Journals())
    ensures s.Data() == old(s.Data()).(blk := old(s.Data().blk)[b := Blank(s.g.P)])
  {
    hide PmtSpec.Inv, PmtSpec.SameMap, LogsOk, PageMap.MapOf;
    ghost var v, blk := s.Pmt(), s.ubi.blk;
    PmtSpec.StableShape(s.g, v);
    s.ubi.Erase(b, die);
    LogsDepend(s.g, blk, s.Logs(), s.ubi.blk);
    PmtSpec.StableDepends(s.g, v, s.Pmt());
    hide PmtSpec.Stable;
    PageMap.SameMapOf(s.g, v, s.Pmt());
    assert DataBlocks(s.g, s.ubi.blk) == DataBlocks(s.g, blk)[b := Blank(s.g.P)];
  }

  /** The dirty count of a data block is cleared. */
  method ClearDirty(s: Ftl, b: nat)
    requires Ready(s) && Arrays(s) && InData(s.g, b)
    modifies s`dirty
    ensures Ready(s) && Arrays(s) && s.Map() == old(s.Map()) && s.Journals() == old(s.Journals())
    ensures s.Data() == old(s.Data()).(dirty := old(s.Data().dirty)[b := 0])
  {
    hide PmtSpec.Inv, PmtSpec.SameMap, LogsOk, PageMap.MapOf;
    ghost var v, d := s.Pmt(), s.dirty;
    PmtSpec.StableShape(s.g, v);
    s.dirty := s.dirty[b := 0];
    PmtSpec.StableDepends(s.g, v, s.Pmt());
    hide PmtSpec.Stable;
    PageMap.SameMapOf(s.g, v, s.Pmt());
    assert DataDirty(s.g, s.dirty) == DataDirty(s.g, d)[b := 0];
  }

  // ---------------------------------------------------------------- DATA_IsFull, DATA_Write

  /** Some journal of the temperature has room. */
  ghost predicate HasRoom(g: Geometry, js: seq<Loc>, isHot: bool)
    requires |js| == 3 * g.J
  {
    exists k: nat {:trigger js[k]} :: Off(g, isHot) <= k < Off(g, isHot) + g.J && js[k].page < g.M
  }

  /** Whichever journal takes a page, the set has room for another. */
  ghost predicate RoomForTwo(g: Geometry, js: seq<Loc>, isHot: bool)
    requires |js| == 3 * g.J
  {
    exists i: nat, k: nat {:trigger js[i], js[k]} ::
      && Off(g, isHot) <= i < Off(g, isHot) + g.J && Off(g, isHot) <= k < Off(g, isHot) + g.J
      && if i == k then js[k].page + 1 < g.M else js[i].page < g.M && js[k].page < g.M
  }

  /** DATA_IsFull. */
  method IsFull(s: Ftl, isHot: bool) returns (full: bool)
    requires Arrays(s)
    ensures full <==> !HasRoom(s.g, s.Data().js, isHot)
  {
    ghost var o := Off(s.g, isHot);
    full := true;
    var i := 0;
    while i < s.g.J && full
      invariant i <= s.g.J && full
      invariant forall k :: o <= k < o + i ==> s.Data().js[k].page >= s.g.M
    {
      if JournalOf(s, isHot, i).page < s.g.M {
        full := false;
        assert s.Data().js[o + i].page < s.g.M;
        break;
      }
      i := i + 1;
    }
  }

  /** UBI_ReadStatus. */
  method Poll(s: Ftl, b: nat) returns (idle: bool)
    requires Ready(s) && Arrays(s) && b < s.g.U
    modifies s.ubi.Repr
    ensures s.ubi.blk == old(s.ubi.blk)
    ensures Ready(s) && Arrays(s) && s.Map() == old(s.Map()) && s.Data() == old(s.Data())
    ensures s.Journals() == old(s.Journals())
    ensures if idle then s.ubi.polls == old(s.ubi.polls) else s.ubi.polls < old(s.ubi.polls)
  {
    hide PmtSpec.Stable, LogsOk, PageMap.MapOf, DataBlocks, DataDirty;
    idle := s.ubi.ReadStatus(b);
    assert s.Pmt() == old(s.Pmt());
  }

  /** The loop of DATA_Write that looks for an idle block with room.  When every die is idle
      it takes the first block with room. */
  method PickJournal(s: Ftl, isHot: bool) returns (j: nat)
    requires Consistent(s) && HasRoom(s.g, s.Data().js, isHot)
    modifies s.ubi.Repr
    ensures s.ubi.blk == old(s.ubi.blk)
    ensures Consistent(s) && s.Map() == old(s.Map()) && s.Data() == old(s.Data()) && s.Journals() == old(s.Journals())
    ensures j < s.g.J && s.Data().js[Off(s.g, isHot) + j].page < s.g.M
    ensures old(s.ubi.polls) == 0 ==> forall i :: Off(s.g, isHot) <= i < Off(s.g, isHot) + j ==> s.Data().js[i].page >= s.g.M
  {
    hide Ready, Ftl.Data, Ftl.Map, D.UserPagesOk, D.ListsOk, D.RowsOk, D.MapOk, D.CountsOk;
    ghost var o := Off(s.g, isHot);
    ghost var js := s.Data().js;
    var found := false;
    j := 0;
    while !found
      invariant Consistent(s) && s.Map() == old(s.Map()) && s.Data() == old(s.Data()) && s.Journals() == old(s.Journals())
      invariant found ==> j < s.g.J && js[o + j].page < s.g.M
      invariant old(s.ubi.polls) == 0 ==> s.ubi.polls == 0
      invariant s.ubi.blk == old(s.ubi.blk)
      invariant found && old(s.ubi.polls) == 0 ==> forall i :: o <= i < o + j ==> js[i].page >= s.g.M
      decreases !found, s.ubi.polls
    {
      found, j := TryJournals(s, isHot);
    }
  }

  /** One pass over the journals. */
  method TryJournals(s: Ftl, isHot: bool) returns (found: bool, j: nat)
    requires Consistent(s) && HasRoom(s.g, s.Data().js, isHot)
    modifies s.ubi.Repr
    ensures s.ubi.blk == old(s.ubi.blk)
    ensures Consistent(s) && s.Map() == old(s.Map()) && s.Data() == old(s.Data()) && s.Journals() == old(s.Journals())
    ensures found ==> j < s.g.J && s.Data().js[Off(s.g, isHot) + j].page < s.g.M
    ensures !found ==> s.ubi.polls < old(s.ubi.polls)
    ensures s.ubi.polls <= old(s.ubi.polls)
    ensures found && old(s.ubi.polls) == 0 ==>
              forall i :: Off(s.g, isHot) <= i < Off(s.g, isHot) + j ==> s.Data().js[i].page >= s.g.M
  {
    hide Ready, Ftl.Data, Ftl.Map, D.Inv, HasRoom;
    ghost var o := Off(s.g, isHot);
    ghost var js := s.Data().js;
    JournalsInData(s.g, s.Data());
    found, j := false, 0;
    while j < s.g.J
      invariant j <= s.g.J && Ready(s) && Arrays(s) && s.Map() == old(s.Map()) && s.Data() == old(s.Data())
      invariant s.Journals() == old(s.Journals()) && s.ubi.polls <= old(s.ubi.polls) && s.ubi.blk == old(s.ubi.blk)
      invariant (forall i :: o <= i < o + j ==> js[i].page >= s.g.M) || s.ubi.polls < old(s.ubi.polls)
    {
      var l := JournalOf(s, isHot, j);
      if l.page < s.g.M {
        found := Poll(s, l.block);
        if found {
          break;
        }
      }
      j := j + 1;
    }
    if !found {
      RoomSomewhere(s.g, js, isHot);
    }
  }

  lemma RoomSomewhere(g: Geometry, js: seq<Loc>, isHot: bool)
    requires |js| == 3 * g.J && HasRoom(g, js, isHot)
    ensures !forall i :: Off(g, isHot) <= i < Off(g, isHot) + g.J ==> js[i].page >= g.M
  {
  }


  lemma JournalsInData(g: Geometry, v: D.View)
    requires D.Inv(g, v)
    ensures forall k: nat {:trigger v.js[k]} :: k < 3 * g.J ==> InData(g, v.js[k].block)
  {
  }

  /** What a page write leaves on the journals when it goes to the first one with room. */
  ghost predicate PushedOn(g: Geometry, v: D.View, w: D.View, isHot: bool, addr: nat, data: PageData, edition: nat) {
    L.Pushed(g, v, w, Off(g, isHot), ReplaySpec.PageWrite(addr, data), edition)
  }

  ghost predicate IsOpen(g: Geometry, v: D.View, isHot: bool, j: nat) {
    j == ReplaySpec.Open(g.M, L.LanesOf(g, v, Off(g, isHot)))
  }

  /** The page is on journal j of its temperature, whose list follows if it is full. */
  ghost predicate WrittenOn(g: Geometry, v: D.View, w: D.View, isHot: bool, j: nat, addr: nat, data: PageData, edition: nat) {
    var k := Off(g, isHot) + j;
    j < g.J && D.Inv(g, v) && D.Appendable(g, v, k, k, addr) && w == D.Written(g, v, k, addr, edition, data)
  }

  ghost predicate SomewhereWritten(g: Geometry, v: D.View, w: D.View, isHot: bool, addr: nat, data: PageData, edition: nat) {
    exists j: nat :: WrittenOn(g, v, w, isHot, j, addr, data, edition)
  }

  lemma WrittenOnOpen(g: Geometry, v: D.View, isHot: bool, j: nat, addr: nat, edition: nat, data: PageData)
    requires D.Inv(g, v) && j < g.J && D.Appendable(g, v, Off(g, isHot) + j, Off(g, isHot) + j, addr)
    ensures IsOpen(g, v, isHot, j) ==>
              PushedOn(g, v, D.Written(g, v, Off(g, isHot) + j, addr, edition, data), isHot, addr, data, edition)
  {
    hide D.Inv, D.Appendable, D.Written, L.Pushed, ReplaySpec.Open;
    if IsOpen(g, v, isHot, j) {
      L.WrittenPushes(g, v, Off(g, isHot), ReplaySpec.PageWrite(addr, data), edition, Off(g, isHot) + j);
    }
  }

  lemma FirstIsOpen(g: Geometry, v: D.View, isHot: bool, j: nat)
    requires D.Inv(g, v) && j < g.J && v.js[Off(g, isHot) + j].page < g.M
    requires forall i :: Off(g, isHot) <= i < Off(g, isHot) + j ==> v.js[i].page >= g.M
    ensures IsOpen(g, v, isHot, j)
  {
    JournalsInData(g, v);
    hide ReplaySpec.Open, L.LanesOf;
    L.FirstOpen(g, v, Off(g, isHot), j);
  }

  function Edition(s: Ftl, isHot: bool): nat
    reads s
  {
    if isHot then s.hotEdition else s.coldEdition
  }

  /** The page reaches flash at l with its address and edition; the RAM list notes both. */
  method WriteData(s: Ftl, isHot: bool, j: nat, l: Loc, addr: nat, data: PageData)
    requires Ready(s) && Arrays(s) && j < s.g.J && l.page < |s.Data().metas[Off(s.g, isHot) + j]|
    requires InData(s.g, l.block) && l.page < s.g.P && Filled(s.Data().blk[l.block], l.page)
    modifies s`hotMeta, s`coldMeta, s`hotEdition, s`coldEdition, s.ubi.Repr
    ensures Calm(s, s.g.K, if isHot then 1 else 0, if isHot then 0 else 1) && s.root == old(s.root) && s.slots == old(s.slots)
    ensures Ready(s) && Arrays(s) && s.Map() == old(s.Map())
    ensures var k, w := Off(s.g, isHot) + j, Words(addr, old(Edition(s, isHot)));
            s.Data() == old(s.Data()).(metas := old(s.Data().metas)[k := old(s.Data().metas)[k][l.page := w]],
                                       blk := Program(old(s.Data().blk), l.block, l.page, Programmed(UserPage(data), w)))
  {
    hide Ready, DataBlocks, DataDirty, PageMap.MapOf;
    var w := Words(addr, Edition(s, isHot));
    SetSpare(s, isHot, j, l.page, w);
    NextEdition(s, isHot);
    ProgramData(s, l.block, l.page, UserPage(data), w);
  }

  /** PMT_Update, seen from the data region. */
  method UpdateMap(s: Ftl, addr: nat, e: Entry)
    requires Ready(s) && Arrays(s) && addr < s.g.cap && |s.Map()| == s.g.cap
    requires s.Map()[addr].At? ==> InData(s.g, s.Map()[addr].loc.block) && s.Data().dirty[s.Map()[addr].loc.block] < s.g.M
    requires s.listKept || Roomy(s, PageMap.ClusterIndex(s.g, addr))
    modifies s, s.ubi.Repr
    ensures old(Roomy(s, PageMap.ClusterIndex(s.g, addr))) ==> Calm(s, PageMap.ClusterIndex(s.g, addr), 0, 0)
    ensures Ready(s) && Arrays(s)
    ensures InCache(s, PageMap.ClusterIndex(s.g, addr)) && (!old(Roomy(s, PageMap.ClusterIndex(s.g, addr))) ==> Saved(s, old(s.Data())))
    ensures s.Data() == old(s.Data()).(pm := old(s.Data().pm)[addr := e], dirty := D.Bump(old(s.Data().dirty), old(s.Data().pm)[addr]))
  {
    hide Ready, DataBlocks, DataDirty, PageMap.MapOf, Saved;
    PmtUpdate(s, addr, e);
  }

  /** The address is mapped to l, and the cursor of journal j moves past it. */
  method Remap(s: Ftl, isHot: bool, j: nat, l: Loc, addr: nat)
    requires Ready(s) && Arrays(s) && j < s.g.J && addr < s.g.cap && |s.Map()| == s.g.cap
    requires s.Map()[addr].At? ==> InData(s.g, s.Map()[addr].loc.block) && s.Data().dirty[s.Map()[addr].loc.block] < s.g.M
    requires s.listKept || Roomy(s, PageMap.ClusterIndex(s.g, addr))
    modifies s, s.ubi.Repr
    ensures old(Roomy(s, PageMap.ClusterIndex(s.g, addr))) ==> Calm(s, PageMap.ClusterIndex(s.g, addr), 0, 0)
    ensures Ready(s) && Arrays(s)
    ensures InCache(s, PageMap.ClusterIndex(s.g, addr)) && (!old(Roomy(s, PageMap.ClusterIndex(s.g, addr))) ==> Saved(s, old(s.Data())))
    ensures var k, v := Off(s.g, isHot) + j, old(s.Data());
            s.Data() == v.(pm := v.pm[addr := At(l)], dirty := D.Bump(v.dirty, v.pm[addr]),
                           js := v.js[k := Loc(l.block, l.page + 1)])
  {
    hide Ready, Ftl.Data, OnRecord;
    UpdateMap(s, addr, At(l));
    SetJournal(s, isHot, j, Loc(l.block, l.page + 1));
  }

  /** The pieces of an append make up the whole. */
  lemma AppendIs(g: Geometry, v: D.View, w: D.View, k: nat, row: nat, addr: nat, edition: nat, data: PageData)
    requires D.Appendable(g, v, k, row, addr)
    requires w.js == v.js[k := Loc(v.js[k].block, v.js[k].page + 1)]
    requires w.metas == v.metas[row := v.metas[row][v.js[k].page := Words(addr, edition)]]
    requires w.pm == v.pm[addr := At(v.js[k])] && w.dirty == D.Bump(v.dirty, v.pm[addr])
    requires w.blk == Program(v.blk, v.js[k].block, v.js[k].page, Programmed(UserPage(data), Words(addr, edition)))
    ensures D.IsAppend(g, v, w, k, row, addr, edition, data)
  {
  }

  /** What is on record does not depend on the pages and their lists. */
  lemma SameRecord(s: Ftl, v: D.View, u: D.View)
    requires Ready(s) && Saved(s, v) && u.js == v.js && u.dirty == v.dirty && u.pm == v.pm
    ensures Saved(s, u)
  {
    ReadyShape(s);
    hide Ready, OnRecord;
    RecordDepends(s.g, v, u, s.ubi.blk, s.ubi.blk, s.listed);
  }

  /** Nor on the flash of the data region. */
  lemma RecordStays(s: Ftl, v: D.View, blk: seq<Block>)
    requires Ready(s) && OnRecord(s.g, v, blk, s.listed) && BelowKept(s.g, blk, s.ubi.blk)
    ensures OnRecord(s.g, v, s.ubi.blk, s.listed)
  {
    ReadyShape(s);
    hide Ready, OnRecord, BelowKept;
    RecordDepends(s.g, v, v, blk, s.ubi.blk, s.listed);
  }

  /** A page is written at the cursor of journal j, remapped, and the cursor moves on. */
  method AppendPage(s: Ftl, isHot: bool, j: nat, addr: nat, data: PageData)
    requires Consistent(s) && addr < s.g.cap && j < s.g.J
    requires D.Appendable(s.g, s.Data(), Off(s.g, isHot) + j, Off(s.g, isHot) + j, addr)
    requires s.listKept || Roomy(s, PageMap.ClusterIndex(s.g, addr))
    modifies s, s.ubi.Repr
    ensures old(Roomy(s, PageMap.ClusterIndex(s.g, addr))) ==> Calm(s, PageMap.ClusterIndex(s.g, addr), if isHot then 1 else 0, if isHot then 0 else 1)
    ensures Ready(s) && Arrays(s)
    ensures InCache(s, PageMap.ClusterIndex(s.g, addr)) && (!old(Roomy(s, PageMap.ClusterIndex(s.g, addr))) ==> Saved(s, old(s.Data())))
    ensures D.IsAppend(s.g, old(s.Data()), s.Data(), Off(s.g, isHot) + j, Off(s.g, isHot) + j, addr,
                       old(Edition(s, isHot)), data)
  {
    hide Ready, D.Inv, D.JournalsOk, Ftl.Data, Ftl.Map, D.IsAppend, D.RowFree, Filled, Shaped, OnRecord, BelowKept;
    ghost var v, edition, roomy := s.Data(), Edition(s, isHot), Roomy(s, PageMap.ClusterIndex(s.g, addr));
    ghost var k := Off(s.g, isHot) + j;
    if v.pm[addr].At? {
      D.Leaving(s.g, v, addr);
    }
    var l := JournalOf(s, isHot, j);
    WriteData(s, isHot, j, l, addr, data);
    ghost var u := s.Data();
    Remap(s, isHot, j, l, addr);
    if !roomy {
      SameRecord(s, u, v);
    }
    AppendIs(s.g, v, s.Data(), k, k, addr, edition, data);
  }

  method NextEdition(s: Ftl, isHot: bool)
    requires Ready(s) && Arrays(s)
    modifies s`hotEdition, s`coldEdition
    ensures Ready(s) && Arrays(s) && s.Map() == old(s.Map()) && s.Data() == old(s.Data())
    ensures s.hotEdition == old(s.hotEdition) + (if isHot then 1 else 0)
    ensures s.coldEdition == old(s.coldEdition) + (if isHot then 0 else 1)
  {
    hide PmtSpec.Stable, LogsOk, PageMap.MapOf, DataBlocks, DataDirty;
    if isHot {
      s.hotEdition := s.hotEdition + 1;
    } else {
      s.coldEdition := s.coldEdition + 1;
    }
    assert s.Pmt() == old(s.Pmt());
  }

  /** The list of a full block is written to its last page. */
  method CloseJournal(s: Ftl, isHot: bool, j: nat, l: Loc)
    requires Ready(s) && Arrays(s) && j < s.g.J && l == JournalOf(s, isHot, j)
    requires InData(s.g, l.block) && |s.Data().blk[l.block]| == s.g.P && Filled(s.Data().blk[l.block], s.g.M)
    modifies s.ubi.Repr
    ensures Calm(s, s.g.K, 0, 0) && s.root == old(s.root)
    ensures Ready(s) && Arrays(s)
    ensures s.Data() == old(s.Data()).(blk := Program(old(s.Data().blk), l.block, s.g.M,
                                              Programmed(DataList(old(s.Data().metas)[Off(s.g, isHot) + j]), AllOnes)))
  {
    hide Ready, DataBlocks, DataDirty, PageMap.MapOf;
    var row := if isHot then s.hotMeta[j] else s.coldMeta[j];
    assert row == s.Data().metas[Off(s.g, isHot) + j];
    ProgramData(s, l.block, s.g.M, DataList(row), AllOnes);
  }

  /** The other temperature's journals keep their cursors. */
  ghost predicate OtherKept(g: Geometry, v: D.View, w: D.View, isHot: bool) {
    |v.js| == |w.js| == 3 * g.J &&
    forall k :: Off(g, !isHot) <= k < Off(g, !isHot) + g.J ==> w.js[k] == v.js[k]
  }

  /** DATA_Write with a buffer, once a journal is chosen. */
  method WritePage(s: Ftl, isHot: bool, j: nat, addr: nat, data: PageData, ghost v: D.View, ghost k: nat)
    requires j < s.g.J && k == Off(s.g, isHot) + j
    requires D.Inv(s.g, v) && D.Settled(s.g, v) && D.Appendable(s.g, v, k, k, addr)
    requires Ready(s) && Arrays(s) && v == s.Data()
    requires s.listKept || Roomy(s, PageMap.ClusterIndex(s.g, addr))
    modifies s, s.ubi.Repr
    ensures old(Roomy(s, PageMap.ClusterIndex(s.g, addr))) ==> Calm(s, PageMap.ClusterIndex(s.g, addr), if isHot then 1 else 0, if isHot then 0 else 1)
    ensures Ready(s) && Arrays(s)
    ensures InCache(s, PageMap.ClusterIndex(s.g, addr)) && (!old(Roomy(s, PageMap.ClusterIndex(s.g, addr))) ==> Saved(s, old(s.Data())))
    ensures s.Data() == D.Written(s.g, v, k, addr, old(Edition(s, isHot)), data)
  {
    hide Ready, Ftl.Data, D.Inv, D.Updated, D.Settled, D.JournalsOk, D.RowFree, Filled, Shaped, OnRecord;
    ghost var edition, roomy := Edition(s, isHot), Roomy(s, PageMap.ClusterIndex(s.g, addr));
    if v.js[k].page + 1 == s.g.M {
      D.FillOutcome(s.g, v, k, addr, edition, data);
    }
    AppendPage(s, isHot, j, addr, data);
    var l := JournalOf(s, isHot, j);
    if l.page == s.g.M {
      ghost var blk := s.ubi.blk;
      CloseJournal(s, isHot, j, l);
      if !roomy {
        RecordStays(s, v, blk);
      }
    }
  }

  /** The logical pages and the invariant after a page write. */
  method WriteTo(s: Ftl, isHot: bool, j: nat, addr: nat, data: PageData)
    requires Consistent(s) && D.Settled(s.g, s.Data()) && addr < s.g.cap && j < s.g.J
    requires s.Data().js[Off(s.g, isHot) + j].page < s.g.M
    requires s.listKept || Roomy(s, PageMap.ClusterIndex(s.g, addr))
    modifies s, s.ubi.Repr
    ensures old(Roomy(s, PageMap.ClusterIndex(s.g, addr))) ==> Calm(s, PageMap.ClusterIndex(s.g, addr), if isHot then 1 else 0, if isHot then 0 else 1)
    ensures Consistent(s) && D.Settled(s.g, s.Data())
    ensures InCache(s, PageMap.ClusterIndex(s.g, addr)) && (!old(Roomy(s, PageMap.ClusterIndex(s.g, addr))) ==> Saved(s, old(s.Data())))
    ensures D.Updated(old(s.Data()), s.Data(), addr, Some(data)) && OtherKept(s.g, old(s.Data()), s.Data(), isHot)
    ensures WrittenOn(s.g, old(s.Data()), s.Data(), isHot, j, addr, data, old(Edition(s, isHot)))
    ensures IsOpen(s.g, old(s.Data()), isHot, j) ==>
              PushedOn(s.g, old(s.Data()), s.Data(), isHot, addr, data, old(Edition(s, isHot)))
  {
    hide Ready, Ftl.Data, D.UserPagesOk, D.ListsOk, D.RowsOk, D.MapOk, D.CountsOk, D.Updated, D.Settled, D.Appendable, IsOpen, PushedOn, Saved;
    ghost var v, k := s.Data(), Off(s.g, isHot) + j;
    D.AppendReady(s.g, v, k, k, addr);
    D.WrittenOutcome(s.g, v, k, addr, Edition(s, isHot), data);
    WrittenOnOpen(s.g, v, isHot, j, addr, Edition(s, isHot), data);
    hide D.JournalsOk;
    WritePage(s, isHot, j, addr, data, v, k);
    hide D.Inv, D.Written;
  }

  method PickOpen(s: Ftl, isHot: bool) returns (j: nat)
    requires Consistent(s) && HasRoom(s.g, s.Data().js, isHot)
    modifies s.ubi.Repr
    ensures s.ubi.blk == old(s.ubi.blk) && s.root == old(s.root) && s.slots == old(s.slots) && Calm(s, s.g.K, 0, 0)
    ensures Consistent(s) && s.Data() == old(s.Data()) && Edition(s, isHot) == old(Edition(s, isHot))
    ensures j < s.g.J && s.Data().js[Off(s.g, isHot) + j].page < s.g.M
    ensures old(s.ubi.polls) == 0 ==> IsOpen(s.g, s.Data(), isHot, j)
  {
    hide PmtSpec.Stable, LogsOk, Ftl.Data, D.Inv, IsOpen;
    ghost var idle := s.ubi.polls == 0;
    j := PickJournal(s, isHot);
    if idle {
      FirstIsOpen(s.g, s.Data(), isHot, j);
    }
  }

  /** DATA_Write: with a buffer the page is written to an idle journal block with room, which is
      the first with room when every die is idle; without one the address is trimmed. */
  method DataWrite(s: Ftl, addr: nat, buffer: Option<PageData>, isHot: bool)
    requires Consistent(s) && D.Settled(s.g, s.Data()) && addr < s.g.cap && HasRoom(s.g, s.Data().js, isHot)
    requires s.listKept || Roomy(s, PageMap.ClusterIndex(s.g, addr))
    modifies s, s.ubi.Repr
    ensures old(Roomy(s, PageMap.ClusterIndex(s.g, addr))) ==> Calm(s, PageMap.ClusterIndex(s.g, addr), if buffer.Some? && isHot then 1 else 0, if buffer.Some? && !isHot then 1 else 0)
    ensures Consistent(s) && D.Settled(s.g, s.Data())
    ensures InCache(s, PageMap.ClusterIndex(s.g, addr)) && (!old(Roomy(s, PageMap.ClusterIndex(s.g, addr))) ==> Saved(s, old(s.Data())))
    ensures D.Updated(old(s.Data()), s.Data(), addr, buffer) && OtherKept(s.g, old(s.Data()), s.Data(), isHot)
    ensures buffer.Some? && old(s.ubi.polls) == 0 ==>
              PushedOn(s.g, old(s.Data()), s.Data(), isHot, addr, buffer.value, old(Edition(s, isHot)))
    ensures buffer.Some? ==> SomewhereWritten(s.g, old(s.Data()), s.Data(), isHot, addr, buffer.value, old(Edition(s, isHot)))
    ensures buffer.None? ==> L.Dropped(old(s.Data()), s.Data(), addr)
  {
    hide Ready, Ftl.Data, Consistent, D.Updated, D.Settled, IsOpen, PushedOn, L.Dropped, HasRoom, OtherKept, Arrays, WrittenOn, Saved;
    var j := PickOpen(s, isHot);
    match buffer
    case Some(data) =>
      WriteTo(s, isHot, j, addr, data);
    case None =>
      TrimPage(s, addr, isHot);
  }

  method TrimPage(s: Ftl, addr: nat, ghost isHot: bool)
    requires Consistent(s) && D.Settled(s.g, s.Data()) && addr < s.g.cap
    requires s.listKept || Roomy(s, PageMap.ClusterIndex(s.g, addr))
    modifies s, s.ubi.Repr
    ensures old(Roomy(s, PageMap.ClusterIndex(s.g, addr))) ==> Calm(s, PageMap.ClusterIndex(s.g, addr), 0, 0)
    ensures Consistent(s) && D.Settled(s.g, s.Data())
    ensures InCache(s, PageMap.ClusterIndex(s.g, addr)) && (!old(Roomy(s, PageMap.ClusterIndex(s.g, addr))) ==> Saved(s, old(s.Data())))
    ensures D.Updated(old(s.Data()), s.Data(), addr, None) && OtherKept(s.g, old(s.Data()), s.Data(), isHot)
    ensures L.Dropped(old(s.Data()), s.Data(), addr)
  {
    hide Ready, Ftl.Data, Ftl.Map, D.Updated, D.Settled, Saved;
    ghost var v := s.Data();
    D.TrimOutcome(s.g, v, addr);
    if v.pm[addr].At? {
      D.Leaving(s.g, v, addr);
    }
    assert |v.pm| == s.g.cap && |v.js| == 3 * s.g.J;
    hide D.Inv;
    UpdateMap(s, addr, Nowhere);
  }
}