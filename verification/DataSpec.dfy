/** The data blocks as a value: what ftl_data.c keeps true of the journals, of the pages they
    hold and of the dirty counts, and what each of its steps does to them.

    `js` lists the 3J journal entries: hot, then cold, then reclaim.  `metas` holds the spare
    words kept in RAM for the blocks of the first 2J entries.  `pm` is the page map. */
module DataSpec {
  import opened Geometry
  import opened Flash
  import opened Counting

  datatype View = View(
    js: seq<Loc>,
    metas: seq<seq<Spare>>,
    pm: seq<Entry>,
    dirty: seq<nat>,
    blk: seq<Block>
  )

  // ---------------------------------------------------------------- reading a view

  function MapBlocks(pm: seq<Entry>): (r: seq<int>)
    ensures |r| == |pm|
    ensures forall a :: 0 <= a < |pm| ==> r[a] == if pm[a].At? then pm[a].loc.block else -1
  {
    seq(|pm|, a requires 0 <= a < |pm| => if pm[a].At? then pm[a].loc.block else -1)
  }

  /** How many addresses are mapped into block b. */
  ghost function Mapped(v: View, b: int): nat {
    multiset(MapBlocks(v.pm))[b]
  }

  function DataAt(blk: seq<Block>, l: Loc): PageData {
    if l.block < |blk| && l.page < |blk[l.block]| && blk[l.block][l.page].Programmed?
       && blk[l.block][l.page].content.UserPage?
    then blk[l.block][l.page].content.data
    else []
  }

  /** What reading an entry yields; an unmapped page reads as zeros. */
  function ReadEntry(blk: seq<Block>, e: Entry, zero: PageData): PageData {
    if e.At? then DataAt(blk, e.loc) else zero
  }

  /** Address a reads alike in both views. */
  predicate SameRead(v: View, w: View, a: nat)
    requires a < |v.pm| && a < |w.pm|
  {
    v.pm[a].At? == w.pm[a].At? && (v.pm[a].At? ==> DataAt(v.blk, v.pm[a].loc) == DataAt(w.blk, w.pm[a].loc))
  }

  ghost predicate SameReads(v: View, w: View) {
    |v.pm| == |w.pm| && forall a: nat :: a < |v.pm| ==> SameRead(v, w, a)
  }

  ghost predicate OnJournal(js: seq<Loc>, b: int) {
    exists k :: 0 <= k < |js| && js[k].block == b
  }

  // ---------------------------------------------------------------- what is kept true

  ghost predicate Shape(g: Geometry, v: View) {
    && |v.js| == 3 * g.J && |v.metas| == 2 * g.J && |v.pm| == g.cap && |v.dirty| >= g.U
    && (forall r :: 0 <= r < |v.metas| ==> |v.metas[r]| == g.P)
    && Shaped(v.blk, g.U, g.P)
  }

  /** Pages of a journal are written in order; a full one may also hold its list. */
  ghost predicate JournalOk(g: Geometry, v: View, k: nat)
    requires Shape(g, v) && k < 3 * g.J
  {
    && InData(g, v.js[k].block) && v.js[k].page <= g.M
    && (Filled(v.blk[v.js[k].block], v.js[k].page)
        || (v.js[k].page == g.M && Filled(v.blk[v.js[k].block], g.P)))
  }

  ghost predicate Distinct(js: seq<Loc>) {
    forall i, j :: 0 <= i < j < |js| ==> js[i].block != js[j].block
  }

  ghost predicate JournalsOk(g: Geometry, v: View)
    requires Shape(g, v)
  {
    Distinct(v.js) && forall k: nat {:trigger v.js[k]} :: k < 3 * g.J ==> JournalOk(g, v, k)
  }

  ghost predicate UserPagesOk(g: Geometry, v: View)
    requires Shape(g, v)
  {
    forall b, p :: InData(g, b) && 0 <= p < g.M && v.blk[b][p].Programmed? ==>
      v.blk[b][p].content.UserPage? && v.blk[b][p].spare.Words? && v.blk[b][p].spare.addr < g.cap
  }

  /** The last page of a data block lists the spare words, hence the logical address, of each
      of its pages. */
  ghost predicate ListOk(g: Geometry, v: View, b: int)
    requires Shape(g, v) && InData(g, b)
  {
    v.blk[b][g.M].Programmed? ==>
      && v.blk[b][g.M].content.DataList? && v.blk[b][g.M].spare == AllOnes
      && |v.blk[b][g.M].content.spares| == g.P
      && forall p :: 0 <= p < g.M ==>
           v.blk[b][p].Programmed? && v.blk[b][g.M].content.spares[p] == v.blk[b][p].spare
  }

  ghost predicate ListsOk(g: Geometry, v: View)
    requires Shape(g, v)
  {
    forall b :: InData(g, b) ==> ListOk(g, v, b)
  }

  /** The RAM copy of the list of an unfinished block. */
  ghost predicate RowOk(g: Geometry, v: View, k: nat, row: nat)
    requires Shape(g, v) && k < 3 * g.J && row < 2 * g.J && JournalOk(g, v, k)
  {
    forall p :: 0 <= p < v.js[k].page ==> v.metas[row][p] == v.blk[v.js[k].block][p].spare
  }

  ghost predicate RowsOk(g: Geometry, v: View)
    requires Shape(g, v) && JournalsOk(g, v)
  {
    forall k: nat {:trigger v.js[k]} :: k < 2 * g.J && v.blk[v.js[k].block][g.M].Erased? ==> RowOk(g, v, k, k)
  }

  /** The page an address maps to carries that address in its spare words. */
  ghost predicate EntryOk(g: Geometry, v: View, a: nat)
    requires Shape(g, v) && a < g.cap
  {
    v.pm[a].At? ==>
      var l := v.pm[a].loc;
      && InData(g, l.block) && l.page < g.M
      && v.blk[l.block][l.page].Programmed?
      && v.blk[l.block][l.page].content.UserPage?
      && v.blk[l.block][l.page].spare.Words? && v.blk[l.block][l.page].spare.addr == a
      && (v.blk[l.block][g.M].Erased? ==> OnJournal(v.js, l.block))
  }

  ghost predicate MapOk(g: Geometry, v: View)
    requires Shape(g, v)
  {
    forall a: nat :: a < g.cap ==> EntryOk(g, v, a)
  }

  /** Dirty-count conservation. */
  ghost predicate CountsOk(g: Geometry, v: View)
    requires Shape(g, v) && JournalsOk(g, v)
  {
    && (forall k: nat {:trigger v.js[k]} :: k < 3 * g.J ==>
          v.dirty[v.js[k].block] + Mapped(v, v.js[k].block) == v.js[k].page)
    && (forall b :: InData(g, b) && !OnJournal(v.js, b) ==> v.dirty[b] + Mapped(v, b) == g.M)
  }

  ghost predicate Inv(g: Geometry, v: View) {
    && Shape(g, v) && JournalsOk(g, v) && UserPagesOk(g, v) && ListsOk(g, v) && RowsOk(g, v)
    && MapOk(g, v) && CountsOk(g, v)
  }

  /** A full journal block has its list on flash, and reclaim blocks are empty. */
  ghost predicate Settled(g: Geometry, v: View)
    requires Shape(g, v) && JournalsOk(g, v)
  {
    && (forall k: nat {:trigger v.js[k]} :: k < 2 * g.J && v.js[k].page == g.M ==> v.blk[v.js[k].block][g.M].Programmed?)
    && (forall k: nat {:trigger v.js[k]} :: 2 * g.J <= k < 3 * g.J ==> v.js[k].page == 0)
  }

  // ---------------------------------------------------------------- appending a page

  /** The page an entry leaves becomes dirty. */
  function Bump(dirty: seq<nat>, e: Entry): (r: seq<nat>)
    ensures |r| == |dirty|
  {
    if e.At? && e.loc.block < |dirty| then dirty[e.loc.block := dirty[e.loc.block] + 1] else dirty
  }

  /** A page is written at the cursor of journal k, its spare words are noted in `row`, the
      address is remapped to it and the cursor moves on. */
  ghost function Append(g: Geometry, v: View, k: nat, row: nat, addr: nat, edition: nat, data: PageData): View
    requires Shape(g, v) && k < 3 * g.J && row < 2 * g.J && addr < g.cap
    requires v.js[k].block < g.U && v.js[k].page < g.M
  {
    var l := v.js[k];
    View(v.js[k := Loc(l.block, l.page + 1)],
         v.metas[row := v.metas[row][l.page := Words(addr, edition)]],
         v.pm[addr := At(l)],
         Bump(v.dirty, v.pm[addr]),
         Program(v.blk, l.block, l.page, Programmed(UserPage(data), Words(addr, edition))))
  }

  /** Row `row` is free to describe journal k. */
  ghost predicate RowFree(g: Geometry, v: View, k: nat, row: nat)
    requires Shape(g, v)
  {
    row < 2 * g.J && k < 3 * g.J
    && (row == k || (k >= 2 * g.J && v.js[row].block < g.U && v.js[row].block != v.js[k].block && v.blk[v.js[row].block][g.M].Programmed?))
  }

  ghost predicate Appendable(g: Geometry, v: View, k: nat, row: nat, addr: nat) {
    && Shape(g, v) && JournalsOk(g, v) && k < 3 * g.J && addr < g.cap
    && InData(g, v.js[k].block) && v.js[k].page < g.M
    && Filled(v.blk[v.js[k].block], v.js[k].page)
    && RowFree(g, v, k, row)
  }

  ghost predicate IsAppend(g: Geometry, v: View, w: View, k: nat, row: nat, addr: nat, edition: nat, data: PageData) {
    Appendable(g, v, k, row, addr) && w == Append(g, v, k, row, addr, edition, data)
  }

  /** The list on block b's last page gives addr for page p. */
  predicate Lists(g: Geometry, blk: seq<Block>, b: nat, p: nat, addr: nat) {
    && b < |blk| && g.M < |blk[b]| && blk[b][g.M].Programmed? && blk[b][g.M].content.DataList?
    && p < |blk[b][g.M].content.spares|
    && blk[b][g.M].content.spares[p].Words? && blk[b][g.M].content.spares[p].addr == addr
  }

  lemma AppendReady(g: Geometry, v: View, k: nat, row: nat, addr: nat)
    requires Shape(g, v) && JournalsOk(g, v) && k < 3 * g.J && addr < g.cap && v.js[k].page < g.M
    requires RowFree(g, v, k, row)
    ensures Appendable(g, v, k, row, addr)
  {
    assert JournalOk(g, v, k);
  }

  lemma AppendJournals(g: Geometry, v: View, k: nat, row: nat, addr: nat, edition: nat, data: PageData)
    requires Appendable(g, v, k, row, addr)
    ensures var w := Append(g, v, k, row, addr, edition, data); Shape(g, w) && JournalsOk(g, w)
  {
    var w := Append(g, v, k, row, addr, edition, data);
    ProgramFills(v.blk[v.js[k].block], v.js[k].page, Programmed(UserPage(data), Words(addr, edition)));
    forall i: nat | i < 3 * g.J
      ensures JournalOk(g, w, i)
    {
      assert JournalOk(g, v, i);
    }
  }

  lemma AppendPages(g: Geometry, v: View, k: nat, row: nat, addr: nat, edition: nat, data: PageData)
    requires Appendable(g, v, k, row, addr) && UserPagesOk(g, v) && ListsOk(g, v)
    ensures var w := Append(g, v, k, row, addr, edition, data);
            Shape(g, w) && UserPagesOk(g, w) && ListsOk(g, w)
  {
    hide JournalsOk;
    var w := Append(g, v, k, row, addr, edition, data);
    forall b | InData(g, b)
      ensures ListOk(g, w, b)
    {
      assert ListOk(g, v, b);
    }
  }

  lemma AppendRow(g: Geometry, v: View, k: nat, row: nat, addr: nat, edition: nat, data: PageData, i: nat)
    requires Appendable(g, v, k, row, addr) && i < 2 * g.J
    requires JournalOk(g, v, i) && (v.blk[v.js[i].block][g.M].Erased? ==> RowOk(g, v, i, i))
    requires i != k ==> v.js[i].block != v.js[k].block
    requires var w := Append(g, v, k, row, addr, edition, data);
             Shape(g, w) && JournalOk(g, w, i) && w.blk[w.js[i].block][g.M].Erased?
    ensures RowOk(g, Append(g, v, k, row, addr, edition, data), i, i)
  {
    hide JournalsOk;
    var w := Append(g, v, k, row, addr, edition, data);
  }

  lemma AppendRows(g: Geometry, v: View, k: nat, row: nat, addr: nat, edition: nat, data: PageData)
    requires Appendable(g, v, k, row, addr) && RowsOk(g, v)
    requires var w := Append(g, v, k, row, addr, edition, data); Shape(g, w) && JournalsOk(g, w)
    ensures RowsOk(g, Append(g, v, k, row, addr, edition, data))
  {
    var w := Append(g, v, k, row, addr, edition, data);
    forall i: nat | i < 2 * g.J && w.blk[w.js[i].block][g.M].Erased?
      ensures RowOk(g, w, i, i)
    {
      assert JournalOk(g, v, i) && JournalOk(g, w, i);
      AppendRow(g, v, k, row, addr, edition, data, i);
    }
  }

  lemma AppendMap(g: Geometry, v: View, k: nat, row: nat, addr: nat, edition: nat, data: PageData)
    requires Appendable(g, v, k, row, addr) && MapOk(g, v)
    ensures var w := Append(g, v, k, row, addr, edition, data);
            && Shape(g, w) && MapOk(g, w)
            && w.pm[addr].At? && DataAt(w.blk, w.pm[addr].loc) == data
            && forall a: nat :: a < g.cap && a != addr ==> SameRead(v, w, a)
  {
    hide JournalsOk;
    var w := Append(g, v, k, row, addr, edition, data);
    JournalsStay(v.js, w.js, k);
    forall a: nat | a < g.cap
      ensures EntryOk(g, w, a)
      ensures a != addr ==> SameRead(v, w, a)
    {
      assert EntryOk(g, v, a);
    }
  }

  /** Moving a cursor leaves the set of journal blocks alone. */
  lemma JournalsStay(js: seq<Loc>, ks: seq<Loc>, k: nat)
    requires k < |js| == |ks| && js[k].block == ks[k].block
    requires forall i :: 0 <= i < |js| && i != k ==> ks[i] == js[i]
    ensures forall b :: OnJournal(js, b) == OnJournal(ks, b)
    ensures OnJournal(ks, ks[k].block)
  {
    forall b
      ensures OnJournal(js, b) == OnJournal(ks, b)
    {
      if OnJournal(js, b) { var i :| 0 <= i < |js| && js[i].block == b; assert ks[i].block == b; }
      if OnJournal(ks, b) { var i :| 0 <= i < |ks| && ks[i].block == b; assert js[i].block == b; }
    }
  }

  lemma Remapped(v: View, w: View, addr: nat, e: Entry)
    requires addr < |v.pm| && w.pm == v.pm[addr := e]
    ensures forall b :: 0 <= b ==>
      Mapped(w, b) == Mapped(v, b) - (if v.pm[addr].At? && v.pm[addr].loc.block == b then 1 else 0)
                      + (if e.At? && e.loc.block == b then 1 else 0)
  {
    assert MapBlocks(w.pm) == MapBlocks(v.pm)[addr := if e.At? then e.loc.block else -1];
  }

  /** What a remapping does to one block's dirty count and to its mapped pages. */
  lemma Transfer(g: Geometry, v: View, w: View, addr: nat, e: Entry, b: nat)
    requires addr < |v.pm| && w.pm == v.pm[addr := e] && b < |v.dirty| && w.dirty == Bump(v.dirty, v.pm[addr])
    ensures w.dirty[b] + Mapped(w, b) == v.dirty[b] + Mapped(v, b) + (if e.At? && e.loc.block == b then 1 else 0)
  {
    Remapped(v, w, addr, e);
    hide Mapped;
  }

  lemma AppendCounts(g: Geometry, v: View, k: nat, row: nat, addr: nat, edition: nat, data: PageData)
    requires Appendable(g, v, k, row, addr) && CountsOk(g, v)
    requires var w := Append(g, v, k, row, addr, edition, data); Shape(g, w) && JournalsOk(g, w)
    ensures CountsOk(g, Append(g, v, k, row, addr, edition, data))
  {
    var w := Append(g, v, k, row, addr, edition, data);
    forall b: nat | b < g.U
      ensures w.dirty[b] + Mapped(w, b) == v.dirty[b] + Mapped(v, b) + (if v.js[k].block == b then 1 else 0)
    {
      Transfer(g, v, w, addr, At(v.js[k]), b);
    }
    JournalsStay(v.js, w.js, k);
    hide Mapped, OnJournal, Append;
    forall i: nat | i < 3 * g.J
      ensures w.dirty[w.js[i].block] + Mapped(w, w.js[i].block) == w.js[i].page
    {
      assert JournalOk(g, v, i);
    }
  }

  /** The block an address leaves has room for one more dirty page. */
  lemma Leaving(g: Geometry, v: View, addr: nat)
    requires Inv(g, v) && addr < g.cap && v.pm[addr].At?
    ensures InData(g, v.pm[addr].loc.block) && v.dirty[v.pm[addr].loc.block] < g.M
  {
    var b := v.pm[addr].loc.block;
    var s := MapBlocks(v.pm);
    assert EntryOk(g, v, addr);
    assert s[addr] == b;
    CountPositive(s, b);
    hide UserPagesOk, ListsOk, RowsOk, MapOk;
    if OnJournal(v.js, b) {
      var k: nat :| k < |v.js| && v.js[k].block == b;
      assert JournalOk(g, v, k);
    }
  }

  lemma AppendKeeps(g: Geometry, v: View, k: nat, row: nat, addr: nat, edition: nat, data: PageData)
    requires Inv(g, v) && Appendable(g, v, k, row, addr)
    ensures Inv(g, Append(g, v, k, row, addr, edition, data))
  {
    assert EntryOk(g, v, addr);
    AppendJournals(g, v, k, row, addr, edition, data);
    AppendPages(g, v, k, row, addr, edition, data);
    AppendRows(g, v, k, row, addr, edition, data);
    AppendMap(g, v, k, row, addr, edition, data);
    AppendCounts(g, v, k, row, addr, edition, data);
    hide JournalsOk, UserPagesOk, ListsOk, RowsOk, MapOk, CountsOk;
  }

  // ---------------------------------------------------------------- trimming, closing a block

  /** The address is unmapped. */
  function Trim(v: View, addr: nat): View
    requires addr < |v.pm|
  {
    v.(pm := v.pm[addr := Nowhere], dirty := Bump(v.dirty, v.pm[addr]))
  }

  lemma TrimCounts(g: Geometry, v: View, addr: nat)
    requires Shape(g, v) && JournalsOk(g, v) && CountsOk(g, v) && addr < g.cap
    ensures Shape(g, Trim(v, addr)) && JournalsOk(g, Trim(v, addr)) && CountsOk(g, Trim(v, addr))
  {
    var w := Trim(v, addr);
    forall b: nat | b < g.U
      ensures w.dirty[b] + Mapped(w, b) == v.dirty[b] + Mapped(v, b)
    {
      Transfer(g, v, w, addr, Nowhere, b);
    }
    hide Mapped, OnJournal;
    forall i: nat | i < 3 * g.J
      ensures JournalOk(g, w, i)
      ensures w.dirty[w.js[i].block] + Mapped(w, w.js[i].block) == w.js[i].page
    {
      assert JournalOk(g, v, i);
    }
  }

  lemma TrimKeeps(g: Geometry, v: View, addr: nat)
    requires Inv(g, v) && addr < g.cap
    ensures Inv(g, Trim(v, addr))
  {
    var w := Trim(v, addr);
    TrimCounts(g, v, addr);
    hide CountsOk, JournalsOk;
    assert ListsOk(g, w) by { forall b | InData(g, b) ensures ListOk(g, w, b) { assert ListOk(g, v, b); } }
    assert MapOk(g, w) by { forall a: nat | a < g.cap ensures EntryOk(g, w, a) { assert EntryOk(g, v, a); } }
    assert RowsOk(g, w) by { TrimRows(g, v, addr); }
  }

  lemma TrimRows(g: Geometry, v: View, addr: nat)
    requires Shape(g, v) && JournalsOk(g, v) && RowsOk(g, v) && addr < g.cap
    requires Shape(g, Trim(v, addr)) && JournalsOk(g, Trim(v, addr))
    ensures RowsOk(g, Trim(v, addr))
  {
    var w := Trim(v, addr);
    forall i: nat | i < 2 * g.J && w.blk[w.js[i].block][g.M].Erased?
      ensures RowOk(g, w, i, i)
    {
      assert RowOk(g, v, i, i);
    }
  }

  /** The list of a full journal block is written to its last page. */
  ghost function Close(g: Geometry, v: View, k: nat): View
    requires Shape(g, v) && k < 2 * g.J && v.js[k].block < g.U
  {
    v.(blk := Program(v.blk, v.js[k].block, g.M, Programmed(DataList(v.metas[k]), AllOnes)))
  }

  lemma CloseJournals(g: Geometry, v: View, k: nat)
    requires Shape(g, v) && JournalsOk(g, v) && k < 2 * g.J && v.js[k].page == g.M
    requires InData(g, v.js[k].block) && Filled(v.blk[v.js[k].block], g.M)
    ensures Shape(g, Close(g, v, k)) && JournalsOk(g, Close(g, v, k))
  {
    var w := Close(g, v, k);
    ProgramFills(v.blk[v.js[k].block], g.M, Programmed(DataList(v.metas[k]), AllOnes));
    forall i: nat | i < 3 * g.J
      ensures JournalOk(g, w, i)
    {
      assert JournalOk(g, v, i);
    }
  }

  lemma CloseLists(g: Geometry, v: View, k: nat)
    requires Shape(g, v) && k < 2 * g.J && v.js[k].page == g.M && UserPagesOk(g, v) && ListsOk(g, v) && MapOk(g, v)
    requires InData(g, v.js[k].block) && Filled(v.blk[v.js[k].block], g.M)
    requires JournalOk(g, v, k) && RowOk(g, v, k, k)
    ensures var w := Close(g, v, k);
            && Shape(g, w) && UserPagesOk(g, w) && ListsOk(g, w) && MapOk(g, w)
            && SameReads(v, w)
  {
    var w := Close(g, v, k);
    forall b | InData(g, b)
      ensures ListOk(g, w, b)
    {
      assert ListOk(g, v, b);
    }
    forall a: nat | a < g.cap
      ensures EntryOk(g, w, a)
      ensures SameRead(v, w, a)
    {
      assert EntryOk(g, v, a);
    }
  }

  lemma CloseRows(g: Geometry, v: View, k: nat)
    requires Shape(g, v) && JournalsOk(g, v) && RowsOk(g, v) && k < 2 * g.J && v.js[k].page == g.M
    requires InData(g, v.js[k].block) && Filled(v.blk[v.js[k].block], g.M)
    requires Shape(g, Close(g, v, k)) && JournalsOk(g, Close(g, v, k))
    ensures RowsOk(g, Close(g, v, k))
  {
    var w := Close(g, v, k);
    forall i: nat | i < 2 * g.J && w.blk[w.js[i].block][g.M].Erased?
      ensures RowOk(g, w, i, i)
    {
      assert JournalOk(g, v, i);
      assert RowOk(g, v, i, i);
    }
  }

  lemma CloseKeeps(g: Geometry, v: View, k: nat)
    requires Inv(g, v) && k < 2 * g.J && v.js[k].page == g.M && Filled(v.blk[v.js[k].block], g.M)
    ensures InData(g, v.js[k].block) && Inv(g, Close(g, v, k))
    ensures SameReads(v, Close(g, v, k))
  {
    assert JournalOk(g, v, k) && RowOk(g, v, k, k);
    CloseJournals(g, v, k);
    CloseLists(g, v, k);
    CloseRows(g, v, k);
    CountsDepend(g, v, Close(g, v, k));
    hide JournalsOk, UserPagesOk, ListsOk, RowsOk, MapOk, CountsOk;
  }

  lemma CountsDepend(g: Geometry, v: View, w: View)
    requires Shape(g, v) && JournalsOk(g, v) && CountsOk(g, v) && Shape(g, w) && JournalsOk(g, w)
    requires v.js == w.js && v.pm == w.pm && v.dirty == w.dirty
    ensures CountsOk(g, w)
  {
    assert forall b :: Mapped(v, b) == Mapped(w, b);
    hide Mapped;
  }

  // ---------------------------------------------------------------- the logical pages

  /** What a reader of the volume sees. */
  ghost function PagesOf(v: View, zero: PageData): (r: seq<PageData>)
    ensures |r| == |v.pm|
    ensures forall a :: 0 <= a < |v.pm| ==> r[a] == ReadEntry(v.blk, v.pm[a], zero)
  {
    seq(|v.pm|, a requires 0 <= a < |v.pm| => ReadEntry(v.blk, v.pm[a], zero))
  }

  lemma SamePages(v: View, w: View, zero: PageData)
    requires SameReads(v, w)
    ensures PagesOf(v, zero) == PagesOf(w, zero)
  {
    hide DataAt;
    forall a: nat | a < |v.pm|
      ensures PagesOf(v, zero)[a] == PagesOf(w, zero)[a]
    {
      assert SameRead(v, w, a);
    }
  }

  /** The address reads as the page written to it, or as zeros once trimmed; no other
      address reads differently. */
  ghost predicate Updated(v: View, w: View, addr: nat, data: Option<PageData>) {
    && |v.pm| == |w.pm| && addr < |v.pm|
    && w.pm[addr].At? == data.Some?
    && (data.Some? ==> DataAt(w.blk, w.pm[addr].loc) == data.value)
    && forall a: nat :: a < |v.pm| && a != addr ==> SameRead(v, w, a)
  }

  lemma UpdatedPages(v: View, w: View, addr: nat, data: Option<PageData>, zero: PageData)
    requires Updated(v, w, addr, data)
    ensures PagesOf(w, zero) == PagesOf(v, zero)[addr := if data.Some? then data.value else zero]
  {
    hide DataAt;
    forall a: nat | a < |v.pm| && a != addr
      ensures PagesOf(v, zero)[a] == PagesOf(w, zero)[a]
    {
      assert SameRead(v, w, a);
    }
  }

  lemma UpdatedThenSame(v: View, w: View, x: View, addr: nat, data: Option<PageData>)
    requires Updated(v, w, addr, data) && SameReads(w, x)
    ensures Updated(v, x, addr, data)
  {
    hide DataAt;
    assert SameRead(w, x, addr);
    forall a: nat | a < |v.pm| && a != addr
      ensures SameRead(v, x, a)
    {
      assert SameRead(v, w, a) && SameRead(w, x, a);
    }
  }

  lemma SameReadsRefl(v: View)
    ensures SameReads(v, v)
  {
  }

  lemma SameReadsTrans(v: View, w: View, x: View)
    requires SameReads(v, w) && SameReads(w, x)
    ensures SameReads(v, x)
  {
    hide DataAt;
    forall a: nat | a < |v.pm|
      ensures SameRead(v, x, a)
    {
      assert SameRead(v, w, a) && SameRead(w, x, a);
    }
  }

  /** Appending leaves settled journals settled, unless the block has just filled up. */
  lemma AppendSettled(g: Geometry, v: View, k: nat, addr: nat, edition: nat, data: PageData)
    requires Shape(g, v) && JournalsOk(g, v) && Settled(g, v) && k < 2 * g.J && Appendable(g, v, k, k, addr)
    requires var w := Append(g, v, k, k, addr, edition, data); Shape(g, w) && JournalsOk(g, w)
    ensures v.js[k].page + 1 < g.M ==> Settled(g, Append(g, v, k, k, addr, edition, data))
    ensures v.js[k].page + 1 == g.M ==>
              && Filled(Append(g, v, k, k, addr, edition, data).blk[v.js[k].block], g.M)
              && forall w :: w == Close(g, Append(g, v, k, k, addr, edition, data), k) && Shape(g, w) && JournalsOk(g, w) ==>
                   Settled(g, w)
  {
    var w := Append(g, v, k, k, addr, edition, data);
    hide RowFree;
    forall i: nat | i < 2 * g.J && i != k
      ensures w.js[i] == v.js[i] && w.blk[w.js[i].block] == v.blk[v.js[i].block]
    {
      assert v.js[i].block != v.js[k].block;
    }
  }

  /** A page write that leaves room in its block. */
  lemma AppendOutcome(g: Geometry, v: View, k: nat, addr: nat, edition: nat, data: PageData)
    requires Inv(g, v) && Settled(g, v) && k < 2 * g.J && Appendable(g, v, k, k, addr)
    ensures var w := Append(g, v, k, k, addr, edition, data);
            && Inv(g, w) && Updated(v, w, addr, Some(data))
            && (v.js[k].page + 1 < g.M ==> Settled(g, w))
  {
    AppendKeeps(g, v, k, k, addr, edition, data);
    AppendMap(g, v, k, k, addr, edition, data);
    hide UserPagesOk, ListsOk, RowsOk, MapOk, CountsOk, DataAt;
    AppendSettled(g, v, k, addr, edition, data);
    hide JournalsOk, Settled, Appendable;
  }

  /** A page write that fills its block, whose list is then written. */
  lemma FillOutcome(g: Geometry, v: View, k: nat, addr: nat, edition: nat, data: PageData)
    requires Inv(g, v) && Settled(g, v) && k < 2 * g.J && Appendable(g, v, k, k, addr) && v.js[k].page + 1 == g.M
    ensures var w := Append(g, v, k, k, addr, edition, data);
            && Inv(g, w) && w.js[k] == Loc(v.js[k].block, g.M)
            && InData(g, v.js[k].block) && |w.blk[v.js[k].block]| == g.P && Filled(w.blk[v.js[k].block], g.M)
            && Inv(g, Close(g, w, k)) && Settled(g, Close(g, w, k)) && Updated(v, Close(g, w, k), addr, Some(data))
  {
    hide UserPagesOk, ListsOk, RowsOk, MapOk, CountsOk, DataAt, Updated, SameReads;
    AppendOutcome(g, v, k, addr, edition, data);
    var w := Append(g, v, k, k, addr, edition, data);
    AppendSettled(g, v, k, addr, edition, data);
    hide Settled, JournalsOk, Filled;
    CloseKeeps(g, w, k);
    UpdatedThenSame(v, w, Close(g, w, k), addr, Some(data));
  }

  /** The whole effect of DATA_Write with a buffer. */
  ghost function Written(g: Geometry, v: View, k: nat, addr: nat, edition: nat, data: PageData): View
    requires Inv(g, v) && k < 2 * g.J && Appendable(g, v, k, k, addr)
  {
    AppendKeeps(g, v, k, k, addr, edition, data);
    var w := Append(g, v, k, k, addr, edition, data);
    if v.js[k].page + 1 == g.M then Close(g, w, k) else w
  }

  lemma WrittenOutcome(g: Geometry, v: View, k: nat, addr: nat, edition: nat, data: PageData)
    requires Inv(g, v) && Settled(g, v) && k < 2 * g.J && Appendable(g, v, k, k, addr)
    ensures var w := Written(g, v, k, addr, edition, data);
            && Inv(g, w) && Settled(g, w) && Updated(v, w, addr, Some(data))
            && w.js == v.js[k := Loc(v.js[k].block, v.js[k].page + 1)]
  {
    hide UserPagesOk, ListsOk, RowsOk, MapOk, CountsOk, DataAt, Updated, Settled, JournalsOk, Filled;
    AppendOutcome(g, v, k, addr, edition, data);
    if v.js[k].page + 1 == g.M {
      FillOutcome(g, v, k, addr, edition, data);
    }
  }

  /** A trim. */
  lemma TrimOutcome(g: Geometry, v: View, addr: nat)
    requires Inv(g, v) && Settled(g, v) && addr < g.cap
    ensures Inv(g, Trim(v, addr)) && Settled(g, Trim(v, addr)) && Updated(v, Trim(v, addr), addr, None)
  {
    TrimKeeps(g, v, addr);
    hide UserPagesOk, ListsOk, RowsOk, MapOk, CountsOk, DataAt;
  }
}
