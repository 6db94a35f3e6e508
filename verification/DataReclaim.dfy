/** DATA_Reclaim: garbage collection of the data region. */
module DataReclaim {
  import opened Geometry
  import opened Flash
  import opened Counting
  import D = DataSpec
  import R = Reclaim
  import V = Victims
  import PmtSpec
  import PageMap
  import opened FtlState
  import opened Logs
  import opened Commit
  import opened Data

  // ---------------------------------------------------------------- reading through the page map

  /** UBI_Read of a data page. */
  method ReadData(s: Ftl, b: nat, p: nat) returns (c: Cell)
    requires Ready(s) && Arrays(s) && InData(s.g, b) && p < s.g.P
    modifies s.ubi.Repr
    ensures Ready(s) && Arrays(s) && s.Data() == old(s.Data()) && s.root == old(s.root) && Edition(s, true) == old(Edition(s, true))
    ensures Edition(s, false) == old(Edition(s, false)) && s.ubi.blk == old(s.ubi.blk) && s.listed == old(s.listed)
    ensures |s.Data().blk| == s.g.U && p < |s.Data().blk[b]| && c == s.Data().blk[b][p]
  {
    hide PmtSpec.Stable, LogsOk, PageMap.MapOf, DataDirty;
    c := s.ubi.Read(b, p);
    assert s.Pmt() == old(s.Pmt());
  }

  /** PMT_Search, seen from the data region. */
  method SearchMap(s: Ftl, addr: nat) returns (e: Entry)
    requires Ready(s) && Arrays(s) && addr < s.g.cap && (s.listKept || Roomy(s, PageMap.ClusterIndex(s.g, addr)))
    modifies s, s.ubi.Repr
    ensures Ready(s) && Arrays(s) && s.Data() == old(s.Data())
    ensures |s.Data().pm| == s.g.cap && e == s.Data().pm[addr]
    ensures if old(Roomy(s, PageMap.ClusterIndex(s.g, addr))) then Calm(s, PageMap.ClusterIndex(s.g, addr), 0, 0) else Saved(s, s.Data())
  {
    hide PmtSpec.Stable, LogsOk, PageMap.MapOf, DataBlocks, DataDirty, DataKept, Saved;
    ShapeOf(s);
    e := PmtSearch(s, addr);
    ShapeOf(s);
    DataKeptMasks(s);
  }

  lemma ShapeOf(s: Ftl)
    requires Ready(s)
    ensures |s.ubi.blk| == s.g.U && |s.dirty| >= s.g.U
  {
  }

  // ---------------------------------------------------------------- copying

  /** A live page goes to the reclaim block: write, remap, note its spare words, advance. */
  method CopyLive(s: Ftl, isHot: bool, j: nat, addr: nat, data: PageData, n: nat, ghost v: D.View, ghost k: nat)
    requires s.listKept
    requires D.Appendable(s.g, v, 2 * s.g.J + j, k, addr)
    requires v.pm[addr].At? ==> InData(s.g, v.pm[addr].loc.block) && v.dirty[v.pm[addr].loc.block] < s.g.M
    requires Ready(s) && Arrays(s) && v == s.Data() && j < s.g.J && k == Off(s.g, isHot) + j
    modifies s, s.ubi.Repr
    ensures Ready(s) && Arrays(s)
    ensures D.IsAppend(s.g, v, s.Data(), 2 * s.g.J + j, k, addr, n, data)
  {
    hide Ready, Ftl.Data, Ftl.Map, D.JournalsOk, D.IsAppend, D.RowFree, Filled, Shaped, Saved, Calm, Roomy, InCache;
    var l := ReclaimOf(s, j);
    ProgramData(s, l.block, l.page, UserPage(data), Words(addr, n));
    UpdateMap(s, addr, At(l));
    SetSpare(s, isHot, j, l.page, Words(addr, n));
    SetReclaim(s, j, Loc(l.block, l.page + 1));
    AppendIs(s.g, v, s.Data(), 2 * s.g.J + j, k, addr, n, data);
  }

  function ReclaimOf(s: Ftl, j: nat): (l: Loc)
    requires Arrays(s) && j < s.g.J
    reads s
    ensures l == s.Data().js[2 * s.g.J + j]
  {
    s.root.reclaim[j]
  }

  /** One page of the copy loop: the page is live exactly when the page map still sends its
      listed address to it. */
  method CopyOnePage(s: Ftl, isHot: bool, ghost d0: seq<nat>, vs: seq<nat>, j: nat, page: nat, addr: nat, n: nat,
                     ghost v: D.View, ghost t: nat) returns (copied: bool)
    requires s.listKept
    requires R.Copying(s.g, v, d0, t, vs, j, page) && j < |vs| && j < s.g.J && page < s.g.M && addr < s.g.cap
    requires D.Lists(s.g, v.blk, vs[j], page, addr) && t == Off(s.g, isHot)
    requires Ready(s) && Arrays(s) && v == s.Data()
    modifies s, s.ubi.Repr
    ensures Ready(s) && Arrays(s) && R.Copying(s.g, s.Data(), d0, t, vs, j, page + 1)
    ensures D.SameReads(v, s.Data())
    ensures if copied then R.IsCopy(s.g, v, s.Data(), t, vs, j, page, addr, n) else s.Data() == v
  {
    hide Ready, Ftl.Data, R.Copying, D.SameReads, D.Appendable, D.Lists, Saved, Calm, Roomy;
    var e := SearchMap(s, addr);
    copied := e == At(Loc(vs[j], page));
    if copied {
      R.CopyKeeps(s.g, v, d0, t, vs, j, page, addr, n);
      R.CopyFacts(s.g, v, d0, t, vs, j, page, addr);
      var cell := ReadData(s, vs[j], page);
      CopyLive(s, isHot, j, addr, cell.content.data, n, v, t + j);
    } else {
      R.SkipKeeps(s.g, v, d0, t, vs, j, page, addr);
      D.SameReadsRefl(v);
    }
  }

  /** The live pages of the first n victims, from the dirty counts the reclaim began with. */
  function ValidPages(m: nat, d0: seq<nat>, vs: seq<nat>, n: nat): nat
    requires n <= |vs| && forall i :: 0 <= i < |vs| ==> vs[i] < |d0| && d0[vs[i]] <= m
  {
    if n == 0 then 0 else ValidPages(m, d0, vs, n - 1) + (m - d0[vs[n - 1]])
  }

  /** The cursor of entry k. */
  ghost function PageOf(v: D.View, k: nat): nat {
    if k < |v.js| then v.js[k].page else 0
  }

  /** The hot and cold journals are where they were. */
  ghost predicate JournalsKept(g: Geometry, v: D.View, w: D.View) {
    |v.js| == |w.js| == 3 * g.J && forall k :: 0 <= k < 2 * g.J ==> w.js[k] == v.js[k]
  }

  /** The last page of block b can be read. */
  ghost predicate LastReadable(g: Geometry, v: D.View, b: nat) {
    b < |v.blk| && g.M < |v.blk[b]| && v.blk[b][g.M].Programmed?
  }

  /** The copy loop over one victim.  A victim whose last page was never written is passed over
      with a failure status, which the next victim's read replaces. */
  method CopyVictim(s: Ftl, isHot: bool, ghost d0: seq<nat>, vs: seq<nat>, j: nat, n0: nat, ghost t: nat)
    returns (n: nat, ok: bool)
    requires s.listKept
    requires j < |vs| && j < s.g.J && t == Off(s.g, isHot)
    requires Ready(s) && Arrays(s) && R.Copying(s.g, s.Data(), d0, t, vs, j, 0)
    requires PageOf(s.Data(), 2 * s.g.J + j) == 0
    modifies s, s.ubi.Repr
    ensures Ready(s) && Arrays(s) && R.Copying(s.g, s.Data(), d0, t, vs, j, s.g.M)
    ensures D.SameReads(old(s.Data()), s.Data())
    ensures n == n0 + PageOf(s.Data(), 2 * s.g.J + j)
    ensures ok <==> LastReadable(s.g, old(s.Data()), vs[j])
    ensures R.Untouched(old(s.Data().blk), s.Data().blk, vs)
    ensures JournalsKept(s.g, old(s.Data()), s.Data())
  {
    hide Ready, Ftl.Data, R.Copying, D.SameReads;
    ghost var v := s.Data();
    R.CopyStart(s.g, v, d0, t, vs, j, 0);
    D.SameReadsRefl(v);
    var cell := ReadData(s, vs[j], s.g.M);
    n, ok := n0, cell.Programmed?;
    if !ok {
      R.UnlistedKeeps(s.g, v, d0, t, vs, j);
    } else {
      n := CopyPages(s, isHot, d0, vs, j, n0, t, cell.content.spares);
    }
  }

  method CopyPages(s: Ftl, isHot: bool, ghost d0: seq<nat>, vs: seq<nat>, j: nat, n0: nat, ghost t: nat, list: seq<Spare>)
    returns (n: nat)
    requires s.listKept
    requires j < |vs| && j < s.g.J && t == Off(s.g, isHot) && |list| == s.g.P
    requires forall p: nat :: p < s.g.M ==> list[p].Words? && list[p].addr < s.g.cap
    requires Ready(s) && Arrays(s) && R.Copying(s.g, s.Data(), d0, t, vs, j, 0)
    requires PageOf(s.Data(), 2 * s.g.J + j) == 0
    requires Listing(s, vs[j], list)
    modifies s, s.ubi.Repr
    ensures Ready(s) && Arrays(s) && R.Copying(s.g, s.Data(), d0, t, vs, j, s.g.M)
    ensures D.SameReads(old(s.Data()), s.Data())
    ensures n == n0 + PageOf(s.Data(), 2 * s.g.J + j) && R.Untouched(old(s.Data().blk), s.Data().blk, vs)
    ensures JournalsKept(s.g, old(s.Data()), s.Data())
  {
    hide Ready, Ftl.Data, R.Copying, D.SameReads, R.IsCopy;
    ghost var v0 := s.Data();
    D.SameReadsRefl(v0);
    n := n0;
    var page := 0;
    while page < s.g.M
      invariant page <= s.g.M && Ready(s) && Arrays(s)
      invariant R.Copying(s.g, s.Data(), d0, t, vs, j, page)
      invariant D.SameReads(v0, s.Data())
      invariant n == n0 + PageOf(s.Data(), 2 * s.g.J + j) && Listing(s, vs[j], list)
      invariant R.Untouched(v0.blk, s.Data().blk, vs) && JournalsKept(s.g, v0, s.Data())
    {
      ghost var v := s.Data();
      var copied := CopyOnePage(s, isHot, d0, vs, j, page, list[page].addr, n, v, t);
      D.SameReadsTrans(v0, v, s.Data());
      if copied {
        R.CopyEffects(s.g, v, s.Data(), d0, t, vs, j, page, list[page].addr, n);
        n := n + 1;
      }
      page := page + 1;
    }
  }

  ghost predicate Listing(s: Ftl, b: nat, list: seq<Spare>)
    reads s, s.ubi
  {
    && b < |s.Data().blk| && s.g.M < |s.Data().blk[b]|
    && s.Data().blk[b][s.g.M].Programmed? && s.Data().blk[b][s.g.M].content == DataList(list)
  }

  ghost predicate Sums(g: Geometry, d0: seq<nat>, vs: seq<nat>) {
    |vs| == g.J && forall i :: 0 <= i < |vs| ==> vs[i] < |d0| && d0[vs[i]] <= g.M
  }

  /** The copy loop over all victims: exactly the pages counted as live are copied, and the
      last victim's list is readable. */
  method CopyVictims(s: Ftl, isHot: bool, ghost d0: seq<nat>, vs: seq<nat>, ghost t: nat) returns (n: nat, ok: bool)
    requires s.listKept
    requires t == Off(s.g, isHot) && Sums(s.g, d0, vs) && |vs| == s.g.J
    requires Ready(s) && Arrays(s) && R.Copying(s.g, s.Data(), d0, t, vs, 0, 0)
    requires s.Data().js[2 * s.g.J].page == 0
    requires LastListed(s, vs)
    modifies s, s.ubi.Repr
    ensures Ready(s) && Arrays(s) && R.Copying(s.g, s.Data(), d0, t, vs, s.g.J, 0)
    ensures D.SameReads(old(s.Data()), s.Data())
    ensures n == ValidPages(s.g.M, d0, vs, s.g.J) && ok
    ensures forall k :: 0 <= k < 2 * s.g.J ==> s.Data().js[k] == old(s.Data().js)[k]
  {
    hide Ready, Ftl.Data, R.Copying, D.SameReads;
    ghost var v0 := s.Data();
    D.SameReadsRefl(v0);
    n, ok := 0, true;
    var j := 0;
    while j < s.g.J
      invariant j <= s.g.J && Ready(s) && Arrays(s) && R.Copying(s.g, s.Data(), d0, t, vs, j, 0)
      invariant (j < s.g.J ==> s.Data().js[2 * s.g.J + j].page == 0) && LastListed(s, vs)
      invariant D.SameReads(v0, s.Data()) && n == ValidPages(s.g.M, d0, vs, j)
      invariant j == s.g.J ==> ok
      invariant forall k :: 0 <= k < 2 * s.g.J ==> s.Data().js[k] == v0.js[k]
    {
      ghost var v := s.Data();
      n, ok := CopyVictim(s, isHot, d0, vs, j, n, t);
      D.SameReadsTrans(v0, v, s.Data());
      R.NextVictim(s.g, s.Data(), d0, t, vs, j);
      j := j + 1;
    }
  }

  /** The last page of the last victim can be read. */
  ghost predicate LastListed(s: Ftl, vs: seq<nat>)
    reads s, s.ubi
  {
    |vs| == s.g.J && var b := vs[s.g.J - 1];
    b < |s.Data().blk| && s.g.M < |s.Data().blk[b]| && s.Data().blk[b][s.g.M].Programmed?
  }

  // ---------------------------------------------------------------- the two endings

  /** The blocks to erase are data blocks, and the reclaim blocks have no dirty page. */
  ghost predicate Erasable(g: Geometry, v: D.View, vs: seq<nat>) {
    && |vs| == g.J && |v.js| == 3 * g.J && |v.dirty| == g.U && |v.blk| == g.U
    && (forall i :: 0 <= i < g.J ==> InData(g, vs[i]))
    && (forall k :: 2 * g.J <= k < 3 * g.J ==> InData(g, v.js[k].block) && v.dirty[v.js[k].block] == 0)
  }

  /** The data region after the j-th victim is exchanged. */
  ghost function Exchanged(g: Geometry, w: D.View, vs: seq<nat>, j: nat, t: nat, r: Loc): D.View
    requires |vs| == g.J && j < g.J && |w.js| == 3 * g.J && t <= 2 * g.J && |w.blk| == |w.dirty| == g.U && vs[j] < g.U
  {
    w.(blk := w.blk[vs[j] := Blank(g.P)], js := w.js[t + j := r][2 * g.J + j := Loc(vs[j], 0)], dirty := w.dirty[vs[j] := 0])
  }

  ghost predicate Exchanging(g: Geometry, v: D.View, w: D.View, vs: seq<nat>, j: nat, t: nat) {
    j <= g.J && |vs| == g.J && R.WipedTo(g, v, w, vs, j) && R.RotatedTo(g, v.js, w.js, t, vs, j)
  }

  lemma ExchangeStep(g: Geometry, v: D.View, w: D.View, vs: seq<nat>, j: nat, t: nat)
    requires Exchanging(g, v, w, vs, j, t) && Erasable(g, v, vs) && j < g.J
    ensures InData(g, vs[j]) && |w.js| == 3 * g.J && InData(g, w.js[2 * g.J + j].block) && t <= 2 * g.J
    ensures |w.blk| == |w.dirty| == g.U && w.dirty[w.js[2 * g.J + j].block] == 0
    ensures Exchanging(g, v, Exchanged(g, w, vs, j, t, w.js[2 * g.J + j]), vs, j + 1, t)
  {
    R.RotatedStep(g, v.js, w.js, t, vs, j);
    R.WipedStep(g, v, w, Exchanged(g, w, vs, j, t, w.js[2 * g.J + j]), vs, j);
  }

  /** One victim is erased and becomes a reclaim block; its reclaim block becomes a journal. */
  method RotateOne(s: Ftl, isHot: bool, vs: seq<nat>, j: nat, ghost v: D.View, ghost t: nat)
    requires Ready(s) && Arrays(s) && j < s.g.J && t == Off(s.g, isHot) && Erasable(s.g, v, vs)
    requires Exchanging(s.g, v, s.Data(), vs, j, t)
    modifies s, s.ubi.Repr
    ensures Ready(s) && Arrays(s) && Exchanging(s.g, v, s.Data(), vs, j + 1, t)
  {
    hide Ready, Ftl.Data, Erasable, Exchanging;
    ghost var w := s.Data();
    ExchangeStep(s.g, v, w, vs, j, t);
    var r := ReclaimOf(s, j);
    EraseBlock(s, vs[j], j);
    Exchange(s, isHot, vs[j], j, r);
    ZeroBoth(s, vs[j], r.block);
    assert s.Data() == Exchanged(s.g, w, vs, j, t, r);
  }

  ghost function TwoSet(js: seq<Loc>, i: nat, a: Loc, k: nat, b: Loc): seq<Loc> {
    if i < |js| && k < |js| then js[i := a][k := b] else js
  }

  /** The reclaim block becomes the journal, and the victim the reclaim block. */
  method Exchange(s: Ftl, isHot: bool, victim: nat, j: nat, r: Loc)
    requires Ready(s) && Arrays(s) && j < s.g.J
    modifies s`root
    ensures Ready(s) && Arrays(s)
    ensures s.Data() == old(s.Data()).(js := TwoSet(old(s.Data().js), Off(s.g, isHot) + j, r, 2 * s.g.J + j, Loc(victim, 0)))
  {
    hide Ready, Ftl.Data;
    SetJournal(s, isHot, j, r);
    SetReclaim(s, j, Loc(victim, 0));
  }

  method EraseBlock(s: Ftl, b: nat, die: nat)
    requires Ready(s) && Arrays(s) && InData(s.g, b)
    modifies s.ubi.Repr
    ensures Ready(s) && Arrays(s)
    ensures |old(s.Data().blk)| == s.g.U && s.Data() == old(s.Data()).(blk := old(s.Data().blk)[b := Blank(s.g.P)])
  {
    hide Ready, PageMap.MapOf, DataDirty;
    EraseData(s, b, die);
  }

  method ZeroDirty(s: Ftl, b: nat)
    requires Ready(s) && Arrays(s) && InData(s.g, b)
    modifies s`dirty
    ensures Ready(s) && Arrays(s)
    ensures |old(s.Data().dirty)| == s.g.U && s.Data() == old(s.Data()).(dirty := old(s.Data().dirty)[b := 0])
  {
    hide Ready, PageMap.MapOf, DataBlocks;
    ClearDirty(s, b);
  }

  /** The dirty counts of the victim and of the reclaim block, which has none. */
  method ZeroBoth(s: Ftl, b: nat, r: nat)
    requires Ready(s) && Arrays(s) && InData(s.g, b) && InData(s.g, r) && |s.Data().dirty| == s.g.U && s.Data().dirty[r] == 0
    modifies s`dirty
    ensures Ready(s) && Arrays(s)
    ensures |old(s.Data().dirty)| == s.g.U && s.Data() == old(s.Data()).(dirty := old(s.Data().dirty)[b := 0])
  {
    hide Ready, Ftl.Data;
    ghost var w := s.Data();
    ZeroDirty(s, b);
    ZeroDirty(s, r);
    assert s.Data().dirty == w.dirty[b := 0];
  }

  /** One victim is erased and becomes a journal at once. */
  method RecycleOne(s: Ftl, isHot: bool, vs: seq<nat>, j: nat, ghost v: D.View, ghost t: nat)
    requires Ready(s) && Arrays(s) && j < s.g.J && t == Off(s.g, isHot) && |vs| == s.g.J && InData(s.g, vs[j])
    requires R.WipedTo(s.g, v, s.Data(), vs, j) && R.RecycledTo(s.g, v.js, s.Data().js, t, vs, j)
    modifies s, s.ubi.Repr
    ensures Ready(s) && Arrays(s)
    ensures R.WipedTo(s.g, v, s.Data(), vs, j + 1) && R.RecycledTo(s.g, v.js, s.Data().js, t, vs, j + 1)
  {
    hide Ready, Ftl.Data;
    ghost var w := s.Data();
    R.RecycledStep(s.g, v.js, w.js, t, vs, j);
    hide R.RecycledTo;
    EraseBlock(s, vs[j], j);
    SetJournal(s, isHot, j, Loc(vs[j], 0));
    ZeroDirty(s, vs[j]);
    R.WipedStep(s.g, v, w, s.Data(), vs, j);
  }

  /** Victims erased, journals rotated. */
  method RotateAll(s: Ftl, isHot: bool, vs: seq<nat>, ghost t: nat, ghost v: D.View)
    requires Ready(s) && Arrays(s) && t == Off(s.g, isHot) && v == s.Data() && Erasable(s.g, v, vs)
    modifies s, s.ubi.Repr
    ensures Ready(s) && Arrays(s)
    ensures R.WipedTo(s.g, v, s.Data(), vs, s.g.J) && s.Data().js == R.RotateJs(s.g, v.js, t, vs)
  {
    hide Ready, Ftl.Data;
    var j := 0;
    assert Exchanging(s.g, v, s.Data(), vs, 0, t);
    while j < s.g.J
      invariant j <= s.g.J && Ready(s) && Arrays(s) && Exchanging(s.g, v, s.Data(), vs, j, t)
    {
      RotateOne(s, isHot, vs, j, v, t);
      j := j + 1;
    }
    R.RotatedAll(s.g, v.js, s.Data().js, t, vs);
  }

  method RecycleAll(s: Ftl, isHot: bool, vs: seq<nat>, ghost t: nat, ghost v: D.View)
    requires Ready(s) && Arrays(s) && t == Off(s.g, isHot) && v == s.Data() && |vs| == s.g.J
    requires |v.dirty| == |v.blk| == s.g.U && forall i :: 0 <= i < s.g.J ==> InData(s.g, vs[i])
    modifies s, s.ubi.Repr
    ensures Ready(s) && Arrays(s)
    ensures R.WipedTo(s.g, v, s.Data(), vs, s.g.J) && s.Data().js == R.RecycleJs(s.g, v.js, t, vs)
  {
    hide Ready, Ftl.Data;
    var j := 0;
    while j < s.g.J
      invariant j <= s.g.J && Ready(s) && Arrays(s)
      invariant R.WipedTo(s.g, v, s.Data(), vs, j) && R.RecycledTo(s.g, v.js, s.Data().js, t, vs, j)
    {
      RecycleOne(s, isHot, vs, j, v, t);
      j := j + 1;
    }
    R.RecycledAll(s.g, v.js, s.Data().js, t, vs);
  }

  // ---------------------------------------------------------------- DATA_Reclaim

  /** No journal of the set is full. */
  ghost predicate Renewed(g: Geometry, js: seq<Loc>, t: nat) {
    |js| == 3 * g.J && R.Offset(g, t) && forall k :: t <= k < t + g.J ==> js[k].page < g.M
  }

  /** The victims are the next reclaim blocks. */
  ghost predicate VictimsNext(g: Geometry, js: seq<Loc>, vs: seq<nat>) {
    |js| == 3 * g.J && |vs| == g.J && forall i :: 0 <= i < g.J ==> js[2 * g.J + i] == Loc(vs[i], 0)
  }

  /** What becomes of the full set: its victims vs are the dirtiest blocks there are; n of their pages
      are live.  If there are any, the victims are the next reclaim blocks, and each journal of the
      set has the live pages of one victim; otherwise the victims are the set. */
  ghost predicate Outcome(g: Geometry, v: D.View, js: seq<Loc>, t: nat, vs: seq<nat>, n: nat) {
    && R.Offset(g, t) && |v.js| == 3 * g.J && |v.dirty| == g.U && R.Victims(g, v.js, v.dirty, t, vs) && |vs| == g.J
    && n == LivePages(v, vs, g.J) && R.Refilled(g, js, v.dirty, t, vs)
    && if n > 0 then VictimsNext(g, js, vs) else js == R.RecycleJs(g, v.js, t, vs)
  }

  /** The ending that copies: the pages copied are exactly the pages counted as live. */
  method CopyAndRotate(s: Ftl, isHot: bool, vs: seq<nat>, ghost t: nat, ghost v: D.View) returns (n: nat)
    requires s.listKept
    requires Ready(s) && Arrays(s) && v == s.Data() && t == Off(s.g, isHot)
    requires D.Inv(s.g, v) && R.JournalFull(s.g, v, t) && R.Victims(s.g, v.js, v.dirty, t, vs)
    requires |v.dirty| == s.g.U && v.dirty[vs[s.g.J - 1]] < s.g.M
    modifies s, s.ubi.Repr
    ensures Consistent(s) && D.Settled(s.g, s.Data()) && D.SameReads(v, s.Data())
    ensures Renewed(s.g, s.Data().js, t) && OtherKept(s.g, v, s.Data(), isHot)
    ensures R.Refilled(s.g, s.Data().js, v.dirty, t, vs) && VictimsNext(s.g, s.Data().js, vs)
    ensures Sums(s.g, v.dirty, vs) && n == ValidPages(s.g.M, v.dirty, vs, s.g.J)
  {
    hide Ready, Ftl.Data, D.Inv, D.SameReads, D.Settled, R.Copying, D.JournalsOk;
    R.CopyBegins(s.g, v, t, vs);
    R.LastVictimListed(s.g, v, t, vs);
    VictimSums(s.g, v, t, vs);
    assert D.Shape(s.g, v);
    hide R.Victims, R.JournalFull;
    var ok;
    n, ok := CopyVictims(s, isHot, v.dirty, vs, t);
    ghost var w := s.Data();
    RotatePhase(s, isHot, vs, t, w, v.dirty);
    D.SameReadsTrans(v, w, s.Data());
  }

  method RotatePhase(s: Ftl, isHot: bool, vs: seq<nat>, ghost t: nat, ghost w: D.View, ghost d0: seq<nat>)
    requires Ready(s) && Arrays(s) && w == s.Data() && t == Off(s.g, isHot)
    requires R.Copying(s.g, w, d0, t, vs, s.g.J, 0)
    modifies s, s.ubi.Repr
    ensures Consistent(s) && D.Settled(s.g, s.Data()) && D.SameReads(w, s.Data())
    ensures Renewed(s.g, s.Data().js, t) && OtherKept(s.g, w, s.Data(), isHot)
    ensures R.Refilled(s.g, s.Data().js, d0, t, vs) && VictimsNext(s.g, s.Data().js, vs)
  {
    hide Ready, Ftl.Data, D.Inv, D.SameReads, D.Settled, R.Copying, R.Refilled, Renewed, VictimsNext;
    R.CopyingErasable(s.g, w, d0, t, vs);
    RotateAll(s, isHot, vs, t, w);
    R.WipedAll(s.g, w, s.Data(), vs);
    hide R.WipedTo, R.Wiped;
    R.RotateKeeps(s.g, w, s.Data(), d0, t, vs);
    RotatedRoom(s.g, s.Data().js, d0, t, vs);
    RotatedNext(s.g, w.js, t, vs);
  }

  lemma RotatedRoom(g: Geometry, js: seq<Loc>, d0: seq<nat>, t: nat, vs: seq<nat>)
    requires R.Refilled(g, js, d0, t, vs) && R.Offset(g, t)
    ensures Renewed(g, js, t)
  {
    R.RefilledRoom(g, js, d0, t, vs);
  }

  lemma RotatedNext(g: Geometry, js: seq<Loc>, t: nat, vs: seq<nat>)
    requires R.Offset(g, t) && |js| == 3 * g.J && |vs| == g.J
    ensures VictimsNext(g, R.RotateJs(g, js, t, vs), vs)
  {
  }

  lemma VictimSums(g: Geometry, v: D.View, t: nat, vs: seq<nat>)
    requires D.Inv(g, v) && R.Offset(g, t) && R.Victims(g, v.js, v.dirty, t, vs) && |v.dirty| == g.U
    ensures Sums(g, v.dirty, vs) && |v.js| == 3 * g.J && forall i :: 0 <= i < g.J ==> InData(g, vs[i])
  {
    R.DirtyBounded(g, v);
  }

  lemma {:induction false} NothingValid(m: nat, d0: seq<nat>, vs: seq<nat>, n: nat)
    requires n <= |vs| && forall i :: 0 <= i < |vs| ==> vs[i] < |d0| && d0[vs[i]] <= m
    ensures ValidPages(m, d0, vs, n) == 0 <==> forall i :: 0 <= i < n ==> d0[vs[i]] == m
  {
    if n > 0 {
      NothingValid(m, d0, vs, n - 1);
    }
  }

  /** total_valid_page. */
  method CountValid(g: Geometry, dirty: seq<nat>, vs: seq<nat>) returns (total: nat)
    requires Sums(g, dirty, vs)
    ensures total == ValidPages(g.M, dirty, vs, g.J)
  {
    total := 0;
    var i := 0;
    while i < g.J
      invariant i <= g.J && total == ValidPages(g.M, dirty, vs, i)
    {
      total := total + (g.M - dirty[vs[i]]);
      i := i + 1;
    }
  }

  /** The addresses mapped into the first n victims. */
  ghost function LivePages(v: D.View, vs: seq<nat>, n: nat): nat
    requires n <= |vs|
  {
    if n == 0 then 0 else LivePages(v, vs, n - 1) + D.Mapped(v, vs[n - 1])
  }

  /** What CountValid adds up is the number of live pages in the victims. */
  lemma {:induction false} ValidAreLive(g: Geometry, v: D.View, t: nat, vs: seq<nat>, n: nat)
    requires R.JournalFull(g, v, t) && D.Inv(g, v) && R.Victims(g, v.js, v.dirty, t, vs) && Sums(g, v.dirty, vs) && n <= g.J
    ensures ValidPages(g.M, v.dirty, vs, n) == LivePages(v, vs, n)
  {
    hide D.Mapped, D.CountsOk, R.JournalFull, D.JournalsOk, D.UserPagesOk, D.ListsOk, D.RowsOk, D.MapOk;
    if n > 0 {
      ValidAreLive(g, v, t, vs, n - 1);
      R.VictimCounts(g, v, t, vs[n - 1]);
    }
  }

  lemma {:induction false} SameSum(m: nat, d: seq<nat>, e: seq<nat>, vs: seq<nat>, n: nat)
    requires n <= |vs| && forall i :: 0 <= i < |vs| ==> vs[i] < |d| && d[vs[i]] <= m && vs[i] < |e| && e[vs[i]] == d[vs[i]]
    ensures ValidPages(m, d, vs, n) == ValidPages(m, e, vs, n)
  {
    if n > 0 {
      SameSum(m, d, e, vs, n - 1);
    }
  }

  /** The ending for victims with nothing live. */
  method RecyclePhase(s: Ftl, isHot: bool, vs: seq<nat>, ghost t: nat, ghost v: D.View)
    requires Ready(s) && Arrays(s) && v == s.Data() && t == Off(s.g, isHot)
    requires R.AllDirty(s.g, v, t, vs)
    modifies s, s.ubi.Repr
    ensures Consistent(s) && D.Settled(s.g, s.Data()) && D.SameReads(v, s.Data())
    ensures Renewed(s.g, s.Data().js, t) && OtherKept(s.g, v, s.Data(), isHot)
    ensures |v.js| == 3 * s.g.J && s.Data().js == R.RecycleJs(s.g, v.js, t, vs) && R.Refilled(s.g, s.Data().js, v.dirty, t, vs)
  {
    hide Ready, Ftl.Data, D.SameReads, D.Settled, D.Inv, R.JournalFull;
    assert D.Shape(s.g, v) by { R.InvParts(s.g, v); }
    RecycleAll(s, isHot, vs, t, v);
    R.WipedAll(s.g, v, s.Data(), vs);
    hide R.WipedTo, R.Wiped;
    R.RecycleKeeps(s.g, v, s.Data(), t, vs);
    RecycledRefilled(s.g, v, s.Data().js, t, vs);
  }

  lemma RecycledRefilled(g: Geometry, v: D.View, js: seq<Loc>, t: nat, vs: seq<nat>)
    requires R.Offset(g, t) && |v.js| == 3 * g.J && |vs| == g.J && js == R.RecycleJs(g, v.js, t, vs) && 0 < g.M
    requires forall i :: 0 <= i < g.J ==> vs[i] < |v.dirty| && v.dirty[vs[i]] == g.M
    ensures R.Refilled(g, js, v.dirty, t, vs)
  {
  }

  /** UBI_Flush. */
  method FlushDies(s: Ftl)
    requires Ready(s) && Arrays(s)
    modifies s.ubi.Repr
    ensures Ready(s) && Arrays(s) && s.Data() == old(s.Data()) && s.ubi.polls == 0
    ensures s.ubi.blk == old(s.ubi.blk) && s.root == old(s.root) && s.dirty == old(s.dirty) && s.Pmt() == old(s.Pmt())
    ensures s.hotEdition == old(s.hotEdition) && s.coldEdition == old(s.coldEdition) && s.listed == old(s.listed)
  {
    hide PmtSpec.Stable, LogsOk, PageMap.MapOf, DataDirty, DataBlocks;
    s.ubi.Flush();
    assert s.Pmt() == old(s.Pmt());
  }

  /** The selection loop, and the number of pages that are live in its victims. */
  method Select(s: Ftl, isHot: bool, ghost t: nat, ghost v: D.View) returns (vs: seq<nat>, total: nat)
    requires Ready(s) && Arrays(s) && v == s.Data() && t == Off(s.g, isHot)
    requires D.Inv(s.g, v) && R.JournalFull(s.g, v, t)
    ensures R.Victims(s.g, v.js, v.dirty, t, vs) && Sums(s.g, v.dirty, vs)
    ensures total == ValidPages(s.g.M, v.dirty, vs, s.g.J) == LivePages(v, vs, s.g.J)
  {
    hide Ready, PageMap.MapOf, DataBlocks, DataDirty, D.Inv, R.JournalFull, R.Victims, D.Mapped;
    vs := SelectBlocks(s, isHot, t, v);
    ValidAreLive(s.g, v, t, vs, s.g.J);
    total := CountValid(s.g, s.dirty, vs);
    SameSum(s.g.M, v.dirty, s.dirty, vs, s.g.J);
  }

  /** The other temperature's journals, and the dirty table whose data part is that of v. */
  ghost predicate SelectsFrom(g: Geometry, v: D.View, t: nat, other: seq<Loc>, dirty: seq<nat>) {
    && R.Offset(g, t) && |v.js| == 3 * g.J && |v.dirty| == g.U && |dirty| >= g.U && |other| == g.J
    && (forall i :: 0 <= i < g.J ==> other[i] == v.js[g.J - t + i]) && forall b :: InData(g, b) ==> dirty[b] == v.dirty[b]
  }

  lemma CanSelect(g: Geometry, v: D.View, t: nat, other: seq<Loc>, dirty: seq<nat>)
    requires D.Inv(g, v) && R.JournalFull(g, v, t) && SelectsFrom(g, v, t, other, dirty)
    ensures |V.Candidates(g, other, dirty)| >= g.J && forall b :: InData(g, b) ==> dirty[b] <= g.M
  {
    hide D.UserPagesOk, D.ListsOk, D.RowsOk, D.MapOk, D.JournalsOk, D.CountsOk;
    R.EnoughCandidates(g, v, t, other, dirty);
    R.DirtyBounded(g, v);
  }

  lemma Selected(g: Geometry, v: D.View, t: nat, other: seq<Loc>, dirty: seq<nat>, vs: seq<nat>)
    requires D.Inv(g, v) && SelectsFrom(g, v, t, other, dirty) && V.Chosen(g, other, dirty, vs)
    ensures R.Victims(g, v.js, v.dirty, t, vs) && Sums(g, v.dirty, vs) && Sums(g, dirty, vs)
    ensures forall i :: 0 <= i < |vs| ==> vs[i] < |v.dirty| && vs[i] < |dirty| && v.dirty[vs[i]] == dirty[vs[i]]
  {
    hide D.Inv;
    R.ChosenAreVictims(g, v, t, other, dirty, vs);
    hide V.Chosen;
    VictimSums(g, v, t, vs);
  }

  /** The journals the selection loop excludes are those of the other temperature. */
  method SelectBlocks(s: Ftl, isHot: bool, ghost t: nat, ghost v: D.View) returns (vs: seq<nat>)
    requires Ready(s) && Arrays(s) && v == s.Data() && t == Off(s.g, isHot)
    requires D.Inv(s.g, v) && R.JournalFull(s.g, v, t)
    ensures R.Victims(s.g, v.js, v.dirty, t, vs) && Sums(s.g, v.dirty, vs) && Sums(s.g, s.dirty, vs)
    ensures forall i :: 0 <= i < |vs| ==> vs[i] < |v.dirty| && vs[i] < |s.dirty| && v.dirty[vs[i]] == s.dirty[vs[i]]
  {
    hide PmtSpec.Stable, LogsOk, PageMap.MapOf, DataBlocks, D.Inv, R.JournalFull, R.Victims, Sums, V.Chosen, V.Candidates;
    ShapeOf(s);
    var other := if isHot then s.root.cold else s.root.hot;
    assert SelectsFrom(s.g, v, t, other, s.dirty);
    hide Ready, SelectsFrom, DataDirty;
    CanSelect(s.g, v, t, other, s.dirty);
    vs := V.SelectVictims(s.g, other, s.dirty);
    Selected(s.g, v, t, other, s.dirty, vs);
  }

  lemma FullJournals(g: Geometry, v: D.View, isHot: bool)
    requires D.Inv(g, v) && D.Settled(g, v) && !HasRoom(g, v.js, isHot)
    ensures R.JournalFull(g, v, Off(g, isHot))
  {
    forall k: nat | Off(g, isHot) <= k < Off(g, isHot) + g.J
      ensures v.js[k].page == g.M
    {
      assert D.JournalOk(g, v, k);
    }
  }

  lemma RenewedRoom(g: Geometry, js: seq<Loc>, isHot: bool)
    requires Renewed(g, js, Off(g, isHot))
    ensures HasRoom(g, js, isHot)
  {
    assert js[Off(g, isHot)].page < g.M;
  }

  /** When some victim page is live, one is live in the last victim. */
  lemma LastIsLeast(g: Geometry, v: D.View, t: nat, vs: seq<nat>)
    requires R.Offset(g, t) && |v.js| == 3 * g.J && |v.dirty| == g.U && R.Victims(g, v.js, v.dirty, t, vs)
    requires Sums(g, v.dirty, vs) && ValidPages(g.M, v.dirty, vs, g.J) != 0
    ensures v.dirty[vs[g.J - 1]] < g.M
  {
    NothingValid(g.M, v.dirty, vs, g.J);
  }

  lemma NoneIsLive(g: Geometry, v: D.View, t: nat, vs: seq<nat>)
    requires D.Inv(g, v) && R.JournalFull(g, v, t) && |v.dirty| == g.U && R.Victims(g, v.js, v.dirty, t, vs)
    requires Sums(g, v.dirty, vs) && ValidPages(g.M, v.dirty, vs, g.J) == 0
    ensures R.AllDirty(g, v, t, vs)
  {
    NothingValid(g.M, v.dirty, vs, g.J);
    R.VictimsApart(g, v, t, vs);
  }

  method StartEditions(s: Ftl, isHot: bool, total: nat)
    requires Ready(s) && Arrays(s)
    modifies s`hotEdition, s`coldEdition
    ensures Ready(s) && Arrays(s) && s.Data() == old(s.Data()) && Edition(s, isHot) == total && s.root == old(s.root)
    ensures Edition(s, !isHot) == old(Edition(s, !isHot))
  {
    hide PmtSpec.Stable, LogsOk, PageMap.MapOf, DataBlocks, DataDirty;
    if isHot {
      s.hotEdition := total;
    } else {
      s.coldEdition := total;
    }
    assert s.Pmt() == old(s.Pmt());
  }

  /** DATA_Reclaim: every logical page keeps its contents, the pages copied are exactly the
      pages counted as live, and the renewed journals have room. */
  method Reclaim(s: Ftl, isHot: bool) returns (ghost vs: seq<nat>)
    requires s.listKept
    requires Consistent(s) && D.Settled(s.g, s.Data()) && !HasRoom(s.g, s.Data().js, isHot)
    modifies s, s.ubi.Repr
    ensures Consistent(s) && D.Settled(s.g, s.Data()) && D.SameReads(old(s.Data()), s.Data())
    ensures HasRoom(s.g, s.Data().js, isHot) && OtherKept(s.g, old(s.Data()), s.Data(), isHot)
    ensures Renewed(s.g, s.Data().js, Off(s.g, isHot))
    ensures Outcome(s.g, old(s.Data()), s.Data().js, Off(s.g, isHot), vs, Edition(s, isHot))
  {
    hide Ready, Ftl.Data, D.Inv, D.SameReads, D.Settled, R.Victims, R.JournalFull, R.AllDirty, HasRoom, R.Refilled, LivePages;
    ghost var v, t := s.Data(), Off(s.g, isHot);
    FullJournals(s.g, v, isHot);
    FlushDies(s);
    var blocks, total := Select(s, isHot, t, v);
    vs := blocks;
    if total != 0 {
      LastIsLeast(s.g, v, t, vs);
      var copied := CopyAndRotate(s, isHot, blocks, t, v);
      assert total == copied;
    } else {
      NoneIsLive(s.g, v, t, vs);
      RecyclePhase(s, isHot, blocks, t, v);
    }
    RenewedRoom(s.g, s.Data().js, isHot);
    hide Renewed, OtherKept, Sums, VictimsNext;
    StartEditions(s, isHot, total);
  }
}
