/** What page writes on idle dies leave on flash, and what a replay makes of it.

    A temperature's journals are J lanes.  With every die idle, each page goes to the first
    lane with room and carries the next edition number, so the lanes after a session depend on
    that temperature's own writes only. */
module ReplaySpec {
  import opened Flash

  datatype Lane = Lane(at: Loc, row: seq<Spare>, block: Block)

  datatype PageWrite = PageWrite(addr: nat, data: PageData)

  // ---------------------------------------------------------------- the lanes

  predicate LaneOk(m: nat, x: Lane) {
    x.at.page <= m && |x.row| == m + 1 && |x.block| == m + 1
  }

  predicate LanesOk(m: nat, xs: seq<Lane>) {
    forall j :: 0 <= j < |xs| ==> LaneOk(m, xs[j])
  }

  /** The first lane with room, from lane j on. */
  function OpenFrom(m: nat, xs: seq<Lane>, j: nat): (k: nat)
    requires j <= |xs|
    ensures j <= k <= |xs|
    ensures forall i :: j <= i < k ==> xs[i].at.page >= m
    ensures k < |xs| ==> xs[k].at.page < m
    decreases |xs| - j
  {
    if j < |xs| && xs[j].at.page >= m then OpenFrom(m, xs, j + 1) else j
  }

  function Open(m: nat, xs: seq<Lane>): (k: nat)
    ensures k <= |xs|
    ensures forall i :: 0 <= i < k ==> xs[i].at.page >= m
    ensures k < |xs| ==> xs[k].at.page < m
  {
    OpenFrom(m, xs, 0)
  }

  /** A page written to a lane; the list follows on the last page when the lane is full. */
  function Fill(m: nat, x: Lane, w: PageWrite, edition: nat): (y: Lane)
    requires LaneOk(m, x) && x.at.page < m
    ensures LaneOk(m, y) && y.at == Loc(x.at.block, x.at.page + 1)
  {
    var spare := Words(w.addr, edition);
    var row := x.row[x.at.page := spare];
    var block := x.block[x.at.page := Programmed(UserPage(w.data), spare)];
    Lane(Loc(x.at.block, x.at.page + 1), row,
         if x.at.page + 1 == m then block[m := Programmed(DataList(row), AllOnes)] else block)
  }

  function Push(m: nat, xs: seq<Lane>, w: PageWrite, edition: nat): (ys: seq<Lane>)
    requires LanesOk(m, xs)
    ensures LanesOk(m, ys) && |ys| == |xs|
  {
    var k := Open(m, xs);
    if k < |xs| then xs[k := Fill(m, xs[k], w, edition)] else xs
  }

  /** The lanes after the first n writes, numbered from 0 as they are after a commit. */
  function PushAll(m: nat, xs: seq<Lane>, ws: seq<PageWrite>, n: nat): (ys: seq<Lane>)
    requires LanesOk(m, xs) && n <= |ws|
    ensures LanesOk(m, ys) && |ys| == |xs|
  {
    if n == 0 then xs else Push(m, PushAll(m, xs, ws, n - 1), ws[n - 1], n - 1)
  }

  /** Full lanes come first. */
  ghost predicate FullFirst(m: nat, xs: seq<Lane>) {
    forall i, j :: 0 <= i < j < |xs| && xs[j].at.page >= m ==> xs[i].at.page >= m
  }

  lemma PushFullFirst(m: nat, xs: seq<Lane>, w: PageWrite, edition: nat)
    requires LanesOk(m, xs) && FullFirst(m, xs)
    ensures FullFirst(m, Push(m, xs, w, edition))
  {
    hide Open;
  }

  /** Written pages are in order, and a full lane has its list. */
  ghost predicate Tidy(m: nat, x: Lane)
    requires LaneOk(m, x)
  {
    if x.at.page == m then Filled(x.block, m + 1) && x.block[m].spare == AllOnes else Filled(x.block, x.at.page)
  }

  ghost predicate AllTidy(m: nat, xs: seq<Lane>)
    requires LanesOk(m, xs)
  {
    forall j :: 0 <= j < |xs| ==> Tidy(m, xs[j])
  }

  lemma PushTidy(m: nat, xs: seq<Lane>, w: PageWrite, edition: nat)
    requires LanesOk(m, xs) && AllTidy(m, xs)
    ensures AllTidy(m, Push(m, xs, w, edition))
  {
    var k := Open(m, xs);
    hide Open;
    if k < |xs| {
      assert Tidy(m, xs[k]);
      assert Tidy(m, Fill(m, xs[k], w, edition));
    }
  }

  /** What is on a lane stays there: later writes touch only erased pages. */
  ghost predicate Grows(x: Lane, y: Lane) {
    && x.at.block == y.at.block && x.at.page <= y.at.page && |x.block| == |y.block|
    && forall p :: 0 <= p < |x.block| && x.block[p].Programmed? ==> y.block[p] == x.block[p]
  }

  lemma PushGrows(m: nat, xs: seq<Lane>, w: PageWrite, edition: nat, j: nat)
    requires LanesOk(m, xs) && AllTidy(m, xs) && j < |xs|
    ensures Grows(xs[j], Push(m, xs, w, edition)[j])
  {
    hide Open;
    assert Tidy(m, xs[j]);
  }

  lemma {:induction false} PushesTidy(m: nat, xs: seq<Lane>, ws: seq<PageWrite>, n: nat)
    requires LanesOk(m, xs) && AllTidy(m, xs) && n <= |ws|
    ensures AllTidy(m, PushAll(m, xs, ws, n))
  {
    hide AllTidy, Push;
    if n > 0 {
      PushesTidy(m, xs, ws, n - 1);
      PushTidy(m, PushAll(m, xs, ws, n - 1), ws[n - 1], n - 1);
    }
  }

  lemma {:induction false} PushesFullFirst(m: nat, xs: seq<Lane>, ws: seq<PageWrite>, n: nat)
    requires LanesOk(m, xs) && FullFirst(m, xs) && n <= |ws|
    ensures FullFirst(m, PushAll(m, xs, ws, n))
  {
    hide FullFirst, Push;
    if n > 0 {
      PushesFullFirst(m, xs, ws, n - 1);
      PushFullFirst(m, PushAll(m, xs, ws, n - 1), ws[n - 1], n - 1);
    }
  }

  lemma GrowsTrans(x: Lane, y: Lane, z: Lane)
    requires Grows(x, y) && Grows(y, z)
    ensures Grows(x, z)
  {
  }

  lemma {:induction false} PushesGrow(m: nat, xs: seq<Lane>, ws: seq<PageWrite>, i: nat, n: nat, j: nat)
    requires LanesOk(m, xs) && AllTidy(m, xs) && i <= n <= |ws| && j < |xs|
    ensures Grows(PushAll(m, xs, ws, i)[j], PushAll(m, xs, ws, n)[j])
    decreases n
  {
    hide AllTidy, Push;
    if i < n {
      PushesGrow(m, xs, ws, i, n - 1, j);
      PushesTidy(m, xs, ws, n - 1);
      PushGrows(m, PushAll(m, xs, ws, n - 1), ws[n - 1], n - 1, j);
      GrowsTrans(PushAll(m, xs, ws, i)[j], PushAll(m, xs, ws, n - 1)[j], PushAll(m, xs, ws, n)[j]);
    }
  }

  /** The page just written, and the page where it goes. */
  lemma PushedPage(m: nat, ys: seq<Lane>, w: PageWrite, edition: nat)
    requires LanesOk(m, ys) && AllTidy(m, ys) && Open(m, ys) < |ys|
    ensures var k := Open(m, ys);
            && ys[k].block[ys[k].at.page].Erased?
            && Push(m, ys, w, edition)[k].block[ys[k].at.page] == Programmed(UserPage(w.data), Words(w.addr, edition))
  {
    assert Tidy(m, ys[Open(m, ys)]);
  }

  /** At the first lane with room after i writes stands the page of the next one, if there is
      one, and an erased page otherwise. */
  lemma NextPage(m: nat, xs: seq<Lane>, ws: seq<PageWrite>, i: nat)
    requires LanesOk(m, xs) && AllTidy(m, xs) && i <= |ws|
    requires Open(m, PushAll(m, xs, ws, i)) < |xs|
    ensures var ys, zs := PushAll(m, xs, ws, i), PushAll(m, xs, ws, |ws|);
            var k := Open(m, ys);
            zs[k].block[ys[k].at.page] == if i < |ws| then Programmed(UserPage(ws[i].data), Words(ws[i].addr, i)) else Erased
  {
    var ys := PushAll(m, xs, ws, i);
    var k := Open(m, ys);
    hide Open, AllTidy, Push, LanesOk;
    PushesTidy(m, xs, ws, i);
    if i < |ws| {
      PushedStays(m, xs, ws, i);
    } else {
      PushedPage(m, ys, PageWrite(0, []), 0);
    }
  }

  lemma PushedStays(m: nat, xs: seq<Lane>, ws: seq<PageWrite>, i: nat)
    requires LanesOk(m, xs) && AllTidy(m, xs) && i < |ws|
    requires Open(m, PushAll(m, xs, ws, i)) < |xs|
    ensures var ys, zs := PushAll(m, xs, ws, i), PushAll(m, xs, ws, |ws|);
            var k := Open(m, ys);
            zs[k].block[ys[k].at.page] == Programmed(UserPage(ws[i].data), Words(ws[i].addr, i))
  {
    hide Open, AllTidy, Push;
    var ys := PushAll(m, xs, ws, i);
    PushesTidy(m, xs, ws, i);
    PushedPage(m, ys, ws[i], i);
    assert PushAll(m, xs, ws, i + 1) == Push(m, ys, ws[i], i);
    hide PushAll;
    PushesGrow(m, xs, ws, i + 1, |ws|, Open(m, ys));
  }

  // ---------------------------------------------------------------- one pass of DATA_Replay

  const MAX_UINT32: nat := 0xFFFF_FFFF

  /** The spare words as DATA_Replay reads them: words never written read as all ones. */
  function AddrOf(s: Spare): nat {
    if s.Words? then s.addr else MAX_UINT32
  }

  function EditionOf(s: Spare): nat {
    if s.Words? then s.edition else MAX_UINT32
  }

  datatype Found = Match(lane: nat, addr: nat) | Ended | Unmatched

  /** The `for` loop of DATA_Replay from lane j on, looking for edition e.  An erased page ends
      the replay: the edition becomes MAX_UINT32, but the loop goes on to the last lane. */
  function Scan(at: seq<Loc>, fs: seq<Block>, e: nat, j: nat): Found
    requires |fs| == |at| && j <= |at|
    decreases |at| - j
  {
    if j == |at| then if e == MAX_UINT32 then Ended else Unmatched
    else if at[j].page >= |fs[j]| || fs[j][at[j].page].Erased? then Scan(at, fs, MAX_UINT32, j + 1)
    else if EditionOf(fs[j][at[j].page].spare) == e then Match(j, AddrOf(fs[j][at[j].page].spare))
    else Scan(at, fs, e, j + 1)
  }

  function Cursors(xs: seq<Lane>): (r: seq<Loc>)
    ensures |r| == |xs| && forall j :: 0 <= j < |xs| ==> r[j] == xs[j].at
  {
    seq(|xs|, j requires 0 <= j < |xs| => xs[j].at)
  }

  /** The cursor of lane j is on its list. */
  ghost predicate OnList(at: seq<Loc>, fs: seq<Block>, j: nat) {
    && j < |at| == |fs| && at[j].page < |fs[j]|
    && fs[j][at[j].page].Programmed? && fs[j][at[j].page].spare == AllOnes
  }

  ghost predicate OnErased(at: seq<Loc>, fs: seq<Block>, j: nat) {
    j < |at| == |fs| && at[j].page < |fs[j]| && fs[j][at[j].page].Erased?
  }

  /** Full lanes are passed over. */
  lemma {:induction false} ScanPasses(at: seq<Loc>, fs: seq<Block>, e: nat, j: nat, k: nat)
    requires |fs| == |at| && j <= k <= |at| && e < MAX_UINT32
    requires forall i: nat :: j <= i < k ==> OnList(at, fs, i)
    ensures Scan(at, fs, e, j) == Scan(at, fs, e, k)
    decreases k - j
  {
    if j < k {
      assert OnList(at, fs, j);
      ScanPasses(at, fs, e, j + 1, k);
    }
  }

  /** Once the edition is MAX_UINT32, the first lane whose cursor is on a list matches. */
  lemma {:induction false} ScanEnds(at: seq<Loc>, fs: seq<Block>, j: nat)
    requires |fs| == |at| && j <= |at|
    requires forall i: nat :: j <= i < |at| ==> OnList(at, fs, i) || OnErased(at, fs, i)
    ensures var r := Scan(at, fs, MAX_UINT32, j);
            if exists i: nat :: j <= i < |at| && OnList(at, fs, i) then r.Match? && r.addr == MAX_UINT32 else r == Ended
    decreases |at| - j
  {
    if j < |at| {
      assert OnList(at, fs, j) || OnErased(at, fs, j);
      if OnErased(at, fs, j) {
        ScanEnds(at, fs, j + 1);
      }
    }
  }

  /** What the lanes' blocks hold after the writes.  If power failed before the last write's
      list was programmed, that list is missing. */
  ghost predicate HeldBy(m: nat, xs: seq<Lane>, ws: seq<PageWrite>, torn: bool, fs: seq<Block>)
    requires LanesOk(m, xs)
  {
    var zs := PushAll(m, xs, ws, |ws|);
    && |fs| == |xs|
    && (torn ==> |ws| > 0 && TornLane(m, xs, ws) < |xs| && zs[TornLane(m, xs, ws)].at.page == m)
    && forall j :: 0 <= j < |xs| ==>
         fs[j] == if torn && j == TornLane(m, xs, ws) then zs[j].block[m := Erased] else zs[j].block
  }

  ghost function TornLane(m: nat, xs: seq<Lane>, ws: seq<PageWrite>): nat
    requires LanesOk(m, xs)
  {
    if |ws| > 0 then Open(m, PushAll(m, xs, ws, |ws| - 1)) else |xs|
  }

  /** A full lane stays full, with its list. */
  lemma FullStays(m: nat, xs: seq<Lane>, ws: seq<PageWrite>, i: nat, j: nat)
    requires LanesOk(m, xs) && AllTidy(m, xs) && i <= |ws| && j < |xs|
    requires PushAll(m, xs, ws, i)[j].at.page >= m
    ensures PushAll(m, xs, ws, |ws|)[j].block[m] == PushAll(m, xs, ws, i)[j].block[m]
    ensures PushAll(m, xs, ws, i)[j].block[m].Programmed? && PushAll(m, xs, ws, i)[j].block[m].spare == AllOnes
    ensures i < |ws| ==> j != TornLane(m, xs, ws)
  {
    hide Push;
    PushesTidy(m, xs, ws, i);
    assert Tidy(m, PushAll(m, xs, ws, i)[j]);
    PushesGrow(m, xs, ws, i, |ws|, j);
    if i < |ws| {
      PushesGrow(m, xs, ws, i, |ws| - 1, j);
    }
  }

  lemma FullOnList(m: nat, xs: seq<Lane>, ws: seq<PageWrite>, torn: bool, fs: seq<Block>, i: nat, j: nat)
    requires LanesOk(m, xs) && AllTidy(m, xs) && i <= |ws| && j < |xs| && HeldBy(m, xs, ws, torn, fs)
    requires PushAll(m, xs, ws, i)[j].at.page >= m && (torn && i == |ws| ==> j != TornLane(m, xs, ws))
    ensures OnList(Cursors(PushAll(m, xs, ws, i)), fs, j)
  {
    hide PushAll, AllTidy, TornLane;
    FullStays(m, xs, ws, i, j);
  }

  lemma OpenOnErased(m: nat, xs: seq<Lane>, ws: seq<PageWrite>, torn: bool, fs: seq<Block>, j: nat)
    requires LanesOk(m, xs) && AllTidy(m, xs) && j < |xs| && HeldBy(m, xs, ws, torn, fs)
    requires PushAll(m, xs, ws, |ws|)[j].at.page < m || (torn && j == TornLane(m, xs, ws))
    ensures OnErased(Cursors(PushAll(m, xs, ws, |ws|)), fs, j)
  {
    hide PushAll, TornLane;
    PushesTidy(m, xs, ws, |ws|);
    assert Tidy(m, PushAll(m, xs, ws, |ws|)[j]);
  }

  lemma ScanMeets(at: seq<Loc>, fs: seq<Block>, e: nat, k: nat, addr: nat)
    requires k < |at| == |fs| && e < MAX_UINT32 && forall j: nat :: j < k ==> OnList(at, fs, j)
    requires at[k].page < |fs[k]| && fs[k][at[k].page].Programmed? && fs[k][at[k].page].spare == Words(addr, e)
    ensures Scan(at, fs, e, 0) == Match(k, addr)
  {
    ScanPasses(at, fs, e, 0, k);
  }

  /** While pages are left to replay, the pass finds the next one. */
  lemma ScanFinds(m: nat, xs: seq<Lane>, ws: seq<PageWrite>, torn: bool, fs: seq<Block>, i: nat)
    requires LanesOk(m, xs) && AllTidy(m, xs) && i < |ws| <= MAX_UINT32
    requires HeldBy(m, xs, ws, torn, fs) && Open(m, PushAll(m, xs, ws, i)) < |xs|
    ensures Scan(Cursors(PushAll(m, xs, ws, i)), fs, i, 0) == Match(Open(m, PushAll(m, xs, ws, i)), ws[i].addr)
  {
    var ys := PushAll(m, xs, ws, i);
    var k := Open(m, ys);
    hide Open, AllTidy, PushAll, TornLane, LanesOk, Scan, OnList;
    forall j: nat | j < k
      ensures OnList(Cursors(ys), fs, j)
    {
      FullOnList(m, xs, ws, torn, fs, i, j);
    }
    NextPage(m, xs, ws, i);
    NextOnFlash(m, xs, ws, torn, fs, k, ys[k].at.page);
    hide HeldBy;
    ScanMeets(Cursors(ys), fs, i, k, ws[i].addr);
  }

  /** Only a list may be missing. */
  lemma NextOnFlash(m: nat, xs: seq<Lane>, ws: seq<PageWrite>, torn: bool, fs: seq<Block>, k: nat, p: nat)
    requires LanesOk(m, xs) && HeldBy(m, xs, ws, torn, fs) && k < |xs| && p < m
    ensures |fs[k]| == m + 1 && fs[k][p] == PushAll(m, xs, ws, |ws|)[k].block[p]
  {
    hide PushAll, TornLane;
  }

  /** After the writes the list of lane j is on flash. */
  ghost predicate Listed(m: nat, xs: seq<Lane>, ws: seq<PageWrite>, torn: bool, j: nat)
    requires LanesOk(m, xs)
  {
    j < |xs| && PushAll(m, xs, ws, |ws|)[j].at.page >= m && !(torn && j == TornLane(m, xs, ws))
  }

  /** The lanes whose lists are on flash come first. */
  ghost predicate ListedFirst(m: nat, xs: seq<Lane>, ws: seq<PageWrite>, torn: bool)
    requires LanesOk(m, xs)
  {
    forall i: nat, j: nat :: i < j && Listed(m, xs, ws, torn, j) ==> Listed(m, xs, ws, torn, i)
  }

  lemma LastPass(at: seq<Loc>, fs: seq<Block>, e: nat, k: nat)
    requires k < |at| == |fs| && e < MAX_UINT32 && forall j: nat :: j < k ==> OnList(at, fs, j)
    requires OnErased(at, fs, k) && forall j: nat :: k < j < |at| ==> OnList(at, fs, j) || OnErased(at, fs, j)
    ensures if exists j: nat :: k < j < |at| && OnList(at, fs, j)
            then Scan(at, fs, e, 0).Match? && Scan(at, fs, e, 0).addr == MAX_UINT32 else Scan(at, fs, e, 0) == Ended
  {
    ScanPasses(at, fs, e, 0, k);
    ScanEnds(at, fs, k + 1);
    assert (exists j: nat :: k < j < |at| && OnList(at, fs, j)) <==> (exists j: nat :: k + 1 <= j < |at| && OnList(at, fs, j));
  }

  lemma LaneOnFlash(m: nat, xs: seq<Lane>, ws: seq<PageWrite>, torn: bool, fs: seq<Block>, j: nat)
    requires LanesOk(m, xs) && AllTidy(m, xs) && HeldBy(m, xs, ws, torn, fs) && j < |xs|
    ensures if Listed(m, xs, ws, torn, j) then OnList(Cursors(PushAll(m, xs, ws, |ws|)), fs, j)
            else OnErased(Cursors(PushAll(m, xs, ws, |ws|)), fs, j)
  {
    hide PushAll, AllTidy, TornLane, OnList, OnErased, HeldBy;
    if Listed(m, xs, ws, torn, j) {
      FullOnList(m, xs, ws, torn, fs, |ws|, j);
    } else {
      OpenOnErased(m, xs, ws, torn, fs, j);
    }
  }

  /** The first lane without its list. */
  lemma FirstUnlisted(m: nat, xs: seq<Lane>, ws: seq<PageWrite>, torn: bool) returns (k: nat)
    requires LanesOk(m, xs) && Open(m, PushAll(m, xs, ws, |ws|)) < |xs|
    ensures k < |xs| && !Listed(m, xs, ws, torn, k) && forall j: nat :: j < k ==> Listed(m, xs, ws, torn, j)
  {
    var zs := PushAll(m, xs, ws, |ws|);
    var o := Open(m, zs);
    assert forall j :: 0 <= j < o ==> zs[j].at.page >= m;
    k := if torn && TornLane(m, xs, ws) < o then TornLane(m, xs, ws) else o;
    hide PushAll, TornLane, Open;
  }

  /** The pass after the last page, for every session: it ends the replay if and only if the lanes
      with a list on flash come first.  Otherwise it takes such a list for a page with edition
      MAX_UINT32 and remaps address MAX_UINT32, which is outside the volume. */
  lemma ReplayEndsExactly(m: nat, xs: seq<Lane>, ws: seq<PageWrite>, torn: bool, fs: seq<Block>)
    requires LanesOk(m, xs) && AllTidy(m, xs) && |ws| < MAX_UINT32
    requires HeldBy(m, xs, ws, torn, fs) && Open(m, PushAll(m, xs, ws, |ws|)) < |xs|
    ensures var r := Scan(Cursors(PushAll(m, xs, ws, |ws|)), fs, |ws|, 0);
            if ListedFirst(m, xs, ws, torn) then r == Ended else r.Match? && r.addr == MAX_UINT32
  {
    var k := FirstUnlisted(m, xs, ws, torn);
    var at := Cursors(PushAll(m, xs, ws, |ws|));
    hide Open, AllTidy, PushAll, LanesOk, Scan, HeldBy, Listed, OnList, OnErased;
    forall j: nat | j < |xs|
      ensures if Listed(m, xs, ws, torn, j) then OnList(at, fs, j) else OnErased(at, fs, j)
    {
      LaneOnFlash(m, xs, ws, torn, fs, j);
    }
    Unconfused(at, fs);
    LastPass(at, fs, |ws|, k);
    FirstIffNone(m, xs, ws, torn, k);
  }

  lemma Unconfused(at: seq<Loc>, fs: seq<Block>)
    ensures forall j: nat :: OnErased(at, fs, j) ==> !OnList(at, fs, j)
  {
  }

  lemma FirstIffNone(m: nat, xs: seq<Lane>, ws: seq<PageWrite>, torn: bool, k: nat)
    requires LanesOk(m, xs) && k < |xs| && !Listed(m, xs, ws, torn, k) && forall j: nat :: j < k ==> Listed(m, xs, ws, torn, j)
    ensures ListedFirst(m, xs, ws, torn) <==> !exists j: nat :: k < j < |xs| && Listed(m, xs, ws, torn, j)
  {
    assert forall j: nat :: j >= |xs| ==> !Listed(m, xs, ws, torn, j);
    hide Listed, LanesOk;
  }

  lemma OnlyOneFills(m: nat, ys: seq<Lane>, w: PageWrite, edition: nat)
    requires LanesOk(m, ys) && FullFirst(m, ys) && Open(m, ys) < |ys|
    ensures forall j :: Open(m, ys) < j < |ys| ==> Push(m, ys, w, edition)[j].at.page < m
    ensures forall j :: 0 <= j < Open(m, ys) ==> Push(m, ys, w, edition)[j].at.page >= m
  {
    hide Fill;
    var k := Open(m, ys);
    hide Open;
    assert forall j :: 0 <= j < |ys| && j != k ==> Push(m, ys, w, edition)[j] == ys[j];
  }

  /** With every die idle, sessions that begin with the full lanes first end so too, even if the
      last list is missing. */
  lemma StaysListedFirst(m: nat, xs: seq<Lane>, ws: seq<PageWrite>, torn: bool)
    requires LanesOk(m, xs) && FullFirst(m, xs) && (torn ==> |ws| > 0 && TornLane(m, xs, ws) < |xs|)
    ensures ListedFirst(m, xs, ws, torn)
  {
    hide LanesOk, FullFirst, Open, Push;
    PushesFullFirst(m, xs, ws, |ws|);
    if torn {
      PushesFullFirst(m, xs, ws, |ws| - 1);
      OnlyOneFills(m, PushAll(m, xs, ws, |ws| - 1), ws[|ws| - 1], |ws| - 1);
    } else {
      NotTornFirst(m, xs, ws);
    }
  }

  /** Without a missing list the condition is that the full lanes come first. */
  lemma NotTornFirst(m: nat, xs: seq<Lane>, ws: seq<PageWrite>)
    requires LanesOk(m, xs)
    ensures ListedFirst(m, xs, ws, false) <==> FullFirst(m, PushAll(m, xs, ws, |ws|))
  {
    hide PushAll, LanesOk;
    var zs := PushAll(m, xs, ws, |ws|);
    if ListedFirst(m, xs, ws, false) {
      forall i, j | 0 <= i < j < |zs| && zs[j].at.page >= m
        ensures zs[i].at.page >= m
      {
        assert Listed(m, xs, ws, false, j) && Listed(m, xs, ws, false, i);
      }
    }
  }

  /** When none is left, the pass ends the replay. */
  lemma ScanStops(m: nat, xs: seq<Lane>, ws: seq<PageWrite>, torn: bool, fs: seq<Block>)
    requires LanesOk(m, xs) && AllTidy(m, xs) && FullFirst(m, xs) && |ws| < MAX_UINT32
    requires HeldBy(m, xs, ws, torn, fs) && Open(m, PushAll(m, xs, ws, |ws|)) < |xs|
    ensures Scan(Cursors(PushAll(m, xs, ws, |ws|)), fs, |ws|, 0) == Ended
  {
    hide Open, AllTidy, PushAll, TornLane, LanesOk, Scan, FullFirst, ListedFirst;
    StaysListedFirst(m, xs, ws, torn);
    ReplayEndsExactly(m, xs, ws, torn, fs);
  }

  /** The edition counter after a pass that finds it at `now`: an erased page stores in it the
      edition that is then looked for. */
  function CounterAfter(at: seq<Loc>, fs: seq<Block>, e: nat, now: nat, j: nat): nat
    requires |fs| == |at| && j <= |at|
    decreases |at| - j
  {
    if j == |at| then now
    else if at[j].page >= |fs[j]| || fs[j][at[j].page].Erased? then CounterAfter(at, fs, MAX_UINT32, e, j + 1)
    else if EditionOf(fs[j][at[j].page].spare) == e then now
    else CounterAfter(at, fs, e, now, j + 1)
  }

  lemma {:induction false} CounterPasses(at: seq<Loc>, fs: seq<Block>, e: nat, now: nat, j: nat, k: nat)
    requires |fs| == |at| && j <= k <= |at| && e < MAX_UINT32 && forall i: nat :: j <= i < k ==> OnList(at, fs, i)
    ensures CounterAfter(at, fs, e, now, j) == CounterAfter(at, fs, e, now, k)
    decreases k - j
  {
    if j < k {
      assert OnList(at, fs, j);
      CounterPasses(at, fs, e, now, j + 1, k);
    }
  }

  lemma {:induction false} CounterEnds(at: seq<Loc>, fs: seq<Block>, now: nat, j: nat)
    requires |fs| == |at| && j <= |at| && forall i: nat :: j <= i < |at| ==> OnErased(at, fs, i)
    ensures CounterAfter(at, fs, MAX_UINT32, now, j) == if j == |at| then now else MAX_UINT32
    decreases |at| - j
  {
    if j < |at| {
      assert OnErased(at, fs, j);
      CounterEnds(at, fs, MAX_UINT32, j + 1);
    }
  }

  /** Every lane but the last has its list on flash. */
  ghost predicate OneOpen(m: nat, xs: seq<Lane>, ws: seq<PageWrite>, torn: bool)
    requires LanesOk(m, xs)
  {
    forall j: nat :: j + 1 < |xs| ==> Listed(m, xs, ws, torn, j)
  }

  /** The replay restores the edition counter if and only if one lane is left to write to.  If there
      are more, pages written before the next commit begin at edition MAX_UINT32. */
  lemma CounterRestored(m: nat, xs: seq<Lane>, ws: seq<PageWrite>, torn: bool, fs: seq<Block>, now: nat)
    requires LanesOk(m, xs) && AllTidy(m, xs) && |ws| < MAX_UINT32 && ListedFirst(m, xs, ws, torn)
    requires HeldBy(m, xs, ws, torn, fs) && Open(m, PushAll(m, xs, ws, |ws|)) < |xs|
    ensures CounterAfter(Cursors(PushAll(m, xs, ws, |ws|)), fs, |ws|, now, 0) == if OneOpen(m, xs, ws, torn) then |ws| else MAX_UINT32
  {
    hide Open, AllTidy, PushAll, LanesOk, HeldBy, Listed, OnList, OnErased, ListedFirst, OneOpen, CounterAfter;
    var k := FirstUnlisted(m, xs, ws, torn);
    var at := Cursors(PushAll(m, xs, ws, |ws|));
    OneOpenIs(m, xs, ws, torn, k);
    HeldSize(m, xs, ws, torn, fs);
    forall j: nat | j < |xs|
      ensures if j < k then OnList(at, fs, j) else OnErased(at, fs, j)
    {
      LaneOnFlash(m, xs, ws, torn, fs, j);
      NoneAfter(m, xs, ws, torn, k, j);
    }
    CounterPasses(at, fs, |ws|, now, 0, k);
    ErasedStores(at, fs, |ws|, now, k);
    CounterEnds(at, fs, |ws|, k + 1);
  }

  lemma HeldSize(m: nat, xs: seq<Lane>, ws: seq<PageWrite>, torn: bool, fs: seq<Block>)
    requires LanesOk(m, xs) && HeldBy(m, xs, ws, torn, fs)
    ensures |fs| == |xs|
  {
  }

  lemma NoneAfter(m: nat, xs: seq<Lane>, ws: seq<PageWrite>, torn: bool, k: nat, j: nat)
    requires LanesOk(m, xs) && ListedFirst(m, xs, ws, torn) && !Listed(m, xs, ws, torn, k)
    ensures k <= j ==> !Listed(m, xs, ws, torn, j)
  {
    hide Listed, LanesOk;
  }

  lemma OneOpenIs(m: nat, xs: seq<Lane>, ws: seq<PageWrite>, torn: bool, k: nat)
    requires LanesOk(m, xs) && k < |xs| && !Listed(m, xs, ws, torn, k) && forall j: nat :: j < k ==> Listed(m, xs, ws, torn, j)
    ensures OneOpen(m, xs, ws, torn) <==> k + 1 == |xs|
  {
    hide Listed, LanesOk;
  }

  lemma ErasedStores(at: seq<Loc>, fs: seq<Block>, e: nat, now: nat, k: nat)
    requires OnErased(at, fs, k)
    ensures CounterAfter(at, fs, e, now, k) == CounterAfter(at, fs, MAX_UINT32, e, k + 1)
  {
  }

  // ---------------------------------------------------------------- a session, and its replay

  datatype Act =
    | Put(write: PageWrite, isHot: bool)   // DATA_Write with a buffer
    | Drop(addr: nat)                      // DATA_Write without one

  /** The writes of one temperature among the first n acts. */
  function Only(acts: seq<Act>, isHot: bool, n: nat): (ws: seq<PageWrite>)
    requires n <= |acts|
    ensures |ws| <= n
  {
    if n == 0 then []
    else if acts[n - 1].Put? && acts[n - 1].isHot == isHot then Only(acts, isHot, n - 1) + [acts[n - 1].write]
    else Only(acts, isHot, n - 1)
  }

  /** Where the next page of these lanes goes. */
  function NextPlace(m: nat, xs: seq<Lane>): Entry {
    var k := Open(m, xs);
    if k < |xs| then At(xs[k].at) else Nowhere
  }

  function Set(pm: seq<Entry>, a: nat, e: Entry): (r: seq<Entry>)
    ensures |r| == |pm|
  {
    if a < |pm| then pm[a := e] else pm
  }

  /** The running FTL's address map after n acts. */
  function MapAfter(m: nat, hot: seq<Lane>, cold: seq<Lane>, pm: seq<Entry>, acts: seq<Act>, n: nat): (r: seq<Entry>)
    requires LanesOk(m, hot) && LanesOk(m, cold) && n <= |acts|
    ensures |r| == |pm|
  {
    if n == 0 then pm
    else
      var before := MapAfter(m, hot, cold, pm, acts, n - 1);
      match acts[n - 1]
      case Put(w, true) =>
        var ws := Only(acts, true, n - 1);
        Set(before, w.addr, NextPlace(m, PushAll(m, hot, ws, |ws|)))
      case Put(w, false) =>
        var ws := Only(acts, false, n - 1);
        Set(before, w.addr, NextPlace(m, PushAll(m, cold, ws, |ws|)))
      case Drop(a) =>
        Set(before, a, Nowhere)
  }

  /** The committed map overridden by one temperature's first n pages in edition order. */
  function Overridden(m: nat, xs: seq<Lane>, pm: seq<Entry>, ws: seq<PageWrite>, n: nat): (r: seq<Entry>)
    requires LanesOk(m, xs) && n <= |ws|
    ensures |r| == |pm|
  {
    if n == 0 then pm
    else Set(Overridden(m, xs, pm, ws, n - 1), ws[n - 1].addr, NextPlace(m, PushAll(m, xs, ws, n - 1)))
  }

  /** What replaying the hot journals and then the cold ones yields. */
  function Recovered(m: nat, hot: seq<Lane>, cold: seq<Lane>, pm: seq<Entry>, hots: seq<PageWrite>, colds: seq<PageWrite>): (r: seq<Entry>)
    requires LanesOk(m, hot) && LanesOk(m, cold)
    ensures |r| == |pm|
  {
    Overridden(m, cold, Overridden(m, hot, pm, hots, |hots|), colds, |colds|)
  }

  predicate Writes(ws: seq<PageWrite>, a: nat) {
    exists i :: 0 <= i < |ws| && ws[i].addr == a
  }

  /** Address a survives a power loss: its last act, if any, was a cold write, or a hot write
      of an address that was not written cold, or a trim of an address neither mapped when the
      session began nor written in it. */
  ghost predicate Survives(acts: seq<Act>, n: nat, a: nat, e: Entry)
    requires n <= |acts|
  {
    n == 0 ||
    match acts[n - 1]
    case Put(w, true) => if w.addr == a then !Writes(Only(acts, false, n - 1), a) else Survives(acts, n - 1, a, e)
    case Put(w, false) => if w.addr == a then true else Survives(acts, n - 1, a, e)
    case Drop(b) =>
      if b == a then e.Nowhere? && !Writes(Only(acts, true, n - 1), a) && !Writes(Only(acts, false, n - 1), a)
      else Survives(acts, n - 1, a, e)
  }

  /** The first writes do not depend on the later ones. */
  lemma {:induction false} PushPrefix(m: nat, xs: seq<Lane>, ws: seq<PageWrite>, us: seq<PageWrite>, n: nat)
    requires LanesOk(m, xs) && n <= |ws| && n <= |us| && ws[..n] == us[..n]
    ensures PushAll(m, xs, ws, n) == PushAll(m, xs, us, n)
  {
    if n > 0 {
      assert ws[..n - 1] == ws[..n][..n - 1] == us[..n - 1];
      assert ws[n - 1] == ws[..n][n - 1] == us[n - 1];
      PushPrefix(m, xs, ws, us, n - 1);
    }
  }

  lemma {:induction false} OverriddenPrefix(m: nat, xs: seq<Lane>, pm: seq<Entry>, ws: seq<PageWrite>, us: seq<PageWrite>, n: nat)
    requires LanesOk(m, xs) && n <= |ws| && n <= |us| && ws[..n] == us[..n]
    ensures Overridden(m, xs, pm, ws, n) == Overridden(m, xs, pm, us, n)
  {
    if n > 0 {
      assert ws[..n - 1] == ws[..n][..n - 1] == us[..n - 1];
      assert ws[n - 1] == ws[..n][n - 1] == us[n - 1];
      OverriddenPrefix(m, xs, pm, ws, us, n - 1);
      PushPrefix(m, xs, ws, us, n - 1);
    }
  }

  /** One more page in edition order. */
  lemma OverriddenSnoc(m: nat, xs: seq<Lane>, pm: seq<Entry>, ws: seq<PageWrite>, w: PageWrite)
    requires LanesOk(m, xs)
    ensures Overridden(m, xs, pm, ws + [w], |ws| + 1)
         == Set(Overridden(m, xs, pm, ws, |ws|), w.addr, NextPlace(m, PushAll(m, xs, ws, |ws|)))
  {
    OverriddenPrefix(m, xs, pm, ws, ws + [w], |ws|);
    PushPrefix(m, xs, ws, ws + [w], |ws|);
  }

  ghost predicate RoomFor(m: nat, xs: seq<Lane>, ws: seq<PageWrite>)
    requires LanesOk(m, xs)
  {
    forall i :: 0 <= i <= |ws| ==> Open(m, PushAll(m, xs, ws, i)) < |xs|
  }

  lemma WritesStep(ws: seq<PageWrite>, n: nat, a: nat)
    requires 0 < n <= |ws|
    ensures Writes(ws[..n], a) <==> Writes(ws[..n - 1], a) || ws[n - 1].addr == a
  {
    if Writes(ws[..n], a) && ws[n - 1].addr != a {
      var i :| 0 <= i < n && ws[..n][i].addr == a;
      assert ws[..n - 1][i].addr == a;
    }
    if Writes(ws[..n - 1], a) {
      var i :| 0 <= i < n - 1 && ws[..n - 1][i].addr == a;
      assert ws[..n][i].addr == a;
    }
    if ws[n - 1].addr == a {
      assert ws[..n][n - 1].addr == a;
    }
  }

  /** An address the pages override is mapped to a block of their lanes, whatever it was mapped
      to before; any other address is left alone. */
  lemma {:induction false} OverriddenAt(m: nat, xs: seq<Lane>, pm: seq<Entry>, qm: seq<Entry>, ws: seq<PageWrite>, n: nat, a: nat)
    requires LanesOk(m, xs) && n <= |ws| && a < |pm| == |qm|
    requires forall i :: 0 <= i < n ==> Open(m, PushAll(m, xs, ws, i)) < |xs|
    ensures var e := Overridden(m, xs, pm, ws, n)[a];
            if Writes(ws[..n], a)
            then e == Overridden(m, xs, qm, ws, n)[a] && e.At? && exists j :: 0 <= j < |xs| && xs[j].at.block == e.loc.block
            else e == pm[a]
  {
    if n > 0 {
      hide Open, Writes, PushAll, NextPlace, LanesOk;
      OverriddenAt(m, xs, pm, qm, ws, n - 1, a);
      WritesStep(ws, n, a);
      if ws[n - 1].addr == a {
        SameBlocks(m, xs, ws, n - 1);
        NextPlaceBlock(m, xs, PushAll(m, xs, ws, n - 1));
      }
    }
  }

  lemma {:induction false} SameBlocks(m: nat, xs: seq<Lane>, ws: seq<PageWrite>, n: nat)
    requires LanesOk(m, xs) && n <= |ws|
    ensures forall j :: 0 <= j < |xs| ==> PushAll(m, xs, ws, n)[j].at.block == xs[j].at.block
  {
    if n > 0 {
      SameBlocks(m, xs, ws, n - 1);
    }
  }

  /** The lanes of the two temperatures are on different blocks. */
  ghost predicate Apart(hot: seq<Lane>, cold: seq<Lane>) {
    forall i, j :: 0 <= i < |hot| && 0 <= j < |cold| ==> hot[i].at.block != cold[j].at.block
  }

  lemma RoomBefore(m: nat, xs: seq<Lane>, ws: seq<PageWrite>, w: PageWrite)
    requires LanesOk(m, xs) && RoomFor(m, xs, ws + [w])
    ensures RoomFor(m, xs, ws) && Open(m, PushAll(m, xs, ws, |ws|)) < |xs|
  {
    hide Open;
    forall i | 0 <= i <= |ws|
      ensures Open(m, PushAll(m, xs, ws, i)) < |xs|
    {
      PushPrefix(m, xs, ws, ws + [w], i);
    }
  }

  lemma WritesAll(ws: seq<PageWrite>, a: nat)
    ensures Writes(ws[..|ws|], a) == Writes(ws, a)
  {
    assert ws[..|ws|] == ws;
  }

  /** What the replay makes of address a, by the writes of each temperature. */
  lemma RecoveredAt(m: nat, hot: seq<Lane>, cold: seq<Lane>, pm: seq<Entry>, qm: seq<Entry>, ws: seq<PageWrite>, a: nat)
    requires LanesOk(m, cold) && Apart(hot, cold) && RoomFor(m, cold, ws) && a < |pm| == |qm|
    ensures var e := Overridden(m, cold, pm, ws, |ws|)[a];
            if Writes(ws, a)
            then e == Overridden(m, cold, qm, ws, |ws|)[a] && e.At? && forall i :: 0 <= i < |hot| ==> hot[i].at.block != e.loc.block
            else e == pm[a]
  {
    OverriddenAt(m, cold, pm, qm, ws, |ws|, a);
    WritesAll(ws, a);
    hide Open, Overridden;
  }

  lemma NextPlaceBlock(m: nat, xs: seq<Lane>, ys: seq<Lane>)
    requires |ys| == |xs| && Open(m, ys) < |xs| && forall j :: 0 <= j < |xs| ==> ys[j].at.block == xs[j].at.block
    ensures NextPlace(m, ys).At? && xs[Open(m, ys)].at.block == NextPlace(m, ys).loc.block
  {
    hide Open;
  }

  lemma HotStep(m: nat, hot: seq<Lane>, cold: seq<Lane>, pm: seq<Entry>, hots: seq<PageWrite>, colds: seq<PageWrite>, w: PageWrite, a: nat)
    requires LanesOk(m, hot) && LanesOk(m, cold) && Apart(hot, cold) && a < |pm|
    requires RoomFor(m, hot, hots + [w]) && RoomFor(m, cold, colds)
    ensures var r, q := Recovered(m, hot, cold, pm, hots + [w], colds), Recovered(m, hot, cold, pm, hots, colds);
            if w.addr != a then r[a] == q[a]
            else (r[a] == NextPlace(m, PushAll(m, hot, hots, |hots|)) <==> !Writes(colds, a))
  {
    hide Open, PushAll, Apart, RoomFor, Overridden, Writes, NextPlace, LanesOk;
    RoomBefore(m, hot, hots, w);
    OverriddenSnoc(m, hot, pm, hots, w);
    SameBlocks(m, hot, hots, |hots|);
    NextPlaceBlock(m, hot, PushAll(m, hot, hots, |hots|));
    var base := Overridden(m, hot, pm, hots, |hots|);
    RecoveredAt(m, hot, cold, Set(base, w.addr, NextPlace(m, PushAll(m, hot, hots, |hots|))), base, colds, a);
    RecoveredAt(m, hot, cold, base, base, colds, a);
    assert |hots + [w]| == |hots| + 1;
  }

  lemma DropStep(m: nat, hot: seq<Lane>, cold: seq<Lane>, pm: seq<Entry>, hots: seq<PageWrite>, colds: seq<PageWrite>, a: nat)
    requires LanesOk(m, hot) && LanesOk(m, cold) && Apart(hot, cold) && a < |pm|
    requires RoomFor(m, hot, hots) && RoomFor(m, cold, colds)
    ensures Recovered(m, hot, cold, pm, hots, colds)[a].Nowhere? <==>
            pm[a].Nowhere? && !Writes(hots, a) && !Writes(colds, a)
  {
    OverriddenAt(m, hot, pm, pm, hots, |hots|, a);
    WritesAll(hots, a);
    var base := Overridden(m, hot, pm, hots, |hots|);
    RecoveredAt(m, hot, cold, base, base, colds, a);
    hide Open, PushAll, Apart, RoomFor, Overridden, Writes;
  }

  /** Replay meaning: for every session on idle dies in which neither set of journals fills,
      the replayed map agrees with the running one on exactly the addresses that survive. */
  lemma {:induction false} ReplayExact(m: nat, hot: seq<Lane>, cold: seq<Lane>, pm: seq<Entry>, acts: seq<Act>, n: nat, a: nat)
    requires LanesOk(m, hot) && LanesOk(m, cold) && Apart(hot, cold) && n <= |acts| && a < |pm|
    requires RoomFor(m, hot, Only(acts, true, n)) && RoomFor(m, cold, Only(acts, false, n))
    ensures Recovered(m, hot, cold, pm, Only(acts, true, n), Only(acts, false, n))[a] == MapAfter(m, hot, cold, pm, acts, n)[a]
            <==> Survives(acts, n, a, pm[a])
  {
    hide Recovered, PushAll, NextPlace, RoomFor, Apart, Writes, LanesOk;
    if n > 0 {
      var hots, colds := Only(acts, true, n - 1), Only(acts, false, n - 1);
      match acts[n - 1]
      case Put(w, true) =>
        RoomBefore(m, hot, hots, w);
        ReplayExact(m, hot, cold, pm, acts, n - 1, a);
        HotStep(m, hot, cold, pm, hots, colds, w, a);
      case Put(w, false) =>
        RoomBefore(m, cold, colds, w);
        ReplayExact(m, hot, cold, pm, acts, n - 1, a);
        ColdStep(m, hot, cold, pm, hots, colds, w);
      case Drop(b) =>
        ReplayExact(m, hot, cold, pm, acts, n - 1, a);
        DropStep(m, hot, cold, pm, hots, colds, a);
    } else {
      NothingRecovered(m, hot, cold, pm);
    }
  }

  lemma ColdStep(m: nat, hot: seq<Lane>, cold: seq<Lane>, pm: seq<Entry>, hots: seq<PageWrite>, colds: seq<PageWrite>, w: PageWrite)
    requires LanesOk(m, hot) && LanesOk(m, cold)
    ensures Recovered(m, hot, cold, pm, hots, colds + [w])
         == Set(Recovered(m, hot, cold, pm, hots, colds), w.addr, NextPlace(m, PushAll(m, cold, colds, |colds|)))
  {
    OverriddenSnoc(m, cold, Overridden(m, hot, pm, hots, |hots|), colds, w);
  }

  lemma NothingRecovered(m: nat, hot: seq<Lane>, cold: seq<Lane>, pm: seq<Entry>)
    requires LanesOk(m, hot) && LanesOk(m, cold)
    ensures Recovered(m, hot, cold, pm, [], []) == pm
  {
  }
}
