/** Both layers over the NAND device: format it, mount it, format the volume, and run. */
module Device {
  import opened Flash
  import G = Geometry
  import N = Nand
  import UbiSpec
  import UbiFlash
  import UbiState
  import UbiCommit
  import UbiWear
  import UbiErase
  import UbiFormat
  import UbiMount
  import UbiRestart
  import Ubi
  import opened FtlState
  import Format
  import FtlApi
  import FtlRuns
  import Volume
  import Buffers
  import Onfm
  import Sectors
  import SectorRuns
  import RS = ReplaySpec
  import L = Lanes
  import D = DataSpec
  import PmtSpec
  import ListLoss
  import Recovery
  import Sessions
  import PowerLoss
  import Durable
  import Commit
  import Logs

  /** The mapped blocks of a device just formatted and mounted are erased. */
  lemma StillBlank(d: UbiSpec.Device, cells: seq<N.PhysBlock>, now: seq<N.PhysBlock>, r: UbiFlash.Rec)
    requires UbiFormat.FormattedFlash(d, cells, r) && UbiCommit.MappedKept(cells, now, r.mapped)
    ensures |r.mapped| == d.U
    ensures forall b :: 0 <= b < d.U ==> r.mapped[b].block < |now| && now[r.mapped[b].block] == N.ClearBlock(d.P)
  {
    hide UbiFlash.Boots;
  }

  /** UBI_Format and UBI_Init: every logical block is erased. */
  method NewUbi(d: UbiSpec.Device, nand: N.Nand, limit: nat, unknown: bool, polls: nat) returns (u: Ubi.Ubi)
    requires nand.Valid() && nand.blocks == d.T && nand.pages == d.P && nand.faults == 0 && nand.power == None
    requires UbiFormat.Planned(d, limit) && UbiSpec.DataLo(d) < limit
    modifies nand
    ensures u.Valid() && fresh(u.Repr - {nand}) && u in u.Repr && u.blocks == d.U && u.pages == d.P
    ensures u.blk == seq(d.U, _ => Blank(d.P))
  {
    hide UbiFormat.FormattedFlash, UbiCommit.Steady, UbiFormat.Planned, UbiMount.Before, UbiCommit.MappedKept, UbiWear.Recorded, UbiCommit.Finds;
    var dev := new UbiState.Ubi(d, nand);
    ghost var r := UbiFormat.UbiFormat(dev, limit, unknown);
    ghost var cells := nand.cells;
    FormattedBoots(d, cells, r);
    var st;
    ghost var at;
    st, at := UbiMount.UbiInit(dev, r, None);
    StillBlank(d, cells, nand.cells, r);
    UbiErase.SteadyParts(dev, at, r.mapped);
    u := new Ubi.Ubi(dev, at, r.mapped, polls);
    assert Ubi.BlockOf(N.ClearBlock(d.P)) == Blank(d.P);
  }

  lemma FormattedBoots(d: UbiSpec.Device, cells: seq<N.PhysBlock>, r: UbiFlash.Rec)
    requires UbiFormat.FormattedFlash(d, cells, r)
    ensures UbiMount.Before(d, cells, r, None)
  {
  }

  /** From a NAND device with any contents to a valid FTL over a volume of zeros. */
  method NewVolume(d: UbiSpec.Device, g: G.Geometry, nand: N.Nand, limit: nat, unknown: bool, polls: nat, logBlocks: nat) returns (s: Ftl)
    requires nand.Valid() && nand.blocks == d.T && nand.pages == d.P && nand.faults == 0 && nand.power == None
    requires UbiFormat.Planned(d, limit) && UbiSpec.DataLo(d) < limit
    requires g.U == d.U && g.P == d.P && g.U <= logBlocks <= g.bdtPages * g.pageBytes
    modifies nand
    ensures fresh(s) && fresh(s.ubi.Repr - {nand}) && s.g == g
    ensures FtlApi.Valid(s) && s.Pages() == Volume.ZeroVolume(g)
  {
    hide UbiFormat.Planned, FtlApi.Valid;
    var u := NewUbi(d, nand, limit, unknown, polls);
    s := new Ftl(g, u, ZeroList(g), true);
    Volume.FormatAndInit(s, logBlocks);
    assert s.Pages() == Volume.ZeroVolume(g);
  }

  /** The whole stack: on a NAND device with any contents, after formatting both layers, every
      run of FTL operations answers as a volume of pages does.  Nothing but the device is shared
      with the caller. */
  method RunOnNand(d: UbiSpec.Device, g: G.Geometry, nand: N.Nand, limit: nat, unknown: bool, polls: nat, logBlocks: nat,
                   ops: seq<FtlRuns.Op>, hot: nat -> nat -> bool) returns (outs: seq<Option<PageData>>)
    requires nand.Valid() && nand.blocks == d.T && nand.pages == d.P && nand.faults == 0 && nand.power == None
    requires UbiFormat.Planned(d, limit) && UbiSpec.DataLo(d) < limit
    requires g.U == d.U && g.P == d.P && g.U <= logBlocks <= g.bdtPages * g.pageBytes
    requires forall i :: 0 <= i < |ops| ==> FtlRuns.InVolume(g.cap, ops[i])
    modifies nand
    ensures FtlRuns.Answers(outs, ops, |ops|, Volume.ZeroVolume(g), ZeroPage(g))
  {
    hide UbiFormat.Planned, FtlApi.Valid, FtlRuns.Holds, FtlRuns.Answers;
    var s := NewVolume(d, g, nand, limit, unknown, polls, logBlocks);
    outs := FtlRuns.Run(s, ops, hot);
  }

  /** A sector of zeros. */
  function ZeroDisk(g: G.Geometry, n: nat): (r: seq<Sector>)
    ensures |r| == g.cap * n && forall k :: 0 <= k < |r| ==> r[k] == seq(512, _ => 0 as bv8)
  {
    seq(g.cap * n, _ => seq(512, _ => 0 as bv8))
  }

  lemma ZeroSectors(g: G.Geometry, n: nat)
    requires n == g.pageBytes / 512 && n > 0
    ensures Sectors.Paged(Volume.ZeroVolume(g), n) && Sectors.SectorsOf(Volume.ZeroVolume(g), n) == ZeroDisk(g, n)
  {
    var pages, zero := Volume.ZeroVolume(g), ZeroPage(g);
    assert |zero| == n && forall i :: 0 <= i < n ==> zero[i] == seq(512, _ => 0 as bv8);
    hide Volume.ZeroVolume, ZeroPage, ZeroDisk;
    var s, t := Sectors.SectorsOf(pages, n), ZeroDisk(g, n);
    forall k | 0 <= k < |s|
      ensures s[k] == t[k]
    {
      Sectors.InPage(pages, n, k);
    }
  }

  /** The disk over a new volume. */
  method NewDisk(s: Ftl, count: nat) returns (o: Onfm.Onfm)
    requires FtlApi.Valid(s) && s.Pages() == Volume.ZeroVolume(s.g) && s.g.pageBytes >= 512 && count % 2 == 0 && 2 < count
    ensures o.Idle() && o.s == s && fresh(o) && fresh(o.pool) && fresh(o.pool.pages) && fresh(o.pool.used) && fresh(o.pool.written)
    ensures o.Volume() == ZeroDisk(s.g, s.g.pageBytes / 512)
  {
    hide FtlApi.Valid, Ftl.Pages, Sectors.SectorsOf;
    var n := s.g.pageBytes / 512;
    ZeroSectors(s.g, n);
    hide Volume.ZeroVolume;
    var pool := new Buffers.Pool(count, n);
    o := new Onfm.Onfm(s, pool);
  }

  /** The whole stack as a disk: on a NAND device with any contents, after formatting, every read
      of every run returns the sectors last written, or zeros. */
  method DiskOnNand(d: UbiSpec.Device, g: G.Geometry, nand: N.Nand, limit: nat, unknown: bool, polls: nat, logBlocks: nat, count: nat,
                    ops: seq<SectorRuns.Op>) returns (outs: seq<seq<Sector>>)
    requires nand.Valid() && nand.blocks == d.T && nand.pages == d.P && nand.faults == 0 && nand.power == None
    requires UbiFormat.Planned(d, limit) && UbiSpec.DataLo(d) < limit
    requires g.U == d.U && g.P == d.P && g.U <= logBlocks <= g.bdtPages * g.pageBytes && g.pageBytes >= 512
    requires count % 2 == 0 && 2 < count
    requires forall i :: 0 <= i < |ops| ==> SectorRuns.InDisk(g.cap * (g.pageBytes / 512), ops[i])
    modifies nand
    ensures SectorRuns.Answers(outs, ops, |ops|, ZeroDisk(g, g.pageBytes / 512))
  {
    hide UbiFormat.Planned, FtlApi.Valid, SectorRuns.Answers, SectorRuns.Holds, SectorRuns.InDisk;
    var s := NewVolume(d, g, nand, limit, unknown, polls, logBlocks);
    var o := NewDisk(s, count);
    hide Onfm.Onfm.Idle, Onfm.Onfm.Volume;
    outs := SectorRuns.Run(o, ops);
  }

  // ---------------------------------------------------------------- a power loss

  /** The blocks shown before a restart are shown after it. */
  lemma ShownAgain(cells: seq<N.PhysBlock>, now: seq<N.PhysBlock>, mapped: seq<N.AreaEntry>, blk: seq<Block>, again: seq<Block>)
    requires Ubi.Shows(cells, mapped, blk) && UbiCommit.MappedKept(cells, now, mapped) && |again| == |blk|
    requires forall b :: 0 <= b < |blk| ==> mapped[b].block < |now| && again[b] == Ubi.BlockOf(now[mapped[b].block])
    ensures again == blk
  {
  }

  lemma PlainStill(cells: seq<N.PhysBlock>, now: seq<N.PhysBlock>, mapped: seq<N.AreaEntry>, blk: seq<Block>)
    requires Ubi.Shows(cells, mapped, blk) && UbiCommit.MappedKept(cells, now, mapped)
    ensures forall b :: 0 <= b < |blk| ==> mapped[b].block < |now| && Ubi.Plain(now[mapped[b].block])
  {
  }

  /** A new UBI over the device that another was mounted on. */
  method MountOver(dev: UbiState.Ubi, cuts: seq<nat>, polls: nat, ghost at: seq<nat>, ghost mapped: seq<N.AreaEntry>, ghost blk: seq<Block>)
    returns (v: Ubi.Ubi)
    requires UbiCommit.Steady(dev, at, mapped) && |mapped| == |blk| == dev.g.U && Ubi.Shows(dev.nand.cells, mapped, blk)
    modifies dev.nand
    ensures v.Valid() && fresh(v.Repr - {dev.nand}) && v in v.Repr && v.blk == blk && v.blocks == dev.g.U && v.pages == dev.g.P
  {
    hide UbiCommit.Steady, UbiCommit.MappedKept, Ubi.Shows, UbiCommit.Finds;
    ghost var cells := dev.nand.cells;
    UbiRestart.SteadyFinds(dev, at, mapped);
    var again;
    ghost var at';
    again, at' := UbiRestart.Restart(dev.g, dev.nand, cuts, mapped);
    UbiErase.SteadyParts(again, at', mapped);
    PlainStill(cells, dev.nand.cells, mapped, blk);
    v := new Ubi.Ubi(again, at', mapped, polls);
    assert |v.blk| == |blk|;
    ShownAgain(cells, dev.nand.cells, mapped, blk, v.blk);
  }

  /** Power fails and comes back, perhaps several times during UBI_Init: the logical blocks are
      found as they were. */
  method RestartUbi(u: Ubi.Ubi, cuts: seq<nat>, polls: nat) returns (v: Ubi.Ubi)
    requires u.Valid()
    modifies u.Repr
    ensures v.Valid() && fresh(v.Repr - u.Repr) && v in v.Repr
    ensures v.blk == old(u.blk) && v.blocks == u.blocks && v.pages == u.pages
  {
    assert Ubi.Key(0);
    hide UbiCommit.Steady, Ubi.Shows;
    v := MountOver(u.dev, cuts, polls, u.at, u.mapped, u.blk);
  }

  /** Power-on of both layers over what a power loss left: any number of power losses during
      UBI_Init, then FTL_Init. */
  method PowerOn(g: G.Geometry, ubi: Ubi.Ubi, cuts: seq<nat>, polls: nat, ghost list: seq<nat>, ghost r: Root, ghost d: seq<nat>, ghost x: Durable.Trail,
                 ghost torn: bool, ghost T: set<nat>)
    returns (t: Ftl, ghost pm: PmtSpec.View)
    requires ubi.Valid() && ubi.blocks == g.U && ubi.pages == g.P && Durable.Left(g, ubi.blk, list, r, d, x, torn, T)
    modifies ubi.Repr
    ensures fresh(t) && fresh(t.ubi.Repr - ubi.Repr) && t.g == g && Durable.Recovered(t, x, pm)
    ensures pm == Logs.StoredMap(g, old(ubi.blk), r, d, list)
    ensures t.ubi.Valid() && t.ubi.blocks == g.U && t.ubi.pages == g.P
    ensures t.Pages() == Recovery.RecoveredPages(g, Sessions.SessionLeft(g, x.vs[0], x.acts, torn), DataBlocks(g, old(ubi.blk)), ZeroPage(g))
    ensures !torn ==> Durable.LeftStill(g, t.ubi.blk, t.listed, x, T) && DataBlocks(g, t.ubi.blk) == DataBlocks(g, old(ubi.blk))
  {
    hide Durable.Left, Durable.Recovered, Recovery.RecoveredPages, Sessions.SessionLeft, Ubi.Ubi.Valid, DataBlocks, Ftl.Pages, Logs.StoredMap, Durable.LeftStill;
    LeftViews(g, ubi.blk, list, r, d, x, torn, T);
    var u := RestartUbi(ubi, cuts, polls);
    t, pm := Durable.Recover(g, u, list, r, d, x, torn, T);
    UbiSound(t, x, pm);
  }

  lemma LeftViews(g: G.Geometry, blk: seq<Block>, list: seq<nat>, r: Root, d: seq<nat>, x: Durable.Trail, torn: bool, T: set<nat>)
    requires Durable.Left(g, blk, list, r, d, x, torn, T)
    ensures |x.vs| > 0
  {
    hide Sessions.SessionUpTo, Sessions.FlashLeft, Recovery.Interrupted, Recovery.FewClusters;
  }

  lemma UbiSound(t: Ftl, x: Durable.Trail, pm: PmtSpec.View)
    requires Durable.Recovered(t, x, pm)
    ensures t.ubi.Valid() && t.ubi.blocks == t.g.U && t.ubi.pages == t.g.P
  {
    hide D.Inv, D.Settled, Logs.LogsOk, PmtSpec.Stable, PowerLoss.Recovers, PowerLoss.IsMap, Ftl.Pages, Ftl.Data, ListLoss.InOpenBlock;
  }

  /** Power fails again and again, during UBI_Init (`rounds[i]`) and after each FTL_Init but the last:
      every mount recovers the same volume. */
  method PowerOnOften(g: G.Geometry, ubi: Ubi.Ubi, rounds: seq<seq<nat>>, polls: nat, ghost list: seq<nat>, ghost r: Root, ghost d: seq<nat>, ghost x: Durable.Trail,
                      ghost T: set<nat>)
    returns (t: Ftl, ghost pm: PmtSpec.View)
    requires ubi.Valid() && ubi.blocks == g.U && ubi.pages == g.P && Durable.Left(g, ubi.blk, list, r, d, x, false, T) && |rounds| > 0
    modifies ubi.Repr
    ensures fresh(t) && fresh(t.ubi.Repr - ubi.Repr) && t.g == g && Durable.Recovered(t, x, pm) && |x.vs| > 0
    ensures t.Pages() == Recovery.RecoveredPages(g, Sessions.SessionLeft(g, x.vs[0], x.acts, false), DataBlocks(g, old(ubi.blk)), ZeroPage(g))
  {
    hide Durable.Left, Durable.Recovered, Recovery.RecoveredPages, Sessions.SessionLeft, Ubi.Ubi.Valid, DataBlocks, Ftl.Pages, Logs.StoredMap, Durable.LeftStill;
    ghost var flash := DataBlocks(g, ubi.blk);
    LeftViews(g, ubi.blk, list, r, d, x, false, T);
    t, pm := PowerOn(g, ubi, rounds[0], polls, list, r, d, x, false, T);
    for i := 1 to |rounds|
      invariant fresh(t) && fresh(t.ubi.Repr - ubi.Repr) && t.g == g && Durable.Recovered(t, x, pm)
      invariant t.ubi.Valid() && t.ubi.blocks == g.U && t.ubi.pages == g.P && Durable.LeftStill(g, t.ubi.blk, t.listed, x, T)
      invariant DataBlocks(g, t.ubi.blk) == flash
      invariant t.Pages() == Recovery.RecoveredPages(g, Sessions.SessionLeft(g, x.vs[0], x.acts, false), flash, ZeroPage(g))
    {
      ghost var r1, d1 := StillThere(g, t.ubi.blk, t.listed, x, T);
      t, pm := PowerOn(g, t.ubi, rounds[i], polls, t.listed, r1, d1, x, false, T);
    }
  }

  lemma StillThere(g: G.Geometry, blk: seq<Block>, list: seq<nat>, x: Durable.Trail, T: set<nat>) returns (r: Root, d: seq<nat>)
    requires Durable.LeftStill(g, blk, list, x, T)
    ensures Durable.Left(g, blk, list, r, d, x, false, T)
  {
    hide Durable.Left;
    r, d :| Durable.Left(g, blk, list, r, d, x, false, T);
  }

  /** Both layers: a run of calls on idle dice with an FTL_Flush among them, then any number of power
      losses, during UBI_Init or between FTL_Init and the next call.  Every address that survives
      the calls since the last commit reads as it did when power failed; without such a call, the
      volume is as it was. */
  method SurvivePowerLoss(s: Ftl, calls: seq<Durable.Call>, rounds: seq<seq<nat>>, polls: nat, ghost T: set<nat>)
    returns (t: Ftl, outs: seq<Option<PageData>>, ghost x: Durable.Trail, ghost k: nat, ghost pm: PmtSpec.View)
    requires FtlApi.Valid(s) && Durable.Ordered(s) && |calls| < RS.MAX_UINT32 && forall i :: 0 <= i < |calls| ==> Durable.InVolume(s.g.cap, calls[i])
    requires Durable.AllUse(s.g, calls, T) && Durable.Synced(calls, |calls|) && |rounds| > 0
    modifies s, s.ubi.Repr
    ensures fresh(t) && t.g == s.g && Durable.Recovered(t, x, pm)
    ensures Durable.Answered(outs, calls, |calls|, old(s.Pages()), ZeroPage(s.g))
    ensures Durable.Since(x, calls, k, |calls|, old(s.Pages()), ZeroPage(s.g)) && Durable.NoSync(calls, k, |calls|)
    ensures |x.acts| < |x.vs| && D.PagesOf(x.vs[|x.acts|], ZeroPage(s.g)) == Durable.VolumeAfter(calls, |calls|, old(s.Pages()), ZeroPage(s.g))
    ensures x.acts == [] ==> t.Pages() == Durable.VolumeAfter(calls, |calls|, old(s.Pages()), ZeroPage(s.g))
  {
    hide Recovery.RecoveredPages, Sessions.SessionLeft, DataBlocks, Durable.LeftStill;
    hide FtlApi.Valid, Durable.Ordered, Ftl.Pages, Durable.Recovered, Durable.Left, Durable.Follows, Durable.Answered, Durable.NoSync, Durable.AllUse, Durable.Synced, Durable.VolumeAfter, D.PagesOf, Ubi.Ubi.Valid;
    ghost var pages, y := s.Pages(), None;
    outs, y, k := Durable.Run(s, calls, T);
    x := y.value;
    ghost var r, d, U := Durable.CutNow(s, x);
    LastPages(s, x);
    t, pm := PowerOnOften(s.g, s.ubi, rounds, polls, s.listed, r, d, x, U);
    RecoveredWhole(t, x, pm);
  }

  /** The trail's last view shows the volume. */
  lemma LastPages(s: Ftl, x: Durable.Trail)
    requires Durable.Follows(s, x)
    ensures |x.acts| < |x.vs| && D.PagesOf(x.vs[|x.acts|], ZeroPage(s.g)) == s.Pages()
    ensures s.ubi.Valid() && s.ubi.blocks == s.g.U && s.ubi.pages == s.g.P
  {
    hide Sessions.SessionUpTo, Sessions.FromCommit, Commit.OnRecord, Durable.ActsCached, D.Inv, D.Settled, Logs.LogsOk, PmtSpec.Stable, D.PagesOf;
  }

  lemma RecoveredWhole(t: Ftl, x: Durable.Trail, pm: PmtSpec.View)
    requires Durable.Recovered(t, x, pm)
    ensures x.acts == [] ==> |x.vs| == 1 && t.Pages() == D.PagesOf(x.vs[0], ZeroPage(t.g))
  {
    hide FtlApi.Mounted, Ftl.Pages, D.PagesOf, PowerLoss.IsMap;
    if x.acts == [] {
      assert x.vs == [x.vs[0]];
      Durable.NothingLost(t.g, x.vs[0], t.Pages(), ZeroPage(t.g));
    }
  }

  /** The same when power fails in a page write, before the list that the page may make due: the page
      is written or counts as one more act. */
  method SurviveTornWrite(s: Ftl, write: RS.PageWrite, isHot: bool, cuts: seq<nat>, polls: nat, ghost x: Durable.Trail)
    returns (t: Ftl, ghost y: Durable.Trail, ghost pm: PmtSpec.View)
    requires Durable.Follows(s, x) && s.ubi.polls == 0 && write.addr < s.g.cap && |x.acts| + 1 < RS.MAX_UINT32
    requires Durable.Fits(s, Durable.Do(RS.Put(write, isHot))) && !Durable.Fills(s.g, s.Data(), Durable.Do(RS.Put(write, isHot)))
    modifies s, s.ubi.Repr
    ensures fresh(t) && t.g == s.g && Durable.Recovered(t, y, pm)
    ensures |y.vs| == |x.vs| + 1 && y.vs[..|x.vs|] == x.vs && y.acts == x.acts + [RS.Put(write, isHot)]
    ensures D.PagesOf(y.vs[|x.vs|], ZeroPage(s.g)) == old(s.Pages())[write.addr := write.data]
  {
    hide Recovery.RecoveredPages, Sessions.SessionLeft, DataBlocks, Durable.LeftStill;
    hide Ftl.Pages, Ftl.Data, Durable.Recovered, Durable.Left, Durable.Follows, Durable.Fits, Durable.Fills, D.PagesOf, Ubi.Ubi.Valid;
    ghost var torn, r, d, list, T;
    y, torn, r, d, list, T := Durable.CutWrite(s, write, isHot, x);
    t, pm := PowerOn(s.g, s.ubi, cuts, polls, list, r, d, y, torn, T);
  }

  // ---------------------------------------------------------------- ONFM_Unmount and ONFM_Mount

  /** A power loss or power-off right after a commit, and a mount, whatever power losses interrupt
      UBI_Init: nothing is lost.  The new state is valid if no cluster but the first lives in the
      page-map block that was being filled. */
  method MountCommitted(s: Ftl, cuts: seq<nat>, polls: nat) returns (t: Ftl)
    requires FtlApi.Valid(s) && Durable.Ordered(s) && Commit.JustCommitted(s)
    modifies s.ubi.Repr
    ensures fresh(t) && fresh(t.ubi.Repr - s.ubi.Repr) && t.g == s.g && FtlApi.Mounted(t) && t.Pages() == old(s.Pages())
    ensures old(!ListLoss.InOpenBlock(s.g, s.Pmt())) ==> FtlApi.Valid(t)
  {
    hide Recovery.RecoveredPages, Sessions.SessionLeft, DataBlocks, Durable.LeftStill;
    hide FtlApi.Mounted, Ftl.Pages, Ftl.Data, Durable.InOrder, Durable.Follows, Durable.Left, PmtSpec.Stable, ListLoss.InOpenBlock, D.PagesOf, Ubi.Ubi.Valid, Logs.Stored, Logs.StoredMap, Commit.AllOnFlash;
    ghost var x := Durable.Trail([s.Data()], []);
    ghost var pm;
    Durable.CommitRestarts(s);
    ghost var U := Durable.CutCommitted(s);
    LastPages(s, x);
    t, pm := PowerOn(s.g, s.ubi, cuts, polls, s.listed, s.root, s.dirty, x, false, U);
    RecoveredWhole(t, x, pm);
  }

  /** ONFM_Unmount, power-off, and a mount: the sectors are what they were. */
  method UnmountAndMount(o: Onfm.Onfm, cuts: seq<nat>, polls: nat) returns (t: Ftl)
    requires o.Idle() && Durable.Ordered(o.s)
    modifies o.pool, o.pool.used, o.s, o.s.ubi.Repr
    ensures fresh(t) && t.g == o.s.g && FtlApi.Mounted(t)
    ensures Sectors.SectorsOf(t.Pages(), o.pool.sectors) == old(o.Volume())
  {
    hide FtlApi.Mounted, Ftl.Pages, Ftl.Data, Durable.InOrder, Commit.JustCommitted, ListLoss.InOpenBlock, Sectors.SectorsOf, Ubi.Ubi.Valid;
    o.Unmount();
    t := MountCommitted(o.s, cuts, polls);
  }

  /** ONFM_Mount of an unmounted disk whose page map does not need the list that is lost: the new
      disk is the old one. */
  method MountDisk(o: Onfm.Onfm, count: nat, cuts: seq<nat>, polls: nat) returns (q: Onfm.Onfm)
    requires o.Idle() && Durable.Ordered(o.s) && Commit.JustCommitted(o.s) && !ListLoss.InOpenBlock(o.s.g, o.s.Pmt())
    requires count % 2 == 0 && 2 < count
    modifies o.s.ubi.Repr
    ensures fresh(q) && q.Idle() && q.Volume() == old(o.Volume())
  {
    hide FtlApi.Mounted, Ftl.Pages, Ftl.Data, Durable.InOrder, Commit.JustCommitted, ListLoss.InOpenBlock, Sectors.SectorsOf, Ubi.Ubi.Valid;
    o.PoolSize();
    o.IdleVolume();
    var t := MountCommitted(o.s, cuts, polls);
    var pool := new Buffers.Pool(count, o.pool.sectors);
    q := new Onfm.Onfm(t, pool);
  }
}
