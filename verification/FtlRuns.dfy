/** Whole runs of the FTL: it is an array of pages, whatever it does underneath. */
module FtlRuns {
  import opened Geometry
  import opened Flash
  import D = DataSpec
  import opened FtlState
  import opened Data
  import opened FtlApi
  import Commit
  import DataReclaim
  import Lanes

  datatype Op =
    | WritePage(addr: nat, data: PageData)
    | TrimPages(start: nat, end: nat)
    | ReadPage(addr: nat)
    | FlushAll

  predicate InVolume(cap: nat, op: Op) {
    match op
    case WritePage(addr, _) => addr < cap
    case TrimPages(_, end) => end < cap
    case ReadPage(addr) => addr < cap
    case FlushAll => true
  }

  /** What address a holds after the first n operations of a run on a volume that began as
      `pages`: the last page written to it, or zeros if it was trimmed since. */
  function Latest(ops: seq<Op>, n: nat, a: nat, pages: seq<PageData>, zero: PageData): PageData
    requires n <= |ops| && a < |pages|
  {
    if n == 0 then pages[a]
    else
      match ops[n - 1]
      case WritePage(addr, data) => if addr == a then data else Latest(ops, n - 1, a, pages, zero)
      case TrimPages(start, end) => if start <= a <= end then zero else Latest(ops, n - 1, a, pages, zero)
      case _ => Latest(ops, n - 1, a, pages, zero)
  }

  ghost predicate Holds(now: seq<PageData>, ops: seq<Op>, n: nat, pages: seq<PageData>, zero: PageData)
    requires n <= |ops|
  {
    |now| == |pages| && forall a: nat :: a < |pages| ==> now[a] == Latest(ops, n, a, pages, zero)
  }

  /** The first n operations of a run have been answered. */
  ghost predicate Answers(outs: seq<Option<PageData>>, ops: seq<Op>, n: nat, pages: seq<PageData>, zero: PageData)
    requires n <= |ops|
  {
    |outs| == n && forall i: nat :: i < n && ops[i].ReadPage? ==>
      ops[i].addr < |pages| && outs[i] == Some(Latest(ops, i, ops[i].addr, pages, zero))
  }

  /** One operation changes exactly the pages it names. */
  ghost predicate Applied(op: Op, before: seq<PageData>, now: seq<PageData>, zero: PageData) {
    && |now| == |before|
    && forall a :: 0 <= a < |before| ==>
         now[a] == match op
                   case WritePage(addr, data) => if addr == a then data else before[a]
                   case TrimPages(start, end) => if start <= a <= end then zero else before[a]
                   case _ => before[a]
  }

  /** One operation, with the answers of the hot-data heuristic. */
  method Step(s: Ftl, op: Op, hot: nat -> bool) returns (out: Option<PageData>)
    requires Valid(s) && InVolume(s.g.cap, op)
    modifies s, s.ubi.Repr
    ensures Valid(s) && |s.Pages()| == s.g.cap && Applied(op, old(s.Pages()), s.Pages(), ZeroPage(s.g))
    ensures op.ReadPage? ==> op.addr < |s.Pages()| && out == Some(s.Pages()[op.addr])
    ensures op.FlushAll? ==> Commit.JustCommitted(s)
  {
    hide Mounted, Ftl.Pages, Ftl.Data, Commit.Calm, Commit.JustCommitted, Commit.Saved, Commit.Roomy, SomewhereWritten, PushedOn;
    hide HasRoom, RoomForTwo, OtherKept, DataReclaim.Renewed, Lanes.Dropped;
    PagesSize(s);
    out := None;
    match op
    case WritePage(addr, data) =>
      ghost var w := FtlWrite(s, addr, Some(data), hot(addr));
    case TrimPages(start, end) =>
      FtlTrim(s, start, end, hot);
    case ReadPage(addr) =>
      var page := FtlRead(s, addr);
      out := Some(page);
    case FlushAll =>
      FtlFlush(s);
  }

  /** Whole-run refinement: every read of a run returns the last page written to its address,
      or zeros if it was never written or has been trimmed since, whatever the heuristic
      answers and whatever is cached, committed and reclaimed in between. */
  method Run(s: Ftl, ops: seq<Op>, hot: nat -> nat -> bool) returns (outs: seq<Option<PageData>>)
    requires Valid(s) && forall i :: 0 <= i < |ops| ==> InVolume(s.g.cap, ops[i])
    modifies s, s.ubi.Repr
    ensures Valid(s) && |s.Pages()| == s.g.cap
    ensures Holds(s.Pages(), ops, |ops|, old(s.Pages()), ZeroPage(s.g))
    ensures Answers(outs, ops, |ops|, old(s.Pages()), ZeroPage(s.g))
  {
    hide Valid, Ftl.Pages;
    PagesSize(s);
    outs := [];
    while |outs| < |ops|
      invariant Valid(s) && |outs| <= |ops|
      invariant Holds(s.Pages(), ops, |outs|, old(s.Pages()), ZeroPage(s.g))
      invariant Answers(outs, ops, |outs|, old(s.Pages()), ZeroPage(s.g))
    {
      var out := Step(s, ops[|outs|], hot(|outs|));
      outs := outs + [out];
    }
  }
}
