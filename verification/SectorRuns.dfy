/** Whole runs of the sector front end: it is an array of sectors. */
module SectorRuns {
  import opened Flash
  import opened FtlState
  import FtlApi
  import Commit
  import O = Onfm

  datatype Op =
    | WriteSectors(addr: nat, data: seq<Sector>)
    | ReadSectors(addr: nat, count: nat)
    | Unmount

  predicate InDisk(size: nat, op: Op) {
    match op
    case WriteSectors(addr, data) => addr + |data| <= size
    case ReadSectors(addr, count) => addr + count <= size
    case Unmount => true
  }

  /** What sector k holds after the first n operations of a run that began with v. */
  function Latest(ops: seq<Op>, n: nat, k: nat, v: seq<Sector>): Sector
    requires n <= |ops| && k < |v|
  {
    if n == 0 then v[k]
    else
      match ops[n - 1]
      case WriteSectors(addr, data) => if addr <= k < addr + |data| then data[k - addr] else Latest(ops, n - 1, k, v)
      case _ => Latest(ops, n - 1, k, v)
  }

  ghost predicate Holds(now: seq<Sector>, ops: seq<Op>, n: nat, v: seq<Sector>)
    requires n <= |ops|
  {
    |now| == |v| && forall k: nat :: k < |v| ==> now[k] == Latest(ops, n, k, v)
  }

  ghost predicate Answer(out: seq<Sector>, ops: seq<Op>, i: nat, v: seq<Sector>) {
    i < |ops| && ops[i].ReadSectors? ==>
      && |out| == ops[i].count && ops[i].addr + ops[i].count <= |v|
      && forall j: nat :: j < |out| ==> out[j] == Latest(ops, i, ops[i].addr + j, v)
  }

  ghost predicate Answers(outs: seq<seq<Sector>>, ops: seq<Op>, n: nat, v: seq<Sector>) {
    |outs| == n && forall i: nat :: i < n ==> Answer(outs[i], ops, i, v)
  }

  /** One operation changes exactly the sectors it names. */
  ghost predicate Applied(op: Op, before: seq<Sector>, now: seq<Sector>) {
    match op
    case WriteSectors(addr, data) => addr + |data| <= |before| && now == before[..addr] + data + before[addr + |data|..]
    case _ => now == before
  }

  lemma StepHolds(before: seq<Sector>, now: seq<Sector>, ops: seq<Op>, n: nat, v: seq<Sector>)
    requires n < |ops| && Holds(before, ops, n, v) && Applied(ops[n], before, now)
    ensures Holds(now, ops, n + 1, v)
  {
  }

  method Step(o: O.Onfm, op: Op) returns (out: seq<Sector>)
    requires o.Idle() && InDisk(|o.Volume()|, op)
    modifies o, o.pool, o.pool.pages, o.pool.used, o.pool.written, o.s, o.s.ubi.Repr
    ensures o.Idle() && Applied(op, old(o.Volume()), o.Volume())
    ensures op.ReadSectors? ==> op.addr + op.count <= |o.Volume()| && out == o.Volume()[op.addr..op.addr + op.count]
    ensures op.Unmount? ==> Commit.JustCommitted(o.s)
  {
    hide Commit.JustCommitted;
    hide O.Onfm.Idle, O.Onfm.Volume;
    out := [];
    match op
    case WriteSectors(addr, data) =>
      o.Write(addr, data, None);
    case ReadSectors(addr, count) =>
      out := o.Read(addr, count);
    case Unmount =>
      o.Unmount();
  }

  /** Every read of a run returns the sectors last written, for any alignment and length. */
  method Run(o: O.Onfm, ops: seq<Op>) returns (outs: seq<seq<Sector>>)
    requires o.Idle() && forall i :: 0 <= i < |ops| ==> InDisk(|o.Volume()|, ops[i])
    modifies o, o.pool, o.pool.pages, o.pool.used, o.pool.written, o.s, o.s.ubi.Repr
    ensures o.Idle() && Holds(o.Volume(), ops, |ops|, old(o.Volume()))
    ensures Answers(outs, ops, |ops|, old(o.Volume()))
  {
    hide O.Onfm.Idle, O.Onfm.Volume, Applied;
    ghost var v := o.Volume();
    outs := [];
    while |outs| < |ops|
      invariant o.Idle() && |outs| <= |ops| && Holds(o.Volume(), ops, |outs|, v) && Answers(outs, ops, |outs|, v)
    {
      var n := |outs|;
      ghost var before := o.Volume();
      var out := Step(o, ops[n]);
      StepHolds(before, o.Volume(), ops, n, v);
      outs := outs + [out];
    }
  }
}
