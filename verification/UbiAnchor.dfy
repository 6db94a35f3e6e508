/** ubi_anchor.c: the record that says where the index table is. */
module UbiAnchor {
  import opened Flash
  import opened Nand
  import opened UbiSpec
  import opened UbiFlash
  import opened UbiState
  import UbiIndex

  /** Steps left in the ring before the search is back at the current block. */
  function StepsLeft(g: Device, first: bool, nb: nat, current: nat): int {
    if first then g.aHi - g.aLo + 2 else if nb > current then g.aHi - g.aLo + 1 - (nb - current) else current - nb
  }

  /** Anchor block x comes after block a and before block b in the ring. */
  predicate OnTheWay(g: Device, a: nat, b: nat, x: nat) {
    g.aLo <= x <= g.aHi && if a < b then a < x < b else x > a || x < b
  }

  /** Those blocks are logged as bad, or the table of bad blocks is full. */
  ghost predicate AllBad(g: Device, a: nat, b: nat, bad: seq<nat>) {
    |bad| >= g.B || forall x :: OnTheWay(g, a, b, x) ==> x in bad
  }

  /** One more block is passed. */
  lemma PassBad(g: Device, a: nat, nb: nat, next: nat, first: bool, bad: seq<nat>, more: seq<nat>)
    requires g.aLo <= a <= g.aHi && g.aLo <= nb <= g.aHi && next == (if nb + 1 > g.aHi then g.aLo else nb + 1) && bad <= more
    requires if first then nb == a else nb != a && AllBad(g, a, nb, bad) && (|bad| >= g.B || nb in bad)
    ensures AllBad(g, a, next, more)
  {
    if |more| < g.B {
      forall x | OnTheWay(g, a, next, x)
        ensures x in more
      {
        assert x == nb || OnTheWay(g, a, nb, x);
        assert x in bad;
      }
    }
  }

  /** anchor_find_next_block: the next block of the ring that is not logged as bad and can be
      erased; the search fails only if no other block is left.  With no bad block it is the very
      next one, unless power has failed. */
  method FindNextBlock(s: Ubi) returns (st: Status, nb: nat)
    requires s.Sound() && s.g.aLo <= s.ancBlock <= s.g.aHi
    modifies s`anc, s.nand
    ensures s.Sound() && s.anc == old(s.anc).(bad := s.anc.bad) && s.nand.faults <= old(s.nand.faults)
    ensures st == Success ==> s.g.aLo <= nb <= s.g.aHi && nb != s.ancBlock && s.nand.cells[nb] == ClearBlock(s.g.P)
    ensures old(s.anc.bad) <= s.anc.bad && (st == Success ==> nb !in s.anc.bad && AllBad(s.g, s.ancBlock, nb, s.anc.bad))
    ensures st != Success ==> st == Failure && AllBad(s.g, s.ancBlock, s.ancBlock, s.anc.bad)
    ensures old(s.nand.faults) == 0 && AnchorsGood(s.g, old(s.anc.bad)) ==>
              if old(s.nand.power) == Some(0) then st == Failure && s.nand.cells == old(s.nand.cells) && s.nand.power == Some(0)
              else st == Success && nb == NextAnchor(s.g, s.ancBlock) && s.nand.cells == old(s.nand.cells)[nb := ClearBlock(s.g.P)]
                   && s.anc == old(s.anc) && s.nand.power == Spent(old(s.nand.power), 1)
  {
    ghost var ideal := s.nand.faults == 0 && AnchorsGood(s.g, s.anc.bad) && s.nand.power != Some(0);
    ghost var dead := s.nand.faults == 0 && s.nand.power == Some(0);
    nb := s.ancBlock;
    st := Failure;
    var first := true;
    while st != Success && (first || nb != s.ancBlock)
      invariant s.Sound() && s.anc == old(s.anc).(bad := s.anc.bad) && s.g.aLo <= nb <= s.g.aHi && s.nand.faults <= old(s.nand.faults)
      invariant st == Success ==> s.nand.cells[nb] == ClearBlock(s.g.P) && !first && nb !in s.anc.bad
      invariant old(s.anc.bad) <= s.anc.bad && if first then nb == s.ancBlock else AllBad(s.g, s.ancBlock, nb, s.anc.bad)
      invariant st != Success && !first ==> |s.anc.bad| >= s.g.B || nb in s.anc.bad
      invariant ideal && first ==> nb == s.ancBlock && s.nand.cells == old(s.nand.cells) && s.anc == old(s.anc) && s.nand.power == old(s.nand.power)
      invariant ideal && !first ==> st == Success && nb == NextAnchor(s.g, s.ancBlock) && s.nand.cells == old(s.nand.cells)[nb := ClearBlock(s.g.P)]
                                    && s.anc == old(s.anc) && s.nand.power == Spent(old(s.nand.power), 1)
      invariant dead ==> st != Success && s.nand.cells == old(s.nand.cells) && s.nand.power == Some(0)
      decreases StepsLeft(s.g, first, nb, s.ancBlock)
    {
      ghost var was, bad, again := nb, s.anc.bad, !first;
      first := false;
      nb := if nb + 1 > s.g.aHi then s.g.aLo else nb + 1;
      if nb !in s.anc.bad {
        st := s.nand.Erase(nb);
        if st != Success {
          s.anc := s.anc.(bad := UbiIndex.Logged(s.anc.bad, nb, s.g.B));
        }
      } else {
        st := BadBlock;
      }
      PassBad(s.g, s.ancBlock, was, nb, !again, bad, s.anc.bad);
    }
    if nb == s.ancBlock || st != Success {
      st := Failure;
    }
  }

  /** What the anchor record becomes: one more page, or the first page of the next block. */
  ghost predicate AnchorAdvanced(g: Device, cells: seq<PhysBlock>, t: Ram, now: seq<PhysBlock>, u: Ram) {
    && |cells| == g.T && t.ancBlock < g.T && |cells[t.ancBlock]| == g.P
    && if t.ancNext < g.P then
         && now == cells[t.ancBlock := cells[t.ancBlock][t.ancNext := Anchor(t.anc)]]
         && u == t.(ancNext := t.ancNext + 1)
       else
         && u == t.(anc := t.anc.(previous := Some(t.ancBlock)), ancBlock := NextAnchor(g, t.ancBlock), ancNext := 1)
         && u.ancBlock < g.T && u.ancBlock != t.ancBlock
         && now == cells[u.ancBlock := ClearBlock(g.P)[0 := Anchor(u.anc)]][t.ancBlock := ClearBlock(g.P)]
  }

  /** The first record of the next anchor block. */
  function TurnedRecord(t: Ram): AnchorTable {
    t.anc.(previous := Some(t.ancBlock))
  }

  /** What a power loss in ANCHOR_Update leaves: nothing has changed, or the next block of the ring
      is erased, or it holds the record and the full block is not yet erased. */
  ghost predicate AnchorCut(g: Device, cells: seq<PhysBlock>, t: Ram, now: seq<PhysBlock>) {
    || now == cells
    || (t.ancNext == g.P && NextAnchor(g, t.ancBlock) < |cells|
        && (now == cells[NextAnchor(g, t.ancBlock) := ClearBlock(g.P)]
            || now == cells[NextAnchor(g, t.ancBlock) := ClearBlock(g.P)[0 := Anchor(TurnedRecord(t))]]))
  }

  /** The full anchor block gives way to the next one. */
  method TurnAnchor(s: Ubi) returns (st: Status)
    requires s.Sound() && s.nand.faults == 0 && s.g.aLo <= s.ancBlock <= s.g.aHi && AnchorsGood(s.g, s.anc.bad)
    modifies s`anc, s`ancBlock, s`ancNext, s.nand
    ensures s.Sound() && s.nand.faults == 0 && s.nand.power.Some? == old(s.nand.power).Some?
    ensures if old(s.nand.power) == Some(0) then st == Failure && s.nand.cells == old(s.nand.cells)
            else st == Success && s.anc == TurnedRecord(old(s.Tables())) && s.ancBlock == NextAnchor(s.g, old(s.ancBlock)) && s.ancNext == 0
                 && s.nand.cells == old(s.nand.cells)[s.ancBlock := ClearBlock(s.g.P)]
  {
    s.anc := s.anc.(previous := Some(s.ancBlock));
    var nb;
    st, nb := FindNextBlock(s);
    if st == Success {
      s.ancBlock, s.ancNext := nb, 0;
    }
  }

  /** ANCHOR_Update.  (The status of the last erase is ignored, but a power loss in it ends the
      call as well.) */
  method AnchorUpdate(s: Ubi) returns (st: Status)
    requires s.Sound() && s.nand.faults == 0 && s.g.aLo <= s.ancBlock <= s.g.aHi
    requires s.ancNext <= s.g.P && Prefix(s.nand.cells[s.ancBlock], s.ancNext) && AnchorsGood(s.g, s.anc.bad)
    modifies s`anc, s`ancBlock, s`ancNext, s.nand
    ensures s.Sound() && s.nand.faults == 0
    ensures st == Success ==> AnchorAdvanced(s.g, old(s.nand.cells), old(s.Tables()), s.nand.cells, s.Tables())
    ensures st != Success ==> old(s.nand.power).Some? && AnchorCut(s.g, old(s.nand.cells), old(s.Tables()), s.nand.cells)
    ensures old(s.nand.power) == Some(0) ==> st != Success && s.nand.cells == old(s.nand.cells)
    ensures st == Success || st == PowerLoss || st == Failure
    ensures s.nand.power.Some? == old(s.nand.power).Some?
  {
    var reclaimed := false;
    if s.ancNext == s.g.P {
      st := TurnAnchor(s);
      if st != Success {
        return;
      }
      reclaimed := true;
    }
    st := s.nand.Program(s.ancBlock, s.ancNext, Anchor(s.anc));
    if st == Success {
      if reclaimed {
        var erased := s.nand.Erase(s.anc.previous.value);
        if erased == PowerLoss {
          return PowerLoss;
        }
      }
      s.ancNext := s.ancNext + 1;
    }
  }

  /** The anchor record stays in order. */
  lemma AdvancedHeld(g: Device, cells: seq<PhysBlock>, t: Ram, now: seq<PhysBlock>, u: Ram)
    requires AnchorSpot(g, cells, t.ancBlock, t.ancNext) && AnchorAdvanced(g, cells, t, now, u)
    ensures ShapedCells(now, g.T, g.P) && AnchorHeld(g, now, u.ancBlock, u.ancNext, u.anc)
    ensures forall x :: DataLo(g) <= x < g.T ==> now[x] == cells[x]
  {
  }

  /** A power loss leaves the anchor blocks as they were, or a second record on the next one. */
  lemma CutHeld(g: Device, cells: seq<PhysBlock>, t: Ram, now: seq<PhysBlock>, was: AnchorTable)
    requires ShapedCells(cells, g.T, g.P) && AnchorHeld(g, cells, t.ancBlock, t.ancNext, was) && AnchorCut(g, cells, t, now)
    ensures ShapedCells(now, g.T, g.P) && forall x :: DataLo(g) <= x < g.T ==> now[x] == cells[x]
    ensures AnchorHeld(g, now, t.ancBlock, t.ancNext, was)
            || (t.ancNext == g.P && NextAnchor(g, t.ancBlock) < |cells|
                && now == cells[NextAnchor(g, t.ancBlock) := ClearBlock(g.P)[0 := Anchor(TurnedRecord(t))]])
  {
  }
}
