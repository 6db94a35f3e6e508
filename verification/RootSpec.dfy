/** The root log of ftl_root.c as a value: two blocks written in turn, one root image a page,
    each image carrying the next edition number. */
module RootSpec {
  import opened Geometry
  import opened Flash

  const ROOT_BLOCK0: nat := 2
  const ROOT_BLOCK1: nat := 3

  /** The two root blocks on flash, and the statics that say where the next image goes. */
  datatype State = State(b0: Block, b1: Block, current: nat, page: nat, edition: nat)

  /** `root_current_block ^ 1`. */
  function Other(current: nat): nat {
    if current == ROOT_BLOCK0 then ROOT_BLOCK1 else ROOT_BLOCK0
  }

  function BlockOf(s: State, b: nat): Block {
    if b == ROOT_BLOCK0 then s.b0 else s.b1
  }

  function WithBlock(s: State, b: nat, x: Block): State {
    if b == ROOT_BLOCK0 then s.(b0 := x) else s.(b1 := x)
  }

  // ---------------------------------------------------------------- ROOT_Commit

  /** The other block is erased when the current one is full. */
  function Turn(p: nat, s: State): State {
    if s.page == p then WithBlock(s, Other(s.current), Blank(p)).(current := Other(s.current), page := 0) else s
  }

  /** The image is stamped with its place and with the next edition, and programmed. */
  function Stamp(s: State, r: Root): Root {
    r.(self := Loc(s.current, s.page), edition := s.edition)
  }

  function Put(s: State, r: Root): State
    requires s.page < |BlockOf(s, s.current)|
  {
    WithBlock(s, s.current, BlockOf(s, s.current)[s.page := Programmed(RootImage(Stamp(s, r)), Words(0, 0))])
      .(page := s.page + 1, edition := s.edition + 1)
  }

  // ---------------------------------------------------------------- ROOT_Init

  /** A page the scan for the newest image passes: it can be read, and its footprint was written. */
  predicate Stamped(c: Cell) {
    c.Programmed? && c.spare.Words?
  }

  /** How many pages the scan passes. */
  function Leading(b: Block, i: nat): (n: nat)
    requires i <= |b|
    ensures i <= n <= |b|
    ensures forall k :: i <= k < n ==> Stamped(b[k])
    ensures n < |b| ==> !Stamped(b[n])
    decreases |b| - i
  {
    if i < |b| && Stamped(b[i]) then Leading(b, i + 1) else i
  }

  function EditionAt(b: Block, i: nat): nat {
    if i < |b| && b[i].Programmed? && b[i].content.RootImage? then b[i].content.root.edition else 0
  }

  /** The block ROOT_Init takes for the current one, by the first page of each. */
  function Choose(b0: Block, b1: Block): nat {
    if |b0| > 0 && b0[0].Programmed? then
      if |b1| > 0 && b1[0].Programmed? then
        if EditionAt(b0, 0) > EditionAt(b1, 0) then ROOT_BLOCK0 else ROOT_BLOCK1
      else ROOT_BLOCK0
    else ROOT_BLOCK1
  }

  /** The root image ROOT_Init loads, if there is one. */
  function Loaded(b0: Block, b1: Block): Option<Root> {
    var b := if Choose(b0, b1) == ROOT_BLOCK0 then b0 else b1;
    var n := Leading(b, 0);
    if n > 0 && b[n - 1].content.RootImage? then Some(b[n - 1].content.root) else None
  }

  /** The statics after ROOT_Init has found the newest image, before it writes a copy. */
  function Mounted(b0: Block, b1: Block): State
    requires Loaded(b0, b1).Some?
  {
    var c := Choose(b0, b1);
    State(b0, b1, c, Leading(if c == ROOT_BLOCK0 then b0 else b1, 0), Loaded(b0, b1).value.edition + 1)
  }

  // ---------------------------------------------------------------- what is kept true

  /** The first n pages hold images with consecutive editions. */
  ghost predicate Run(b: Block, n: nat, first: nat) {
    && Filled(b, n)
    && forall i :: 0 <= i < n ==> b[i].spare.Words? && b[i].content.RootImage? && b[i].content.root.edition == first + i
  }

  /** The current block holds the newest images, the last of them `last`; the other block is
      blank or full of older ones. */
  ghost predicate LogOk(p: nat, s: State, last: Root) {
    && (s.current == ROOT_BLOCK0 || s.current == ROOT_BLOCK1)
    && 1 <= p && |s.b0| == p && |s.b1| == p
    && 1 <= s.page <= p && s.page <= s.edition
    && Run(BlockOf(s, s.current), s.page, s.edition - s.page)
    && BlockOf(s, s.current)[s.page - 1].content.root == last
    && var o := BlockOf(s, Other(s.current));
       (Filled(o, 0) || (Run(o, p, EditionAt(o, 0)) && EditionAt(o, 0) + p <= s.edition - s.page))
  }

  /** Mounting finds the last root written, and where the next one goes. */
  lemma LoadsLast(p: nat, s: State, last: Root)
    requires LogOk(p, s, last)
    ensures Loaded(s.b0, s.b1) == Some(last)
    ensures Mounted(s.b0, s.b1) == s
  {
    LeadingIs(BlockOf(s, s.current), s.page, 0);
  }

  lemma {:induction false} LeadingIs(b: Block, n: nat, i: nat)
    requires Filled(b, n) && i <= n && forall k :: 0 <= k < n ==> b[k].spare.Words?
    ensures Leading(b, i) == n
    decreases n - i
  {
    if i < n {
      LeadingIs(b, n, i + 1);
    }
  }

  /** Writing one more image on a block with room. */
  lemma PutKeeps(p: nat, s: State, last: Root, r: Root)
    requires LogOk(p, s, last) && s.page < p
    ensures LogOk(p, Put(s, r), Stamp(s, r)) && Stamp(s, r).edition > last.edition
  {
  }

  /** Power may fail between the erase of the other block and the write: the last root is
      still the one that is found. */
  lemma TurnKeepsLast(p: nat, s: State, last: Root)
    requires LogOk(p, s, last)
    ensures Loaded(Turn(p, s).b0, Turn(p, s).b1) == Some(last)
    ensures s.page == p ==> Mounted(Turn(p, s).b0, Turn(p, s).b1).edition == s.edition
    ensures LogOk(p, Mounted(Turn(p, s).b0, Turn(p, s).b1), last)
  {
    var u := State(Turn(p, s).b0, Turn(p, s).b1, s.current, s.page, s.edition);
    assert LogOk(p, u, last);
    LoadsLast(p, u, last);
  }

  /** Writing the first image of the block just erased. */
  lemma TurnKeeps(p: nat, s: State, last: Root, r: Root)
    requires LogOk(p, s, last)
    ensures Turn(p, s).page < p && LogOk(p, Put(Turn(p, s), r), Stamp(Turn(p, s), r))
    ensures Stamp(Turn(p, s), r).edition > last.edition
  {
    if s.page < p {
      PutKeeps(p, s, last, r);
    } else {
      var u := Put(Turn(p, s), r);
      var o := BlockOf(u, Other(u.current));
      assert o == BlockOf(s, s.current);
      assert Run(o, p, s.edition - p);
      assert EditionAt(o, 0) == s.edition - p;
    }
  }

  // ---------------------------------------------------------------- whole runs

  /** What can happen to the root log. */
  datatype Event =
    | CommitRoot(root: Root)        // ROOT_Commit
    | PowerFailsAfterErase          // ROOT_Commit stops before it programs; then ROOT_Init
    | Remount                       // power off and on; ROOT_Init

  /** ROOT_Init as a whole: find the newest image, then write it once more. */
  function Mount(p: nat, s: State): State
    requires Loaded(s.b0, s.b1).Some?
    requires var m := Mounted(s.b0, s.b1); Turn(p, m).page < |BlockOf(Turn(p, m), Turn(p, m).current)|
  {
    Put(Turn(p, Mounted(s.b0, s.b1)), Loaded(s.b0, s.b1).value)
  }

  /** The last root written successfully, up to its stamp. */
  ghost predicate After(p: nat, s: State, last: Root, e: Event, s': State, last': Root) {
    match e
    case CommitRoot(r) =>
      Turn(p, s).page < |BlockOf(Turn(p, s), Turn(p, s).current)|
      && s' == Put(Turn(p, s), r) && last' == Stamp(Turn(p, s), r)
    case PowerFailsAfterErase =>
      && Loaded(Turn(p, s).b0, Turn(p, s).b1).Some?
      && var m := Mounted(Turn(p, s).b0, Turn(p, s).b1);
         Turn(p, m).page < |BlockOf(Turn(p, m), Turn(p, m).current)|
         && s' == Mount(p, Turn(p, s)) && last' == Stamp(Turn(p, m), last)
    case Remount =>
      && Loaded(s.b0, s.b1).Some?
      && var m := Mounted(s.b0, s.b1);
         Turn(p, m).page < |BlockOf(Turn(p, m), Turn(p, m).current)|
         && s' == Mount(p, s) && last' == Stamp(Turn(p, m), last)
  }

  ghost predicate Trace(p: nat, states: seq<State>, lasts: seq<Root>, events: seq<Event>) {
    && |states| == |lasts| == |events| + 1
    && forall i :: 0 <= i < |events| ==> After(p, states[i], lasts[i], events[i], states[i + 1], lasts[i + 1])
  }

  lemma StepKeeps(p: nat, s: State, last: Root, e: Event, s': State, last': Root)
    requires LogOk(p, s, last) && After(p, s, last, e, s', last')
    ensures LogOk(p, s', last') && last'.edition > last.edition
  {
    match e
    case CommitRoot(r) =>
      TurnKeeps(p, s, last, r);
    case PowerFailsAfterErase =>
      TurnKeepsLast(p, s, last);
      TurnKeeps(p, Mounted(Turn(p, s).b0, Turn(p, s).b1), last, last);
    case Remount =>
      LoadsLast(p, s, last);
      TurnKeeps(p, s, last, last);
  }

  /** Root log recovery: along every run of commits, remounts and power failures after an
      erase, mounting loads exactly the last root written, and editions strictly increase. */
  lemma {:induction false} EveryRunRecovers(p: nat, states: seq<State>, lasts: seq<Root>, events: seq<Event>, n: nat)
    requires Trace(p, states, lasts, events) && LogOk(p, states[0], lasts[0]) && n <= |events|
    ensures LogOk(p, states[n], lasts[n])
    ensures Loaded(states[n].b0, states[n].b1) == Some(lasts[n])
    ensures forall i :: 0 <= i < n ==> lasts[i].edition < lasts[n].edition
  {
    hide After, LogOk, Loaded;
    if n > 0 {
      EveryRunRecovers(p, states, lasts, events, n - 1);
      assert After(p, states[n - 1], lasts[n - 1], events[n - 1], states[n - 1 + 1], lasts[n - 1 + 1]);
      StepKeeps(p, states[n - 1], lasts[n - 1], events[n - 1], states[n], lasts[n]);
    }
    LoadsLast(p, states[n], lasts[n]);
  }
}
