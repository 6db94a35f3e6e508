/** The PM_NODE words of ftl_inc.h: 32 bits for a place on flash, a RAM pointer with its dirty
    bit, or nothing. */
module PmNode {
  import G = Geometry
  import opened Flash

  const WORDS: nat := 0x1_0000_0000
  const INVALID_PM_NODE: nat := 0xFFFF_FFFF

  /** PM_NODE_SET_BLOCKPAGE; the shift drops what does not fit in 32 bits. */
  function SetBlockPage(block: nat, page: nat, p: nat): nat {
    (block * p + page) * 4 % WORDS + 1
  }

  /** PM_NODE_IS_CACHED. */
  predicate IsCached(w: nat) {
    w % 2 == 0
  }

  /** PM_NODE_IS_DIRTY. */
  predicate IsDirty(w: nat) {
    w / 2 % 2 == 1
  }

  /** PM_NODE_ADDRESS. */
  function Address(w: nat): nat {
    w - w % 4
  }

  /** PM_NODE_BLOCK and PM_NODE_PAGE. */
  function BlockPage(w: nat, p: nat): Loc
    requires p > 0
  {
    Loc(w / 4 / p, w / 4 % p)
  }

  /** PM_NODE_SET_DIRTY. */
  function SetDirty(w: nat): nat {
    if IsDirty(w) then w else w + 2
  }

  // ---------------------------------------------------------------- page-map entries

  function EntryWord(e: Entry, p: nat): nat {
    match e
    case Nowhere => INVALID_PM_NODE
    case At(l) => SetBlockPage(l.block, l.page, p)
  }

  /** A word as PMT_Search reads it. */
  function EntryOf(w: nat, p: nat): Entry
    requires p > 0
  {
    if w == INVALID_PM_NODE then Nowhere else At(BlockPage(w, p))
  }

  lemma WordParts(x: nat, p: nat)
    requires p > 0
    ensures x * 4 % WORDS == x % (WORDS / 4) * 4
    ensures var w := x * 4 % WORDS + 1;
            w < WORDS && w % 4 == 1 && w / 4 == x % (WORDS / 4) && w != INVALID_PM_NODE
  {
    var q, r := x / (WORDS / 4), x % (WORDS / 4);
    assert x == q * (WORDS / 4) + r;
    assert x * 4 == q * WORDS + r * 4;
    G.QuotientIs(WORDS, q, r * 4);
  }

  /** An entry is read back exactly when its page is one of the block's and the page's number
      fits in 30 bits; no place on flash is ever taken for the invalid entry. */
  lemma EntryRoundTrip(e: Entry, p: nat)
    requires p > 0
    ensures EntryOf(EntryWord(e, p), p) == e <==> (e.At? ==> e.loc.page < p && e.loc.block * p + e.loc.page < WORDS / 4)
    ensures e.At? ==> EntryWord(e, p) != INVALID_PM_NODE && !IsCached(EntryWord(e, p))
  {
    if e.At? {
      var x := e.loc.block * p + e.loc.page;
      WordParts(x, p);
      var y := x % (WORDS / 4);
      assert y <= x && (y == x <==> x < WORDS / 4);
      G.PlaceOf(p, y);
      if e.loc.page < p && x < WORDS / 4 {
        G.QuotientIs(p, e.loc.block, e.loc.page);
      }
    }
  }

  /** On a volume of at most 2^30 pages every place on flash is read back. */
  lemma EveryPlaceFits(g: G.Geometry, l: Loc)
    requires l.block < g.U && l.page < g.P && g.U * g.P <= WORDS / 4
    ensures EntryOf(EntryWord(At(l), g.P), g.P) == At(l)
  {
    hide G.ValidDims, EntryOf, EntryWord;
    var b, p := l.block, g.P;
    G.MulMono(b + 1, g.U, p);
    NextMultiple(b, p);
    EntryRoundTrip(At(l), p);
  }

  lemma NextMultiple(b: nat, p: nat)
    ensures (b + 1) * p == b * p + p
  {
  }

  // ---------------------------------------------------------------- page-map nodes

  /** A node word: the cache slots lie one after the other from `base` in RAM, `size` bytes each. */
  function NodeWord(n: Node, p: nat, base: nat, size: nat): nat {
    match n
    case OnFlash(l) => SetBlockPage(l.block, l.page, p)
    case Cached(slot, dirty) => base + slot * size + if dirty then 2 else 0
  }

  function NodeOf(w: nat, p: nat, base: nat, size: nat): Node
    requires p > 0 && size > 0
  {
    if IsCached(w) then Cached(if Address(w) >= base then (Address(w) - base) / size else 0, IsDirty(w))
    else OnFlash(BlockPage(w, p))
  }

  lemma Regroup(a: nat, b: nat, c: nat)
    ensures a * (b * c) == a * b * c
  {
  }

  lemma SlotWord(slot: nat, dirty: bool, p: nat, base: nat, size: nat)
    requires base % 4 == 0 && size % 4 == 0 && size > 0
    ensures var w := NodeWord(Cached(slot, dirty), p, base, size);
            IsCached(w) && IsDirty(w) == dirty && Address(w) == base + slot * size
  {
    var m, k := size / 4, base / 4;
    assert slot * size == slot * m * 4 by { assert size == m * 4; Regroup(slot, m, 4); }
    var a, d := k + slot * m, if dirty then 1 else 0;
    assert base + slot * size == a * 4;
    G.QuotientIs(4, a, 2 * d);
    G.QuotientIs(2, 2 * a + d, 0);
    G.QuotientIs(2, a, d);
  }

  /** Nodes are read back, RAM pointers and places on flash are never confused, and the dirty bit
      is independent of the pointer: the buffers are aligned to four bytes. */
  lemma NodeRoundTrip(n: Node, p: nat, base: nat, size: nat)
    requires p > 0 && base % 4 == 0 && size % 4 == 0 && size > 0
    requires n.OnFlash? ==> n.loc.page < p && n.loc.block * p + n.loc.page < WORDS / 4
    ensures NodeOf(NodeWord(n, p, base, size), p, base, size) == n
    ensures IsCached(NodeWord(n, p, base, size)) == n.Cached?
    ensures n.Cached? ==> SetDirty(NodeWord(n, p, base, size)) == NodeWord(Cached(n.slot, true), p, base, size)
  {
    match n
    case OnFlash(l) =>
      EntryRoundTrip(At(l), p);
    case Cached(slot, dirty) =>
      SlotWord(slot, dirty, p, base, size);
      G.QuotientIs(size, slot, 0);
  }
}
