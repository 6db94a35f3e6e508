/** The compile-time configuration (cfg.h, cmn.h, ftl_inc.h) and the arithmetic that
    sizes the volume.  `Config` holds the configured numbers; `Geometry` holds the derived
    numbers the FTL works with, together with the only facts about them it relies on. */
module Geometry {

  /** The numbers a build configures. */
  datatype Config = Config(
    dice: nat,           // TOTAL_DIE_COUNT
    pagesPerBlock: nat,  // PAGE_PER_PHY_BLOCK
    caches: nat,         // PMT_CACHE_COUNT
    logBlocks: nat,      // CFG_LOG_BLOCK_COUNT
    ubiBlocks: nat,      // UBI_Capacity, fixed by UBI_Format
    pageBytes: nat       // MPP_SIZE
  )

  const PMT_START_BLOCK: nat := 6
  const OVER_PROVISION_RATE: nat := 3

  function CeilDiv(a: nat, b: nat): nat
    requires b > 0
  {
    (a + b - 1) / b
  }

  /** PM_PER_NODE: the four-byte entries of a page. */
  function PerNode(c: Config): nat {
    c.pageBytes / 4
  }

  function PmtBlockCount(c: Config): nat
    requires PerNode(c) > 0
  {
    CeilDiv(c.logBlocks, PerNode(c)) * 5
  }

  function DataStart(c: Config): nat
    requires PerNode(c) > 0
  {
    PMT_START_BLOCK + PmtBlockCount(c)
  }

  /** Blocks FTL_Capacity hands to the user, before the page count is multiplied in. */
  function UserBlocks(c: Config): nat
    requires PerNode(c) > 0
    requires DataStart(c) + 3 * c.dice <= c.ubiBlocks
  {
    var block := c.ubiBlocks - DataStart(c) - 3 * c.dice;
    block - block / 100 * OVER_PROVISION_RATE
  }

  /** FTL_Capacity. */
  function Capacity(c: Config): nat
    requires PerNode(c) > 0 && c.pagesPerBlock > 0
    requires DataStart(c) + 3 * c.dice <= c.ubiBlocks
  {
    UserBlocks(c) * (c.pagesPerBlock - 1)
  }

  /** What the source asserts or silently needs of a configuration. */
  predicate ValidConfig(c: Config) {
    && 1 <= c.dice && 1 <= c.logBlocks
    && 2 <= c.pagesPerBlock <= 256
    && 4 <= c.pageBytes
    && 1 <= c.caches
    && 2 * c.caches <= c.pagesPerBlock - 1
    && c.ubiBlocks <= c.logBlocks
    && DataStart(c) + 3 * c.dice < c.ubiBlocks
    // the root page holds the first level of the page map (ASSERT in PMT_Format)
    && CeilDiv(Capacity(c), PerNode(c)) + 3 * c.dice + 6 < PerNode(c)
    && c.pagesPerBlock % CeilDiv(c.logBlocks, c.pageBytes) == 0
  }

  /** The derived numbers. */
  datatype Dims = Dims(
    J: nat,       // journal width, JOURNAL_BLOCK_COUNT
    P: nat,       // pages per block
    M: nat,       // MAX_DIRTY_PAGES
    N: nat,       // addresses in one cluster of the page map
    C: nat,       // cache slots
    U: nat,       // logical blocks
    K: nat,       // clusters
    cap: nat,     // FTL_Capacity
    dataLo: nat,  // DATA_START_BLOCK
    bdtPages: nat,   // BDT_PAGE_COUNT
    bdtCopies: nat,  // copies of the dirty table in a block
    pageBytes: nat
  )

  predicate InPmt(g: Dims, b: int) {
    PMT_START_BLOCK <= b < g.dataLo
  }

  predicate InData(g: Dims, b: int) {
    g.dataLo <= b < g.U
  }

  /** The facts about the derived numbers that the FTL rests on.  The two products are the
      sizing conditions of the data region and of the page-map region. */
  predicate ValidDims(g: Dims) {
    && 1 <= g.J && 1 <= g.M <= 255 && g.P == g.M + 1
    && 1 <= g.N && 1 <= g.C && 2 * g.C <= g.M
    && PMT_START_BLOCK + 5 <= g.dataLo
    && g.dataLo + 3 * g.J < g.U
    && g.cap < (g.U - g.dataLo - 3 * g.J + 1) * g.M
    && g.K < (g.dataLo - PMT_START_BLOCK - 1) * (g.M / 4 + 1)
    && g.K <= (g.dataLo - PMT_START_BLOCK - 3) * g.M
    && 1 <= g.K && (g.K - 1) * g.N < g.cap <= g.K * g.N
    && 1 <= g.bdtPages && g.P == g.bdtCopies * g.bdtPages
    && 1 <= g.pageBytes && g.U <= g.bdtPages * g.pageBytes
  }

  function DimsOf(c: Config): Dims
    requires ValidConfig(c)
  {
    var cap := Capacity(c);
    Dims(c.dice, c.pagesPerBlock, c.pagesPerBlock - 1, PerNode(c), c.caches, c.ubiBlocks,
         CeilDiv(cap, PerNode(c)), cap, DataStart(c), CeilDiv(c.logBlocks, c.pageBytes),
         c.pagesPerBlock / CeilDiv(c.logBlocks, c.pageBytes), c.pageBytes)
  }

  /** The simulated device of cfg.h: 8 dice, 32 pages a block, 8 KB pages. */
  const SIM_NAND := Config(8, 32, 4, 1024, 989, 8192)

  type Geometry = g: Dims | ValidDims(g) witness Dims(8, 32, 31, 2048, 4, 989, 15, 28737, 11, 1, 32, 8192)

  lemma PmtRoom(g: Geometry)
    ensures PMT_START_BLOCK + 5 <= g.dataLo
    ensures g.K < (g.dataLo - PMT_START_BLOCK - 1) * (g.M / 4 + 1)
  {
  }

  // ---------------------------------------------------------------- arithmetic

  lemma CeilDivBounds(a: nat, b: nat)
    requires b > 0
    ensures a <= CeilDiv(a, b) * b
    ensures a > 0 ==> CeilDiv(a, b) >= 1 && (CeilDiv(a, b) - 1) * b < a
    ensures a == 0 ==> CeilDiv(a, b) == 0
  {
    var q := (a + b - 1) / b;
    assert a + b - 1 == q * b + (a + b - 1) % b;
  }

  lemma MulMono(a: nat, b: nat, m: nat)
    requires a <= b
    ensures a * m <= b * m
  {
  }

  lemma PlaceOf(n: nat, j: nat)
    requires n > 0
    ensures j == (j / n) * n + j % n && j % n < n
  {
  }

  /** j lies in the p-th stretch of n numbers exactly when its quotient is p. */
  lemma InStretch(n: nat, p: nat, j: nat)
    requires n > 0
    ensures p * n <= j < p * n + n <==> j / n == p
    ensures j / n == p ==> j % n == j - p * n
  {
    PlaceOf(n, j);
    if p * n <= j < p * n + n {
      QuotientIs(n, p, j - p * n);
    }
  }

  lemma QuotientIs(n: nat, q: nat, i: nat)
    requires i < n
    ensures (q * n + i) / n == q && (q * n + i) % n == i
  {
    var k := (q * n + i) / n;
    if k < q {
      MulMono(k + 1, q, n);
    } else if k > q {
      MulMono(q + 1, k, n);
    }
  }

  /** Every address has its cluster: K clusters of N entries cover the volume, none is idle,
      and they number at most M for each five page-map blocks. */
  lemma ClusterCount(cap: nat, blocks: nat, m: nat, n: nat, l: nat)
    requires n > 0 && m > 0 && blocks <= l && cap <= blocks * m
    ensures CeilDiv(cap, n) <= CeilDiv(l, n) * m
  {
    hide CeilDiv;
    var b := CeilDiv(l, n);
    var k := CeilDiv(cap, n);
    CeilDivBounds(l, n);
    CeilDivBounds(cap, n);
    MulMono(blocks, b * n, m);
    MulSwap(b, n, m);
    if k > b * m {
      MulMono(b * m, k - 1, n);
    }
  }

  lemma MulSwap(a: nat, b: nat, c: nat)
    ensures (a * b) * c == (a * c) * b
  {
  }

  /** Sizing of the page-map region: five blocks for every M clusters. */
  lemma PmtSizing(k: nat, b: nat, m: nat)
    requires b >= 1 && m >= 1 && k <= b * m
    ensures k < (5 * b - 1) * (m / 4 + 1)
    ensures k <= (5 * b - 3) * m
  {
    var q := m / 4 + 1;
    assert m + 1 <= 4 * q;
    MulMono(4 * b, 5 * b - 1, q);
    assert (4 * b) * q == b * (4 * q);
    MulMono(m + 1, 4 * q, b);
    assert (m + 1) * b == b * m + b;
    MulMono(b, 5 * b - 3, m);
  }

  lemma Divides(p: nat, n: nat)
    requires n > 0 && p % n == 0
    ensures p == (p / n) * n
  {
  }

  /** Over-provisioning leaves at least one block. */
  lemma UserBlocksBounds(d: nat)
    requires d >= 1
    ensures 1 <= d - d / 100 * OVER_PROVISION_RATE <= d
  {
  }

  /** Sizing of the data region. */
  lemma DataSizing(c: Config)
    requires ValidConfig(c)
    ensures var d := c.ubiBlocks - DataStart(c) - 3 * c.dice;
            var m := c.pagesPerBlock - 1;
            0 < Capacity(c) <= d * m < (d + 1) * m && Capacity(c) == UserBlocks(c) * m && UserBlocks(c) <= d
  {
    hide CeilDiv, PmtBlockCount;
    var d := c.ubiBlocks - DataStart(c) - 3 * c.dice;
    var m := c.pagesPerBlock - 1;
    UserBlocksBounds(d);
    MulMono(UserBlocks(c), d, m);
    MulMono(1, UserBlocks(c), m);
  }

  /** The arithmetic of FTL_Capacity, of PMT_BLOCK_COUNT and of the cluster count gives the
      sizing conditions: the FTL may rely on `ValidDims` for every valid configuration. */
  lemma ConfigGivesGeometry(c: Config)
    requires ValidConfig(c)
    ensures ValidDims(DimsOf(c))
  {
    var m := c.pagesPerBlock - 1;
    DataSizing(c);
    CeilDivBounds(c.logBlocks, PerNode(c));
    CeilDivBounds(c.logBlocks, c.pageBytes);
    CeilDivBounds(Capacity(c), PerNode(c));
    ClusterCount(Capacity(c), UserBlocks(c), m, PerNode(c), c.logBlocks);
    PmtSizing(CeilDiv(Capacity(c), PerNode(c)), CeilDiv(c.logBlocks, PerNode(c)), m);
    Divides(c.pagesPerBlock, CeilDiv(c.logBlocks, c.pageBytes));
    hide CeilDiv, Capacity, UserBlocks;
  }

  /** The simulated device satisfies the source's own assertions, and its volume holds 28737 pages. */
  lemma SimNandIsValid()
    ensures ValidConfig(SIM_NAND) && DimsOf(SIM_NAND) == Dims(8, 32, 31, 2048, 4, 989, 15, 28737, 11, 1, 32, 8192)
  {
  }
}
