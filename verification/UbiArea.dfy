/** ubi_area.c: the area tables and their cache. */
module UbiArea {
  import opened Flash
  import opened Nand
  import Table
  import opened UbiSpec
  import opened UbiFlash
  import opened UbiState

  /** The cache and the known page offsets agree with the flash. */
  ghost predicate CacheOk(g: Device, t: Ram, cells: seq<PhysBlock>, at: seq<nat>) {
    && |t.offset| == g.A && |at| == g.A && |t.ix.areaBlock| == g.A
    && (forall a :: 0 <= a < g.A ==> t.offset[a] == None || t.offset[a] == Some(at[a]))
    && (t.cachedArea.Some? ==>
          var a := t.cachedArea.value;
          a < g.A && t.offset[a].Some? && t.cached == TableAt(cells, t.ix.areaBlock[a], at[a]))
  }

  /** The area's block is erased. */
  ghost predicate AreaBlank(g: Device, cells: seq<PhysBlock>, block: nat)
    requires ShapedCells(cells, g.T, g.P)
  {
    block < g.T && Prefix(cells[block], 0)
  }

  /** AREA_Read: the newest page of the area's table is in the cache.  If the block is erased, it fails. */
  method AreaRead(s: Ubi, a: nat, ghost at: seq<nat>) returns (st: Status)
    requires s.Sound() && CacheOk(s.g, s.Tables(), s.nand.cells, at) && a < s.g.A
    requires s.cachedArea == Some(a) || AreaHeld(s.g, s.nand.cells, s.areaBlock[a], at[a])
             || (AreaBlank(s.g, s.nand.cells, s.areaBlock[a]) && s.offset[a] == None)
    modifies s`offset, s`cached, s`cachedArea
    ensures s.Sound() && CacheOk(s.g, s.Tables(), s.nand.cells, at)
    ensures st == if old(s.cachedArea) == Some(a) || AreaHeld(s.g, s.nand.cells, s.areaBlock[a], at[a]) then Success else Failure
    ensures if st == Success then s.cachedArea == Some(a) && s.offset == old(s.offset)[a := Some(at[a])]
            else s.cachedArea == None && s.offset == old(s.offset)[a := None]
    ensures AreaHeld(s.g, s.nand.cells, s.areaBlock[a], at[a]) ==> |s.cached| == s.g.R
  {
    st := Success;
    if s.cachedArea != Some(a) {
      ghost var held := AreaHeld(s.g, s.nand.cells, s.areaBlock[a], at[a]);
      var page, c;
      if s.offset[a].None? {
        st, page, c := Table.FindNewest(s.nand, s.areaBlock[a], if held then at[a] + 1 else 0);
      } else {
        page := s.offset[a].value;
        st, c := Table.ReadAt(s.nand, s.areaBlock[a], page);
      }
      if st == Success {
        s.offset, s.cached := s.offset[a := Some(page)], c.entries;
      } else {
        s.offset := s.offset[a := None];
      }
    }
    s.cachedArea := if st == Success then Some(a) else None;
  }

  /** AREA_IsFull. */
  method AreaIsFull(s: Ubi, b: nat, ghost at: seq<nat>) returns (full: bool)
    requires s.Sound() && CacheOk(s.g, s.Tables(), s.nand.cells, at) && b < s.g.U
    requires AreaHeld(s.g, s.nand.cells, s.areaBlock[AreaOf(s.g, b)], at[AreaOf(s.g, b)])
    modifies s`offset, s`cached, s`cachedArea
    ensures s.Sound() && CacheOk(s.g, s.Tables(), s.nand.cells, at)
    ensures s.cachedArea == Some(AreaOf(s.g, b)) && s.offset == old(s.offset)[AreaOf(s.g, b) := Some(at[AreaOf(s.g, b)])]
    ensures |s.cached| == s.g.R && (full <==> at[AreaOf(s.g, b)] == s.g.P - 1)
  {
    hide AreaOf;
    var a := AreaOf(s.g, b);
    var st := AreaRead(s, a, at);
    full := s.offset[a] == Some(s.g.P - 1);
  }

  /** AREA_GetBlock and AREA_GetEC. */
  method AreaGet(s: Ubi, b: nat, ghost at: seq<nat>) returns (e: AreaEntry)
    requires s.Sound() && CacheOk(s.g, s.Tables(), s.nand.cells, at) && b < s.g.U
    requires AreaHeld(s.g, s.nand.cells, s.areaBlock[AreaOf(s.g, b)], at[AreaOf(s.g, b)])
    modifies s`offset, s`cached, s`cachedArea
    ensures s.Sound() && CacheOk(s.g, s.Tables(), s.nand.cells, at)
    ensures s.cachedArea == Some(AreaOf(s.g, b)) && s.offset == old(s.offset)[AreaOf(s.g, b) := Some(at[AreaOf(s.g, b)])]
    ensures |s.cached| == s.g.R && e == MapOf(s.g, s.areaBlock, at, s.nand.cells)[b]
  {
    hide AreaOf, OffsetOf;
    var st := AreaRead(s, AreaOf(s.g, b), at);
    e := s.cached[OffsetOf(s.g, b)];
  }

  /** AREA_Update: the entry changes in the cache, and the cached table goes to the next page of
      the area's block. */
  method AreaUpdate(s: Ubi, b: nat, e: AreaEntry, ghost page: nat) returns (st: Status)
    requires s.Sound() && s.nand.faults == 0 && b < s.g.U && |s.areaBlock| == s.g.A && |s.offset| == s.g.A && |s.cached| == s.g.R
    requires s.cachedArea == Some(AreaOf(s.g, b)) && s.offset[AreaOf(s.g, b)].Some?
    requires page == (if s.offset[AreaOf(s.g, b)].value + 1 == s.g.P then 0 else s.offset[AreaOf(s.g, b)].value + 1) < s.g.P
    requires s.areaBlock[AreaOf(s.g, b)] < s.g.T && s.nand.cells[s.areaBlock[AreaOf(s.g, b)]][page].Clear?
    modifies s`offset, s`cached, s.nand
    ensures s.Sound() && s.nand.faults == 0
    ensures st == Success ==>
              var n := s.areaBlock[AreaOf(s.g, b)];
              && s.cached == Updated(s.g, old(s.cached), b, e) && s.offset == old(s.offset)[AreaOf(s.g, b) := Some(page)]
              && n < |old(s.nand.cells)| && page < |old(s.nand.cells)[n]|
              && s.nand.cells == old(s.nand.cells)[n := old(s.nand.cells)[n][page := Area(s.cached)]]
    ensures st == Success ==> s.nand.power == Spent(old(s.nand.power), 1)
    ensures st != Success ==> st == PowerLoss && s.nand.cells == old(s.nand.cells)
    ensures s.nand.power.Some? == old(s.nand.power).Some?
    ensures st != Success <==> old(s.nand.power) == Some(0)
  {
    hide AreaOf, OffsetOf;
    var a := AreaOf(s.g, b);
    s.cached := s.cached[OffsetOf(s.g, b) := e];
    var p := if s.offset[a].value + 1 == s.g.P then 0 else s.offset[a].value + 1;
    st := s.nand.Program(s.areaBlock[a], p, Area(s.cached));
    if st == Success {
      s.offset := s.offset[a := Some(p)];
    }
  }
}
