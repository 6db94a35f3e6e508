/** buf_api.c: the pool of page buffers, and the sectors collected into one page. */
module Buffers {
  import G = Geometry
  import opened Flash
  import opened Counting
  import opened FtlState
  import FtlApi
  import Commit
  import Data
  import DataReclaim
  import Lanes

  /** The written sectors replace those of the page. */
  function Merged(base: PageData, over: PageData, written: seq<bool>): (r: PageData)
    ensures |r| == |base|
    ensures forall i :: 0 <= i < |base| ==> r[i] == if i < |written| && written[i] && i < |over| then over[i] else base[i]
  {
    seq(|base|, i requires 0 <= i < |base| => if i < |written| && written[i] && i < |over| then over[i] else base[i])
  }

  class Pool {
    const count: nat                 // BUFFER_COUNT
    const sectors: nat               // SECTOR_PER_MPP
    const pages: array<PageData>     // pb_pool
    const used: array<bool>          // pb_pool_used
    const written: array<bool>       // sector_written

    var writeBuffer: Option<nat>
    var start: Option<nat>
    var end: Option<nat>

    /** The buffer UBI_Write holds until its die has programmed it (dice_hold of ubi_api.c). */
    var held: Option<nat>

    /** The buffers that were allocated by, or passed to, someone else. */
    ghost var lent: set<int>

    constructor (count: nat, sectors: nat)
      requires sectors > 0 && count % 2 == 0
      ensures this.count == count && this.sectors == sectors && Shaped() && fresh(pages) && fresh(used) && fresh(written)
    {
      this.count, this.sectors := count, sectors;
      pages := new PageData[count](_ => seq(sectors, _ => []));
      used, written := new bool[count], new bool[sectors];
    }

    ghost predicate Shaped()
      reads this, pages
    {
      && pages.Length == used.Length == count && written.Length == sectors && used != written && sectors > 0 && count % 2 == 0
      && forall i :: 0 <= i < count ==> |pages[i]| == sectors
    }

    ghost predicate Owner(i: int)
      reads this
    {
      i in lent || (i >= 0 && (writeBuffer == Some(i) || held == Some(i)))
    }

    /** A buffer is in use if and only if someone has it, and nobody has the same. */
    ghost predicate Owned()
      reads this, used
    {
      && used.Length == count
      && (forall i :: 0 <= i < count ==> (used[i] <==> Owner(i)))
      && (forall i :: i in lent ==> 0 <= i < count)
      && (writeBuffer.Some? ==> writeBuffer.value < count && writeBuffer != held && writeBuffer.value !in lent)
      && (held.Some? ==> held.value < count && held.value !in lent)
    }

    /** Between calls there is a write buffer; the written sectors are those of one page. */
    ghost predicate Valid()
      reads this, pages, used, written
    {
      && Shaped() && Owned() && writeBuffer.Some?
      && start.Some? == end.Some?
      && (start.Some? ==> start.value % sectors == 0 && end.value == start.value + sectors - 1)
      && (start.None? ==> forall i :: 0 <= i < sectors ==> !written[i])
    }

    /** BUF_Allocate: a free buffer, if there is one. */
    method Allocate() returns (b: Option<nat>)
      requires Shaped() && Owned()
      modifies this`lent, used
      ensures Owned()
      ensures b.Some? ==> b.value < count && !old(Owner(b.value)) && lent == old(lent) + {b.value}
      ensures b.None? ==> lent == old(lent) && forall i :: 0 <= i < count ==> old(Owner(i))
    {
      var i, half := 0, count / 2;
      while i < half
        invariant 0 <= i <= half && half + half == count && Owned() && lent == old(lent)
        invariant forall k :: 0 <= k < i || half <= k < half + i ==> used[k]
      {
        if !used[i] {
          used[i], lent := true, lent + {i};
          return Some(i);
        }
        if !used[i + half] {
          used[i + half], lent := true, lent + {i + half};
          return Some(i + half);
        }
        i := i + 1;
      }
      b := None;
      forall k | 0 <= k < count
        ensures old(Owner(k))
      {
        assert used[k] && Owner(k);
      }
    }

    /** BUF_Free of a buffer that someone else had. */
    method Free(b: nat)
      requires Shaped() && Owned() && b in lent
      modifies this`lent, used
      ensures Owned() && lent == old(lent) - {b}
    {
      used[b], lent := false, lent - {b};
    }

    /** There is a free buffer as long as fewer than `count` have an owner. */
    lemma SomeFree()
      requires Shaped() && Owned() && |lent| + (if writeBuffer.Some? then 1 else 0) + (if held.Some? then 1 else 0) < count
      ensures exists i :: 0 <= i < count && !Owner(i)
    {
      if forall i :: 0 <= i < count ==> Owner(i) {
        var w: set<int> := if writeBuffer.Some? then {writeBuffer.value} else {};
        var h: set<int> := if held.Some? then {held.value} else {};
        forall i | i in Range(0, count)
          ensures i in lent + w + h
        {
          assert Owner(i);
        }
        SubsetSize(Range(0, count), lent + w + h);
        assert |w| == (if writeBuffer.Some? then 1 else 0) && |h| == (if held.Some? then 1 else 0);
        Few(lent, w, h);
        RangeSize(0, count);
      }
    }

    // ---------------------------------------------------------------- sectors

    ghost function Repr(): set<object> {
      {this, pages, used, written}
    }

    /** The volume shares nothing with the pool. */
    ghost predicate Apart(s: Ftl) {
      Repr() !! s.ubi.Repr + {s}
    }

    /** BUF_Init: one buffer is taken as the write buffer. */
    method Init()
      requires Shaped() && 2 < count
      modifies this, used, written
      ensures Valid() && held == None && lent == {} && start == None
    {
      start, end, held, lent, writeBuffer := None, None, None, {}, None;
      ClearUsed();
      ClearWritten();
      SomeFree();
      var b := Allocate();
      writeBuffer, lent := b, {};
    }

    method ClearUsed()
      requires Shaped()
      modifies used
      ensures forall i :: 0 <= i < count ==> !used[i]
    {
      var i := 0;
      while i < count
        invariant i <= count && forall k :: 0 <= k < i ==> !used[k]
      {
        used[i] := false;
        i := i + 1;
      }
    }

    method ClearWritten()
      requires Shaped()
      modifies written
      ensures forall i :: 0 <= i < sectors ==> !written[i]
    {
      var i := 0;
      while i < sectors
        invariant i <= sectors && forall k :: 0 <= k < i ==> !written[k]
      {
        written[i] := false;
        i := i + 1;
      }
    }

    /** BUF_PutSector: the sector is of the page being collected, or the first of a new one. */
    method PutSector(addr: nat, sector: Sector)
      requires Valid() && (end.Some? ==> start.value <= addr <= end.value)
      modifies this`start, this`end, pages, written
      ensures Valid() && start == Some(if old(start).Some? then old(start).value else addr - addr % sectors)
      ensures start.value <= addr < start.value + sectors
      ensures written[..] == old(written[..])[addr - start.value := true]
      ensures pages[writeBuffer.value] == old(pages[writeBuffer.value])[addr - start.value := sector]
      ensures forall i :: 0 <= i < count && Some(i) != writeBuffer ==> pages[i] == old(pages[i])
    {
      if end == None {
        Aligned(addr, sectors);
        start, end := Some(addr - addr % sectors), Some(addr - addr % sectors + sectors - 1);
      }
      var w, i := writeBuffer.value, addr - start.value;
      pages[w] := pages[w][i := sector];
      written[i] := true;
    }

    // ---------------------------------------------------------------- pages

    /** FTL_Read into a buffer.  UBI_Write, if the read has a table committed, may let go of the
        buffer it holds. */
    method ReadPage(s: Ftl, addr: nat) returns (page: PageData)
      requires Shaped() && Owned() && Apart(s) && FtlApi.Valid(s) && addr < s.g.cap
      modifies this`held, this`lent, used, s, s.ubi.Repr
      ensures Owned() && lent == old(lent) && (held == old(held) || held == None)
      ensures FtlApi.Valid(s) && s.Pages() == old(s.Pages()) && addr < |s.Pages()| && page == s.Pages()[addr]
    {
      hide FtlApi.Mounted, Ftl.Pages, Commit.Calm, Commit.Saved, Commit.Roomy, Ftl.Data;
      page := FtlApi.FtlRead(s, addr);
      if * {
        LetGo();
      }
    }

    /** The held buffer has been programmed. */
    method LetGo()
      requires Shaped() && Owned()
      modifies this`held, this`lent, used
      ensures Owned() && lent == old(lent) && held == None
    {
      if held.Some? {
        var b := held.value;
        held, lent := None, lent + {b};
        Free(b);
      }
    }

    /** FTL_Write of a page.  A pool buffer passes to UBI_Write, which lets go of the one it held
        before, and holds this one until the program is known to have ended. */
    method WritePage(s: Ftl, addr: nat, data: PageData, from: Option<nat>)
      requires Shaped() && Owned() && Apart(s) && FtlApi.Valid(s) && addr < s.g.cap && (from.Some? ==> from.value in lent)
      modifies this`held, this`lent, used, s, s.ubi.Repr
      ensures Owned() && lent == (if from.Some? then old(lent) - {from.value} else old(lent)) && (held == from || held == None)
      ensures FtlApi.Valid(s) && s.Pages() == old(s.Pages())[addr := data]
    {
      hide FtlApi.Mounted, Ftl.Pages, Commit.Calm, Commit.JustCommitted, Commit.Saved, Commit.Roomy, Data.SomewhereWritten, Data.PushedOn;
      hide Data.HasRoom, Data.RoomForTwo, Data.OtherKept, DataReclaim.Renewed, Lanes.Dropped, Ftl.Data;
      var isHot: bool := *;
      ghost var w := FtlApi.FtlWrite(s, addr, Some(data), isHot);
      LetGo();
      if from.Some? {
        held, lent := from, lent - {from.value};
      }
      if * {
        LetGo();
      }
    }

    /** A sector of the page is missing. */
    method NeedsMerge() returns (need: bool)
      requires Shaped()
      ensures need == exists i :: 0 <= i < sectors && !written[i]
    {
      need := false;
      var i := 0;
      while i < sectors
        invariant i <= sectors && !need && forall k :: 0 <= k < i ==> written[k]
      {
        if !written[i] {
          need := true;
          break;
        }
        i := i + 1;
      }
    }

    /** The written sectors are copied over those read back. */
    method Merge(m: nat, page: PageData)
      requires Shaped() && m < count && writeBuffer.Some? && writeBuffer.value < count && writeBuffer.value != m && |page| == sectors
      modifies pages
      ensures Shaped() && pages[m] == Merged(page, old(pages[writeBuffer.value]), written[..])
      ensures forall i :: 0 <= i < count && i != m ==> pages[i] == old(pages[i])
    {
      pages[m] := page;
      var i := 0;
      while i < sectors
        invariant i <= sectors && Shaped() && forall k :: 0 <= k < count && k != m ==> pages[k] == old(pages[k])
        invariant forall k :: 0 <= k < sectors ==>
                    pages[m][k] == if k < i && written[k] then old(pages[writeBuffer.value])[k] else page[k]
      {
        if written[i] {
          pages[m] := pages[m][i := pages[writeBuffer.value][i]];
        }
        i := i + 1;
      }
      assert pages[m] == Merged(page, old(pages[writeBuffer.value]), written[..]);
    }

    /** BUF_GetPage: the page at which sectors were collected, with those that were not written
        read back, in a buffer for the caller; another write buffer is taken. */
    method GetPage(s: Ftl) returns (addr: nat, buffer: nat)
      requires Valid() && Apart(s) && FtlApi.Valid(s) && start.Some? && start.value / sectors < s.g.cap
      requires |lent| + 2 < count && forall a :: 0 <= a < |s.Pages()| ==> |s.Pages()[a]| == sectors
      modifies this, pages, used, written, s, s.ubi.Repr
      ensures Valid() && FtlApi.Valid(s) && s.Pages() == old(s.Pages())
      ensures addr == old(start.value) / sectors && addr < |s.Pages()| && start == None
      ensures buffer < count && buffer !in old(lent) && lent == old(lent) + {buffer as int} && (held == old(held) || held == None)
      ensures pages[buffer] == Merged(s.Pages()[addr], old(pages[writeBuffer.value]), old(written[..]))
    {
      hide FtlApi.Valid, Ftl.Pages;
      addr := start.value / sectors;
      buffer := TakePage(s, addr);
      start, end := None, None;
      ClearWritten();
      TakeWriteBuffer();
    }

    /** The page leaves with one of the two buffers. */
    method TakePage(s: Ftl, addr: nat) returns (buffer: nat)
      requires Shaped() && Owned() && writeBuffer.Some? && Apart(s) && FtlApi.Valid(s) && addr < s.g.cap
      requires |lent| + 2 < count && forall a :: 0 <= a < |s.Pages()| ==> |s.Pages()[a]| == sectors
      modifies this`held, this`lent, this`writeBuffer, pages, used, s, s.ubi.Repr
      ensures Shaped() && Owned() && writeBuffer == None && FtlApi.Valid(s) && s.Pages() == old(s.Pages()) && addr < |s.Pages()|
      ensures buffer < count && buffer !in old(lent) && lent == old(lent) + {buffer as int} && (held == old(held) || held == None)
      ensures pages[buffer] == Merged(s.Pages()[addr], old(pages[writeBuffer.value]), written[..])
    {
      hide FtlApi.Valid, Ftl.Pages;
      SizeOf(s, addr);
      var need := NeedsMerge();
      if need {
        buffer := TakeMerged(s, addr);
      } else {
        buffer := TakeWhole();
        AllWritten(s.Pages()[addr], pages[buffer], written[..]);
      }
    }

    /** Some sector was not written: the page is read into another buffer. */
    method TakeMerged(s: Ftl, addr: nat) returns (buffer: nat)
      requires Shaped() && Owned() && writeBuffer.Some? && Apart(s) && FtlApi.Valid(s) && addr < s.g.cap
      requires |lent| + 2 < count && forall a :: 0 <= a < |s.Pages()| ==> |s.Pages()[a]| == sectors
      modifies this`held, this`lent, this`writeBuffer, pages, used, s, s.ubi.Repr
      ensures Shaped() && Owned() && writeBuffer == None && FtlApi.Valid(s) && s.Pages() == old(s.Pages()) && addr < |s.Pages()|
      ensures buffer < count && buffer !in old(lent) && lent == old(lent) + {buffer as int} && (held == old(held) || held == None)
      ensures pages[buffer] == Merged(s.Pages()[addr], old(pages[writeBuffer.value]), written[..])
    {
      hide FtlApi.Valid, Ftl.Pages;
      SomeFree();
      var m := Allocate();
      buffer := m.value;
      var page := ReadPage(s, addr);
      Merge(buffer, page);
      var w := writeBuffer.value;
      writeBuffer, lent := None, lent + {w as int};
      Free(w);
    }

    /** Every sector was written: the write buffer itself is passed on. */
    method TakeWhole() returns (buffer: nat)
      requires Shaped() && Owned() && writeBuffer.Some?
      modifies this`lent, this`writeBuffer
      ensures Shaped() && Owned() && writeBuffer == None && Some(buffer) == old(writeBuffer)
      ensures buffer < count && buffer !in old(lent) && lent == old(lent) + {buffer as int}
    {
      buffer := writeBuffer.value;
      writeBuffer, lent := None, lent + {buffer as int};
    }

    method TakeWriteBuffer()
      requires Shaped() && Owned() && writeBuffer == None && |lent| + 1 < count
      requires start == None && end == None && forall i :: 0 <= i < sectors ==> !written[i]
      modifies this`lent, this`writeBuffer, used
      ensures Valid() && lent == old(lent)
    {
      SomeFree();
      var b := Allocate();
      writeBuffer, lent := b, lent - {b.value as int};
    }
  }

  lemma AllWritten(base: PageData, over: PageData, written: seq<bool>)
    requires |base| == |over| == |written| && forall i :: 0 <= i < |written| ==> written[i]
    ensures Merged(base, over, written) == over
  {
  }

  lemma SizeOf(s: Ftl, addr: nat)
    requires FtlApi.Valid(s) && addr < s.g.cap
    ensures addr < |s.Pages()|
  {
    FtlApi.PagesSize(s);
  }

  lemma Aligned(addr: nat, n: nat)
    requires n > 0
    ensures 0 <= addr - addr % n <= addr < addr - addr % n + n && (addr - addr % n) % n == 0
    ensures addr - addr % n == (addr / n) * n && (addr - addr % n) / n == addr / n
  {
    G.QuotientIs(n, addr / n, 0);
  }

  lemma Few(a: set<int>, b: set<int>, c: set<int>)
    ensures |a + b + c| <= |a| + |b| + |c|
  {
    assert |a + b| <= |a| + |b|;
    assert |a + b + c| <= |a + b| + |c|;
  }
}
