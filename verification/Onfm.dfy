/** onfm.c: the flash as an array of sectors, over the volume of pages. */
module Onfm {
  import G = Geometry
  import opened Flash
  import opened FtlState
  import Commit
  import FtlApi
  import Logs
  import opened Buffers
  import opened Sectors

  /** The pages once the sectors collected so far are written. */
  ghost function WithPending(pages: seq<PageData>, n: nat, start: Option<nat>, over: PageData, written: seq<bool>): (r: seq<PageData>)
    ensures |r| == |pages|
  {
    if start.Some? && n > 0 && start.value / n < |pages| then
      pages[start.value / n := Merged(pages[start.value / n], over, written)]
    else pages
  }

  /** A sector put into the page being collected. */
  lemma PutPending(pages: seq<PageData>, n: nat, start: nat, over: PageData, written: seq<bool>, i: nat, x: Sector)
    requires Paged(pages, n) && start / n < |pages| && start % n == 0 && |over| == |written| == n && i < n
    ensures start + i < |pages| * n
    ensures Paged(WithPending(pages, n, Some(start), over, written), n)
    ensures Paged(WithPending(pages, n, Some(start), over[i := x], written[i := true]), n)
    ensures SectorsOf(WithPending(pages, n, Some(start), over[i := x], written[i := true]), n)
         == SectorsOf(WithPending(pages, n, Some(start), over, written), n)[start + i := x]
  {
    var p := start / n;
    G.PlaceOf(n, start);
    var was := WithPending(pages, n, Some(start), over, written);
    MergedOne(pages[p], over, written, i, x);
    assert was[p := was[p][i := x]] == WithPending(pages, n, Some(start), over[i := x], written[i := true]);
    OneSector(was, n, p, i, x);
  }

  /** The first sector of a page. */
  lemma NothingPending(pages: seq<PageData>, n: nat, start: nat, over: PageData, written: seq<bool>)
    requires Paged(pages, n) && start / n < |pages| && |over| == |written| == n && forall i :: 0 <= i < n ==> !written[i]
    ensures WithPending(pages, n, Some(start), over, written) == pages
  {
    MergedNothing(pages[start / n], over, written);
  }

  class Onfm {
    const s: Ftl
    const pool: Pool
    var readBuffer: PageData
    var readStart: Option<nat>          // read_buffer_start_sector
    var startingSector: Option<nat>     // starting_sector of onfm_write_sector

    /** The last steps of ONFM_Mount, after FTL_Init. */
    constructor (s: Ftl, pool: Pool)
      requires FtlApi.Valid(s) && pool.Shaped() && 2 < pool.count && pool.Apart(s) && Paged(s.Pages(), pool.sectors)
      modifies pool, pool.used, pool.written
      ensures Valid() && this.s == s && this.pool == pool && startingSector == None && pool.lent == {}
      ensures s.Pages() == old(s.Pages())
    {
      hide FtlApi.Valid, Ftl.Pages, Paged;
      this.s, this.pool := s, pool;
      readBuffer, readStart, startingSector := [], None, None;
      new;
      pool.Init();
    }

    ghost predicate Valid()
      reads this, pool, pool.pages, pool.used, pool.written, s, s.ubi, s.ubi.Repr
    {
      && pool.Valid() && pool.Apart(s) && this !in s.ubi.Repr && startingSector == pool.start
      && Cached(s.Pages()) && FtlApi.Valid(s)
    }

    /** Pages have their size, what is collected belongs to one of them, and the read buffer, if
        it counts, holds one of them. */
    ghost predicate Cached(pages: seq<PageData>)
      reads this
    {
      && Paged(pages, pool.sectors)
      && (startingSector.Some? ==> startingSector.value / pool.sectors < |pages|)
      && (readStart.Some? ==>
            && readStart.value % pool.sectors == 0 && readStart.value / pool.sectors < |pages|
            && readBuffer == pages[readStart.value / pool.sectors])
    }

    ghost function Pages(): seq<PageData>
      reads this, pool, pool.pages, pool.written, s, s.ubi
    {
      if pool.writeBuffer.Some? && pool.writeBuffer.value < pool.pages.Length then
        WithPending(s.Pages(), pool.sectors, pool.start, pool.pages[pool.writeBuffer.value], pool.written[..])
      else s.Pages()
    }

    /** The array of sectors, those collected in RAM included. */
    ghost function Volume(): seq<Sector>
      reads this, pool, pool.pages, pool.written, s, s.ubi
    {
      SectorsOf(Pages(), pool.sectors)
    }

    /** BUF_PutSector of a sector of the page being collected, or the first of a new page. */
    method Put(addr: nat, sector: Sector)
      requires Valid() && addr < |Volume()| && readStart == None
      requires startingSector.Some? ==> startingSector.value <= addr < startingSector.value + pool.sectors
      modifies this`startingSector, pool`start, pool`end, pool.pages, pool.written
      ensures Valid() && Volume() == old(Volume())[addr := sector]
      ensures startingSector.Some? && startingSector.value <= addr < startingSector.value + pool.sectors
    {
      hide FtlApi.Valid, Ftl.Pages, SectorsOf, WithPending, Paged;
      ghost var pages, n := s.Pages(), pool.sectors;
      ghost var over, written := pool.pages[pool.writeBuffer.value], pool.written[..];
      ghost var start := if startingSector.Some? then startingSector.value else addr - addr % n;
      FirstSector(pages, n, addr, startingSector, over, written);
      PutPending(pages, n, start, over, written, addr - start, sector);
      SamePage(n, start, addr);
      Collect(addr, sector);
    }

    /** The pool and starting_sector after it. */
    method Collect(addr: nat, sector: Sector)
      requires Valid() && readStart == None && (startingSector.Some? ==> startingSector.value <= addr < startingSector.value + pool.sectors)
      requires addr / pool.sectors < |s.Pages()|
      modifies this`startingSector, pool`start, pool`end, pool.pages, pool.written
      ensures Valid() && startingSector.Some? && startingSector.value <= addr < startingSector.value + pool.sectors
      ensures startingSector.value == if old(startingSector).Some? then old(startingSector).value else addr - addr % pool.sectors
      ensures pool.writeBuffer.Some? && pool.writeBuffer.value < pool.pages.Length
      ensures addr - startingSector.value < |old(pool.pages[pool.writeBuffer.value])| && addr - startingSector.value < |old(pool.written[..])|
      ensures Pages() == WithPending(old(s.Pages()), pool.sectors, startingSector,
                                     old(pool.pages[pool.writeBuffer.value])[addr - startingSector.value := sector],
                                     old(pool.written[..])[addr - startingSector.value := true])
    {
      hide FtlApi.Valid, Ftl.Pages, SectorsOf, WithPending, Paged;
      FirstOnPage(pool.sectors, addr);
      pool.PutSector(addr, sector);
      startingSector := pool.start;
    }

    /** The page collected so far is merged and written. */
    method FlushPage()
      requires Valid() && startingSector.Some? && |pool.lent| + 2 < pool.count
      modifies pool, pool.pages, pool.used, pool.written, s, s.ubi.Repr
      ensures pool.Valid() && pool.start == None && pool.lent == old(pool.lent)
      ensures FtlApi.Valid(s) && s.Pages() == old(Pages()) && Paged(s.Pages(), pool.sectors)
    {
      hide FtlApi.Valid, Ftl.Pages;
      FtlApi.PagesSize(s);
      var addr, buffer := pool.GetPage(s);
      pool.WritePage(s, addr, pool.pages[buffer], Some(buffer));
    }

    /** onfm_write_sector.  Sectors of one page are collected; the next page, or the call without
        data, has the page collected so far written. */
    method WriteSector(addr: nat, data: Option<Sector>)
      requires Valid() && readStart == None && |pool.lent| + 2 < pool.count
      requires data.Some? ==> addr < |Volume()| && (startingSector.Some? ==> startingSector.value <= addr <= startingSector.value + pool.sectors)
      modifies this`startingSector, pool, pool.pages, pool.used, pool.written, s, s.ubi.Repr
      ensures Valid() && pool.lent == old(pool.lent) && readStart == None
      ensures Volume() == if data.Some? then old(Volume())[addr := data.value] else old(Volume())
      ensures if data.Some? then startingSector.Some? && startingSector.value <= addr < startingSector.value + pool.sectors
              else startingSector == None
    {
      hide FtlApi.Valid, Ftl.Pages, SectorsOf, Pool.Valid;
      if startingSector == None {
        if data.Some? {
          Put(addr, data.value);
        }
      } else if data.Some? && startingSector.value <= addr < startingSector.value + pool.sectors {
        Put(addr, data.value);
      } else {
        FlushPage();
        startingSector := None;
        if data.Some? {
          Put(addr, data.value);
        }
      }
    }

    // ---------------------------------------------------------------- ONFM_Write

    /** The state between two calls, with room in the pool for a call. */
    ghost predicate Idle()
      reads this, pool, pool.pages, pool.used, pool.written, s, s.ubi, s.ubi.Repr
    {
      Valid() && startingSector == None && |pool.lent| + 2 < pool.count
    }

    lemma PoolSize()
      requires Idle()
      ensures pool.sectors > 0
    {
      hide FtlApi.Valid, Ftl.Pages;
    }

    lemma IdleValid()
      requires Idle()
      ensures Valid()
    {
      hide Valid;
    }

    lemma IdleVolume()
      requires Idle()
      ensures Volume() == SectorsOf(s.Pages(), pool.sectors) && Paged(s.Pages(), pool.sectors) && |s.Pages()| == s.g.cap
    {
      FtlApi.PagesSize(s);
      hide FtlApi.Valid, Ftl.Pages, SectorsOf;
    }

    /** FTL_Write of a whole page. */
    method PutPage(page: nat, data: PageData, from: Option<nat>)
      requires Idle() && readStart == None && page < s.g.cap && |data| == pool.sectors && (from.Some? ==> from.value in pool.lent)
      modifies pool, pool.used, s, s.ubi.Repr
      ensures Idle() && page < |old(s.Pages())| && s.Pages() == old(s.Pages())[page := data]
      ensures pool.lent == if from.Some? then old(pool.lent) - {from.value as int} else old(pool.lent)
    {
      hide FtlApi.Valid, Ftl.Pages, SectorsOf, WithPending;
      IdleVolume();
      Fewer(pool.lent, if from.Some? then pool.lent - {from.value as int} else pool.lent);
      pool.WritePage(s, page, data, from);
      assert Valid();
    }

    /** FTL_Read of a whole page. */
    method GetPage(page: nat) returns (data: PageData)
      requires Idle() && page < s.g.cap
      modifies pool, pool.used, s, s.ubi.Repr
      ensures Idle() && page < |s.Pages()| && s.Pages() == old(s.Pages()) && data == s.Pages()[page] && pool.lent == old(pool.lent)
    {
      hide FtlApi.Valid, Ftl.Pages;
      data := pool.ReadPage(s, page);
    }

    /** One whole page goes to the FTL directly, with the caller's buffer. */
    method WriteWhole(addr: nat, data: seq<Sector>, from: Option<nat>)
      requires Idle() && readStart == None && addr % pool.sectors == 0 && |data| == pool.sectors && addr + |data| <= |Volume()|
      requires from.Some? ==> from.value in pool.lent
      modifies pool, pool.used, s, s.ubi.Repr
      ensures Idle() && Volume() == old(Volume())[..addr] + data + old(Volume())[addr + |data|..]
      ensures pool.lent == if from.Some? then old(pool.lent) - {from.value as int} else old(pool.lent)
    {
      hide Idle, SectorsOf, Volume;
      ghost var pages, n := s.Pages(), pool.sectors;
      IdleVolume();
      PageAt(pages, n, addr);
      WholePage(pages, n, addr / n, data);
      PutPage(addr / pool.sectors, data, from);
      IdleVolume();
    }

    /** The sectors one after the other. */
    method WriteEach(addr: nat, data: seq<Sector>)
      requires Idle() && readStart == None && addr + |data| <= |Volume()|
      modifies this`startingSector, pool, pool.pages, pool.used, pool.written, s, s.ubi.Repr
      ensures Idle() && Volume() == old(Volume())[..addr] + data + old(Volume())[addr + |data|..]
      ensures pool.lent == old(pool.lent)
    {
      hide Valid, Volume;
      ghost var was := Volume();
      assert Valid() by { IdleValid(); }
      var i := 0;
      while i < |data|
        invariant i <= |data| && Valid() && pool.lent == old(pool.lent) && readStart == None
        invariant if i == 0 then startingSector == None
                  else startingSector.Some? && startingSector.value <= addr + i - 1 < startingSector.value + pool.sectors
        invariant Volume() == was[..addr] + data[..i] + was[addr + i..]
      {
        WriteSector(addr + i, Some(data[i]));
        i := i + 1;
      }
      WriteSector(0xFFFF_FFFF, None);
    }

    /** ONFM_Write: exactly the given sectors change, whatever their alignment and number.
        `from` is the pool buffer the data is in, if it is in one; a whole page takes it along. */
    method Write(addr: nat, data: seq<Sector>, from: Option<nat>)
      requires Idle() && addr + |data| <= |Volume()| && (from.Some? ==> from.value in pool.lent)
      modifies this, pool, pool.pages, pool.used, pool.written, s, s.ubi.Repr
      ensures Idle() && Volume() == old(Volume())[..addr] + data + old(Volume())[addr + |data|..]
      ensures pool.lent == if from.Some? && addr % pool.sectors == 0 && |data| == pool.sectors then old(pool.lent) - {from.value as int} else old(pool.lent)
    {
      hide FtlApi.Valid, Ftl.Pages, SectorsOf, WithPending, Pool.Valid;
      readStart := None;
      if addr % pool.sectors == 0 && |data| == pool.sectors {
        WriteWhole(addr, data, from);
      } else {
        WriteEach(addr, data);
      }
    }

    // ---------------------------------------------------------------- ONFM_Read

    /** onfm_read_sector: the sector comes from the read buffer if its page is there. */
    method ReadSector(addr: nat) returns (sector: Sector)
      requires Idle() && addr < |Volume()|
      modifies this`readBuffer, this`readStart, pool, pool.used, s, s.ubi.Repr
      ensures Idle() && Volume() == old(Volume()) && addr < |Volume()| && sector == Volume()[addr] && pool.lent == old(pool.lent)
    {
      hide FtlApi.Valid, Ftl.Pages, SectorsOf;
      ghost var n := pool.sectors;
      IdleVolume();
      InPage(s.Pages(), n, addr);
      if readStart.Some? && readStart.value <= addr < readStart.value + pool.sectors {
      } else {
        FillReadBuffer(addr);
      }
      SamePage(n, readStart.value, addr);
      IdleVolume();
      sector := readBuffer[addr - readStart.value];
    }

    /** The page of the sector is read into the read buffer. */
    method FillReadBuffer(addr: nat)
      requires Idle() && pool.sectors > 0 && addr / pool.sectors < s.g.cap
      modifies this`readBuffer, this`readStart, pool, pool.used, s, s.ubi.Repr
      ensures Idle() && s.Pages() == old(s.Pages()) && pool.lent == old(pool.lent)
      ensures readStart.Some? && readStart.value <= addr < readStart.value + pool.sectors
    {
      hide FtlApi.Valid, Ftl.Pages;
      Aligned(addr, pool.sectors);
      readBuffer := GetPage(addr / pool.sectors);
      readStart := Some(addr / pool.sectors * pool.sectors);
    }

    /** ONFM_Read. */
    method Read(addr: nat, count: nat) returns (data: seq<Sector>)
      requires Idle() && addr + count <= |Volume()|
      modifies this`readBuffer, this`readStart, pool, pool.used, s, s.ubi.Repr
      ensures Idle() && Volume() == old(Volume()) && addr + count <= |Volume()| && data == Volume()[addr..addr + count]
      ensures pool.lent == old(pool.lent)
    {
      hide Idle, Volume;
      PoolSize();
      if addr % pool.sectors == 0 && count == pool.sectors {
        data := ReadWhole(addr);
      } else {
        data := [];
        while |data| < count
          invariant Idle() && Volume() == old(Volume()) && pool.lent == old(pool.lent)
          invariant |data| <= count && data == Volume()[addr..addr + |data|]
        {
          var sector := ReadSector(addr + |data|);
          data := data + [sector];
        }
      }
    }

    method ReadWhole(addr: nat) returns (data: seq<Sector>)
      requires Idle() && addr % pool.sectors == 0 && addr + pool.sectors <= |Volume()|
      modifies pool, pool.used, s, s.ubi.Repr
      ensures Idle() && Volume() == old(Volume()) && addr + pool.sectors <= |Volume()| && data == Volume()[addr..addr + pool.sectors]
      ensures pool.lent == old(pool.lent)
    {
      hide Idle, SectorsOf, Volume;
      ghost var pages, n := s.Pages(), pool.sectors;
      IdleVolume();
      PageAt(pages, n, addr);
      WholePage(pages, n, addr / n, pages[addr / n]);
      data := GetPage(addr / pool.sectors);
      IdleVolume();
    }

    // ---------------------------------------------------------------- ONFM_Unmount

    /** ONFM_Unmount: FTL_Flush.  Everything is on flash, every die is idle, and no buffer is held
        for a program. */
    method Unmount()
      requires Idle()
      modifies pool, pool.used, s, s.ubi.Repr
      ensures Idle() && Volume() == old(Volume()) && pool.lent == old(pool.lent) && pool.held == None
      ensures Commit.JustCommitted(s) && s.Data() == old(s.Data()) && s.ubi.polls == 0
    {
      hide FtlApi.Valid, Ftl.Pages, Ftl.Data, SectorsOf, Commit.JustCommitted;
      FtlApi.FtlFlush(s);
      pool.LetGo();
    }
  }

  /** The first sector of a page is on that page. */
  lemma FirstOnPage(n: nat, addr: nat)
    requires n > 0
    ensures 0 <= addr - addr % n && (addr - addr % n) / n == addr / n
  {
    G.PlaceOf(n, addr);
    G.QuotientIs(n, addr / n, 0);
  }

  lemma PageAt(pages: seq<PageData>, n: nat, addr: nat)
    requires Paged(pages, n) && addr % n == 0 && addr + n <= |pages| * n
    ensures addr / n < |pages| && addr / n * n == addr
  {
    G.PlaceOf(n, addr);
    InPage(pages, n, addr);
  }

  lemma Fewer(a: set<int>, b: set<int>)
    requires b <= a
    ensures |b| <= |a|
  {
    assert a == b + (a - b);
  }

  lemma SamePage(n: nat, start: nat, addr: nat)
    requires n > 0 && start % n == 0 && start <= addr < start + n
    ensures addr / n == start / n && addr % n == addr - start
  {
    G.PlaceOf(n, start);
    G.QuotientIs(n, start / n, addr - start);
  }

  /** The page to which a sector goes. */
  lemma FirstSector(pages: seq<PageData>, n: nat, addr: nat, starting: Option<nat>, over: PageData, written: seq<bool>)
    requires Paged(pages, n) && addr < |pages| * n && |over| == |written| == n
    requires starting.Some? ==> starting.value <= addr < starting.value + n && starting.value % n == 0 && starting.value / n < |pages|
    requires starting.None? ==> forall i :: 0 <= i < n ==> !written[i]
    ensures var start := if starting.Some? then starting.value else addr - addr % n;
            && start <= addr < start + n && start % n == 0 && start / n < |pages|
            && WithPending(pages, n, starting, over, written) == WithPending(pages, n, Some(start), over, written)
  {
    if starting.None? {
      Aligned(addr, n);
      InPage(pages, n, addr);
      NothingPending(pages, n, addr - addr % n, over, written);
    }
  }
}
