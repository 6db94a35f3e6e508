/** ubi_table.c: the newest page of a table block, found by binary search. */
module Table {
  import opened Flash
  import opened Nand

  /** TABLE_Read when the page is not known: the newest page of a block whose written pages
      form a prefix, and a failure exactly when the block is empty. */
  method FindNewest(nand: Nand, block: nat, ghost n: nat) returns (st: Status, page: nat, c: Page)
    requires nand.Valid() && block < nand.blocks && 1 <= nand.pages && Prefix(nand.cells[block], n)
    ensures st == if n == 0 then Failure else Success
    ensures n > 0 ==> page == n - 1 && c == nand.cells[block][page]
  {
    var head, tail := 0, nand.pages;
    var mid := (head + tail) / 2;
    while mid != head && mid != tail
      invariant 0 <= head <= mid <= tail <= nand.pages && mid == (head + tail) / 2
      invariant head < tail && (head == 0 || head < n) && n <= tail
      decreases tail - head
    {
      var s, _ := nand.Read(block, mid);
      if s == Success {
        head := mid;
      } else {
        tail := mid;
      }
      mid := (head + tail) / 2;
    }
    page := mid;
    st, c := nand.Read(block, page);
  }

  /** TABLE_Read at a known page. */
  method ReadAt(nand: Nand, block: nat, page: nat) returns (st: Status, c: Page)
    requires nand.Valid() && block < nand.blocks && page < nand.pages
    ensures c == nand.cells[block][page] && st == if c.Clear? then Failure else Success
  {
    st, c := nand.Read(block, page);
  }
}
