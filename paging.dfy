/** Skip/Take paging as the repositories apply it, and the paged result they return. */
module Paging {

  /** PagedResultDto: one page of items, the size of the whole filtered list, and the request echoed. */
  datatype PagedResult<T> = PagedResult(items: seq<T>, totalCount: int, page: int, pageSize: int)

  /** How many rows Skip((page - 1) * pageSize) passes over: a negative count skips nothing. */
  function Offset(page: int, pageSize: int): nat
  {
    if (page - 1) * pageSize < 0 then 0 else (page - 1) * pageSize
  }

  /**
   * Skip((page - 1) * pageSize).Take(pageSize) as SQLite runs it: LIMIT 0 is empty, and a
   * negative LIMIT sets no limit, so every row from the offset on is returned.
   */
  function Page<T>(s: seq<T>, page: int, pageSize: int): (r: seq<T>)
    ensures pageSize == 0 ==> r == []
    ensures 0 <= pageSize ==> |r| <= pageSize
    ensures forall j :: 0 <= j < |r| ==> Offset(page, pageSize) + j < |s| && r[j] == s[Offset(page, pageSize) + j]
    ensures |r| == pageSize || Offset(page, pageSize) + |r| >= |s|
  {
    var offset := Offset(page, pageSize);
    var skipped := if offset >= |s| then [] else s[offset..];
    if pageSize < 0 || pageSize >= |skipped| then skipped
    else skipped[..pageSize]
  }

  /** A page is one contiguous stretch of the list. */
  lemma PageIsSlice<T>(s: seq<T>, page: int, pageSize: int)
    ensures var r := Page(s, page, pageSize);
      Offset(page, pageSize) + |r| <= |s| ==>
      r == s[Offset(page, pageSize)..Offset(page, pageSize) + |r|]
  {
  }

  /** Every row is listed: row i is at position i % pageSize of page i / pageSize + 1. */
  lemma RowOnItsPage<T>(s: seq<T>, pageSize: int, i: nat)
    requires 0 < pageSize && i < |s|
    ensures var r := Page(s, i / pageSize + 1, pageSize);
      i % pageSize < |r| && r[i % pageSize] == s[i]
  {
    var page := i / pageSize + 1;
    assert (page - 1) * pageSize == (i / pageSize) * pageSize;
    assert (i / pageSize) * pageSize >= 0 by {
      assert i / pageSize >= 0;
    }
    assert Offset(page, pageSize) + i % pageSize == i;
  }

  /** A page holds no row of another page: pages never overlap. */
  lemma PagesDisjoint<T>(s: seq<T>, pageSize: int, p: int, q: int, j: nat, k: nat)
    requires 0 < pageSize && 1 <= p < q
    requires j < |Page(s, p, pageSize)| && k < |Page(s, q, pageSize)|
    ensures Offset(p, pageSize) + j < Offset(q, pageSize) + k
  {
    var a, b := p - 1, q - 1;
    MulNonNegative(a, pageSize);
    MulNonNegative(b - a - 1, pageSize);
    assert b * pageSize == a * pageSize + (b - a - 1) * pageSize + pageSize;
    assert Offset(p, pageSize) == a * pageSize && Offset(q, pageSize) == b * pageSize;
  }

  lemma MulNonNegative(x: int, y: int)
    requires 0 <= x && 0 <= y
    ensures 0 <= x * y
  {
  }
}
