/** OrderRepository: the read-side order queries, as values over the database. */
module OrderRepository {
  import opened Wrappers
  import opened Domain
  import opened Dtos
  import opened Paging
  import opened Sorting

  function CreatedAtKey(o: Order): Key { Num(o.createdAt) }

  /** GetPagedOrdersAsync: newest first, one page, each order with its items. */
  function GetPagedOrders(s: Store, page: int, pageSize: int): (r: PagedResult<OrderDto>)
    ensures r.totalCount == |s.orders|
    ensures r.page == page && r.pageSize == pageSize
    ensures 0 <= pageSize ==> |r.items| <= pageSize
    ensures |r.items| == pageSize || Offset(page, pageSize) + |r.items| >= r.totalCount
  {
    var sorted := SortBy(s.orders, CreatedAtKey, true);
    assert |sorted| == |multiset(sorted)| == |s.orders|;
    var rows := Page(sorted, page, pageSize);
    PagedResult(seq(|rows|, k requires 0 <= k < |rows| => ToOrderDto(s, rows[k])), |s.orders|, page, pageSize)
  }

  /** Every listed order is a stored order shown with its stored total and all its items. */
  lemma PagedOrdersAreStored(s: Store, page: int, pageSize: int, k: nat)
    requires k < |GetPagedOrders(s, page, pageSize).items|
    ensures exists o :: o in s.orders && GetPagedOrders(s, page, pageSize).items[k] == ToOrderDto(s, o)
  {
    var sorted := SortBy(s.orders, CreatedAtKey, true);
    var rows := Page(sorted, page, pageSize);
    assert GetPagedOrders(s, page, pageSize).items[k] == ToOrderDto(s, rows[k]);
    assert rows[k] in multiset(sorted);
    assert rows[k] in multiset(s.orders);
  }

  /** The page lists the newest orders first. */
  lemma PagedOrdersNewestFirst(s: Store, page: int, pageSize: int)
    ensures var r := GetPagedOrders(s, page, pageSize);
      forall i, j :: 0 <= i < j < |r.items| ==> r.items[i].createdAt >= r.items[j].createdAt
  {
    var sorted := SortBy(s.orders, CreatedAtKey, true);
    var rows := Page(sorted, page, pageSize);
    var r := GetPagedOrders(s, page, pageSize);
    SortBySorted(s.orders, CreatedAtKey, true);
    PageIsSlice(sorted, page, pageSize);
    if rows != [] {
      var off := Offset(page, pageSize);
      SortedSlice(sorted, CreatedAtKey, true, off, off + |rows|);
    }
    forall i, j | 0 <= i < j < |r.items|
      ensures r.items[i].createdAt >= r.items[j].createdAt
    {
      assert Before(CreatedAtKey(rows[i]), CreatedAtKey(rows[j]), true);
      assert r.items[i] == ToOrderDto(s, rows[i]) && r.items[j] == ToOrderDto(s, rows[j]);
    }
  }

  /** GetOrderDtoByIdAsync: the order with that id and all its items, or None. */
  function GetOrderDtoById(s: Store, id: int): (r: Option<OrderDto>)
    ensures r.None? <==> id !in OrderIds(s.orders)
    ensures r.Some? ==> exists o :: o in s.orders && o.id == id && r.value == ToOrderDto(s, o)
  {
    match FindOrder(s.orders, id)
    case None => None
    case Some(k) => Some(ToOrderDto(s, s.orders[k]))
  }
}
