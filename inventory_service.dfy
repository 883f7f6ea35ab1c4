/**
 * InventoryService: manual stock adjustments and the transaction history.
 *
 * An adjustment names a product and a signed quantity change. It is refused when the
 * product does not exist or when the stock would go below zero; otherwise, inside one
 * transaction, the stock moves by the change and one ledger entry records it.
 */
module InventoryAdjustment {
  import opened Wrappers
  import opened Domain
  import opened Invariants
  import opened Dtos
  import opened Paging
  import opened Sorting
  import opened Persistence

  /** CreateInventoryAdjustmentDto. */
  datatype AdjustmentRequest = AdjustmentRequest(productId: int, quantityChange: int, reason: string)

  /** AdjustInventoryAsync as a function: the new database and the recorded entry, or the refusal. */
  function Adjust(s: Store, req: AdjustmentRequest, now: Timestamp): Result<(Store, TransactionDto), Error>
  {
    match FindProduct(s.products, req.productId)
    case None => Failure(ProductNotFound(req.productId))
    case Some(k) =>
      var p := s.products[k];
      var newQuantity := p.stock + req.quantityChange;
      if newQuantity < 0 then Failure(NegativeStock(p.stock, req.quantityChange))
      else
        var entry := LedgerEntry(s.nextLedgerId, req.productId, req.quantityChange, now, req.reason);
        Success((s.(products := s.products[k := p.(stock := newQuantity)],
                    ledger := s.ledger + [entry], nextLedgerId := s.nextLedgerId + 1),
                 TransactionDto(entry.id, entry.productId, p.name, p.sku, entry.quantityChange, now, req.reason)))
  }

  /**
   * An adjustment is refused exactly when the product is unknown or the stock would go
   * negative, and the refusal says which, with the current stock and the change.
   */
  lemma AdjustRefusedIff(s: Store, req: AdjustmentRequest, now: Timestamp)
    ensures req.productId !in ProductIds(s.products) ==>
      Adjust(s, req, now) == Failure(ProductNotFound(req.productId))
    ensures req.productId in ProductIds(s.products) && StockOf(s.products, req.productId) + req.quantityChange < 0 ==>
      Adjust(s, req, now) == Failure(NegativeStock(StockOf(s.products, req.productId), req.quantityChange))
    ensures Adjust(s, req, now).Success? <==>
      req.productId in ProductIds(s.products) && StockOf(s.products, req.productId) + req.quantityChange >= 0
  {
  }

  /**
   * An accepted adjustment moves the product's stock and its ledger balance by exactly
   * the change, records one entry for it, and leaves every other product row and
   * balance, and every other table, as they were. The returned record is that entry
   * with the product's name and SKU, as the transaction listing shows it.
   */
  lemma AdjustEffect(s: Store, req: AdjustmentRequest, now: Timestamp, other: int)
    requires Adjust(s, req, now).Success?
    ensures var (t, dto) := Adjust(s, req, now).value;
      var k := FindProduct(s.products, req.productId).value;
      var p := s.products[k];
      && t.categories == s.categories && t.orders == s.orders && t.orderItems == s.orderItems
      && t.products == s.products[k := p.(stock := p.stock + req.quantityChange)]
      && ProductIds(t.products) == ProductIds(s.products)
      && t.ledger == s.ledger + [LedgerEntry(s.nextLedgerId, req.productId, req.quantityChange, now, req.reason)]
      && dto == TransactionDto(s.nextLedgerId, req.productId, p.name, p.sku, req.quantityChange, now, req.reason)
      && dto == ToTransactionDto(t, t.ledger[|s.ledger|])
      && StockOf(t.products, req.productId) == StockOf(s.products, req.productId) + req.quantityChange
      && LedgerSum(t.ledger, req.productId) == LedgerSum(s.ledger, req.productId) + req.quantityChange
      && (other != req.productId ==>
            StockOf(t.products, other) == StockOf(s.products, other)
            && LedgerSum(t.ledger, other) == LedgerSum(s.ledger, other))
  {
    var k := FindProduct(s.products, req.productId).value;
    var p := s.products[k];
    var t := Adjust(s, req, now).value.0;
    ReplaceProductKeepsIds(s.products, k, t.products[k]);
    var entry := LedgerEntry(s.nextLedgerId, req.productId, req.quantityChange, now, req.reason);
    LedgerSumAppend(s.ledger, entry, req.productId);
    LedgerSumAppend(s.ledger, entry, other);
  }

  /** An accepted adjustment keeps the database consistent; in particular no stock goes negative. */
  lemma AdjustPreservesValid(s: Store, req: AdjustmentRequest, now: Timestamp)
    requires Valid(s)
    requires Adjust(s, req, now).Success?
    ensures Valid(Adjust(s, req, now).value.0)
  {
    var k := FindProduct(s.products, req.productId).value;
    var p := s.products[k];
    var entry := LedgerEntry(s.nextLedgerId, req.productId, req.quantityChange, now, req.reason);
    var p' := p.(stock := p.stock + req.quantityChange);
    StockMovePreservesValid(s, k, p', entry);
    var moved := s.(products := s.products[k := p'], ledger := s.ledger + [entry]);
    assert Adjust(s, req, now).value.0 == moved.(nextLedgerId := s.nextLedgerId + 1);
    assert KeysFresh(moved) && ReferencesResolve(moved) && StockReconciled(moved) && SkusUnique(moved.products);
  }

  class InventoryService {
    const uow: UnitOfWork

    constructor (uow: UnitOfWork)
      ensures this.uow == uow
    {
      this.uow := uow;
    }

    /**
     * AdjustInventoryAsync. The checks run before the transaction starts; storageFails
     * stands for a failing commit, after which the transaction is rolled back.
     */
    method AdjustInventory(req: AdjustmentRequest, now: Timestamp, storageFails: bool)
      returns (r: Result<TransactionDto, Error>)
      requires uow.Idle()
      modifies uow
      ensures uow.Idle()
      ensures Adjust(old(uow.database), req, now).Failure? ==>
        r == Failure(Adjust(old(uow.database), req, now).error) && uow.database == old(uow.database)
      ensures Adjust(old(uow.database), req, now).Success? && storageFails ==>
        r == Failure(TransactionFailure) && uow.database == old(uow.database)
      ensures Adjust(old(uow.database), req, now).Success? && !storageFails ==>
        r == Success(Adjust(old(uow.database), req, now).value.1)
        && uow.database == Adjust(old(uow.database), req, now).value.0
    {
      var found := FindProduct(uow.context.products, req.productId);
      if found.None? {
        return Failure(ProductNotFound(req.productId));
      }
      var k := found.value;
      var product := uow.context.products[k];
      var newQuantity := product.stock + req.quantityChange;
      if newQuantity < 0 {
        return Failure(NegativeStock(product.stock, req.quantityChange));
      }

      uow.BeginTransaction();
      product := product.(stock := newQuantity);
      uow.context := uow.context.(products := uow.context.products[k := product]);
      var entry := LedgerEntry(uow.context.nextLedgerId, req.productId, req.quantityChange, now, req.reason);
      uow.context := uow.context.(ledger := uow.context.ledger + [entry], nextLedgerId := uow.context.nextLedgerId + 1);
      var ok := uow.CommitTransaction(storageFails);
      if !ok {
        uow.RollbackTransaction();
        return Failure(TransactionFailure);
      }
      r := Success(TransactionDto(entry.id, entry.productId, product.name, product.sku, entry.quantityChange, now, req.reason));
    }
  }

  // ------------------------------------------------------------ the transaction history

  function TimestampKey(e: LedgerEntry): Key { Num(e.timestamp) }

  /** The optional product filter of GetTransactionsAsync, in table order. */
  function EntriesFor(ledger: seq<LedgerEntry>, productId: Option<int>): (r: seq<LedgerEntry>)
    ensures |r| <= |ledger|
    ensures forall k :: 0 <= k < |r| ==> r[k] in ledger && (productId.Some? ==> r[k].productId == productId.value)
    ensures forall k :: 0 <= k < |ledger| && (productId.Some? ==> ledger[k].productId == productId.value) ==> ledger[k] in r
  {
    if ledger == [] then []
    else
      var rest := EntriesFor(ledger[1..], productId);
      assert forall k :: 1 <= k < |ledger| ==> ledger[k] == ledger[1..][k - 1];
      if productId.None? || ledger[0].productId == productId.value then [ledger[0]] + rest else rest
  }


  /** GetTransactionsAsync: newest first, one page, with product name and SKU. */
  function GetTransactions(s: Store, page: int, pageSize: int, productId: Option<int>): (r: PagedResult<TransactionDto>)
    ensures r.totalCount == |EntriesFor(s.ledger, productId)|
    ensures productId.None? ==> r.totalCount == |s.ledger|
    ensures r.page == page && r.pageSize == pageSize
    ensures 0 <= pageSize ==> |r.items| <= pageSize
    ensures |r.items| == pageSize || Offset(page, pageSize) + |r.items| >= r.totalCount
  {
    EntriesForAll(s.ledger);
    var matching := EntriesFor(s.ledger, productId);
    var sorted := SortBy(matching, TimestampKey, true);
    assert |sorted| == |multiset(sorted)| == |matching|;
    var rows := Page(sorted, page, pageSize);
    PagedResult(seq(|rows|, k requires 0 <= k < |rows| => ToTransactionDto(s, rows[k])), |matching|, page, pageSize)
  }

  lemma {:induction false} EntriesForAll(ledger: seq<LedgerEntry>)
    ensures EntriesFor(ledger, None) == ledger
  {
    if ledger != [] {
      EntriesForAll(ledger[1..]);
      assert [ledger[0]] + ledger[1..] == ledger;
    }
  }

  /** Every listed row is a stored ledger entry, of the filtered product when one is given. */
  lemma TransactionsAreStored(s: Store, page: int, pageSize: int, productId: Option<int>, k: nat)
    requires k < |GetTransactions(s, page, pageSize, productId).items|
    ensures var row := GetTransactions(s, page, pageSize, productId).items[k];
      && (exists e :: e in s.ledger && row == ToTransactionDto(s, e))
      && (productId.Some? ==> row.productId == productId.value)
  {
    var matching := EntriesFor(s.ledger, productId);
    var sorted := SortBy(matching, TimestampKey, true);
    var rows := Page(sorted, page, pageSize);
    assert GetTransactions(s, page, pageSize, productId).items[k] == ToTransactionDto(s, rows[k]);
    assert rows[k] in multiset(sorted);
    assert rows[k] in multiset(matching);
  }

  /** The history lists the newest entries first. */
  lemma TransactionsNewestFirst(s: Store, page: int, pageSize: int, productId: Option<int>)
    ensures var r := GetTransactions(s, page, pageSize, productId);
      forall i, j :: 0 <= i < j < |r.items| ==> r.items[i].timestamp >= r.items[j].timestamp
  {
    var matching := EntriesFor(s.ledger, productId);
    var sorted := SortBy(matching, TimestampKey, true);
    var rows := Page(sorted, page, pageSize);
    var r := GetTransactions(s, page, pageSize, productId);
    SortBySorted(matching, TimestampKey, true);
    PageIsSlice(sorted, page, pageSize);
    if rows != [] {
      var off := Offset(page, pageSize);
      SortedSlice(sorted, TimestampKey, true, off, off + |rows|);
    }
    forall i, j | 0 <= i < j < |r.items|
      ensures r.items[i].timestamp >= r.items[j].timestamp
    {
      assert Before(TimestampKey(rows[i]), TimestampKey(rows[j]), true);
      assert r.items[i] == ToTransactionDto(s, rows[i]) && r.items[j] == ToTransactionDto(s, rows[j]);
    }
  }
}
