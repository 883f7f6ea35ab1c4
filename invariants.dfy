/**
 * The consistency the services keep between requests: unique, increasing keys,
 * unique SKUs, references that resolve, and the central ledger invariant that a
 * product's stock is never negative and equals the sum of its ledger changes.
 */
module Invariants {
  import opened Domain

  predicate KeysFresh(s: Store)
  {
    && StrictlyAscending(CategoryIds(s.categories)) && AllBelow(CategoryIds(s.categories), s.nextCategoryId)
    && StrictlyAscending(ProductIds(s.products)) && AllBelow(ProductIds(s.products), s.nextProductId)
    && StrictlyAscending(OrderIds(s.orders)) && AllBelow(OrderIds(s.orders), s.nextOrderId)
  }

  /** The unique index on Product.SKU. */
  predicate SkusUnique(ps: seq<Product>)
  {
    forall i, j :: 0 <= i < j < |ps| ==> ps[i].sku != ps[j].sku
  }

  /** The unique index on Category.Name. */
  predicate CategoryNamesUnique(cs: seq<Category>)
  {
    forall i, j :: 0 <= i < j < |cs| ==> cs[i].name != cs[j].name
  }

  /** Every foreign key names an existing row. */
  predicate ReferencesResolve(s: Store)
  {
    && (forall k :: 0 <= k < |s.products| ==> s.products[k].categoryId in CategoryIds(s.categories))
    && (forall k :: 0 <= k < |s.ledger| ==> s.ledger[k].productId in ProductIds(s.products))
    && (forall k :: 0 <= k < |s.orderItems| ==>
          s.orderItems[k].orderId in OrderIds(s.orders) && s.orderItems[k].productId in ProductIds(s.products))
  }

  /** Stock is never negative and always equals the product's ledger sum. */
  predicate StockReconciled(s: Store)
  {
    forall k :: 0 <= k < |s.products| ==>
      0 <= s.products[k].stock && s.products[k].stock == LedgerSum(s.ledger, s.products[k].id)
  }

  predicate Valid(s: Store)
  {
    KeysFresh(s) && SkusUnique(s.products) && CategoryNamesUnique(s.categories) && ReferencesResolve(s) && StockReconciled(s)
  }

  /** The ledger and item key counters play no part in consistency. */
  lemma CountersFree(s: Store, nextLedgerId: int, nextItemId: int)
    requires Valid(s)
    ensures Valid(s.(nextLedgerId := nextLedgerId, nextItemId := nextItemId))
  {
  }

  /** The empty database is consistent. */
  lemma EmptyStoreValid()
    ensures Valid(EmptyStore())
  {
  }

  /** The stock of the product with a given id (0 when there is none). */
  function StockOf(ps: seq<Product>, id: int): int
  {
    match FindProduct(ps, id)
    case None => 0
    case Some(k) => ps[k].stock
  }

  /** The price of the product with a given id (0 when there is none). */
  function PriceOf(ps: seq<Product>, id: int): Money
  {
    match FindProduct(ps, id)
    case None => 0
    case Some(k) => ps[k].price
  }

  /** In a consistent store, the product found by id has the ledger's balance as its stock. */
  lemma StockIsLedgerBalance(s: Store, id: int)
    requires Valid(s) && id in ProductIds(s.products)
    ensures StockOf(s.products, id) == LedgerSum(s.ledger, id) >= 0
  {
  }

  /** Replacing one product by a version with the same key keeps every key lookup. */
  lemma ReplaceProductKeepsIds(ps: seq<Product>, k: nat, p: Product)
    requires k < |ps| && p.id == ps[k].id
    ensures ProductIds(ps[k := p]) == ProductIds(ps)
  {
  }

  /**
   * Replacing product k by a version with the same key, SKU and category, changing its
   * stock by delta and appending one ledger entry of that product with that change,
   * keeps the store consistent provided the new stock is not negative.
   */
  lemma {:induction false} StockMovePreservesValid(s: Store, k: nat, p: Product, e: LedgerEntry)
    requires Valid(s) && k < |s.products|
    requires p.id == s.products[k].id && p.sku == s.products[k].sku && p.categoryId == s.products[k].categoryId
    requires p.stock == s.products[k].stock + e.quantityChange && p.stock >= 0
    requires e.productId == p.id
    ensures Valid(s.(products := s.products[k := p], ledger := s.ledger + [e]))
  {
    var t := s.(products := s.products[k := p], ledger := s.ledger + [e]);
    ReplaceProductKeepsIds(s.products, k, p);
    forall j | 0 <= j < |t.products|
      ensures 0 <= t.products[j].stock && t.products[j].stock == LedgerSum(t.ledger, t.products[j].id)
    {
      LedgerSumAppend(s.ledger, e, t.products[j].id);
    }
    assert ReferencesResolve(t);
  }
}
