/**
 * The persisted entities (the classes under Models) and the whole database as one value.
 *
 * Prices and totals are decimal(18,2) in the source; here they are whole cents.
 * Timestamps (DateTime.UtcNow) are whole seconds handed in by the caller.
 * Every table keeps its rows in insertion order, and each table has its own
 * counter for the next key, as SQLite hands out row ids.
 */
module Domain {
  import opened Wrappers

  /** An amount of money in cents. */
  type Money = int
  /** A point in time in seconds. */
  type Timestamp = int

  datatype Category = Category(id: int, name: string)

  datatype Product = Product(
    id: int,
    sku: string,
    name: string,
    description: string,
    price: Money,
    stock: int,         // QuantityInStock
    categoryId: int)

  /** One row of the stock ledger (InventoryTransaction). */
  datatype LedgerEntry = LedgerEntry(
    id: int,
    productId: int,
    quantityChange: int,
    timestamp: Timestamp,
    reason: string)

  datatype Order = Order(id: int, createdAt: Timestamp, total: Money)

  datatype OrderItem = OrderItem(
    id: int,
    orderId: int,
    productId: int,
    quantity: int,
    unitPrice: Money)

  /** The line amount an order item contributes to its order's total. */
  function Subtotal(item: OrderItem): Money
  {
    item.quantity * item.unitPrice
  }

  /** The sum of the subtotals of a sequence of order items. */
  function ItemsTotal(items: seq<OrderItem>): Money
  {
    if items == [] then 0 else Subtotal(items[0]) + ItemsTotal(items[1..])
  }

  /** The database: one sequence per table and the next key of each table. */
  datatype Store = Store(
    categories: seq<Category>,
    products: seq<Product>,
    ledger: seq<LedgerEntry>,
    orders: seq<Order>,
    orderItems: seq<OrderItem>,
    nextCategoryId: int,
    nextProductId: int,
    nextLedgerId: int,
    nextOrderId: int,
    nextItemId: int)

  /** A freshly created database: no rows, every key counter at 1. */
  function EmptyStore(): Store
  {
    Store([], [], [], [], [], 1, 1, 1, 1, 1)
  }

  /** The errors the services raise as InvalidOperationException, plus a failed commit. */
  datatype Error =
    | ProductNotFound(productId: int)
    | NegativeStock(current: int, change: int)
    | EmptyOrder
    | InsufficientStock(productId: int, available: int, requested: int)
    | DuplicateSku(sku: string)
    | CategoryNotFound(categoryId: int)
    | DuplicateCategoryName(name: string)
    | TransactionFailure

  // ---------------------------------------------------------------- keys

  function CategoryIds(cs: seq<Category>): (ids: seq<int>)
    ensures |ids| == |cs| && forall k :: 0 <= k < |cs| ==> ids[k] == cs[k].id
  {
    seq(|cs|, k requires 0 <= k < |cs| => cs[k].id)
  }

  function ProductIds(ps: seq<Product>): (ids: seq<int>)
    ensures |ids| == |ps| && forall k :: 0 <= k < |ps| ==> ids[k] == ps[k].id
  {
    seq(|ps|, k requires 0 <= k < |ps| => ps[k].id)
  }

  function OrderIds(os: seq<Order>): (ids: seq<int>)
    ensures |ids| == |os| && forall k :: 0 <= k < |os| ==> ids[k] == os[k].id
  {
    seq(|os|, k requires 0 <= k < |os| => os[k].id)
  }

  /** The first position of x in xs (a primary-key lookup, FindAsync). */
  function IndexOf(xs: seq<int>, x: int): (r: Option<nat>)
    ensures r.None? <==> x !in xs
    ensures r.Some? ==> r.value < |xs| && xs[r.value] == x && x !in xs[..r.value]
  {
    if xs == [] then None
    else if xs[0] == x then Some(0)
    else
      match IndexOf(xs[1..], x)
      case None => None
      case Some(k) => assert xs[..k + 1] == [xs[0]] + xs[1..][..k]; Some(k + 1)
  }

  function FindCategory(cs: seq<Category>, id: int): (r: Option<nat>)
    ensures r.None? <==> id !in CategoryIds(cs)
    ensures r.Some? ==> r.value < |cs| && cs[r.value].id == id
  {
    IndexOf(CategoryIds(cs), id)
  }

  function FindProduct(ps: seq<Product>, id: int): (r: Option<nat>)
    ensures r.None? <==> id !in ProductIds(ps)
    ensures r.Some? ==> r.value < |ps| && ps[r.value].id == id
  {
    IndexOf(ProductIds(ps), id)
  }

  function FindOrder(os: seq<Order>, id: int): (r: Option<nat>)
    ensures r.None? <==> id !in OrderIds(os)
    ensures r.Some? ==> r.value < |os| && os[r.value].id == id
  {
    IndexOf(OrderIds(os), id)
  }

  /** Keys that only grow: every key is unique and the position orders them. */
  predicate StrictlyAscending(xs: seq<int>)
  {
    forall i, j :: 0 <= i < j < |xs| ==> xs[i] < xs[j]
  }

  predicate AllBelow(xs: seq<int>, bound: int)
  {
    forall k :: 0 <= k < |xs| ==> xs[k] < bound
  }

  /** In a table with unique keys, the row with key x is the only one. */
  lemma AscendingKeyIsUnique(xs: seq<int>, i: nat, j: nat)
    requires StrictlyAscending(xs) && i < |xs| && j < |xs| && xs[i] == xs[j]
    ensures i == j
  {
  }

  /** Handing out the next key keeps the keys ascending and below the counter. */
  lemma AppendNextKey(xs: seq<int>, next: int)
    requires StrictlyAscending(xs) && AllBelow(xs, next)
    ensures StrictlyAscending(xs + [next]) && AllBelow(xs + [next], next + 1)
  {
  }

  /** Removing a key keeps the keys ascending and below the counter. */
  lemma RemoveKeyKeepsFresh(xs: seq<int>, i: nat, next: int)
    requires StrictlyAscending(xs) && AllBelow(xs, next) && i < |xs|
    ensures StrictlyAscending(xs[..i] + xs[i + 1..]) && AllBelow(xs[..i] + xs[i + 1..], next)
  {
    var r := xs[..i] + xs[i + 1..];
    forall a, b | 0 <= a < b < |r|
      ensures r[a] < r[b]
    {
      var a' := if a < i then a else a + 1;
      var b' := if b < i then b else b + 1;
      assert r[a] == xs[a'] && r[b] == xs[b'];
    }
  }

  // ---------------------------------------------------------------- ledger

  /** The sum of the QuantityChange of the ledger entries of one product. */
  function LedgerSum(ledger: seq<LedgerEntry>, productId: int): int
  {
    if ledger == [] then 0
    else
      var last := ledger[|ledger| - 1];
      LedgerSum(ledger[..|ledger| - 1], productId)
        + (if last.productId == productId then last.quantityChange else 0)
  }

  /** Appending one entry moves only its own product's sum, by its change. */
  lemma LedgerSumAppend(ledger: seq<LedgerEntry>, e: LedgerEntry, productId: int)
    ensures LedgerSum(ledger + [e], productId)
         == LedgerSum(ledger, productId) + (if e.productId == productId then e.quantityChange else 0)
  {
    assert (ledger + [e])[..|ledger|] == ledger;
  }

  /** The sum over two stretches of the ledger is the sum of the sums. */
  lemma {:induction false} LedgerSumConcat(a: seq<LedgerEntry>, b: seq<LedgerEntry>, productId: int)
    ensures LedgerSum(a + b, productId) == LedgerSum(a, productId) + LedgerSum(b, productId)
  {
    if b == [] {
      assert a + b == a;
    } else {
      var b' := b[..|b| - 1];
      LedgerSumConcat(a, b', productId);
      assert (a + b)[..|a + b| - 1] == a + b';
    }
  }

  /** A product no entry names has a ledger sum of zero. */
  lemma {:induction false} LedgerSumUnnamed(ledger: seq<LedgerEntry>, productId: int)
    requires forall k :: 0 <= k < |ledger| ==> ledger[k].productId != productId
    ensures LedgerSum(ledger, productId) == 0
  {
    if ledger != [] {
      LedgerSumUnnamed(ledger[..|ledger| - 1], productId);
    }
  }

  /** The ledger without the entries of one product (the cascade of a product delete). */
  function EntriesExcept(ledger: seq<LedgerEntry>, productId: int): (r: seq<LedgerEntry>)
    ensures |r| <= |ledger|
    ensures forall k :: 0 <= k < |r| ==> r[k].productId != productId
    ensures forall k :: 0 <= k < |r| ==> r[k] in ledger
    ensures forall k :: 0 <= k < |ledger| && ledger[k].productId != productId ==> ledger[k] in r
  {
    if ledger == [] then []
    else
      var last := ledger[|ledger| - 1];
      var rest := EntriesExcept(ledger[..|ledger| - 1], productId);
      if last.productId == productId then rest else rest + [last]
  }

  /** Dropping one product's entries leaves every other product's sum as it was. */
  lemma {:induction false} LedgerSumExcept(ledger: seq<LedgerEntry>, removed: int, productId: int)
    requires productId != removed
    ensures LedgerSum(EntriesExcept(ledger, removed), productId) == LedgerSum(ledger, productId)
  {
    if ledger != [] {
      var last := ledger[|ledger| - 1];
      LedgerSumExcept(ledger[..|ledger| - 1], removed, productId);
      if last.productId != removed {
        LedgerSumAppend(EntriesExcept(ledger[..|ledger| - 1], removed), last, productId);
      }
    }
  }

  /**
   * The cascade filters the ledger row by row and keeps the survivors in order: filtering
   * two stretches one after the other is filtering their concatenation.
   */
  lemma {:induction false} EntriesExceptConcat(a: seq<LedgerEntry>, b: seq<LedgerEntry>, productId: int)
    ensures EntriesExcept(a + b, productId) == EntriesExcept(a, productId) + EntriesExcept(b, productId)
  {
    if b == [] {
      assert a + b == a;
    } else {
      var b' := b[..|b| - 1];
      EntriesExceptConcat(a, b', productId);
      assert (a + b)[..|a + b| - 1] == a + b';
    }
  }

  /** The order items without those of one product (the cascade of a product delete). */
  function ItemsExcept(items: seq<OrderItem>, productId: int): (r: seq<OrderItem>)
    ensures |r| <= |items|
    ensures forall k :: 0 <= k < |r| ==> r[k].productId != productId
    ensures forall k :: 0 <= k < |r| ==> r[k] in items
    ensures forall k :: 0 <= k < |items| && items[k].productId != productId ==> items[k] in r
  {
    if items == [] then []
    else if items[0].productId == productId then ItemsExcept(items[1..], productId)
    else [items[0]] + ItemsExcept(items[1..], productId)
  }

  /** The item cascade likewise keeps the surviving items in their order. */
  lemma {:induction false} ItemsExceptConcat(a: seq<OrderItem>, b: seq<OrderItem>, productId: int)
    ensures ItemsExcept(a + b, productId) == ItemsExcept(a, productId) + ItemsExcept(b, productId)
  {
    if a == [] {
      assert a + b == b;
    } else {
      var rest := ItemsExcept(a[1..] + b, productId);
      assert (a + b)[0] == a[0] && (a + b)[1..] == a[1..] + b;
      assert ItemsExcept(a + b, productId) == (if a[0].productId == productId then rest else [a[0]] + rest);
      ItemsExceptConcat(a[1..], b, productId);
    }
  }

  /** The items of one order, in the order they were added. */
  function ItemsOf(items: seq<OrderItem>, orderId: int): (r: seq<OrderItem>)
    ensures |r| <= |items|
    ensures forall k :: 0 <= k < |r| ==> r[k].orderId == orderId
  {
    if items == [] then []
    else if items[0].orderId == orderId then [items[0]] + ItemsOf(items[1..], orderId)
    else ItemsOf(items[1..], orderId)
  }

  /** ItemsOf invents nothing: whatever it returns is one of the stored items. */
  lemma {:induction false} ItemsOfSound(items: seq<OrderItem>, orderId: int, k: nat)
    requires k < |ItemsOf(items, orderId)|
    ensures ItemsOf(items, orderId)[k] in items
  {
    if items[0].orderId == orderId {
      if k > 0 {
        ItemsOfSound(items[1..], orderId, k - 1);
      }
    } else {
      ItemsOfSound(items[1..], orderId, k);
    }
  }

  /** Every item of a given order is found by ItemsOf. */
  lemma {:induction false} ItemsOfComplete(items: seq<OrderItem>, orderId: int, k: nat)
    requires k < |items| && items[k].orderId == orderId
    ensures items[k] in ItemsOf(items, orderId)
  {
    if k > 0 {
      ItemsOfComplete(items[1..], orderId, k - 1);
    }
  }

  /** ItemsOf looks at the first item, then at the rest. */
  lemma ItemsOfCons(x: OrderItem, xs: seq<OrderItem>, orderId: int)
    ensures ItemsOf([x] + xs, orderId) == (if x.orderId == orderId then [x] else []) + ItemsOf(xs, orderId)
  {
    assert ([x] + xs)[0] == x && ([x] + xs)[1..] == xs;
    if x.orderId != orderId {
      assert [] + ItemsOf(xs, orderId) == ItemsOf(xs, orderId);
    }
  }

  /** The items of an order in two stretches of the table are those of each, in order. */
  lemma {:induction false} ItemsOfConcat(a: seq<OrderItem>, b: seq<OrderItem>, orderId: int)
    ensures ItemsOf(a + b, orderId) == ItemsOf(a, orderId) + ItemsOf(b, orderId)
  {
    if a == [] {
      assert a + b == b;
    } else {
      var x, xs := a[0], a[1..];
      assert a == [x] + xs && a + b == [x] + (xs + b);
      ItemsOfCons(x, xs + b, orderId);
      ItemsOfCons(x, xs, orderId);
      ItemsOfConcat(xs, b, orderId);
      var head := if x.orderId == orderId then [x] else [];
      assert head + (ItemsOf(xs, orderId) + ItemsOf(b, orderId))
          == (head + ItemsOf(xs, orderId)) + ItemsOf(b, orderId);
    }
  }

  /** When every item belongs to the order, ItemsOf keeps them all. */
  lemma {:induction false} ItemsOfAll(items: seq<OrderItem>, orderId: int)
    requires forall k :: 0 <= k < |items| ==> items[k].orderId == orderId
    ensures ItemsOf(items, orderId) == items
  {
    if items != [] {
      ItemsOfAll(items[1..], orderId);
    }
  }

  /** When no item belongs to the order, ItemsOf is empty. */
  lemma {:induction false} ItemsOfNone(items: seq<OrderItem>, orderId: int)
    requires forall k :: 0 <= k < |items| ==> items[k].orderId != orderId
    ensures ItemsOf(items, orderId) == []
  {
    if items != [] {
      ItemsOfNone(items[1..], orderId);
    }
  }

  /** The number of products filed under a category (Category.Products.Count). */
  function ProductCount(ps: seq<Product>, categoryId: int): (n: nat)
    ensures n <= |ps|
    ensures n == 0 <==> forall k :: 0 <= k < |ps| ==> ps[k].categoryId != categoryId
  {
    if ps == [] then 0
    else (if ps[0].categoryId == categoryId then 1 else 0) + ProductCount(ps[1..], categoryId)
  }
}
