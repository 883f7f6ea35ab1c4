/**
 * OrderService: settling an order against live stock. The settlement runs inside one
 * transaction: create the order, then for each line in the caller's order check the
 * product and its stock, record the item at the current price, decrement the stock
 * and append a "Sale - Order #<id>" ledger entry; set the total and commit. Any
 * failure rolls the whole order back.
 *
 * Settle is the settlement as a function of the database; OrderService.CreateOrder
 * performs it step by step on the unit of work and is proved to agree with it.
 */
module OrderSettlement {
  import opened Wrappers
  import opened Text
  import opened Domain
  import opened Invariants
  import opened Dtos
  import opened Persistence
  import OrderRepository

  /** One requested line of an order (CreateOrderItemDto). */
  datatype Line = Line(productId: int, quantity: int)

  /** The reason written on the ledger entries of a sale. */
  function SaleReason(orderId: int): string
  {
    "Sale - Order #" + IntToString(orderId)
  }

  /** The reason names its order: two orders never share a reason. */
  lemma SaleReasonIdentifiesOrder(a: nat, b: nat)
    requires SaleReason(a) == SaleReason(b)
    ensures a == b
  {
    var n := |"Sale - Order #"|;
    assert SaleReason(a)[n..] == NatToString(a);
    assert SaleReason(b)[n..] == NatToString(b);
    NatToStringInjective(a, b);
  }

  // ------------------------------------------------------------ the settlement as a function

  /** One pass of the loop body: the line's product must exist and hold at least the quantity. */
  function SettleLine(s: Store, orderId: int, line: Line, now: Timestamp): Result<(Store, Money), Error>
  {
    match FindProduct(s.products, line.productId)
    case None => Failure(ProductNotFound(line.productId))
    case Some(k) =>
      var p := s.products[k];
      if p.stock < line.quantity then Failure(InsufficientStock(line.productId, p.stock, line.quantity))
      else Success((Served(s, orderId, k, line, now), Charge(s.products, line)))
  }

  /** What a line adds to the order total: its quantity at the product's current price. */
  function Charge(ps: seq<Product>, line: Line): Money
  {
    line.quantity * PriceOf(ps, line.productId)
  }

  /**
   * The state one served line leaves: the item at the product's current price, the stock
   * decrement and the "Sale" ledger entry.
   */
  function Served(s: Store, orderId: int, i: nat, line: Line, now: Timestamp): Store
    requires i < |s.products|
  {
    var p := s.products[i];
    s.(products := s.products[i := p.(stock := p.stock - line.quantity)],
       orderItems := s.orderItems + [OrderItem(s.nextItemId, orderId, line.productId, line.quantity, p.price)],
       nextItemId := s.nextItemId + 1,
       ledger := s.ledger + [LedgerEntry(s.nextLedgerId, p.id, -line.quantity, now, SaleReason(orderId))],
       nextLedgerId := s.nextLedgerId + 1)
  }

  /** SettleLine once the line's product has been found at position i. */
  lemma SettleLineAt(s: Store, orderId: int, line: Line, now: Timestamp, i: nat)
    requires FindProduct(s.products, line.productId) == Some(i)
    ensures SettleLine(s, orderId, line, now)
         == if s.products[i].stock < line.quantity
            then Failure(InsufficientStock(line.productId, s.products[i].stock, line.quantity))
            else Success((Served(s, orderId, i, line, now), Charge(s.products, line)))
  {
  }

  /** A line is served exactly when its product exists and holds at least the quantity asked. */
  lemma SettleLineSucceedsIff(s: Store, orderId: int, line: Line, now: Timestamp)
    ensures SettleLine(s, orderId, line, now).Success?
        <==> line.productId in ProductIds(s.products) && line.quantity <= StockOf(s.products, line.productId)
  {
  }

  /** The loop over the lines, in caller order, accumulating the total; the first failure ends it. */
  function SettleLines(s: Store, orderId: int, lines: seq<Line>, now: Timestamp, total: Money)
    : Result<(Store, Money), Error>
    decreases |lines|
  {
    if lines == [] then Success((s, total))
    else
      match SettleLine(s, orderId, lines[0], now)
      case Failure(e) => Failure(e)
      case Success((s', subtotal)) => SettleLines(s', orderId, lines[1..], now, total + subtotal)
  }

  /** The database once the empty order shell has been added and saved. */
  function Shell(s: Store, now: Timestamp): Store
  {
    s.(orders := s.orders + [Order(s.nextOrderId, now, 0)], nextOrderId := s.nextOrderId + 1)
  }

  /** CreateOrderAsync as a function: the settled database and the new order's id, or the error. */
  function Settle(s: Store, lines: seq<Line>, now: Timestamp): Result<(Store, int), Error>
  {
    if lines == [] then Failure(EmptyOrder)
    else
      var id := s.nextOrderId;
      match SettleLines(Shell(s, now), id, lines, now, 0)
      case Failure(e) => Failure(e)
      case Success((t, total)) => Success((t.(orders := s.orders + [Order(id, now, total)]), id))
  }

  // ------------------------------------------------------------ reference definitions

  /** The total quantity the lines ask of one product. */
  function Demand(lines: seq<Line>, productId: int): int
  {
    if lines == [] then 0
    else (if lines[0].productId == productId then lines[0].quantity else 0) + Demand(lines[1..], productId)
  }

  /** Each product's stock less everything the lines ask of it. */
  function AfterSale(ps: seq<Product>, lines: seq<Line>): (r: seq<Product>)
    ensures |r| == |ps|
  {
    seq(|ps|, k requires 0 <= k < |ps| => ps[k].(stock := ps[k].stock - Demand(lines, ps[k].id)))
  }

  /** One ledger entry per line: the line's product, minus its quantity, the sale reason. */
  function SaleEntries(orderId: int, lines: seq<Line>, now: Timestamp, firstId: int): (r: seq<LedgerEntry>)
    ensures |r| == |lines|
  {
    seq(|lines|, k requires 0 <= k < |lines| =>
      LedgerEntry(firstId + k, lines[k].productId, -lines[k].quantity, now, SaleReason(orderId)))
  }

  /** One order item per line, at the price the product has in ps. */
  function SaleItems(orderId: int, lines: seq<Line>, ps: seq<Product>, firstId: int): (r: seq<OrderItem>)
    ensures |r| == |lines|
  {
    seq(|lines|, k requires 0 <= k < |lines| =>
      OrderItem(firstId + k, orderId, lines[k].productId, lines[k].quantity, PriceOf(ps, lines[k].productId)))
  }

  /**
   * Whether line k can be served: its product exists, and its stock covers what this line
   * and the earlier lines for the same product ask for together.
   */
  predicate LineCovered(ps: seq<Product>, lines: seq<Line>, k: nat)
    requires k < |lines|
  {
    lines[k].productId in ProductIds(ps) && Demand(lines[..k + 1], lines[k].productId) <= StockOf(ps, lines[k].productId)
  }

  /**
   * Whether every line can be served. Repeated lines for one product are checked against
   * the stock the earlier ones left.
   */
  predicate Feasible(ps: seq<Product>, lines: seq<Line>)
  {
    forall k :: 0 <= k < |lines| ==> LineCovered(ps, lines, k)
  }

  // ------------------------------------------------------------ what a successful settlement does

  /** Taking q from the product at position i (the one its id finds) moves only that id's stock. */
  lemma StockAfterTake(ps: seq<Product>, i: nat, q: int, x: int)
    requires i < |ps| && FindProduct(ps, ps[i].id) == Some(i)
    ensures StockOf(ps[i := ps[i].(stock := ps[i].stock - q)], x) == StockOf(ps, x) - (if x == ps[i].id then q else 0)
  {
    ReplaceProductKeepsIds(ps, i, ps[i].(stock := ps[i].stock - q));
  }

  /** After the first line is served, the rest of the sale leaves the same stocks. */
  lemma AfterSaleStep(ps: seq<Product>, i: nat, lines: seq<Line>)
    requires StrictlyAscending(ProductIds(ps))
    requires lines != [] && FindProduct(ps, lines[0].productId) == Some(i)
    ensures AfterSale(ps[i := ps[i].(stock := ps[i].stock - lines[0].quantity)], lines[1..]) == AfterSale(ps, lines)
  {
    var ps1 := ps[i := ps[i].(stock := ps[i].stock - lines[0].quantity)];
    forall k | 0 <= k < |ps|
      ensures AfterSale(ps1, lines[1..])[k] == AfterSale(ps, lines)[k]
    {
      if k != i {
        assert ProductIds(ps)[k] != ProductIds(ps)[i];
      }
    }
  }

  /** The sale's entries are the first line's entry followed by the rest's. */
  lemma SaleEntriesStep(orderId: int, lines: seq<Line>, now: Timestamp, firstId: int)
    requires lines != []
    ensures SaleEntries(orderId, lines, now, firstId)
         == [LedgerEntry(firstId, lines[0].productId, -lines[0].quantity, now, SaleReason(orderId))]
            + SaleEntries(orderId, lines[1..], now, firstId + 1)
  {
    var reason := SaleReason(orderId);
    var a := SaleEntries(orderId, lines, now, firstId);
    var b := SaleEntries(orderId, lines[1..], now, firstId + 1);
    forall k | 0 <= k < |b|
      ensures b[k] == a[k + 1]
    {
      assert lines[1..][k] == lines[k + 1];
      assert b[k] == LedgerEntry(firstId + 1 + k, lines[k + 1].productId, -lines[k + 1].quantity, now, reason);
    }
    assert a[0] == LedgerEntry(firstId, lines[0].productId, -lines[0].quantity, now, reason);
    assert a == [a[0]] + b;
  }

  /** Appending the first line's entry and then the rest's is appending the sale's entries. */
  lemma AppendSaleEntriesStep(entries: seq<LedgerEntry>, orderId: int, lines: seq<Line>, now: Timestamp, firstId: int)
    requires lines != []
    ensures var first := LedgerEntry(firstId, lines[0].productId, -lines[0].quantity, now, SaleReason(orderId));
      (entries + [first]) + SaleEntries(orderId, lines[1..], now, firstId + 1)
        == entries + SaleEntries(orderId, lines, now, firstId)
  {
    var first := LedgerEntry(firstId, lines[0].productId, -lines[0].quantity, now, SaleReason(orderId));
    var rest := SaleEntries(orderId, lines[1..], now, firstId + 1);
    SaleEntriesStep(orderId, lines, now, firstId);
    assert (entries + [first]) + rest == entries + ([first] + rest);
  }

  /** Changing a product's stock changes no product's price. */
  lemma PriceAfterTake(ps: seq<Product>, i: nat, q: int, x: int)
    requires i < |ps|
    ensures PriceOf(ps[i := ps[i].(stock := q)], x) == PriceOf(ps, x)
  {
    ReplaceProductKeepsIds(ps, i, ps[i].(stock := q));
  }

  /** The items depend on the catalogue only through its prices. */
  lemma SaleItemsStep(orderId: int, lines: seq<Line>, ps: seq<Product>, i: nat, q: int, firstId: int)
    requires lines != [] && i < |ps|
    ensures var ps1 := ps[i := ps[i].(stock := q)];
      SaleItems(orderId, lines, ps, firstId)
         == [OrderItem(firstId, orderId, lines[0].productId, lines[0].quantity, PriceOf(ps, lines[0].productId))]
            + SaleItems(orderId, lines[1..], ps1, firstId + 1)
  {
    var ps1 := ps[i := ps[i].(stock := q)];
    var a := SaleItems(orderId, lines, ps, firstId);
    var b := SaleItems(orderId, lines[1..], ps1, firstId + 1);
    forall k | 0 <= k < |b|
      ensures b[k] == a[k + 1]
    {
      PriceAfterTake(ps, i, q, lines[k + 1].productId);
    }
    assert a == [a[0]] + b;
  }

  /** The database once every line of the sale has been served from s. */
  function Sold(s: Store, orderId: int, lines: seq<Line>, now: Timestamp): Store
  {
    s.(products := AfterSale(s.products, lines),
       ledger := s.ledger + SaleEntries(orderId, lines, now, s.nextLedgerId),
       orderItems := s.orderItems + SaleItems(orderId, lines, s.products, s.nextItemId),
       nextLedgerId := s.nextLedgerId + |lines|,
       nextItemId := s.nextItemId + |lines|)
  }

  /** Serving the first line and then the rest takes the same stock as serving them all... */
  lemma SoldStepStock(s: Store, orderId: int, lines: seq<Line>, now: Timestamp, i: nat)
    requires StrictlyAscending(ProductIds(s.products))
    requires lines != [] && FindProduct(s.products, lines[0].productId) == Some(i)
    ensures Sold(Served(s, orderId, i, lines[0], now), orderId, lines[1..], now).products
         == Sold(s, orderId, lines, now).products
  {
    AfterSaleStep(s.products, i, lines);
  }

  /** ...writes the same ledger entries... */
  lemma SoldStepLedger(s: Store, orderId: int, lines: seq<Line>, now: Timestamp, i: nat)
    requires lines != [] && FindProduct(s.products, lines[0].productId) == Some(i)
    ensures var s1 := Served(s, orderId, i, lines[0], now);
      s1.ledger + SaleEntries(orderId, lines[1..], now, s1.nextLedgerId)
        == s.ledger + SaleEntries(orderId, lines, now, s.nextLedgerId)
  {
    var s1 := Served(s, orderId, i, lines[0], now);
    var first := LedgerEntry(s.nextLedgerId, lines[0].productId, -lines[0].quantity, now, SaleReason(orderId));
    assert s1.ledger == s.ledger + [first] && s1.nextLedgerId == s.nextLedgerId + 1;
    AppendSaleEntriesStep(s.ledger, orderId, lines, now, s.nextLedgerId);
  }

  /** Appending the first line's item and then the rest's is appending the sale's items. */
  lemma AppendSaleItemsStep(items: seq<OrderItem>, orderId: int, lines: seq<Line>, ps: seq<Product>, i: nat, q: int, firstId: int)
    requires lines != [] && i < |ps|
    ensures var first := OrderItem(firstId, orderId, lines[0].productId, lines[0].quantity, PriceOf(ps, lines[0].productId));
      (items + [first]) + SaleItems(orderId, lines[1..], ps[i := ps[i].(stock := q)], firstId + 1)
        == items + SaleItems(orderId, lines, ps, firstId)
  {
    var first := OrderItem(firstId, orderId, lines[0].productId, lines[0].quantity, PriceOf(ps, lines[0].productId));
    var rest := SaleItems(orderId, lines[1..], ps[i := ps[i].(stock := q)], firstId + 1);
    SaleItemsStep(orderId, lines, ps, i, q, firstId);
    assert (items + [first]) + rest == items + ([first] + rest);
  }

  /** ...and records the same order items. */
  lemma SoldStepItems(s: Store, orderId: int, lines: seq<Line>, now: Timestamp, i: nat)
    requires lines != [] && FindProduct(s.products, lines[0].productId) == Some(i)
    ensures var s1 := Served(s, orderId, i, lines[0], now);
      s1.orderItems + SaleItems(orderId, lines[1..], s1.products, s1.nextItemId)
        == s.orderItems + SaleItems(orderId, lines, s.products, s.nextItemId)
  {
    var s1 := Served(s, orderId, i, lines[0], now);
    var q := s.products[i].stock - lines[0].quantity;
    assert PriceOf(s.products, lines[0].productId) == s.products[i].price;
    var first := OrderItem(s.nextItemId, orderId, lines[0].productId, lines[0].quantity, s.products[i].price);
    assert s1.orderItems == s.orderItems + [first];
    assert s1.products == s.products[i := s.products[i].(stock := q)];
    assert s1.nextItemId == s.nextItemId + 1;
    AppendSaleItemsStep(s.orderItems, orderId, lines, s.products, i, q, s.nextItemId);
  }

  /** Serving the first line and then the rest is serving them all. */
  lemma SoldStep(s: Store, orderId: int, lines: seq<Line>, now: Timestamp, i: nat)
    requires StrictlyAscending(ProductIds(s.products))
    requires lines != [] && FindProduct(s.products, lines[0].productId) == Some(i)
    ensures Sold(Served(s, orderId, i, lines[0], now), orderId, lines[1..], now) == Sold(s, orderId, lines, now)
  {
    SoldStepStock(s, orderId, lines, now, i);
    SoldStepLedger(s, orderId, lines, now, i);
    SoldStepItems(s, orderId, lines, now, i);
  }

  /** The first line's subtotal plus the total of the rest is the total of the sale's items. */
  lemma SaleItemsTotalStep(orderId: int, lines: seq<Line>, ps: seq<Product>, i: nat, q: int, firstId: int)
    requires lines != [] && i < |ps|
    ensures ItemsTotal(SaleItems(orderId, lines, ps, firstId))
         == Charge(ps, lines[0])
            + ItemsTotal(SaleItems(orderId, lines[1..], ps[i := ps[i].(stock := q)], firstId + 1))
  {
    var first := OrderItem(firstId, orderId, lines[0].productId, lines[0].quantity, PriceOf(ps, lines[0].productId));
    var rest := SaleItems(orderId, lines[1..], ps[i := ps[i].(stock := q)], firstId + 1);
    SaleItemsStep(orderId, lines, ps, i, q, firstId);
    assert ([first] + rest)[1..] == rest;
  }

  /** The loop's first pass: a failing line ends it, a served one hands on its state. */
  lemma SettleLinesStep(s: Store, orderId: int, lines: seq<Line>, now: Timestamp, total: Money)
    requires lines != []
    ensures SettleLine(s, orderId, lines[0], now).Failure? ==>
      SettleLines(s, orderId, lines, now, total) == Failure(SettleLine(s, orderId, lines[0], now).error)
    ensures SettleLine(s, orderId, lines[0], now).Success? ==>
      SettleLines(s, orderId, lines, now, total)
        == SettleLines(SettleLine(s, orderId, lines[0], now).value.0, orderId, lines[1..], now,
                       total + SettleLine(s, orderId, lines[0], now).value.1)
  {
  }

  lemma SoldNothing(s: Store, orderId: int, now: Timestamp)
    ensures Sold(s, orderId, [], now) == s
  {
    assert AfterSale(s.products, []) == s.products;
    assert SaleEntries(orderId, [], now, s.nextLedgerId) == [];
    assert SaleItems(orderId, [], s.products, s.nextItemId) == [];
  }

  /** A loop that completes found the product of its first line... */
  lemma SettleLinesFound(s: Store, orderId: int, lines: seq<Line>, now: Timestamp, total: Money)
    requires lines != [] && SettleLines(s, orderId, lines, now, total).Success?
    ensures FindProduct(s.products, lines[0].productId).Some?
  {
    SettleLinesStep(s, orderId, lines, now, total);
  }

  /** ...served that line from its stock, and then completed on the rest. */
  lemma SettleLinesHead(s: Store, orderId: int, lines: seq<Line>, now: Timestamp, total: Money, i: nat)
    requires lines != [] && SettleLines(s, orderId, lines, now, total).Success?
    requires FindProduct(s.products, lines[0].productId) == Some(i)
    ensures i < |s.products| && s.products[i].stock >= lines[0].quantity
    ensures SettleLines(s, orderId, lines, now, total)
         == SettleLines(Served(s, orderId, i, lines[0], now), orderId, lines[1..], now,
                        total + Charge(s.products, lines[0]))
  {
    SettleLinesStep(s, orderId, lines, now, total);
    SettleLineAt(s, orderId, lines[0], now, i);
  }

  /** The loop leaves the database with every line served. */
  lemma {:induction false} SettleLinesStore(s: Store, orderId: int, lines: seq<Line>, now: Timestamp, total: Money)
    requires StrictlyAscending(ProductIds(s.products))
    requires SettleLines(s, orderId, lines, now, total).Success?
    ensures SettleLines(s, orderId, lines, now, total).value.0 == Sold(s, orderId, lines, now)
    decreases |lines|
  {
    if lines == [] {
      SoldNothing(s, orderId, now);
    } else {
      SettleLinesFound(s, orderId, lines, now, total);
      var i := FindProduct(s.products, lines[0].productId).value;
      SettleLinesHead(s, orderId, lines, now, total, i);
      var s1 := Served(s, orderId, i, lines[0], now);
      ReplaceProductKeepsIds(s.products, i, s1.products[i]);
      SettleLinesStore(s1, orderId, lines[1..], now, total + Charge(s.products, lines[0]));
      SoldStep(s, orderId, lines, now, i);
    }
  }

  /** The loop's running total grows by the subtotal of every item it records. */
  lemma {:induction false} SettleLinesTotal(s: Store, orderId: int, lines: seq<Line>, now: Timestamp, total: Money)
    requires SettleLines(s, orderId, lines, now, total).Success?
    ensures SettleLines(s, orderId, lines, now, total).value.1
         == total + ItemsTotal(SaleItems(orderId, lines, s.products, s.nextItemId))
    decreases |lines|
  {
    if lines != [] {
      SettleLinesFound(s, orderId, lines, now, total);
      var i := FindProduct(s.products, lines[0].productId).value;
      SettleLinesHead(s, orderId, lines, now, total, i);
      var s1 := Served(s, orderId, i, lines[0], now);
      var q := s.products[i].stock - lines[0].quantity;
      var subtotal := Charge(s.products, lines[0]);
      var rest := SettleLines(s1, orderId, lines[1..], now, total + subtotal);
      assert SettleLines(s, orderId, lines, now, total) == rest;
      SettleLinesTotal(s1, orderId, lines[1..], now, total + subtotal);
      SaleItemsTotalStep(orderId, lines, s.products, i, q, s.nextItemId);
      assert s1.products == s.products[i := s.products[i].(stock := q)] && s1.nextItemId == s.nextItemId + 1;
    }
  }

  lemma SettleLinesEffect(s: Store, orderId: int, lines: seq<Line>, now: Timestamp, total: Money)
    requires StrictlyAscending(ProductIds(s.products))
    requires SettleLines(s, orderId, lines, now, total).Success?
    ensures SettleLines(s, orderId, lines, now, total).value ==
      (Sold(s, orderId, lines, now), total + ItemsTotal(SaleItems(orderId, lines, s.products, s.nextItemId)))
  {
    SettleLinesStore(s, orderId, lines, now, total);
    SettleLinesTotal(s, orderId, lines, now, total);
  }

  /**
   * A successful settlement adds one order whose total is the sum of quantity times unit
   * price over its lines; each line becomes one item at the product's price at settlement
   * time and one ledger entry of minus its quantity with reason "Sale - Order #<id>"; every
   * product's stock drops by exactly what the lines ask of it, and nothing else changes.
   */
  lemma SettleEffect(s: Store, lines: seq<Line>, now: Timestamp)
    requires StrictlyAscending(ProductIds(s.products))
    requires Settle(s, lines, now).Success?
    ensures var id := s.nextOrderId;
      var items := SaleItems(id, lines, s.products, s.nextItemId);
      Settle(s, lines, now).value ==
        (s.(products := AfterSale(s.products, lines),
            ledger := s.ledger + SaleEntries(id, lines, now, s.nextLedgerId),
            orderItems := s.orderItems + items,
            orders := s.orders + [Order(id, now, ItemsTotal(items))],
            nextOrderId := id + 1,
            nextLedgerId := s.nextLedgerId + |lines|,
            nextItemId := s.nextItemId + |lines|),
         id)
  {
    SettleLinesEffect(Shell(s, now), s.nextOrderId, lines, now, 0);
  }

  /** Serving the first line leaves each later line exactly as covered as it was. */
  lemma LineCoveredStep(ps: seq<Product>, i: nat, lines: seq<Line>, k: nat)
    requires lines != [] && FindProduct(ps, lines[0].productId) == Some(i)
    requires k + 1 < |lines|
    ensures LineCovered(ps, lines, k + 1)
        <==> LineCovered(ps[i := ps[i].(stock := ps[i].stock - lines[0].quantity)], lines[1..], k)
  {
    var q := lines[0].quantity;
    var ps1 := ps[i := ps[i].(stock := ps[i].stock - q)];
    var rest := lines[1..];
    ReplaceProductKeepsIds(ps, i, ps1[i]);
    assert lines[..k + 2][1..] == rest[..k + 1];
    assert rest[k] == lines[k + 1];
    StockAfterTake(ps, i, q, rest[k].productId);
  }

  lemma FeasibleStep(ps: seq<Product>, i: nat, lines: seq<Line>)
    requires lines != [] && FindProduct(ps, lines[0].productId) == Some(i)
    requires ps[i].stock >= lines[0].quantity
    ensures Feasible(ps, lines) <==>
      Feasible(ps[i := ps[i].(stock := ps[i].stock - lines[0].quantity)], lines[1..])
  {
    var ps1 := ps[i := ps[i].(stock := ps[i].stock - lines[0].quantity)];
    var rest := lines[1..];
    assert LineCovered(ps, lines, 0) by {
      assert lines[..1] == [lines[0]];
    }
    forall k | 0 <= k < |rest|
      ensures LineCovered(ps, lines, k + 1) <==> LineCovered(ps1, rest, k)
    {
      LineCoveredStep(ps, i, lines, k);
    }
    if Feasible(ps1, rest) {
      forall k | 0 <= k < |lines|
        ensures LineCovered(ps, lines, k)
      {
        if k > 0 {
          assert LineCovered(ps1, rest, k - 1);
        }
      }
    }
  }

  /** A feasible sale can serve its first line. */
  lemma FeasibleHead(ps: seq<Product>, lines: seq<Line>)
    requires lines != [] && Feasible(ps, lines)
    ensures lines[0].productId in ProductIds(ps) && lines[0].quantity <= StockOf(ps, lines[0].productId)
  {
    assert LineCovered(ps, lines, 0);
    assert lines[..1] == [lines[0]];
    assert Demand([lines[0]], lines[0].productId) == lines[0].quantity;
  }

  /** If the rest of a sale is feasible once its first line is served, so is the whole sale. */
  lemma FeasibleAfterServed(s: Store, orderId: int, i: nat, lines: seq<Line>, now: Timestamp)
    requires lines != [] && FindProduct(s.products, lines[0].productId) == Some(i)
    requires s.products[i].stock >= lines[0].quantity
    requires Feasible(Served(s, orderId, i, lines[0], now).products, lines[1..])
    ensures Feasible(s.products, lines)
  {
    FeasibleStep(s.products, i, lines);
  }

  /** The loop only completes when every line could be served. */
  lemma {:induction false} SettledLinesFeasible(s: Store, orderId: int, lines: seq<Line>, now: Timestamp, total: Money)
    requires SettleLines(s, orderId, lines, now, total).Success?
    ensures Feasible(s.products, lines)
    decreases |lines|
  {
    if lines != [] {
      SettleLinesFound(s, orderId, lines, now, total);
      var i := FindProduct(s.products, lines[0].productId).value;
      SettleLinesHead(s, orderId, lines, now, total, i);
      var s1 := Served(s, orderId, i, lines[0], now);
      SettledLinesFeasible(s1, orderId, lines[1..], now, total + Charge(s.products, lines[0]));
      FeasibleAfterServed(s, orderId, i, lines, now);
    }
  }

  /** A feasible sale can serve its first line, and what remains is feasible afterwards. */
  lemma FeasibleServes(s: Store, orderId: int, lines: seq<Line>, now: Timestamp, i: nat)
    requires lines != [] && Feasible(s.products, lines)
    requires FindProduct(s.products, lines[0].productId) == Some(i)
    ensures s.products[i].stock >= lines[0].quantity
    ensures Feasible(Served(s, orderId, i, lines[0], now).products, lines[1..])
  {
    FeasibleHead(s.products, lines);
    FeasibleStep(s.products, i, lines);
    assert Served(s, orderId, i, lines[0], now).products
        == s.products[i := s.products[i].(stock := s.products[i].stock - lines[0].quantity)];
  }

  /** When the first line can be served, the loop goes on from the served state. */
  lemma SettleLinesServedStep(s: Store, orderId: int, lines: seq<Line>, now: Timestamp, total: Money, i: nat)
    requires lines != [] && FindProduct(s.products, lines[0].productId) == Some(i)
    requires s.products[i].stock >= lines[0].quantity
    ensures SettleLines(s, orderId, lines, now, total)
         == SettleLines(Served(s, orderId, i, lines[0], now), orderId, lines[1..], now,
                        total + Charge(s.products, lines[0]))
  {
    SettleLineAt(s, orderId, lines[0], now, i);
    SettleLinesStep(s, orderId, lines, now, total);
  }

  /** When every line can be served, the loop completes. */
  lemma {:induction false} FeasibleLinesSettle(s: Store, orderId: int, lines: seq<Line>, now: Timestamp, total: Money)
    requires Feasible(s.products, lines)
    ensures SettleLines(s, orderId, lines, now, total).Success?
    decreases |lines|
  {
    if lines != [] {
      FeasibleHead(s.products, lines);
      var i := FindProduct(s.products, lines[0].productId).value;
      FeasibleServes(s, orderId, lines, now, i);
      var s1 := Served(s, orderId, i, lines[0], now);
      FeasibleLinesSettle(s1, orderId, lines[1..], now, total + Charge(s.products, lines[0]));
      SettleLinesServedStep(s, orderId, lines, now, total, i);
    }
  }

  /**
   * An order settles exactly when it has at least one line and every line can be served
   * from the stock the earlier lines left: one missing product or one short line fails
   * the whole order.
   */
  lemma SettleSucceedsIff(s: Store, lines: seq<Line>, now: Timestamp)
    ensures Settle(s, lines, now).Success? <==> lines != [] && Feasible(s.products, lines)
  {
    if lines != [] {
      if Feasible(s.products, lines) {
        FeasibleLinesSettle(Shell(s, now), s.nextOrderId, lines, now, 0);
      }
      if SettleLines(Shell(s, now), s.nextOrderId, lines, now, 0).Success? {
        SettledLinesFeasible(Shell(s, now), s.nextOrderId, lines, now, 0);
      }
    }
  }

  // ------------------------------------------------------------ consistency

  lemma ServedKeepsSkus(s: Store, orderId: int, k: nat, line: Line, now: Timestamp)
    requires k < |s.products| && SkusUnique(s.products)
    ensures SkusUnique(Served(s, orderId, k, line, now).products)
  {
    var ps := Served(s, orderId, k, line, now).products;
    forall i, j | 0 <= i < j < |ps|
      ensures ps[i].sku != ps[j].sku
    {
      assert ps[i].sku == s.products[i].sku && ps[j].sku == s.products[j].sku;
    }
  }

  lemma ServedKeepsReferences(s: Store, orderId: int, k: nat, line: Line, now: Timestamp)
    requires ReferencesResolve(s) && orderId in OrderIds(s.orders)
    requires FindProduct(s.products, line.productId) == Some(k)
    ensures ReferencesResolve(Served(s, orderId, k, line, now))
  {
    var t := Served(s, orderId, k, line, now);
    ReplaceProductKeepsIds(s.products, k, t.products[k]);
    assert forall j :: 0 <= j < |t.products| ==> t.products[j].categoryId == s.products[j].categoryId;
  }

  lemma ServedKeepsStock(s: Store, orderId: int, k: nat, line: Line, now: Timestamp)
    requires StockReconciled(s) && StrictlyAscending(ProductIds(s.products))
    requires FindProduct(s.products, line.productId) == Some(k) && s.products[k].stock >= line.quantity
    ensures StockReconciled(Served(s, orderId, k, line, now))
  {
    var t := Served(s, orderId, k, line, now);
    var entry := t.ledger[|s.ledger|];
    assert t.ledger == s.ledger + [entry];
    forall j | 0 <= j < |t.products|
      ensures 0 <= t.products[j].stock && t.products[j].stock == LedgerSum(t.ledger, t.products[j].id)
    {
      LedgerSumAppend(s.ledger, entry, t.products[j].id);
      if j != k {
        assert ProductIds(s.products)[j] != ProductIds(s.products)[k];
      }
    }
  }

  lemma ServedKeepsValid(s: Store, orderId: int, k: nat, line: Line, now: Timestamp)
    requires Valid(s) && orderId in OrderIds(s.orders)
    requires FindProduct(s.products, line.productId) == Some(k) && s.products[k].stock >= line.quantity
    ensures Valid(Served(s, orderId, k, line, now))
  {
    var t := Served(s, orderId, k, line, now);
    ReplaceProductKeepsIds(s.products, k, t.products[k]);
    ServedKeepsSkus(s, orderId, k, line, now);
    ServedKeepsReferences(s, orderId, k, line, now);
    ServedKeepsStock(s, orderId, k, line, now);
  }

  /** Serving every line of a feasible sale keeps the database consistent. */
  lemma {:induction false} SoldKeepsValid(s: Store, orderId: int, lines: seq<Line>, now: Timestamp)
    requires Valid(s) && orderId in OrderIds(s.orders)
    requires Feasible(s.products, lines)
    ensures Valid(Sold(s, orderId, lines, now))
    decreases |lines|
  {
    if lines == [] {
      SoldNothing(s, orderId, now);
    } else {
      FeasibleHead(s.products, lines);
      var i := FindProduct(s.products, lines[0].productId).value;
      var s1 := Served(s, orderId, i, lines[0], now);
      assert Valid(s1) && orderId in OrderIds(s1.orders) && Feasible(s1.products, lines[1..]) by {
        ServedKeepsValid(s, orderId, i, lines[0], now);
        FeasibleStep(s.products, i, lines);
      }
      SoldKeepsValid(s1, orderId, lines[1..], now);
      SoldStep(s, orderId, lines, now, i);
    }
  }

  /** Changing an order's total keeps the database consistent. */
  lemma RetotalKeepsValid(s: Store, k: nat, total: Money)
    requires Valid(s) && k < |s.orders|
    ensures Valid(s.(orders := s.orders[k := s.orders[k].(total := total)]))
  {
    var t := s.(orders := s.orders[k := s.orders[k].(total := total)]);
    assert OrderIds(t.orders) == OrderIds(s.orders);
  }

  /** Serving a feasible sale on top of the new order shell keeps the database consistent. */
  lemma ShellSoldValid(s: Store, lines: seq<Line>, now: Timestamp)
    requires Valid(s) && Feasible(s.products, lines)
    ensures Valid(Sold(Shell(s, now), s.nextOrderId, lines, now))
  {
    var shell := Shell(s, now);
    assert OrderIds(shell.orders) == OrderIds(s.orders) + [s.nextOrderId];
    SoldKeepsValid(shell, s.nextOrderId, lines, now);
  }

  /** A settled database is the sold one with the new order's total filled in. */
  lemma SettledIsSold(s: Store, lines: seq<Line>, now: Timestamp)
    requires StrictlyAscending(ProductIds(s.products))
    requires Settle(s, lines, now).Success?
    ensures var sold := Sold(Shell(s, now), s.nextOrderId, lines, now);
      var total := SettleLines(Shell(s, now), s.nextOrderId, lines, now, 0).value.1;
      |sold.orders| == |s.orders| + 1
      && Settle(s, lines, now).value.0 == sold.(orders := sold.orders[|s.orders| := sold.orders[|s.orders|].(total := total)])
  {
    SettleLinesEffect(Shell(s, now), s.nextOrderId, lines, now, 0);
  }

  /**
   * Settlement keeps the database consistent: afterwards every product's stock is still
   * its ledger sum and still not negative, since each decrement follows the stock check
   * on the same product.
   */
  lemma SettlePreservesValid(s: Store, lines: seq<Line>, now: Timestamp)
    requires Valid(s)
    requires Settle(s, lines, now).Success?
    ensures Valid(Settle(s, lines, now).value.0)
  {
    SettleSucceedsIff(s, lines, now);
    ShellSoldValid(s, lines, now);
    SettledIsSold(s, lines, now);
    var sold := Sold(Shell(s, now), s.nextOrderId, lines, now);
    RetotalKeepsValid(sold, |s.orders|, SettleLines(Shell(s, now), s.nextOrderId, lines, now, 0).value.1);
  }

  /** A consistent database holds no items yet for the next order key. */
  lemma NoItemsForNextOrder(s: Store)
    requires ReferencesResolve(s) && AllBelow(OrderIds(s.orders), s.nextOrderId)
    ensures ItemsOf(s.orderItems, s.nextOrderId) == []
  {
    forall k | 0 <= k < |s.orderItems|
      ensures s.orderItems[k].orderId != s.nextOrderId
    {
      var j :| 0 <= j < |s.orders| && OrderIds(s.orders)[j] == s.orderItems[k].orderId;
    }
    ItemsOfNone(s.orderItems, s.nextOrderId);
  }

  /** An order appended with a key above all others is found at the end. */
  lemma AppendedOrderFound(os: seq<Order>, o: Order)
    requires AllBelow(OrderIds(os), o.id)
    ensures FindOrder(os + [o], o.id) == Some(|os|)
  {
    assert OrderIds(os + [o])[|os|] == o.id;
    forall j | 0 <= j < |os|
      ensures (os + [o])[j].id != o.id
    {
      assert OrderIds(os)[j] == os[j].id;
    }
  }

  /**
   * The new order's stored total equals the sum of the subtotals of the items stored for
   * it, and those items are exactly one per line, at the price each product had.
   */
  lemma SettledOrderTotal(s: Store, lines: seq<Line>, now: Timestamp)
    requires Valid(s)
    requires Settle(s, lines, now).Success?
    ensures var (t, id) := Settle(s, lines, now).value;
      var items := ItemsOf(t.orderItems, id);
      && items == SaleItems(id, lines, s.products, s.nextItemId)
      && FindOrder(t.orders, id).Some?
      && t.orders[FindOrder(t.orders, id).value].total == ItemsTotal(items)
  {
    var id := s.nextOrderId;
    var sold := SaleItems(id, lines, s.products, s.nextItemId);
    var t := Settle(s, lines, now).value.0;
    assert Settle(s, lines, now).value.1 == id;
    assert t.orderItems == s.orderItems + sold && t.orders == s.orders + [Order(id, now, ItemsTotal(sold))] by {
      SettleEffect(s, lines, now);
    }
    assert ItemsOf(t.orderItems, id) == sold by {
      ItemsOfConcat(s.orderItems, sold, id);
      NoItemsForNextOrder(s);
      ItemsOfAll(sold, id);
    }
    AppendedOrderFound(s.orders, Order(id, now, ItemsTotal(sold)));
  }

  /** A product that no line names keeps its stock, its row and its ledger sum. */
  lemma SettleLeavesOthersAlone(s: Store, lines: seq<Line>, now: Timestamp, k: nat)
    requires StrictlyAscending(ProductIds(s.products))
    requires Settle(s, lines, now).Success?
    requires k < |s.products|
    requires forall j :: 0 <= j < |lines| ==> lines[j].productId != s.products[k].id
    ensures var t := Settle(s, lines, now).value.0;
      k < |t.products| && t.products[k] == s.products[k] && LedgerSum(t.ledger, s.products[k].id) == LedgerSum(s.ledger, s.products[k].id)
  {
    SettleEffect(s, lines, now);
    var id := s.products[k].id;
    DemandUnnamed(lines, id);
    var entries := SaleEntries(s.nextOrderId, lines, now, s.nextLedgerId);
    LedgerSumConcat(s.ledger, entries, id);
    LedgerSumUnnamed(entries, id);
    assert AfterSale(s.products, lines)[k] == s.products[k].(stock := s.products[k].stock - 0);
  }

  lemma {:induction false} DemandUnnamed(lines: seq<Line>, productId: int)
    requires forall j :: 0 <= j < |lines| ==> lines[j].productId != productId
    ensures Demand(lines, productId) == 0
    decreases |lines|
  {
    if lines != [] {
      DemandUnnamed(lines[1..], productId);
    }
  }

  /** The loop resumed at line i stops at a line that cannot be served. */
  lemma SettleLinesStop(s: Store, orderId: int, lines: seq<Line>, i: nat, now: Timestamp, total: Money, e: Error)
    requires i < |lines| && SettleLine(s, orderId, lines[i], now) == Failure(e)
    ensures SettleLines(s, orderId, lines[i..], now, total) == Failure(e)
  {
    assert lines[i..][0] == lines[i];
    SettleLinesStep(s, orderId, lines[i..], now, total);
  }

  /** The loop resumed at line i goes on at line i + 1 once line i is served. */
  lemma SettleLinesAdvance(s: Store, orderId: int, lines: seq<Line>, i: nat, now: Timestamp, total: Money,
                           s1: Store, subtotal: Money)
    requires i < |lines| && SettleLine(s, orderId, lines[i], now) == Success((s1, subtotal))
    ensures SettleLines(s1, orderId, lines[i + 1..], now, total + subtotal) == SettleLines(s, orderId, lines[i..], now, total)
  {
    assert lines[i..][0] == lines[i] && lines[i..][1..] == lines[i + 1..];
    SettleLinesStep(s, orderId, lines[i..], now, total);
  }

  /** The loop leaves the orders table as it found it. */
  lemma {:induction false} SettleLinesKeepOrders(s: Store, orderId: int, lines: seq<Line>, now: Timestamp, total: Money)
    requires SettleLines(s, orderId, lines, now, total).Success?
    ensures SettleLines(s, orderId, lines, now, total).value.0.orders == s.orders
    decreases |lines|
  {
    if lines != [] {
      SettleLinesFound(s, orderId, lines, now, total);
      var i := FindProduct(s.products, lines[0].productId).value;
      SettleLinesHead(s, orderId, lines, now, total, i);
      var s1 := Served(s, orderId, i, lines[0], now);
      assert s1.orders == s.orders;
      SettleLinesKeepOrders(s1, orderId, lines[1..], now, total + Charge(s.products, lines[0]));
    }
  }

  /** The outcome of Settle, read off the outcome of its loop. */
  lemma SettleFails(s: Store, lines: seq<Line>, now: Timestamp, e: Error)
    requires lines != []
    requires SettleLines(Shell(s, now), s.nextOrderId, lines, now, 0) == Failure(e)
    ensures Settle(s, lines, now) == Failure(e)
  {
  }

  lemma SettleSucceeds(s: Store, lines: seq<Line>, now: Timestamp)
    requires lines != []
    requires SettleLines(Shell(s, now), s.nextOrderId, lines, now, 0).Success?
    ensures var (t, total) := SettleLines(Shell(s, now), s.nextOrderId, lines, now, 0).value;
      Settle(s, lines, now) == Success((t.(orders := s.orders + [Order(s.nextOrderId, now, total)]), s.nextOrderId))
  {
  }

  // ------------------------------------------------------------ the service

  class OrderService {
    const uow: UnitOfWork

    constructor (uow: UnitOfWork)
      ensures this.uow == uow
    {
      this.uow := uow;
    }

    /**
     * One pass of the loop in CreateOrderAsync: check the line's product and stock, then
     * record the item at the current price, take the stock and write the sale entry, all
     * in the pending changes. A failing check changes nothing and reports why.
     */
    method SellLine(orderId: int, line: Line, now: Timestamp) returns (r: Result<Money, Error>)
      modifies uow
      ensures uow.database == old(uow.database) && uow.transaction == old(uow.transaction)
      ensures SettleLine(old(uow.context), orderId, line, now)
        == if r.Success? then Success((uow.context, r.value)) else Failure(r.error)
      ensures r.Failure? ==> uow.context == old(uow.context)
    {
      var found := FindProduct(uow.context.products, line.productId);
      if found.None? {
        return Failure(ProductNotFound(line.productId));
      }
      var k := found.value;
      SettleLineAt(uow.context, orderId, line, now, k);
      var product := uow.context.products[k];
      if product.stock < line.quantity {
        return Failure(InsufficientStock(line.productId, product.stock, line.quantity));
      }
      var item := OrderItem(uow.context.nextItemId, orderId, line.productId, line.quantity, product.price);
      var entry := LedgerEntry(uow.context.nextLedgerId, product.id, -line.quantity, now, SaleReason(orderId));
      product := product.(stock := product.stock - line.quantity);
      uow.context := uow.context.(
        orderItems := uow.context.orderItems + [item], nextItemId := uow.context.nextItemId + 1,
        products := uow.context.products[k := product],
        ledger := uow.context.ledger + [entry], nextLedgerId := uow.context.nextLedgerId + 1);
      r := Success(Subtotal(item));
    }

    /**
     * The foreach loop of CreateOrderAsync: serve the lines in caller order, adding up the
     * subtotals, and stop at the first line that cannot be served. The pending changes end
     * up as the loop's state as a function; the database is not touched.
     */
    method SellLines(orderId: int, lines: seq<Line>, now: Timestamp) returns (r: Result<Money, Error>)
      modifies uow
      ensures uow.database == old(uow.database) && uow.transaction == old(uow.transaction)
      ensures SettleLines(old(uow.context), orderId, lines, now, 0)
        == if r.Success? then Success((uow.context, r.value)) else Failure(r.error)
    {
      ghost var goal := SettleLines(uow.context, orderId, lines, now, 0);
      var total: Money := 0;
      var i := 0;
      while i < |lines|
        invariant 0 <= i <= |lines|
        invariant uow.database == old(uow.database) && uow.transaction == old(uow.transaction)
        invariant SettleLines(uow.context, orderId, lines[i..], now, total) == goal
      {
        ghost var before := uow.context;
        var outcome := SellLine(orderId, lines[i], now);
        if outcome.Failure? {
          SettleLinesStop(before, orderId, lines, i, now, total, outcome.error);
          return Failure(outcome.error);
        }
        SettleLinesAdvance(before, orderId, lines, i, now, total, uow.context, outcome.value);
        total := total + outcome.value;
        i := i + 1;
      }
      assert SettleLines(uow.context, orderId, lines[i..], now, total) == Success((uow.context, total));
      r := Success(total);
    }

    /**
     * CreateOrderAsync. storageFails stands for a failure of the final save or commit.
     * Whatever fails, the database is left as it was; on success it is the settled one
     * and the result is the stored order read back.
     */
    method CreateOrder(lines: seq<Line>, now: Timestamp, storageFails: bool) returns (r: Result<OrderDto, Error>)
      requires uow.Idle()
      modifies uow
      ensures uow.Idle()
      ensures match Settle(old(uow.database), lines, now)
        case Failure(e) => r == Failure(e) && uow.database == old(uow.database)
        case Success((settled, id)) =>
          if storageFails then r == Failure(TransactionFailure) && uow.database == old(uow.database)
          else uow.database == settled && r.Success? && OrderRepository.GetOrderDtoById(settled, id) == Some(r.value)
    {
      if |lines| == 0 {
        return Failure(EmptyOrder);
      }
      ghost var s := uow.database;
      uow.BeginTransaction();
      var orderId := uow.context.nextOrderId;
      uow.context := uow.context.(orders := uow.context.orders + [Order(orderId, now, 0)], nextOrderId := orderId + 1);
      uow.SaveChanges();
      assert uow.context == Shell(s, now);

      var outcome := SellLines(orderId, lines, now);
      if outcome.Failure? {
        SettleFails(s, lines, now, outcome.error);
        uow.RollbackTransaction();
        return Failure(outcome.error);
      }
      var total := outcome.value;
      SettleSucceeds(s, lines, now);
      assert uow.context.orders == s.orders + [Order(orderId, now, 0)] by {
        SettleLinesKeepOrders(Shell(s, now), orderId, lines, now, 0);
      }
      var last := |uow.context.orders| - 1;
      uow.context := uow.context.(orders := uow.context.orders[last := Order(orderId, now, total)]);
      assert uow.context.orders == s.orders + [Order(orderId, now, total)];

      var ok := uow.CommitTransaction(storageFails);
      if !ok {
        uow.RollbackTransaction();
        return Failure(TransactionFailure);
      }
      assert OrderIds(uow.database.orders)[|s.orders|] == orderId;
      r := Success(OrderRepository.GetOrderDtoById(uow.database, orderId).value);
    }
  }
}
