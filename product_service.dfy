/**
 * ProductService: creating, editing and deleting catalogue products.
 *
 * Creation checks the SKU and then the category, adds the product and, when it starts
 * with stock, an "Initial Stock" ledger entry for that stock, so that the new product's
 * stock is its ledger balance from the start. Editing changes the descriptive fields and
 * the category and never the stock. Deleting removes the product together with its
 * ledger entries and order items.
 */
module ProductCatalogue {
  import opened Wrappers
  import opened Domain
  import opened Invariants
  import opened Dtos
  import opened Persistence
  import opened ProductRepository

  const InitialStockReason: string := "Initial Stock"

  /** The new product row, under the next product key. */
  function NewProduct(s: Store, dto: CreateProductDto): Product
  {
    Product(s.nextProductId, dto.sku, dto.name, dto.description, dto.price, dto.quantityInStock, dto.categoryId)
  }

  /** The database once the product (and, for positive stock, its opening entry) is saved. */
  function AddProduct(s: Store, dto: CreateProductDto, now: Timestamp): Store
  {
    var id := s.nextProductId;
    var added := s.(products := s.products + [NewProduct(s, dto)], nextProductId := id + 1);
    if dto.quantityInStock > 0 then
      added.(ledger := added.ledger + [LedgerEntry(s.nextLedgerId, id, dto.quantityInStock, now, InitialStockReason)],
             nextLedgerId := s.nextLedgerId + 1)
    else added
  }

  /** CreateProductAsync as a function: the new database and the new product read back. */
  function CreateProduct(s: Store, dto: CreateProductDto, now: Timestamp): Result<(Store, ProductDto), Error>
  {
    if SkuExists(s.products, dto.sku, None) then Failure(DuplicateSku(dto.sku))
    else if FindCategory(s.categories, dto.categoryId).None? then Failure(CategoryNotFound(dto.categoryId))
    else
      var t := AddProduct(s, dto, now);
      assert ProductIds(t.products)[|s.products|] == s.nextProductId;
      Success((t, GetProductDtoById(t, s.nextProductId).value))
  }

  /** Creation is refused for a SKU already in use, then for an unknown category, and otherwise succeeds. */
  lemma CreateProductRefusals(s: Store, dto: CreateProductDto, now: Timestamp)
    ensures SkuExists(s.products, dto.sku, None) <==> CreateProduct(s, dto, now) == Failure(DuplicateSku(dto.sku))
    ensures !SkuExists(s.products, dto.sku, None) && dto.categoryId !in CategoryIds(s.categories) <==>
      CreateProduct(s, dto, now) == Failure(CategoryNotFound(dto.categoryId))
    ensures CreateProduct(s, dto, now).Success? <==>
      !SkuExists(s.products, dto.sku, None) && dto.categoryId in CategoryIds(s.categories)
  {
  }

  /**
   * A created product gets the next key and exactly the requested fields, the DTO is
   * what a lookup by that key returns, and the ledger gains one "Initial Stock" entry
   * for the initial quantity exactly when that quantity is positive.
   */
  lemma CreateProductEffect(s: Store, dto: CreateProductDto, now: Timestamp)
    requires AllBelow(ProductIds(s.products), s.nextProductId)
    requires CreateProduct(s, dto, now).Success?
    ensures var (t, r) := CreateProduct(s, dto, now).value;
      var id := s.nextProductId;
      && t.products == s.products + [Product(id, dto.sku, dto.name, dto.description, dto.price, dto.quantityInStock, dto.categoryId)]
      && r == ProductDto(id, dto.sku, dto.name, dto.description, dto.price, dto.quantityInStock, dto.categoryId,
                         CategoryNameOf(s, dto.categoryId))
      && t.categories == s.categories && t.orders == s.orders && t.orderItems == s.orderItems
      && (dto.quantityInStock > 0 ==>
            t.ledger == s.ledger + [LedgerEntry(s.nextLedgerId, id, dto.quantityInStock, now, InitialStockReason)])
      && (dto.quantityInStock <= 0 ==> t.ledger == s.ledger)
  {
    var id := s.nextProductId;
    var p := NewProduct(s, dto);
    var t := AddProduct(s, dto, now);
    assert t.products == s.products + [p] && t.categories == s.categories;
    assert ProductIds(t.products) == ProductIds(s.products) + [id];
    assert FindProduct(t.products, id) == Some(|s.products|);
    assert CreateProduct(s, dto, now) == Success((t, ToProductDto(t, p)));
  }

  /** In a consistent database, a new product's key is not in use yet. */
  lemma NextProductKeyUnused(s: Store)
    requires Valid(s)
    ensures forall k :: 0 <= k < |s.ledger| ==> s.ledger[k].productId != s.nextProductId
    ensures s.nextProductId !in ProductIds(s.products)
  {
  }

  /** The new product takes the next key and names an existing category. */
  lemma AddProductKeepsKeysAndReferences(s: Store, dto: CreateProductDto, now: Timestamp)
    requires Valid(s)
    requires dto.categoryId in CategoryIds(s.categories)
    ensures KeysFresh(AddProduct(s, dto, now)) && ReferencesResolve(AddProduct(s, dto, now))
  {
    var t := AddProduct(s, dto, now);
    assert ProductIds(t.products) == ProductIds(s.products) + [s.nextProductId];
  }

  lemma AddProductKeepsSkusUnique(s: Store, dto: CreateProductDto, now: Timestamp)
    requires SkusUnique(s.products)
    requires !SkuExists(s.products, dto.sku, None)
    ensures SkusUnique(AddProduct(s, dto, now).products)
  {
    var ps := AddProduct(s, dto, now).products;
    forall i, j | 0 <= i < j < |ps|
      ensures ps[i].sku != ps[j].sku
    {
      if j == |s.products| {
        assert s.products[i].sku != dto.sku;
      }
    }
  }

  lemma AddProductKeepsStockReconciled(s: Store, dto: CreateProductDto, now: Timestamp)
    requires Valid(s)
    requires dto.quantityInStock >= 0
    ensures StockReconciled(AddProduct(s, dto, now))
  {
    var t := AddProduct(s, dto, now);
    var id := s.nextProductId;
    NextProductKeyUnused(s);
    LedgerSumUnnamed(s.ledger, id);
    forall k | 0 <= k < |t.products|
      ensures 0 <= t.products[k].stock == LedgerSum(t.ledger, t.products[k].id)
    {
      if dto.quantityInStock > 0 {
        LedgerSumAppend(s.ledger, t.ledger[|s.ledger|], t.products[k].id);
      }
    }
  }

  /**
   * Creating a product with a non-negative initial quantity keeps the database consistent:
   * its stock equals its ledger balance (the opening entry, or nothing for zero stock).
   */
  lemma CreateProductPreservesValid(s: Store, dto: CreateProductDto, now: Timestamp)
    requires Valid(s)
    requires dto.quantityInStock >= 0
    requires CreateProduct(s, dto, now).Success?
    ensures Valid(CreateProduct(s, dto, now).value.0)
  {
    AddProductKeepsKeysAndReferences(s, dto, now);
    AddProductKeepsSkusUnique(s, dto, now);
    AddProductKeepsStockReconciled(s, dto, now);
  }

  /**
   * Nothing checks the initial quantity: a negative one is stored as such, and the new
   * product's stock then breaks the ledger invariant.
   */
  lemma CreateNegativeStockBreaksValid(s: Store, dto: CreateProductDto, now: Timestamp)
    requires dto.quantityInStock < 0
    requires CreateProduct(s, dto, now).Success?
    ensures !Valid(CreateProduct(s, dto, now).value.0)
  {
    var t := CreateProduct(s, dto, now).value.0;
    assert t.products[|s.products|].stock < 0;
  }

  /**
   * UpdateProductAsync as a function. An unknown product yields no DTO and no change;
   * an unknown category is refused; otherwise name, description, price and category are
   * replaced and nothing else: the requested quantity is not applied.
   */
  function UpdateProduct(s: Store, id: int, dto: UpdateProductDto): Result<(Store, Option<ProductDto>), Error>
  {
    match FindProduct(s.products, id)
    case None => Success((s, None))
    case Some(k) =>
      if FindCategory(s.categories, dto.categoryId).None? then Failure(CategoryNotFound(dto.categoryId))
      else
        var p := s.products[k].(name := dto.name, description := dto.description, price := dto.price,
                                categoryId := dto.categoryId);
        var t := s.(products := s.products[k := p]);
        Success((t, GetProductDtoById(t, id)))
  }

  lemma UpdateProductOutcome(s: Store, id: int, dto: UpdateProductDto)
    ensures id !in ProductIds(s.products) <==> UpdateProduct(s, id, dto) == Success((s, None))
    ensures id in ProductIds(s.products) && dto.categoryId !in CategoryIds(s.categories) <==>
      UpdateProduct(s, id, dto) == Failure(CategoryNotFound(dto.categoryId))
    ensures id in ProductIds(s.products) && UpdateProduct(s, id, dto).Success? ==>
      var (t, r) := UpdateProduct(s, id, dto).value;
      && r.Some? && r.value.id == id && r.value.name == dto.name && r.value.description == dto.description
      && r.value.price == dto.price && r.value.categoryId == dto.categoryId
      && r.value.quantityInStock == StockOf(s.products, id)
      && t.ledger == s.ledger && t.categories == s.categories && t.orders == s.orders && t.orderItems == s.orderItems
      && ProductIds(t.products) == ProductIds(s.products)
      && (var k := FindProduct(s.products, id).value;
          t.products == s.products[k := s.products[k].(name := dto.name, description := dto.description,
                                                       price := dto.price, categoryId := dto.categoryId)])
      && (forall k :: 0 <= k < |s.products| ==>
            t.products[k].stock == s.products[k].stock && t.products[k].sku == s.products[k].sku)
  {
    if id in ProductIds(s.products) && UpdateProduct(s, id, dto).Success? {
      var k := FindProduct(s.products, id).value;
      var t := UpdateProduct(s, id, dto).value.0;
      ReplaceProductKeepsIds(s.products, k, t.products[k]);
    } else if id !in ProductIds(s.products) {
    } else {
      assert UpdateProduct(s, id, dto) != Success((s, None));
    }
  }

  /** Editing keeps the database consistent: stock and ledger are untouched. */
  lemma UpdateProductPreservesValid(s: Store, id: int, dto: UpdateProductDto)
    requires Valid(s)
    requires UpdateProduct(s, id, dto).Success?
    ensures Valid(UpdateProduct(s, id, dto).value.0)
  {
    if id in ProductIds(s.products) {
      var k := FindProduct(s.products, id).value;
      var p := s.products[k].(name := dto.name, description := dto.description, price := dto.price,
                              categoryId := dto.categoryId);
      var t := s.(products := s.products[k := p]);
      assert UpdateProduct(s, id, dto).value.0 == t;
      ReplaceProductKeepsIds(s.products, k, p);
      assert ReferencesResolve(t);
    }
  }

  /** The products without the one at position k. */
  function RemoveAt(ps: seq<Product>, k: nat): (r: seq<Product>)
    requires k < |ps|
    ensures |r| == |ps| - 1
    ensures ProductIds(r) == ProductIds(ps)[..k] + ProductIds(ps)[k + 1..]
  {
    ps[..k] + ps[k + 1..]
  }

  /** DeleteProductAsync as a function: false for an unknown key; else the product and what depends on it go. */
  function DeleteProduct(s: Store, id: int): (Store, bool)
  {
    match FindProduct(s.products, id)
    case None => (s, false)
    case Some(k) =>
      (s.(products := RemoveAt(s.products, k),
          ledger := EntriesExcept(s.ledger, id),
          orderItems := ItemsExcept(s.orderItems, id)), true)
  }

  lemma RemoveAtIndex(ps: seq<Product>, i: nat, j: nat)
    requires i < |ps| && j < |ps| - 1
    ensures RemoveAt(ps, i)[j] == ps[if j < i then j else j + 1]
  {
  }

  /**
   * Deletion reports whether the product existed, and afterwards no product has the key.
   * When it existed, exactly its row goes, categories and orders stay, and the ledger and
   * the order items lose precisely the rows naming it, the others keeping their order.
   */
  lemma DeleteProductOutcome(s: Store, id: int)
    requires StrictlyAscending(ProductIds(s.products))
    ensures DeleteProduct(s, id).1 <==> id in ProductIds(s.products)
    ensures !DeleteProduct(s, id).1 ==> DeleteProduct(s, id).0 == s
    ensures id !in ProductIds(DeleteProduct(s, id).0.products)
    ensures DeleteProduct(s, id).1 ==>
      var t := DeleteProduct(s, id).0;
      var i := FindProduct(s.products, id).value;
      && t.products == s.products[..i] + s.products[i + 1..]
      && t.categories == s.categories && t.orders == s.orders
      && t.ledger == EntriesExcept(s.ledger, id) && t.orderItems == ItemsExcept(s.orderItems, id)
      && (forall k :: 0 <= k < |t.ledger| ==> t.ledger[k].productId != id)
      && (forall k :: 0 <= k < |t.orderItems| ==> t.orderItems[k].productId != id)
  {
    if id in ProductIds(s.products) {
      var i := FindProduct(s.products, id).value;
      var t := DeleteProduct(s, id).0;
      forall j | 0 <= j < |t.products|
        ensures ProductIds(t.products)[j] != id
      {
        RemoveAtIndex(s.products, i, j);
      }
    }
  }

  /** Every other product survives a deletion with its row and its ledger balance. */
  lemma DeleteProductKeepsOthers(s: Store, id: int, k: nat)
    requires k < |s.products| && s.products[k].id != id
    ensures var t := DeleteProduct(s, id).0;
      s.products[k] in t.products && LedgerSum(t.ledger, s.products[k].id) == LedgerSum(s.ledger, s.products[k].id)
  {
    if id in ProductIds(s.products) {
      var i := FindProduct(s.products, id).value;
      var t := DeleteProduct(s, id).0;
      var j := if k < i then k else k - 1;
      RemoveAtIndex(s.products, i, j);
      assert t.products[j] == s.products[k];
      LedgerSumExcept(s.ledger, id, s.products[k].id);
    }
  }

  lemma DeleteProductKeepsKeys(s: Store, id: int)
    requires KeysFresh(s)
    ensures KeysFresh(DeleteProduct(s, id).0)
  {
    match FindProduct(s.products, id)
    case None =>
    case Some(i) =>
      assert DeleteProduct(s, id).0 == s.(products := RemoveAt(s.products, i),
                                          ledger := EntriesExcept(s.ledger, id),
                                          orderItems := ItemsExcept(s.orderItems, id));
      RemoveKeyKeepsFresh(ProductIds(s.products), i, s.nextProductId);
  }

  /** Every key but the deleted one is still there afterwards. */
  lemma DeleteProductKeepsOtherKeys(s: Store, id: int, x: int)
    requires x in ProductIds(s.products) && x != id
    ensures x in ProductIds(DeleteProduct(s, id).0.products)
  {
    var k := FindProduct(s.products, x).value;
    DeleteProductKeepsOthers(s, id, k);
    var j :| 0 <= j < |DeleteProduct(s, id).0.products| && DeleteProduct(s, id).0.products[j] == s.products[k];
    assert ProductIds(DeleteProduct(s, id).0.products)[j] == x;
  }

  lemma DeleteProductKeepsReferences(s: Store, id: int)
    requires ReferencesResolve(s)
    ensures ReferencesResolve(DeleteProduct(s, id).0)
  {
    match FindProduct(s.products, id)
    case None =>
    case Some(i) =>
      var t := s.(products := RemoveAt(s.products, i),
                  ledger := EntriesExcept(s.ledger, id),
                  orderItems := ItemsExcept(s.orderItems, id));
      assert DeleteProduct(s, id).0 == t;
      forall k | 0 <= k < |t.products|
        ensures t.products[k].categoryId in CategoryIds(t.categories)
      {
        RemoveAtIndex(s.products, i, k);
      }
      forall k | 0 <= k < |t.ledger|
        ensures t.ledger[k].productId in ProductIds(t.products)
      {
        var j :| 0 <= j < |s.ledger| && s.ledger[j] == t.ledger[k];
        DeleteProductKeepsOtherKeys(s, id, t.ledger[k].productId);
      }
      forall k | 0 <= k < |t.orderItems|
        ensures t.orderItems[k].orderId in OrderIds(t.orders) && t.orderItems[k].productId in ProductIds(t.products)
      {
        var j :| 0 <= j < |s.orderItems| && s.orderItems[j] == t.orderItems[k];
        DeleteProductKeepsOtherKeys(s, id, t.orderItems[k].productId);
      }
  }

  lemma DeleteProductKeepsProductRows(s: Store, id: int)
    requires Valid(s)
    ensures SkusUnique(DeleteProduct(s, id).0.products) && StockReconciled(DeleteProduct(s, id).0)
  {
    if id in ProductIds(s.products) {
      var i := FindProduct(s.products, id).value;
      var t := DeleteProduct(s, id).0;
      forall a, b | 0 <= a < b < |t.products|
        ensures t.products[a].sku != t.products[b].sku
      {
        RemoveAtIndex(s.products, i, a);
        RemoveAtIndex(s.products, i, b);
      }
      forall k | 0 <= k < |t.products|
        ensures 0 <= t.products[k].stock == LedgerSum(t.ledger, t.products[k].id)
      {
        RemoveAtIndex(s.products, i, k);
        var j := if k < i then k else k + 1;
        DeleteProductKeepsOthers(s, id, j);
      }
    }
  }

  /** Deleting a product keeps the database consistent, thanks to the cascade. */
  lemma DeleteProductPreservesValid(s: Store, id: int)
    requires Valid(s)
    ensures Valid(DeleteProduct(s, id).0)
  {
    DeleteProductKeepsKeys(s, id);
    DeleteProductKeepsReferences(s, id);
    DeleteProductKeepsProductRows(s, id);
  }

  class ProductService {
    const uow: UnitOfWork

    constructor (uow: UnitOfWork)
      ensures this.uow == uow
    {
      this.uow := uow;
    }

    /** CreateProductAsync: checks, then the product and its opening entry, saved together. */
    method Create(dto: CreateProductDto, now: Timestamp) returns (r: Result<ProductDto, Error>)
      requires uow.Idle()
      modifies uow
      ensures uow.Idle()
      ensures var outcome := CreateProduct(old(uow.database), dto, now);
        && (outcome.Failure? ==> r == Failure(outcome.error) && uow.database == old(uow.database))
        && (outcome.Success? ==> r == Success(outcome.value.1) && uow.database == outcome.value.0)
    {
      if SkuExists(uow.context.products, dto.sku, None) {
        return Failure(DuplicateSku(dto.sku));
      }
      var category := FindCategory(uow.context.categories, dto.categoryId);
      if category.None? {
        return Failure(CategoryNotFound(dto.categoryId));
      }
      var id := uow.context.nextProductId;
      var product := Product(id, dto.sku, dto.name, dto.description, dto.price, dto.quantityInStock, dto.categoryId);
      uow.context := uow.context.(products := uow.context.products + [product], nextProductId := id + 1);
      if dto.quantityInStock > 0 {
        var entry := LedgerEntry(uow.context.nextLedgerId, id, dto.quantityInStock, now, InitialStockReason);
        uow.context := uow.context.(ledger := uow.context.ledger + [entry], nextLedgerId := uow.context.nextLedgerId + 1);
      }
      uow.SaveChanges();
      assert ProductIds(uow.database.products)[|uow.database.products| - 1] == id;
      var found := GetProductDtoById(uow.database, id);
      r := Success(found.value);
    }

    /** UpdateProductAsync: Success(None) for an unknown product. */
    method Update(id: int, dto: UpdateProductDto) returns (r: Result<Option<ProductDto>, Error>)
      requires uow.Idle()
      modifies uow
      ensures uow.Idle()
      ensures var outcome := UpdateProduct(old(uow.database), id, dto);
        && (outcome.Failure? ==> r == Failure(outcome.error) && uow.database == old(uow.database))
        && (outcome.Success? ==> r == Success(outcome.value.1) && uow.database == outcome.value.0)
    {
      var found := FindProduct(uow.context.products, id);
      if found.None? {
        return Success(None);
      }
      var category := FindCategory(uow.context.categories, dto.categoryId);
      if category.None? {
        return Failure(CategoryNotFound(dto.categoryId));
      }
      var k := found.value;
      var product := uow.context.products[k];
      product := product.(name := dto.name, description := dto.description, price := dto.price, categoryId := dto.categoryId);
      uow.context := uow.context.(products := uow.context.products[k := product]);
      uow.SaveChanges();
      r := Success(GetProductDtoById(uow.database, id));
    }

    /** DeleteProductAsync: false for an unknown product. */
    method Delete(id: int) returns (deleted: bool)
      requires uow.Idle()
      modifies uow
      ensures uow.Idle()
      ensures (uow.database, deleted) == DeleteProduct(old(uow.database), id)
    {
      var found := FindProduct(uow.context.products, id);
      if found.None? {
        return false;
      }
      var k := found.value;
      uow.context := uow.context.(products := RemoveAt(uow.context.products, k),
                                  ledger := EntriesExcept(uow.context.ledger, id),
                                  orderItems := ItemsExcept(uow.context.orderItems, id));
      uow.SaveChanges();
      deleted := true;
    }
  }
}
