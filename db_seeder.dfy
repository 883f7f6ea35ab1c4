/**
 * DbSeeder: the demonstration catalogue written into an empty database. It runs only
 * when there are no categories; it adds six categories, five products that name the
 * categories by the keys 1 to 4, and one "Initial Stock" entry per product, dated
 * thirty days back, for the product's whole stock. Each step is saved before the next,
 * so when the new categories do not take the keys the products name, the product save
 * is refused by the foreign key and only the categories stay.
 */
module Seeding {
  import opened Domain
  import opened Invariants
  import opened Persistence
  import ProductCatalogue

  const CategoryNames: seq<string> :=
    ["Electronics", "Clothing", "Books", "Home & Garden", "Sports & Outdoors", "Toys & Games"]

  /** One product of the seed list, before it has a key. */
  datatype ProductSeed = ProductSeed(
    sku: string, name: string, description: string, price: Money, stock: int, categoryId: int)

  const ProductSeeds: seq<ProductSeed> := [
    ProductSeed("ELEC-001", "Laptop", "High-performance laptop", 99999, 50, 1),
    ProductSeed("ELEC-002", "Smartphone", "Latest model smartphone", 69999, 100, 1),
    ProductSeed("CLOT-001", "T-Shirt", "Cotton t-shirt", 1999, 200, 2),
    ProductSeed("BOOK-001", "Programming Guide", "Complete programming guide", 3999, 120, 3),
    ProductSeed("HOME-001", "Coffee Maker", "Automatic coffee maker", 7999, 45, 4)
  ]

  /** Thirty days, in seconds. */
  const ThirtyDays: int := 30 * 24 * 60 * 60

  function SeedCategories(firstId: int): (r: seq<Category>)
    ensures |r| == |CategoryNames|
  {
    seq(|CategoryNames|, k requires 0 <= k < |CategoryNames| => Category(firstId + k, CategoryNames[k]))
  }

  function SeedProducts(firstId: int): (r: seq<Product>)
    ensures |r| == |ProductSeeds|
  {
    seq(|ProductSeeds|, k requires 0 <= k < |ProductSeeds| =>
      var d := ProductSeeds[k];
      Product(firstId + k, d.sku, d.name, d.description, d.price, d.stock, d.categoryId))
  }

  /** One opening entry per product, for its whole stock. */
  function OpeningEntries(ps: seq<Product>, firstId: int, at: Timestamp): (r: seq<LedgerEntry>)
    ensures |r| == |ps|
  {
    seq(|ps|, k requires 0 <= k < |ps| =>
      LedgerEntry(firstId + k, ps[k].id, ps[k].stock, at, ProductCatalogue.InitialStockReason))
  }

  /** The keys the seed products name are all among the keys the seed categories take from c on. */
  predicate SeedTargetsExist(c: int)
  {
    forall k :: 0 <= k < |ProductSeeds| ==> ProductSeeds[k].categoryId in CategoryIds(SeedCategories(c))
  }

  /**
   * SeedAsync as a function of the database. The categories are saved first; the products
   * are saved only when every category they name exists, and otherwise the save fails and
   * neither the products nor their opening entries are written.
   */
  function Seed(s: Store, now: Timestamp): Store
  {
    if |s.categories| > 0 then s
    else
      var withCategories := s.(categories := SeedCategories(s.nextCategoryId),
                               nextCategoryId := s.nextCategoryId + |CategoryNames|);
      if !SeedTargetsExist(s.nextCategoryId) then withCategories
      else
        var products := SeedProducts(s.nextProductId);
        withCategories.(products := s.products + products,
                        nextProductId := s.nextProductId + |ProductSeeds|,
                        ledger := s.ledger + OpeningEntries(products, s.nextLedgerId, now - ThirtyDays),
                        nextLedgerId := s.nextLedgerId + |ProductSeeds|)
  }

  /** The seed categories take the six consecutive keys from c on. */
  lemma SeedCategoryKeys(c: int, x: int)
    ensures x in CategoryIds(SeedCategories(c)) <==> c <= x < c + |CategoryNames|
  {
    if c <= x < c + |CategoryNames| {
      assert CategoryIds(SeedCategories(c))[x - c] == x;
    }
  }

  /** The seed products find their categories exactly when the category keys start at -1, 0 or 1. */
  lemma SeedTargetsWindow(c: int)
    ensures SeedTargetsExist(c) <==> -1 <= c <= 1
  {
    SeedCategoryKeys(c, 1);
    SeedCategoryKeys(c, 4);
    if -1 <= c <= 1 {
      forall k | 0 <= k < |ProductSeeds|
        ensures ProductSeeds[k].categoryId in CategoryIds(SeedCategories(c))
      {
        SeedCategoryKeys(c, ProductSeeds[k].categoryId);
      }
    } else {
      assert ProductSeeds[0].categoryId == 1 && ProductSeeds[4].categoryId == 4;
    }
  }

  /** The database after a seed run that gets past the product save. */
  lemma SeedCompletes(s: Store, now: Timestamp)
    requires s.categories == [] && SeedTargetsExist(s.nextCategoryId)
    ensures var ps := SeedProducts(s.nextProductId);
      Seed(s, now) == s.(categories := SeedCategories(s.nextCategoryId),
                         nextCategoryId := s.nextCategoryId + |CategoryNames|,
                         products := s.products + ps,
                         nextProductId := s.nextProductId + |ProductSeeds|,
                         ledger := s.ledger + OpeningEntries(ps, s.nextLedgerId, now - ThirtyDays),
                         nextLedgerId := s.nextLedgerId + |ProductSeeds|)
  {
  }

  /** The database after a seed run whose product save is refused. */
  lemma SeedStops(s: Store, now: Timestamp)
    requires s.categories == [] && !SeedTargetsExist(s.nextCategoryId)
    ensures Seed(s, now) == s.(categories := SeedCategories(s.nextCategoryId),
                               nextCategoryId := s.nextCategoryId + |CategoryNames|)
  {
  }

  /** The opening entries of a list are those of all but its last product, then the last one's. */
  lemma OpeningEntriesSnoc(ps: seq<Product>, firstId: int, at: Timestamp)
    requires ps != []
    ensures var n := |ps| - 1;
      OpeningEntries(ps, firstId, at)
        == OpeningEntries(ps[..n], firstId, at) + [LedgerEntry(firstId + n, ps[n].id, ps[n].stock, at, ProductCatalogue.InitialStockReason)]
  {
  }

  /** Seeding a database that has categories does nothing, so seeding twice is seeding once. */
  lemma SeedIdempotent(s: Store, now: Timestamp, later: Timestamp)
    ensures |s.categories| > 0 ==> Seed(s, now) == s
    ensures Seed(Seed(s, now), later) == Seed(s, now)
    ensures |Seed(s, now).categories| > 0
  {
  }

  /** With distinct product keys, each product's balance over its opening entries is its stock. */
  lemma {:induction false} OpeningBalance(ps: seq<Product>, firstId: int, at: Timestamp, k: nat)
    requires StrictlyAscending(ProductIds(ps))
    requires k < |ps|
    ensures LedgerSum(OpeningEntries(ps, firstId, at), ps[k].id) == ps[k].stock
    decreases |ps|
  {
    var n := |ps| - 1;
    var init := ps[..n];
    var last := LedgerEntry(firstId + n, ps[n].id, ps[n].stock, at, ProductCatalogue.InitialStockReason);
    OpeningEntriesSnoc(ps, firstId, at);
    LedgerSumAppend(OpeningEntries(init, firstId, at), last, ps[k].id);
    if k < n {
      assert ProductIds(init) == ProductIds(ps)[..n];
      OpeningBalance(init, firstId, at, k);
      assert ps[k].id != ps[n].id by {
        assert ProductIds(ps)[k] < ProductIds(ps)[n];
      }
    } else {
      forall j | 0 <= j < |init|
        ensures OpeningEntries(init, firstId, at)[j].productId != ps[k].id
      {
        assert ProductIds(ps)[j] < ProductIds(ps)[n];
      }
      LedgerSumUnnamed(OpeningEntries(init, firstId, at), ps[k].id);
    }
  }

  /** The seed category names, and the seed SKUs, are distinct whatever keys the rows take. */
  lemma SeedNamesDistinct(c: int, p: int)
    ensures CategoryNamesUnique(SeedCategories(c))
    ensures SkusUnique(SeedProducts(p))
  {
    var cs := SeedCategories(c);
    forall i, j | 0 <= i < j < |cs|
      ensures cs[i].name != cs[j].name
    {
      assert cs[i].name[0] != cs[j].name[0] || |cs[i].name| != |cs[j].name|;
    }
    var ps := SeedProducts(p);
    forall i, j | 0 <= i < j < |ps|
      ensures ps[i].sku != ps[j].sku
    {
      assert ps[i].sku[0] != ps[j].sku[0] || ps[i].sku[7] != ps[j].sku[7];
    }
  }

  /** A consistent database without categories has no products, ledger entries or order items. */
  lemma NoCategoriesNoRows(s: Store)
    requires Valid(s) && s.categories == []
    ensures s.products == [] && s.ledger == [] && s.orderItems == []
  {
    RowsNeedTargets(s);
  }

  /** A row with a foreign key can only exist when the table it points into is not empty. */
  lemma RowsNeedTargets(s: Store)
    requires ReferencesResolve(s)
    ensures s.products != [] ==> s.categories != []
    ensures s.ledger != [] ==> s.products != []
    ensures s.orderItems != [] ==> s.products != []
  {
    if s.products != [] {
      assert s.products[0].categoryId in CategoryIds(s.categories);
    }
    if s.ledger != [] {
      assert s.ledger[0].productId in ProductIds(s.products);
    }
    if s.orderItems != [] {
      assert s.orderItems[0].productId in ProductIds(s.products);
    }
  }

  /** The seed rows get consecutive keys from the counters on. */
  lemma SeedKeysAscending(c: int, p: int)
    ensures StrictlyAscending(CategoryIds(SeedCategories(c))) && AllBelow(CategoryIds(SeedCategories(c)), c + |CategoryNames|)
    ensures StrictlyAscending(ProductIds(SeedProducts(p))) && AllBelow(ProductIds(SeedProducts(p)), p + |ProductSeeds|)
  {
  }

  lemma SeedFreshKeysAndNames(s: Store, now: Timestamp)
    requires Valid(s) && s.categories == [] && SeedTargetsExist(s.nextCategoryId)
    ensures var t := Seed(s, now);
      KeysFresh(t) && SkusUnique(t.products) && CategoryNamesUnique(t.categories)
  {
    NoCategoriesNoRows(s);
    var ps := SeedProducts(s.nextProductId);
    assert s.products + ps == ps;
    SeedCompletes(s, now);
    SeedKeysAscending(s.nextCategoryId, s.nextProductId);
    SeedNamesDistinct(s.nextCategoryId, s.nextProductId);
  }

  lemma SeedFreshReferences(s: Store, now: Timestamp)
    requires Valid(s) && s.categories == [] && SeedTargetsExist(s.nextCategoryId)
    ensures ReferencesResolve(Seed(s, now))
  {
    NoCategoriesNoRows(s);
    var cs, ps := SeedCategories(s.nextCategoryId), SeedProducts(s.nextProductId);
    SeedCompletes(s, now);
    assert s.products + ps == ps;
    var t := Seed(s, now);
    assert t.categories == cs && t.products == ps && t.orderItems == [];
    forall k | 0 <= k < |ps|
      ensures ps[k].categoryId in CategoryIds(cs)
    {
      assert ps[k].categoryId == ProductSeeds[k].categoryId;
    }
    forall k | 0 <= k < |t.ledger|
      ensures t.ledger[k].productId in ProductIds(ps)
    {
      assert t.ledger[k].productId == ProductIds(ps)[k];
    }
  }


  lemma SeedFreshBalances(s: Store, now: Timestamp)
    requires Valid(s) && s.categories == [] && SeedTargetsExist(s.nextCategoryId)
    ensures var t := Seed(s, now);
      forall k :: 0 <= k < |t.products| ==>
        t.products[k].stock == LedgerSum(t.ledger, t.products[k].id) && t.products[k].stock > 0
  {
    NoCategoriesNoRows(s);
    var ps := SeedProducts(s.nextProductId);
    var entries := OpeningEntries(ps, s.nextLedgerId, now - ThirtyDays);
    assert s.products + ps == ps && s.ledger + entries == entries;
    SeedCompletes(s, now);
    var t := Seed(s, now);
    assert t.products == ps && t.ledger == entries;
    SeedKeysAscending(s.nextCategoryId, s.nextProductId);
    forall k | 0 <= k < |ps|
      ensures ps[k].stock == LedgerSum(entries, ps[k].id) && ps[k].stock > 0
    {
      OpeningBalance(ps, s.nextLedgerId, now - ThirtyDays, k);
    }
  }

  /**
   * Seeding a consistent database with no categories, whose new category keys cover the
   * keys the products name, gives a consistent database with six categories and five
   * products, each product's stock being the amount of its one opening entry.
   */
  lemma SeedFreshValid(s: Store, now: Timestamp)
    requires Valid(s) && s.categories == [] && SeedTargetsExist(s.nextCategoryId)
    ensures var t := Seed(s, now);
      && Valid(t)
      && |t.categories| == 6 && |t.products| == 5
      && forall k :: 0 <= k < |t.products| ==>
           t.products[k].stock == LedgerSum(t.ledger, t.products[k].id) && t.products[k].stock > 0
  {
    NoCategoriesNoRows(s);
    SeedFreshKeysAndNames(s, now);
    SeedFreshReferences(s, now);
    SeedFreshBalances(s, now);
  }

  /**
   * The seed products name categories 1 to 4 by key. When the empty category table's keys
   * no longer start at 1, the product save fails: the six categories are written and no
   * product, ledger entry or order item is.
   */
  lemma SeedPastFirstKeys(s: Store, now: Timestamp)
    requires s.categories == [] && s.nextCategoryId > 1
    ensures var t := Seed(s, now);
      && |t.categories| == |CategoryNames|
      && (forall k :: 0 <= k < |t.categories| ==> t.categories[k].name == CategoryNames[k])
      && t.products == s.products && t.ledger == s.ledger
      && t.orders == s.orders && t.orderItems == s.orderItems
  {
    SeedTargetsWindow(s.nextCategoryId);
  }

  /** When the product save fails, the categories alone still leave the database consistent. */
  lemma SeedCategoriesOnlyValid(s: Store, now: Timestamp)
    requires Valid(s) && s.categories == [] && !SeedTargetsExist(s.nextCategoryId)
    ensures Valid(Seed(s, now))
  {
    NoCategoriesNoRows(s);
    SeedStops(s, now);
    SeedKeysAscending(s.nextCategoryId, s.nextProductId);
    SeedNamesDistinct(s.nextCategoryId, s.nextProductId);
  }

  /** Seeding, whether it completes, fails at the products or does nothing, keeps a consistent database consistent. */
  lemma SeedPreservesValid(s: Store, now: Timestamp)
    requires Valid(s)
    ensures Valid(Seed(s, now))
  {
    if s.categories == [] {
      if SeedTargetsExist(s.nextCategoryId) {
        SeedFreshValid(s, now);
      } else {
        SeedCategoriesOnlyValid(s, now);
      }
    }
  }

  /** The loop of SeedAsync that writes one "Initial Stock" entry per product, keys from firstId on. */
  method BuildOpeningEntries(products: seq<Product>, firstId: int, at: Timestamp) returns (entries: seq<LedgerEntry>)
    ensures entries == OpeningEntries(products, firstId, at)
  {
    entries := [];
    for i := 0 to |products|
      invariant entries == OpeningEntries(products[..i], firstId, at)
    {
      var product := products[i];
      entries := entries + [LedgerEntry(firstId + i, product.id, product.stock, at, ProductCatalogue.InitialStockReason)];
    }
    assert products[..|products|] == products;
  }

  /**
   * SeedAsync: the categories, then the products, then their opening entries, each
   * step saved before the next.
   * completed is false when the product save is refused and the exception leaves the
   * seeder with only the categories written.
   */
  method SeedDatabase(uow: UnitOfWork, now: Timestamp) returns (completed: bool)
    requires uow.Idle()
    modifies uow
    ensures uow.Idle()
    ensures uow.database == Seed(old(uow.database), now)
    ensures completed <==> |old(uow.database).categories| > 0 || SeedTargetsExist(old(uow.database).nextCategoryId)
  {
    if |uow.context.categories| > 0 {
      return true;
    }
    var firstCategoryId := uow.context.nextCategoryId;
    uow.context := uow.context.(categories := uow.context.categories + SeedCategories(firstCategoryId),
                                nextCategoryId := firstCategoryId + |CategoryNames|);
    uow.SaveChanges();

    if !SeedTargetsExist(firstCategoryId) {
      // The products name category keys that were not given out: the foreign key refuses the save.
      SeedStops(old(uow.database), now);
      return false;
    }
    SeedCompletes(old(uow.database), now);
    var products := SeedProducts(uow.context.nextProductId);
    uow.context := uow.context.(products := uow.context.products + products,
                                nextProductId := uow.context.nextProductId + |products|);
    uow.SaveChanges();

    var entries := BuildOpeningEntries(products, uow.context.nextLedgerId, now - ThirtyDays);
    uow.context := uow.context.(ledger := uow.context.ledger + entries,
                                nextLedgerId := uow.context.nextLedgerId + |entries|);
    uow.SaveChanges();
    completed := true;
  }
}
