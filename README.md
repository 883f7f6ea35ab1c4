# Online inventory: stock ledger, order settlement and catalogue, in Dafny

This project models the business core of the online-inventory ASP.NET application.
The core covers the following:

- products, categories, orders and order items, held in one relational store;
- the inventory ledger, where every change of a product's stock is recorded as an
  `InventoryTransaction` with a quantity change, a timestamp and a reason;
- the unit of work that wraps each service call in a database transaction;
- the services and repositories that settle orders, adjust stock, maintain the
  catalogue, seed the database and answer the read-side queries.

The central property is the ledger invariant. Every product's stock equals the sum
of its ledger entries' quantity changes, and it is never negative. `Invariants.Valid`
states it together with the following:

- fresh keys;
- unique SKUs;
- unique category names;
- references that resolve.

Every state-changing operation is proved to preserve `Valid`, seeding included, even
when its product save is refused. The one exception is a product created with a
negative initial quantity, which the source does not refuse and which breaks the
invariant; `CreateNegativeStockBreaksValid` shows this.

## How the model is built

- **Store.** `Domain.Store` is the database as one value. Each table is a sequence in
  key order, with one key counter per table, standing in for SQLite's
  auto-increment keys.
- **Unit of work.** `Persistence.UnitOfWork` is a class with three fields:
  - `database`: what the database holds, including the open transaction's writes;
  - `context`: the change tracker's view, which includes the changes not yet saved;
  - `transaction`: the snapshot taken at begin, or `None` when no transaction is open.
- **Services as classes.** The services are classes over a unit of work:
  `OrderService`, `InventoryService`, `ProductService` and `CategoryService`. Their
  methods perform the operation step by step, in the source's order: begin, add,
  save, commit, and roll back on failure.
- **Specification functions.** Each method is proved against a function of the old
  database: `Settle`, `Adjust`, `CreateProduct`, `UpdateProduct`, `DeleteProduct`,
  `CreateCategory`, `UpdateCategory`, `DeleteCategory` and `Seed`. Lemmas then prove
  the service's promises about that function.
- **The order loop.** `OrderService.CreateOrder` runs the settlement loop through
  `SellLines`, which runs `SellLine` once per line. `SellLine` is the body of the
  `foreach` at Services/OrderService.cs:48-87. The loop is proved equal to the fold
  `SettleLines`.
- **Failure inputs.** A storage failure during save or commit is the parameter
  `storageFails`. The clock is the parameter `now`, a timestamp in seconds.
- **Money.** Prices and totals are integers in cents.
- **Repositories.** They become pure functions over the store: filtering, sorting,
  paging and projection to DTOs. `Sorting.SortBy` is a stable insertion sort and is
  proved to sort.
- **Pass-through reads.** Four service methods only forward to a repository:
  - `OrderService.GetOrdersAsync` (Services/OrderService.cs:16-19) is
    `OrderRepository.GetPagedOrders`.
  - `OrderService.GetOrderByIdAsync` (Services/OrderService.cs:21-24) is
    `OrderRepository.GetOrderDtoById`.
  - `ProductService.GetProductsAsync` (Services/ProductService.cs:16-24) is
    `ProductRepository.GetPagedProducts`.
  - `ProductService.GetProductByIdAsync` (Services/ProductService.cs:26-29) is
    `ProductRepository.GetProductDtoById`.

## Behaviour kept from the code

- **Duplicate order lines.** Two lines for the same product are checked against the
  stock the earlier line left. `Feasible` states this.
- **Negative order quantities.** The service never checks that an order line's
  quantity is positive. A negative quantity passes the stock check and raises the
  stock. The ledger invariant still holds, because the ledger entry records the same
  change.
- **Product update.** `UpdateProductAsync` leaves stock and SKU untouched. The
  quantity carried by the update DTO is ignored.
- **Product delete.** Deleting a product also removes its ledger entries and order
  items. EF Core cascades deletes on required foreign keys by default, and only
  Category→Product is configured `Restrict` (Data/ApplicationDbContext.cs:85-88).
- **Category names.** Category names carry a unique index
  (Data/ApplicationDbContext.cs:95). Creating or renaming to a name already in use is
  therefore modelled as a refusal (`DuplicateCategoryName`) that writes nothing.
- **Category delete.** Deleting a category that still has products returns false and
  removes nothing. This is the service's check; the Restrict foreign key would refuse
  the delete too.
- **Seeding with used keys.** The seed products name categories 1 to 4 by key. When
  the category table is empty but its keys no longer start at 1, the product save is
  refused by the foreign key. The categories, already saved, stay, and the exception
  reaches the start-up code, which logs it (Program.cs:157-161). `SeedDatabase`
  reports this as `completed == false`.
- **Negative page sizes.** Paging is translated to SQL `LIMIT`/`OFFSET`. SQLite reads a
  negative `LIMIT` as no limit and a negative `OFFSET` as zero, so `Page` does the same.

## Model

| member | source | states |
|---|---|---|
| OrderSettlement.OrderService.CreateOrder | Services/OrderService.cs:26-101 | Each failure leaves the database exactly as it was and reports the error: an empty item list, a missing product, short stock, or a failing commit. Otherwise the database becomes the settled one, and the returned order is the one stored under the new order id. |
| OrderSettlement.OrderService.SellLines | Services/OrderService.cs:48-87 | The loop over the lines ends with the change tracker and running total that the fold over the lines gives, or with the first failing line's error. It writes nothing to the database and does not touch the transaction. |
| OrderSettlement.OrderService.SellLine | Services/OrderService.cs:50-86 | One pass of the loop body. If the product is missing or its stock is short, the error is returned and the tracker is unchanged. Otherwise the line is served and its subtotal returned. |
| OrderSettlement.SettleLineSucceedsIff | Services/OrderService.cs:50-60 | A line is served exactly when its product exists and its current stock is at least the quantity. |
| OrderSettlement.SettleSucceedsIff | Services/OrderService.cs:28-60 | An order succeeds exactly when it has at least one line and every line is covered. A line is covered when its product exists and has stock for it together with the earlier lines for the same product. |
| OrderSettlement.SettleEffect | Services/OrderService.cs:37-90 | A successful order adds one order, one item per line at the product's price at settlement time, and one ledger entry per line of minus its quantity with the sale reason. Each product's stock drops by exactly what the lines ask of it. The order total is the sum of the items' quantity times unit price. Categories are untouched. |
| OrderSettlement.SettledOrderTotal | Services/OrderService.cs:63-90 | The stored order's items are exactly the sale's items, and its total is their sum of quantity times unit price. |
| OrderSettlement.SettleLeavesOthersAlone | Services/OrderService.cs:48-87 | A product named by no line keeps its row and its ledger balance. |
| OrderSettlement.SoldKeepsValid | Services/OrderService.cs:75-86 | Serving feasible lines one after another keeps the ledger invariant: each decrement follows the stock check and is matched by its ledger entry. |
| OrderSettlement.SettlePreservesValid | Services/OrderService.cs:33-92 | After a successful order, every product's stock still equals its ledger sum and is not negative. |
| OrderSettlement.SaleReasonIdentifiesOrder | Services/OrderService.cs:84 | Two orders never share a "Sale - Order #id" reason. |
| InventoryAdjustment.AdjustRefusedIff | Services/InventoryService.cs:22-33 | A missing product is refused with ProductNotFound. A change that would leave negative stock is refused with NegativeStock. The adjustment succeeds exactly when neither applies. |
| InventoryAdjustment.AdjustEffect | Services/InventoryService.cs:39-62 | The product's row changes only in its stock, which becomes old stock plus the change. Exactly one ledger entry is appended, under the next key, with the change, the clock time and the caller's reason. The returned record carries that entry's key, the product's name and SKU, the change, the time and the reason. Every other product's stock and ledger balance, and the other tables, are unchanged. |
| InventoryAdjustment.AdjustPreservesValid | Services/InventoryService.cs:39-51 | An accepted adjustment keeps every product's stock equal to its ledger sum and not negative. |
| InventoryAdjustment.InventoryService.AdjustInventory | Services/InventoryService.cs:20-69 | A refusal writes nothing and reports the error. A failing commit rolls both the stock write and the ledger append back. Otherwise both are committed together and the new entry is returned. |
| InventoryAdjustment.EntriesFor | Services/InventoryService.cs:78-81 | The filtered entries are exactly the stored entries of the given product, or all entries when no product is given. |
| InventoryAdjustment.GetTransactions | Services/InventoryService.cs:71-108 | The total count is the size of the filtered set before paging, or the whole ledger without a filter. Page and page size are echoed. A non-negative page size bounds the rows returned. The page is either full or runs to the end of the list, so a negative page size returns every row from the offset on. |
| InventoryAdjustment.TransactionsAreStored | Services/InventoryService.cs:78-99 | Every listed row is the projection of a stored entry of the requested product. |
| InventoryAdjustment.TransactionsNewestFirst | Services/InventoryService.cs:85-88 | Listed rows are ordered by timestamp, newest first. |
| Persistence.UnitOfWork.SaveChanges | Repositories/UnitOfWork.cs:28-31 | Pending changes are written. Any open transaction stays open, and others still see the state at begin. |
| Persistence.UnitOfWork.BeginTransaction | Repositories/UnitOfWork.cs:33-36 | A transaction becomes active, and the current database is the state a rollback returns to. |
| Persistence.UnitOfWork.CommitTransaction | Repositories/UnitOfWork.cs:38-61 | On success the pending changes are saved and committed. On failure the database returns to its state at begin. In both cases no transaction is left active. |
| Persistence.UnitOfWork.RollbackTransaction | Repositories/UnitOfWork.cs:63-71 | With a transaction open, the database returns to its state at begin and the pending changes are dropped. With none open, nothing changes. Afterwards no transaction is active. |
| ProductCatalogue.CreateProductRefusals | Services/ProductService.cs:34-44 | A duplicate SKU is refused first. Then a missing category is refused. Creation succeeds exactly when the SKU is new and the category exists. |
| ProductCatalogue.CreateProductEffect | Services/ProductService.cs:46-73 | The new product takes the next key, the requested fields and the requested stock. An initial quantity above zero adds exactly one "Initial Stock" entry of that quantity; otherwise the ledger is unchanged. |
| ProductCatalogue.CreateProductPreservesValid | Services/ProductService.cs:31-74 | Creating a product with a non-negative initial quantity keeps the ledger invariant, SKU uniqueness and references. |
| ProductCatalogue.CreateNegativeStockBreaksValid | Services/ProductService.cs:59-69 | A negative initial quantity is accepted, and the new product's stock then differs from its ledger sum. |
| ProductCatalogue.UpdateProductOutcome | Services/ProductService.cs:76-100 | A missing product yields null and changes nothing. A missing category is refused. Otherwise the product's row becomes the old row with exactly name, description, price and category replaced by the request's, and no other row changes. Every stock and SKU, the ledger and the other tables stay as they were, and the returned DTO shows the new values with the old stock. |
| ProductCatalogue.UpdateProductPreservesValid | Services/ProductService.cs:84-97 | An update keeps the ledger invariant. |
| ProductCatalogue.DeleteProductOutcome | Services/ProductService.cs:102-114 | The result is true exactly when the product existed. A missing id changes nothing. Otherwise exactly that product's row is removed, categories and orders are unchanged, and the ledger and order items lose the rows naming it (see `Domain.EntriesExcept`, `Domain.ItemsExcept`). Afterwards no product has the id. |
| Domain.EntriesExcept | Services/ProductService.cs:102-114 | The ledger cascade keeps exactly the entries not naming the deleted product: none of the survivors names it, every survivor is a stored entry, and every stored entry of another product survives. |
| Domain.EntriesExceptConcat | Services/ProductService.cs:102-114 | The ledger cascade filters entry by entry, so the survivors keep their order. |
| Domain.ItemsExcept | Services/ProductService.cs:102-114 | The order-item cascade keeps exactly the items not naming the deleted product, in both directions of membership. |
| Domain.ItemsExceptConcat | Services/ProductService.cs:102-114 | The order-item cascade filters item by item, so the survivors keep their order. |
| ProductCatalogue.DeleteProductKeepsOthers | Services/ProductService.cs:102-114 | Every other product keeps its row and its ledger balance. |
| ProductCatalogue.DeleteProductPreservesValid | Services/ProductService.cs:102-114 | A delete keeps the ledger invariant and the references. |
| ProductCatalogue.ProductService.Create | Services/ProductService.cs:31-74 | The unit of work ends with the database that CreateProduct gives and returns its record, or reports the refusal and writes nothing. |
| ProductCatalogue.ProductService.Update | Services/ProductService.cs:76-100 | The unit of work ends with the database that UpdateProduct gives and returns its record, or reports the refusal and writes nothing. |
| ProductCatalogue.ProductService.Delete | Services/ProductService.cs:102-114 | The unit of work ends with the database that DeleteProduct gives and returns whether the product existed. |
| ProductRepository.GetPagedProducts | Repositories/ProductRepository.cs:14-72 | The total count is the filtered set's size, independent of paging. Page and page size are echoed. A non-negative page size bounds the items returned. The page is either full or runs to the end of the filtered list; a negative page size returns every item from the offset on. |
| ProductRepository.FilterProducts | Repositories/ProductRepository.cs:24-32 | The kept products are exactly the stored ones that match the search in name, SKU or description, when a search is given, and the category, when one is given. |
| ProductRepository.PagedProductsMatch | Repositories/ProductRepository.cs:49-63 | Every listed item is the projection of a stored product that passes the filters. |
| ProductRepository.PagedProductsSorted | Repositories/ProductRepository.cs:35-51 | Listed items are ordered by the selected key, ascending or descending. |
| ProductRepository.ParseSortIgnoresCase | Repositories/ProductRepository.cs:35 | The sort option is chosen case-insensitively. |
| ProductRepository.ParseSortDefault | Repositories/ProductRepository.cs:35-44 | Products are sorted by id exactly when the sort option is absent or is none of the six names. |
| ProductRepository.GetProductDtoById | Repositories/ProductRepository.cs:74-91 | The result is null exactly when no product has the id; otherwise it is that product's projection. |
| ProductRepository.GetBySku | Repositories/ProductRepository.cs:93-97 | The result is null exactly when no product has the SKU; otherwise it is a stored product with that exact SKU. |
| ProductRepository.GetBySkuUnique | Repositories/ProductRepository.cs:93-97 | When SKUs are unique, the lookup returns the one product with that SKU. |
| ProductRepository.SkuExists | Repositories/ProductRepository.cs:99-109 | True exactly when some product other than the excluded id has that SKU. |
| OrderRepository.GetPagedOrders | Repositories/OrderRepository.cs:14-47 | The total count is the number of orders. Page and page size are echoed. A non-negative page size bounds the orders returned. The page is either full or runs to the end; a negative page size returns every order from the offset on. |
| OrderRepository.PagedOrdersAreStored | Repositories/OrderRepository.cs:18-37 | Every listed order is the projection of a stored order. |
| OrderRepository.PagedOrdersNewestFirst | Repositories/OrderRepository.cs:20-22 | Listed orders are ordered by creation time, newest first. |
| OrderRepository.GetOrderDtoById | Repositories/OrderRepository.cs:49-70 | The result is null exactly when no order has the id; otherwise it is that order's projection. |
| Dtos.ToOrderDto | Repositories/OrderRepository.cs:23-37 | An order's projection carries its id, creation time and stored total. It has one item per stored item of that order, each with its stored quantity and unit price. |
| CategoryCatalogue.ToCategoryDto | Services/CategoryService.cs:24-29 | A category's product count is zero exactly when no product belongs to it. |
| CategoryCatalogue.GetAllCategories | Services/CategoryService.cs:20-32 | One row per stored category. |
| CategoryCatalogue.ListedCategoriesAreStored | Services/CategoryService.cs:20-32 | Every row is the projection of a stored category. |
| CategoryCatalogue.StoredCategoriesAreListed | Services/CategoryService.cs:20-32 | Every stored category is listed. |
| CategoryCatalogue.CategoriesByName | Services/CategoryService.cs:30 | Rows are ordered by name. |
| CategoryCatalogue.GetCategoryById | Services/CategoryService.cs:34-46 | The result is null exactly when no category has the id; otherwise it is that category's projection. |
| CategoryCatalogue.CreateCategoryOutcome | Services/CategoryService.cs:48-64 | A name already in use is refused. Otherwise exactly one category is appended, under the next key and with the requested name. It is reported with that key, that name and product count 0, and reading it back gives the same. Nothing else in the database changes. |
| CategoryCatalogue.UpdateCategoryOutcome | Services/CategoryService.cs:66-84 | A missing category yields null and changes nothing. A name in use by another category is refused. Otherwise that category alone takes the new name and nothing else in the database changes. The result is the category with its id, the new name and its product count. |
| CategoryCatalogue.DeleteCategoryOutcome | Services/CategoryService.cs:86-103 | The result is true exactly when the category exists and no product belongs to it. Otherwise nothing changes. When true, exactly that category is removed, the other categories keep their order, and nothing outside the category table changes. |
| CategoryCatalogue.DeleteCategoryPreservesValid | Services/CategoryService.cs:86-103 | A category delete keeps the store valid; in particular no product is left without its category. |
| CategoryCatalogue.CategoryService.Create | Services/CategoryService.cs:48-64 | The unit of work ends with the database that CreateCategory gives, or reports the refusal and writes nothing. |
| CategoryCatalogue.CategoryService.Update | Services/CategoryService.cs:66-84 | The unit of work ends with the database that UpdateCategory gives, or reports the refusal and writes nothing. |
| CategoryCatalogue.CategoryService.Delete | Services/CategoryService.cs:86-103 | The unit of work ends with the database that DeleteCategory gives and returns its verdict. |
| Seeding.SeedDatabase | Data/DbSeeder.cs:7-64 | The seeder leaves exactly the seeded database. It reports failure exactly when the categories were empty and the product save is refused, with only the categories written. |
| Seeding.BuildOpeningEntries | Data/DbSeeder.cs:50-60 | The loop builds one "Initial Stock" entry per product, in product order, for the product's stock. |
| Seeding.SeedIdempotent | Data/DbSeeder.cs:10-13 | Seeding a database that has any category changes nothing, so seeding twice is seeding once. |
| Seeding.SeedFreshValid | Data/DbSeeder.cs:16-63 | A seed whose category keys cover the ids the products name adds 6 categories and 5 products with distinct SKUs. Each product's positive stock equals its ledger sum. The ledger invariant holds. |
| Seeding.SeedPreservesValid | Data/DbSeeder.cs:7-64 | Seeding keeps a consistent database consistent: when it does nothing, when it completes, and when the product save is refused. |
| Seeding.SeedCategoriesOnlyValid | Data/DbSeeder.cs:26-27 | When the product save is refused, the six saved categories alone leave the database consistent. |
| Seeding.SeedNamesDistinct | Data/DbSeeder.cs:16-44 | The seed category names are distinct, and so are the seed SKUs, whatever keys the rows take. |
| Seeding.OpeningBalance | Data/DbSeeder.cs:50-60 | Each seeded product's one "Initial Stock" entry carries exactly its stock. |
| Seeding.SeedTargetsWindow | Data/DbSeeder.cs:30-44 | The products' hard-coded category ids 1 to 4 all exist exactly when the new categories' keys start at -1, 0 or 1. |
| Seeding.SeedPastFirstKeys | Data/DbSeeder.cs:26-47 | When the empty category table's keys start past 1, the product save fails. The six categories are written with their names, and the products, ledger, orders and order items stay as they were. |
| Invariants.StockIsLedgerBalance | Services/InventoryService.cs:39-50 | In a valid store, a product's stock is its ledger balance and is not negative. |
| Invariants.StockMovePreservesValid | Services/InventoryService.cs:39-51 | Moving one product's stock by a change, with a ledger entry of that change, keeps the store valid while the stock stays non-negative. |
| Paging.Page | Services/InventoryService.cs:86-88 | A page holds consecutive rows taken in order from the skipped offset. A page size of 0 gives an empty page, a positive one bounds the page, and a negative one sets no limit, as SQLite reads a negative LIMIT. A page is full unless it reaches the end. |
| Paging.RowOnItsPage | Repositories/ProductRepository.cs:49-51 | Every row appears on exactly the page its index selects. |
| Paging.PagesDisjoint | Repositories/OrderRepository.cs:21-22 | Rows on an earlier page precede rows on a later page. |
| Text.ContainsAt | Repositories/ProductRepository.cs:26 | A string contains a term exactly when the term occurs at some position. |
| Text.NatToStringRoundTrip | Services/OrderService.cs:84 | The decimal digits of an order id read back as that id. |
| Text.ToLowerIdempotent | Repositories/ProductRepository.cs:35 | Lower-casing twice is lower-casing once. |

## Left out

- **Integer width.** C# `int` wrap-around is not modelled, for quantities, stock and
  keys alike. Integers are unbounded.
- **Decimal prices.** The 18,2 decimal precision is modelled as integer cents.
- **Concurrency.** Each service call is one atomic step. Lost updates between
  concurrent requests and locking are not modelled.
- **Change tracker after failure.** After a failed save or a rollback, EF Core would
  keep stale tracked entities. The model discards them, because every service call
  ends after its rollback.
- **Temporary keys.** EF Core's temporary keys are not modelled. New rows take the
  next counter value. This includes the "Initial Stock" entry, whose product id is
  read before the product is saved.
- **Clock.** `DateTime.UtcNow` is the parameter `now`. One order's creation time and
  its ledger entries share that one timestamp.
- **Sort ties.** SQL `ORDER BY` gives no order among equal keys. The model keeps
  table order among ties, which the source does not promise.
- **Case and search matching.** `ToLower` lowers ASCII letters only. Search is plain
  substring matching, whatever collation SQLite applies.
- **TotalPages.** The `TotalPages` property is computed with `double` and
  `Math.Ceiling`, and is not modelled.
- **Loading related rows.** The category product counts after update and delete
  assume the category's products are loaded. Whether `Repository<T>.GetByIdAsync`
  loads them, and whether it returns the tracked entity, is not part of this model.
  When the products are not loaded, the Restrict foreign key still refuses the
  delete, with an exception instead of `false`.
- **Creation DTO validation.** The validation attributes of `CreateProductDto` are
  not part of this model. No initial quantity is refused.
- **Other application parts.** Controllers, authentication, user seeding, migrations
  and start-up are not modelled. The controller that writes stock without a ledger
  entry is among them.
- CreateOrder: `storageFails` stands for a failure of the final save or commit only.
  A failure of the save that obtains the order key (Services/OrderService.cs:44) would
  also roll back and leave the database unchanged, but it is not a separate input.
- FilterProducts: states membership in both directions but not that the kept products
  keep their table order without repetition; the same holds for EntriesFor.
- CreateProductPreservesValid: requires a non-negative initial quantity, because the
  source accepts a negative one, which breaks the invariant (see
  CreateNegativeStockBreaksValid).
- GetTransactions: does not state the page's exact contents as a slice of the sorted
  entries. It states the count, the bound, membership and order.
- GetPagedProducts: likewise does not state the exact page contents. It states the
  count, the bound, membership, filtering and order.
- GetPagedOrders: likewise does not state the exact page contents. It states the
  count, the bound, membership and order.
