/**
 * ProductRepository: the read-side product queries. Each reads the database as a
 * value and returns a value, so none of them can change any state.
 */
module ProductRepository {
  import opened Wrappers
  import opened Text
  import opened Domain
  import opened Dtos
  import opened Paging
  import opened Sorting

  /** The sort orders the sortBy switch recognises; ById is its default arm. */
  datatype SortOption = NameAsc | NameDesc | PriceAsc | PriceDesc | StockAsc | StockDesc | ById

  /** sortBy?.ToLower() matched against the six option names; anything else, null included, sorts by id. */
  function ParseSort(sortBy: Option<string>): SortOption
  {
    if sortBy.None? then ById
    else
      var name := ToLower(sortBy.value);
      if name == "name_asc" then NameAsc
      else if name == "name_desc" then NameDesc
      else if name == "price_asc" then PriceAsc
      else if name == "price_desc" then PriceDesc
      else if name == "stock_asc" then StockAsc
      else if name == "stock_desc" then StockDesc
      else ById
  }

  /** The option name is matched without regard to the case of its letters. */
  lemma ParseSortIgnoresCase(sortBy: string)
    ensures ParseSort(Some(sortBy)) == ParseSort(Some(ToLower(sortBy)))
  {
    ToLowerIdempotent(sortBy);
  }

  /** Only the six names select an order other than by id; any other value sorts by id. */
  lemma ParseSortDefault(sortBy: Option<string>)
    ensures ParseSort(sortBy) == ById <==>
      sortBy.None? || ToLower(sortBy.value) !in ["name_asc", "name_desc", "price_asc", "price_desc", "stock_asc", "stock_desc"]
  {
  }

  function NameKey(p: Product): Key { Str(p.name) }
  function PriceKey(p: Product): Key { Num(p.price) }
  function StockKey(p: Product): Key { Num(p.stock) }
  function IdKey(p: Product): Key { Num(p.id) }

  function KeyFor(o: SortOption): Product -> Key
  {
    match o
    case NameAsc | NameDesc => NameKey
    case PriceAsc | PriceDesc => PriceKey
    case StockAsc | StockDesc => StockKey
    case ById => IdKey
  }

  predicate IsDescending(o: SortOption)
  {
    o == NameDesc || o == PriceDesc || o == StockDesc
  }

  /** The same keys read off the projected rows. */
  function DtoKeyFor(o: SortOption): ProductDto -> Key
  {
    match o
    case NameAsc | NameDesc => (d: ProductDto) => Str(d.name)
    case PriceAsc | PriceDesc => (d: ProductDto) => Num(d.price)
    case StockAsc | StockDesc => (d: ProductDto) => Num(d.quantityInStock)
    case ById => (d: ProductDto) => Num(d.id)
  }

  /** The search filter: a null or blank term keeps every product. */
  predicate MatchesSearch(p: Product, search: Option<string>)
  {
    IsNullOrWhiteSpace(search)
    || Contains(p.name, search.value) || Contains(p.sku, search.value) || Contains(p.description, search.value)
  }

  /** Both filters of the listing: the search term and the optional category. */
  predicate Kept(p: Product, search: Option<string>, categoryId: Option<int>)
  {
    MatchesSearch(p, search) && (categoryId.None? || p.categoryId == categoryId.value)
  }

  /** The Where clauses: the products both filters keep, in table order. */
  function FilterProducts(ps: seq<Product>, search: Option<string>, categoryId: Option<int>): (r: seq<Product>)
    ensures |r| <= |ps|
    ensures forall k :: 0 <= k < |r| ==> r[k] in ps && Kept(r[k], search, categoryId)
    ensures forall k :: 0 <= k < |ps| && Kept(ps[k], search, categoryId) ==> ps[k] in r
  {
    if ps == [] then []
    else
      var rest := FilterProducts(ps[1..], search, categoryId);
      assert forall k :: 1 <= k < |ps| ==> ps[k] == ps[1..][k - 1];
      if Kept(ps[0], search, categoryId) then [ps[0]] + rest else rest
  }


  /** The listing of GetPagedProductsAsync. */
  function GetPagedProducts(
    s: Store, page: int, pageSize: int, search: Option<string>, categoryId: Option<int>, sortBy: Option<string>)
    : (r: PagedResult<ProductDto>)
    ensures r.page == page && r.pageSize == pageSize
    ensures r.totalCount == |FilterProducts(s.products, search, categoryId)|
    ensures 0 <= pageSize ==> |r.items| <= pageSize
    ensures |r.items| == pageSize || Offset(page, pageSize) + |r.items| >= r.totalCount
  {
    var filtered := FilterProducts(s.products, search, categoryId);
    var option := ParseSort(sortBy);
    var sorted := SortBy(filtered, KeyFor(option), IsDescending(option));
    assert |sorted| == |multiset(sorted)| == |filtered|;
    var rows := Page(sorted, page, pageSize);
    PagedResult(seq(|rows|, k requires 0 <= k < |rows| => ToProductDto(s, rows[k])), |filtered|, page, pageSize)
  }

  /** Every listed product passes both filters and is the projection of a stored product. */
  lemma PagedProductsMatch(
    s: Store, page: int, pageSize: int, search: Option<string>, categoryId: Option<int>, sortBy: Option<string>)
    ensures var r := GetPagedProducts(s, page, pageSize, search, categoryId, sortBy);
      forall k :: 0 <= k < |r.items| ==>
        exists p :: p in s.products && Kept(p, search, categoryId) && r.items[k] == ToProductDto(s, p)
  {
    var filtered := FilterProducts(s.products, search, categoryId);
    var option := ParseSort(sortBy);
    var sorted := SortBy(filtered, KeyFor(option), IsDescending(option));
    var rows := Page(sorted, page, pageSize);
    var r := GetPagedProducts(s, page, pageSize, search, categoryId, sortBy);
    forall k | 0 <= k < |r.items|
      ensures exists p :: p in s.products && Kept(p, search, categoryId) && r.items[k] == ToProductDto(s, p)
    {
      assert r.items[k] == ToProductDto(s, rows[k]);
      assert rows[k] in multiset(sorted);
      assert rows[k] in filtered;
    }
  }

  /** Projecting a product keeps its sort key. */
  lemma DtoKeyMatches(s: Store, o: SortOption, p: Product)
    ensures DtoKeyFor(o)(ToProductDto(s, p)) == KeyFor(o)(p)
  {
  }

  /** The page is in the order sortBy asks for. */
  lemma PagedProductsSorted(
    s: Store, page: int, pageSize: int, search: Option<string>, categoryId: Option<int>, sortBy: Option<string>)
    ensures var r := GetPagedProducts(s, page, pageSize, search, categoryId, sortBy);
      SortedBy(r.items, DtoKeyFor(ParseSort(sortBy)), IsDescending(ParseSort(sortBy)))
  {
    var filtered := FilterProducts(s.products, search, categoryId);
    var option := ParseSort(sortBy);
    var sorted := SortBy(filtered, KeyFor(option), IsDescending(option));
    var rows := Page(sorted, page, pageSize);
    var r := GetPagedProducts(s, page, pageSize, search, categoryId, sortBy);
    SortBySorted(filtered, KeyFor(option), IsDescending(option));
    var off := Offset(page, pageSize);
    PageIsSlice(sorted, page, pageSize);
    if rows != [] {
      SortedSlice(sorted, KeyFor(option), IsDescending(option), off, off + |rows|);
    }
    forall i, j | 0 <= i < j < |r.items|
      ensures Before(DtoKeyFor(option)(r.items[i]), DtoKeyFor(option)(r.items[j]), IsDescending(option))
    {
      assert r.items[i] == ToProductDto(s, rows[i]) && r.items[j] == ToProductDto(s, rows[j]);
      DtoKeyMatches(s, option, rows[i]);
      DtoKeyMatches(s, option, rows[j]);
    }
  }

  /** GetProductDtoByIdAsync: the product with that id, projected, or None. */
  function GetProductDtoById(s: Store, id: int): (r: Option<ProductDto>)
    ensures r.None? <==> id !in ProductIds(s.products)
    ensures r.Some? ==> exists p :: p in s.products && p.id == id && r.value == ToProductDto(s, p)
  {
    match FindProduct(s.products, id)
    case None => None
    case Some(k) => Some(ToProductDto(s, s.products[k]))
  }

  /** GetBySkuAsync: the first product whose SKU is exactly sku, or None. */
  function GetBySku(ps: seq<Product>, sku: string): (r: Option<Product>)
    ensures r.None? <==> forall k :: 0 <= k < |ps| ==> ps[k].sku != sku
    ensures r.Some? ==> r.value in ps && r.value.sku == sku
  {
    if ps == [] then None
    else if ps[0].sku == sku then Some(ps[0])
    else
      var r := GetBySku(ps[1..], sku);
      assert forall k :: 1 <= k < |ps| ==> ps[k] == ps[1..][k - 1];
      r
  }

  /** SkuExistsAsync: some product other than excludeId has exactly this SKU. */
  function SkuExists(ps: seq<Product>, sku: string, excludeId: Option<int>): (r: bool)
    ensures r <==> exists k :: 0 <= k < |ps| && ps[k].sku == sku && (excludeId.None? || ps[k].id != excludeId.value)
  {
    if ps == [] then false
    else if ps[0].sku == sku && (excludeId.None? || ps[0].id != excludeId.value) then true
    else
      var r := SkuExists(ps[1..], sku, excludeId);
      assert forall k :: 1 <= k < |ps| ==> ps[k] == ps[1..][k - 1];
      r
  }

  /** With unique SKUs, the product GetBySku finds is the only one with that SKU. */
  lemma GetBySkuUnique(ps: seq<Product>, sku: string, k: nat)
    requires forall i, j :: 0 <= i < j < |ps| ==> ps[i].sku != ps[j].sku
    requires k < |ps| && ps[k].sku == sku
    ensures GetBySku(ps, sku) == Some(ps[k])
  {
    var r := GetBySku(ps, sku);
    var i :| 0 <= i < |ps| && ps[i] == r.value;
  }
}
