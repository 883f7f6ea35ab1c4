/**
 * CategoryService: the category listing and lookup, and creating, renaming and deleting
 * categories. Category names carry a unique index, so a save that would repeat a name
 * is refused by the database; a category that still has products is never deleted.
 */
module CategoryCatalogue {
  import opened Wrappers
  import opened Text
  import opened Domain
  import opened Invariants
  import opened Dtos
  import opened Sorting
  import opened Persistence

  function CategoryNameKey(c: Category): Key { Str(c.name) }

  /** The projection of GetAllCategoriesAsync and GetCategoryByIdAsync. */
  function ToCategoryDto(s: Store, c: Category): (r: CategoryDto)
    ensures r.id == c.id && r.name == c.name
    ensures r.productCount == 0 <==> forall k :: 0 <= k < |s.products| ==> s.products[k].categoryId != c.id
  {
    CategoryDto(c.id, c.name, ProductCount(s.products, c.id))
  }

  /** GetAllCategoriesAsync: every category with its product count, by name. */
  function GetAllCategories(s: Store): (r: seq<CategoryDto>)
    ensures |r| == |s.categories|
  {
    var sorted := SortBy(s.categories, CategoryNameKey, false);
    assert |sorted| == |multiset(sorted)| == |s.categories|;
    seq(|sorted|, k requires 0 <= k < |sorted| => ToCategoryDto(s, sorted[k]))
  }

  /** Every row of the listing is a stored category with its product count. */
  lemma ListedCategoriesAreStored(s: Store, k: nat)
    requires k < |GetAllCategories(s)|
    ensures exists c :: c in s.categories && GetAllCategories(s)[k] == ToCategoryDto(s, c)
  {
    var sorted := SortBy(s.categories, CategoryNameKey, false);
    assert sorted[k] in multiset(sorted);
    assert GetAllCategories(s)[k] == ToCategoryDto(s, sorted[k]);
  }

  /** Every stored category appears in the listing. */
  lemma StoredCategoriesAreListed(s: Store, k: nat)
    requires k < |s.categories|
    ensures ToCategoryDto(s, s.categories[k]) in GetAllCategories(s)
  {
    var sorted := SortBy(s.categories, CategoryNameKey, false);
    assert s.categories[k] in multiset(sorted);
    var j :| 0 <= j < |sorted| && sorted[j] == s.categories[k];
    assert GetAllCategories(s)[j] == ToCategoryDto(s, s.categories[k]);
  }

  /** The listing is in ascending ordinal order of name. */
  lemma CategoriesByName(s: Store)
    ensures var r := GetAllCategories(s);
      forall i, j :: 0 <= i < j < |r| ==> StrLe(r[i].name, r[j].name)
  {
    var sorted := SortBy(s.categories, CategoryNameKey, false);
    SortBySorted(s.categories, CategoryNameKey, false);
    var r := GetAllCategories(s);
    forall i, j | 0 <= i < j < |r|
      ensures StrLe(r[i].name, r[j].name)
    {
      assert Before(CategoryNameKey(sorted[i]), CategoryNameKey(sorted[j]), false);
    }
  }

  /** GetCategoryByIdAsync: the category with that id, with its product count, or None. */
  function GetCategoryById(s: Store, id: int): (r: Option<CategoryDto>)
    ensures r.None? <==> id !in CategoryIds(s.categories)
    ensures r.Some? ==> exists c :: c in s.categories && c.id == id && r.value == ToCategoryDto(s, c)
  {
    match FindCategory(s.categories, id)
    case None => None
    case Some(k) => Some(ToCategoryDto(s, s.categories[k]))
  }

  /** Whether a category other than exceptId already has the name. */
  predicate NameInUse(cs: seq<Category>, name: string, exceptId: Option<int>)
  {
    exists k :: 0 <= k < |cs| && cs[k].name == name && (exceptId.None? || cs[k].id != exceptId.value)
  }

  /** CreateCategoryAsync: the new category under the next key, reported with no products. */
  function CreateCategory(s: Store, name: string): Result<(Store, CategoryDto), Error>
  {
    if NameInUse(s.categories, name, None) then Failure(DuplicateCategoryName(name))
    else
      var id := s.nextCategoryId;
      Success((s.(categories := s.categories + [Category(id, name)], nextCategoryId := id + 1), CategoryDto(id, name, 0)))
  }

  /** A name not in use can be added without repeating a name. */
  lemma AppendCategoryKeepsNames(cs: seq<Category>, c: Category)
    requires CategoryNamesUnique(cs) && !NameInUse(cs, c.name, None)
    ensures CategoryNamesUnique(cs + [c])
  {
    var t := cs + [c];
    forall i, j | 0 <= i < j < |t|
      ensures t[i].name != t[j].name
    {
      if j == |cs| {
        assert t[i] == cs[i];
      }
    }
  }

  /** Appending a category keeps every key it had, so no reference is lost. */
  lemma AppendCategoryKeepsReferences(s: Store, c: Category)
    requires ReferencesResolve(s)
    ensures ReferencesResolve(s.(categories := s.categories + [c], nextCategoryId := c.id + 1))
  {
    assert CategoryIds(s.categories + [c]) == CategoryIds(s.categories) + [c.id];
  }

  /** No product can belong to the category key not handed out yet. */
  lemma NextCategoryIsEmpty(s: Store)
    requires ReferencesResolve(s) && AllBelow(CategoryIds(s.categories), s.nextCategoryId)
    ensures ProductCount(s.products, s.nextCategoryId) == 0
  {
    forall k | 0 <= k < |s.products|
      ensures s.products[k].categoryId != s.nextCategoryId
    {
      var j :| 0 <= j < |s.categories| && CategoryIds(s.categories)[j] == s.products[k].categoryId;
    }
  }

  /** The appended category is the one its key finds. */
  lemma AppendedCategoryFound(cs: seq<Category>, c: Category)
    requires AllBelow(CategoryIds(cs), c.id)
    ensures FindCategory(cs + [c], c.id) == Some(|cs|)
  {
    assert CategoryIds(cs + [c])[|cs|] == c.id;
    forall j | 0 <= j < |cs|
      ensures (cs + [c])[j].id != c.id
    {
      assert CategoryIds(cs)[j] == cs[j].id;
    }
  }

  /** The store with category c appended under the next key. */
  lemma AppendCategoryKeepsValid(s: Store, c: Category)
    requires Valid(s) && c.id == s.nextCategoryId && !NameInUse(s.categories, c.name, None)
    ensures Valid(s.(categories := s.categories + [c], nextCategoryId := c.id + 1))
  {
    var t := s.(categories := s.categories + [c], nextCategoryId := c.id + 1);
    assert CategoryIds(t.categories) == CategoryIds(s.categories) + [c.id];
    AppendNextKey(CategoryIds(s.categories), c.id);
    assert KeysFresh(t);
    AppendCategoryKeepsNames(s.categories, c);
    AppendCategoryKeepsReferences(s, c);
  }

  /** A lookup of the appended category finds it, with no products. */
  lemma AppendedCategoryLookup(s: Store, c: Category)
    requires ReferencesResolve(s) && AllBelow(CategoryIds(s.categories), s.nextCategoryId) && c.id == s.nextCategoryId
    ensures GetCategoryById(s.(categories := s.categories + [c], nextCategoryId := c.id + 1), c.id)
         == Some(CategoryDto(c.id, c.name, 0))
  {
    NextCategoryIsEmpty(s);
    AppendedCategoryFound(s.categories, c);
  }

  /**
   * A new category is refused only for a name in use. In a consistent database the
   * product count of zero the service reports is exactly what a lookup of the new
   * category returns, and the database stays consistent.
   */
  lemma CreateCategoryOutcome(s: Store, name: string)
    requires Valid(s)
    ensures CreateCategory(s, name).Failure? <==> NameInUse(s.categories, name, None)
    ensures CreateCategory(s, name).Success? ==>
      var (t, r) := CreateCategory(s, name).value;
      && Valid(t)
      && t == s.(categories := s.categories + [Category(s.nextCategoryId, name)], nextCategoryId := s.nextCategoryId + 1)
      && r == CategoryDto(s.nextCategoryId, name, 0)
      && GetCategoryById(t, s.nextCategoryId) == Some(r)
  {
    if !NameInUse(s.categories, name, None) {
      var c := Category(s.nextCategoryId, name);
      var t := s.(categories := s.categories + [c], nextCategoryId := c.id + 1);
      assert CreateCategory(s, name) == Success((t, CategoryDto(c.id, name, 0)));
      AppendCategoryKeepsValid(s, c);
      AppendedCategoryLookup(s, c);
    }
  }

  /** UpdateCategoryAsync: None for an unknown key; otherwise only the name changes. */
  function UpdateCategory(s: Store, id: int, name: string): Result<(Store, Option<CategoryDto>), Error>
  {
    match FindCategory(s.categories, id)
    case None => Success((s, None))
    case Some(k) =>
      if NameInUse(s.categories, name, Some(id)) then Failure(DuplicateCategoryName(name))
      else
        var t := s.(categories := s.categories[k := s.categories[k].(name := name)]);
        Success((t, Some(CategoryDto(id, name, ProductCount(t.products, id)))))
  }

  /** Renaming category k to a name no other category has keeps the database consistent. */
  lemma RenameCategoryKeepsValid(s: Store, k: nat, name: string)
    requires Valid(s) && k < |s.categories| && !NameInUse(s.categories, name, Some(s.categories[k].id))
    ensures Valid(s.(categories := s.categories[k := s.categories[k].(name := name)]))
  {
    var t := s.(categories := s.categories[k := s.categories[k].(name := name)]);
    var id := s.categories[k].id;
    assert CategoryIds(t.categories) == CategoryIds(s.categories);
    assert CategoryNamesUnique(t.categories) by {
      forall i, j | 0 <= i < j < |t.categories|
        ensures t.categories[i].name != t.categories[j].name
      {
        if i == k {
          assert s.categories[j].id != id by {
            assert CategoryIds(s.categories)[k] < CategoryIds(s.categories)[j];
          }
        } else if j == k {
          assert s.categories[i].id != id by {
            assert CategoryIds(s.categories)[i] < CategoryIds(s.categories)[k];
          }
        }
      }
    }
    assert KeysFresh(t);
    assert ReferencesResolve(t);
  }

  /** After a rename, a lookup finds the category under its key with the new name. */
  lemma RenamedCategoryLookup(s: Store, k: nat, name: string)
    requires StrictlyAscending(CategoryIds(s.categories)) && k < |s.categories|
    ensures var t := s.(categories := s.categories[k := s.categories[k].(name := name)]);
      && CategoryIds(t.categories) == CategoryIds(s.categories)
      && GetCategoryById(t, s.categories[k].id)
         == Some(CategoryDto(s.categories[k].id, name, ProductCount(t.products, s.categories[k].id)))
  {
    var t := s.(categories := s.categories[k := s.categories[k].(name := name)]);
    assert CategoryIds(t.categories) == CategoryIds(s.categories);
    var f := FindCategory(t.categories, s.categories[k].id).value;
    AscendingKeyIsUnique(CategoryIds(s.categories), f, k);
  }

  /**
   * Renaming reports None for an unknown category and leaves everything as it was; it is
   * refused when another category has the name; otherwise that category alone takes the
   * new name, the DTO carries the new name and the category's product count and is what
   * a lookup returns afterwards, and the database stays consistent.
   */
  lemma UpdateCategoryOutcome(s: Store, id: int, name: string)
    requires Valid(s)
    ensures id !in CategoryIds(s.categories) <==> UpdateCategory(s, id, name) == Success((s, None))
    ensures UpdateCategory(s, id, name).Failure? <==>
      id in CategoryIds(s.categories) && NameInUse(s.categories, name, Some(id))
    ensures UpdateCategory(s, id, name).Success? ==>
      var (t, r) := UpdateCategory(s, id, name).value;
      && Valid(t)
      && r == GetCategoryById(t, id)
      && CategoryIds(t.categories) == CategoryIds(s.categories)
      && (id in CategoryIds(s.categories) ==>
            var k := FindCategory(s.categories, id).value;
            && t == s.(categories := s.categories[k := s.categories[k].(name := name)])
            && r == Some(CategoryDto(id, name, ProductCount(s.products, id))))
  {
    match FindCategory(s.categories, id)
    case None =>
    case Some(k) =>
      if !NameInUse(s.categories, name, Some(id)) {
        RenameCategoryKeepsValid(s, k, name);
        RenamedCategoryLookup(s, k, name);
      }
  }

  /** The categories without the one at position k. */
  function RemoveCategoryAt(cs: seq<Category>, k: nat): (r: seq<Category>)
    requires k < |cs|
    ensures |r| == |cs| - 1
    ensures CategoryIds(r) == CategoryIds(cs)[..k] + CategoryIds(cs)[k + 1..]
    ensures forall j :: 0 <= j < |r| ==> r[j] == cs[if j < k then j else j + 1]
  {
    cs[..k] + cs[k + 1..]
  }

  /** DeleteCategoryAsync: false for an unknown key and for a category that still has products. */
  function DeleteCategory(s: Store, id: int): (Store, bool)
  {
    match FindCategory(s.categories, id)
    case None => (s, false)
    case Some(k) =>
      if ProductCount(s.products, id) > 0 then (s, false)
      else (s.(categories := RemoveCategoryAt(s.categories, k)), true)
  }

  /**
   * A category is deleted exactly when it exists and no product belongs to it; otherwise
   * nothing changes. Otherwise exactly that category is removed, the others stay in
   * order, and nothing outside the category table changes.
   */
  lemma DeleteCategoryOutcome(s: Store, id: int)
    requires StrictlyAscending(CategoryIds(s.categories))
    ensures DeleteCategory(s, id).1 <==>
      id in CategoryIds(s.categories) && forall k :: 0 <= k < |s.products| ==> s.products[k].categoryId != id
    ensures !DeleteCategory(s, id).1 ==> DeleteCategory(s, id).0 == s
    ensures DeleteCategory(s, id).1 ==>
      var t := DeleteCategory(s, id).0;
      && id !in CategoryIds(t.categories)
      && t == s.(categories := RemoveCategoryAt(s.categories, FindCategory(s.categories, id).value))
  {
    match FindCategory(s.categories, id)
    case None =>
    case Some(i) =>
      if ProductCount(s.products, id) == 0 {
        var t := DeleteCategory(s, id).0;
        forall j | 0 <= j < |t.categories|
          ensures CategoryIds(t.categories)[j] != id
        {
          var j' := if j < i then j else j + 1;
          assert t.categories[j] == s.categories[j'];
        }
      }
  }

  /** Removing a category repeats no name. */
  lemma RemoveCategoryKeepsNames(cs: seq<Category>, i: nat)
    requires CategoryNamesUnique(cs) && i < |cs|
    ensures CategoryNamesUnique(RemoveCategoryAt(cs, i))
  {
    var r := RemoveCategoryAt(cs, i);
    forall a, b | 0 <= a < b < |r|
      ensures r[a].name != r[b].name
    {
      var a' := if a < i then a else a + 1;
      var b' := if b < i then b else b + 1;
      assert r[a] == cs[a'] && r[b] == cs[b'];
    }
  }

  lemma DeleteCategoryKeepsKeysAndNames(s: Store, id: int)
    requires KeysFresh(s) && CategoryNamesUnique(s.categories)
    ensures KeysFresh(DeleteCategory(s, id).0) && CategoryNamesUnique(DeleteCategory(s, id).0.categories)
  {
    if DeleteCategory(s, id).1 {
      var i := FindCategory(s.categories, id).value;
      RemoveKeyKeepsFresh(CategoryIds(s.categories), i, s.nextCategoryId);
      RemoveCategoryKeepsNames(s.categories, i);
    }
  }

  /** Removing a category no product belongs to leaves every product's category in place. */
  lemma RemoveEmptyCategoryKeepsReferences(s: Store, i: nat)
    requires ReferencesResolve(s) && i < |s.categories|
    requires ProductCount(s.products, s.categories[i].id) == 0
    ensures ReferencesResolve(s.(categories := RemoveCategoryAt(s.categories, i)))
  {
    var cs := RemoveCategoryAt(s.categories, i);
    forall k | 0 <= k < |s.products|
      ensures s.products[k].categoryId in CategoryIds(cs)
    {
      var c :| 0 <= c < |s.categories| && CategoryIds(s.categories)[c] == s.products[k].categoryId;
      assert c != i;
      var j := if c < i then c else c - 1;
      assert CategoryIds(cs)[j] == s.categories[c].id;
    }
  }

  lemma DeleteCategoryKeepsReferences(s: Store, id: int)
    requires ReferencesResolve(s)
    ensures ReferencesResolve(DeleteCategory(s, id).0)
  {
    if DeleteCategory(s, id).1 {
      RemoveEmptyCategoryKeepsReferences(s, FindCategory(s.categories, id).value);
    }
  }

  /** Deleting a category keeps the database consistent: no product is left without one. */
  lemma DeleteCategoryPreservesValid(s: Store, id: int)
    requires Valid(s)
    ensures Valid(DeleteCategory(s, id).0)
  {
    DeleteCategoryKeepsKeysAndNames(s, id);
    DeleteCategoryKeepsReferences(s, id);
  }

  class CategoryService {
    const uow: UnitOfWork

    constructor (uow: UnitOfWork)
      ensures this.uow == uow
    {
      this.uow := uow;
    }

    /** CreateCategoryAsync. */
    method Create(name: string) returns (r: Result<CategoryDto, Error>)
      requires uow.Idle()
      modifies uow
      ensures uow.Idle()
      ensures var outcome := CreateCategory(old(uow.database), name);
        && (outcome.Failure? ==> r == Failure(outcome.error) && uow.database == old(uow.database))
        && (outcome.Success? ==> r == Success(outcome.value.1) && uow.database == outcome.value.0)
    {
      if NameInUse(uow.context.categories, name, None) {
        return Failure(DuplicateCategoryName(name));
      }
      var category := Category(uow.context.nextCategoryId, name);
      uow.context := uow.context.(categories := uow.context.categories + [category],
                                  nextCategoryId := uow.context.nextCategoryId + 1);
      uow.SaveChanges();
      r := Success(CategoryDto(category.id, category.name, 0));
    }

    /** UpdateCategoryAsync: Success(None) for an unknown category. */
    method Update(id: int, name: string) returns (r: Result<Option<CategoryDto>, Error>)
      requires uow.Idle()
      modifies uow
      ensures uow.Idle()
      ensures var outcome := UpdateCategory(old(uow.database), id, name);
        && (outcome.Failure? ==> r == Failure(outcome.error) && uow.database == old(uow.database))
        && (outcome.Success? ==> r == Success(outcome.value.1) && uow.database == outcome.value.0)
    {
      var found := FindCategory(uow.context.categories, id);
      if found.None? {
        return Success(None);
      }
      if NameInUse(uow.context.categories, name, Some(id)) {
        return Failure(DuplicateCategoryName(name));
      }
      var k := found.value;
      var category := uow.context.categories[k].(name := name);
      uow.context := uow.context.(categories := uow.context.categories[k := category]);
      uow.SaveChanges();
      r := Success(Some(CategoryDto(category.id, category.name, ProductCount(uow.database.products, category.id))));
    }

    /** DeleteCategoryAsync. */
    method Delete(id: int) returns (deleted: bool)
      requires uow.Idle()
      modifies uow
      ensures uow.Idle()
      ensures (uow.database, deleted) == DeleteCategory(old(uow.database), id)
    {
      var found := FindCategory(uow.context.categories, id);
      if found.None? {
        return false;
      }
      if ProductCount(uow.context.products, id) > 0 {
        return false;
      }
      uow.context := uow.context.(categories := RemoveCategoryAt(uow.context.categories, found.value));
      uow.SaveChanges();
      deleted := true;
    }
  }
}
