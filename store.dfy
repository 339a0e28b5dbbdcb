/**
 * The repositories the services call, as one in-memory store: a table per
 * entity from id to row.  Repository failures are not computed: a `Fault`
 * names which repository call of an operation fails, and with which error.
 */
module Store {
  import opened Wrappers
  import opened Text
  import opened Entities
  import AppErrors

  /** The outcome of a service call that returns a value or an error. */
  datatype Outcome<T> = Ok(value: T) | Err(error: AppErrors.Error)

  /** No repository call fails, or the `call`-th one (counting from 0) returns `error`. */
  datatype Fault = NoFault | FailsAt(call: nat, error: AppErrors.Error)

  predicate Fails(fault: Fault, call: nat) {
    fault.FailsAt? && fault.call == call
  }

  /** The tables, with the next id each auto-increment column hands out. */
  class Database {
    var categories: map<nat, CategoryRecord>
    var subCategories: map<nat, SubCategoryRecord>
    var items: map<nat, ItemRecord>
    var nextCategoryId: nat
    var nextSubCategoryId: nat
    var nextItemId: nat

    /** Every row is filed under its own id, and ids are below the next one handed out. */
    ghost predicate Valid()
      reads this
    {
      && (forall id | id in categories :: categories[id].id == id && id < nextCategoryId)
      && (forall id | id in subCategories :: subCategories[id].id == id && id < nextSubCategoryId)
      && (forall id | id in items :: items[id].id == id && id < nextItemId)
    }

    constructor ()
      ensures Valid()
      ensures categories == map[] && subCategories == map[] && items == map[]
      ensures nextCategoryId == 1 && nextSubCategoryId == 1 && nextItemId == 1
    {
      categories, subCategories, items := map[], map[], map[];
      nextCategoryId, nextSubCategoryId, nextItemId := 1, 1, 1;
    }
  }

  /** The ids of the subcategories filed under a category (`Count` with only CategoryID set). */
  function SubCategoriesOf(subs: map<nat, SubCategoryRecord>, categoryId: nat): set<nat> {
    set id | id in subs && subs[id].categoryId == categoryId
  }

  /** The ids of the active subcategories of a category, the ones `GetWithSubCategories` preloads. */
  function ActiveSubCategoriesOf(subs: map<nat, SubCategoryRecord>, categoryId: nat): (r: set<nat>)
    ensures r <= SubCategoriesOf(subs, categoryId)
  {
    set id | id in subs && subs[id].categoryId == categoryId && subs[id].active
  }

  /** The ids of the items of a subcategory (`Count` with only SubCategoryID set). */
  function ItemsOf(items: map<nat, ItemRecord>, subCategoryId: nat): set<nat> {
    set id | id in items && items[id].subCategoryId == subCategoryId
  }

  /**
   * The list filters the services build.  Only the fields that select rows
   * and the ordering are kept; None is a nil pointer.
   */
  datatype SubCategoryFilter = SubCategoryFilter(
    categoryId: Option<nat>, active: Option<bool>, search: string, limit: int, offset: int,
    orderBy: string, orderDir: string, includeCount: bool)

  datatype ItemFilter = ItemFilter(
    subCategoryId: Option<nat>, categoryId: Option<nat>, available: Option<bool>,
    minPrice: Option<real>, maxPrice: Option<real>, search: string, limit: int, offset: int,
    orderBy: string, orderDir: string, includeCount: bool)

  const EmptySubCategoryFilter := SubCategoryFilter(None, None, "", 0, 0, "", "", false)
  const EmptyItemFilter := ItemFilter(None, None, None, None, None, "", 0, 0, "", "", false)

  /**
   * The search condition `LOWER(name) LIKE %q% OR LOWER(description) LIKE
   * %q%` with q the lower-cased query; an empty query selects everything.
   */
  predicate SearchMatches(lower: CaseMap, query: string, name: string, description: string) {
    query == "" ||
    Contains(MapRunes(lower, name), MapRunes(lower, query)) ||
    Contains(MapRunes(lower, description), MapRunes(lower, query))
  }

  /** The WHERE clause a subcategory filter puts on a row. */
  predicate SubCategoryMatches(lower: CaseMap, f: SubCategoryFilter, r: SubCategoryRecord) {
    && (f.categoryId.Some? ==> r.categoryId == f.categoryId.value)
    && (f.active.Some? ==> r.active == f.active.value)
    && SearchMatches(lower, f.search, r.name, r.description)
  }

  /**
   * The WHERE clause an item filter puts on a row; the category condition
   * joins through the item's subcategory.
   */
  predicate ItemMatches(lower: CaseMap, f: ItemFilter, subs: map<nat, SubCategoryRecord>, r: ItemRecord) {
    && (f.subCategoryId.Some? ==> r.subCategoryId == f.subCategoryId.value)
    && (f.categoryId.Some? ==>
          r.subCategoryId in subs && subs[r.subCategoryId].categoryId == f.categoryId.value)
    && (f.available.Some? ==> r.available == f.available.value)
    && (f.minPrice.Some? ==> r.price >= f.minPrice.value)
    && (f.maxPrice.Some? ==> r.price <= f.maxPrice.value)
    && SearchMatches(lower, f.search, r.name, r.description)
  }

  /**
   * The ORDER BY the list queries use: the caller's column with ASC unless
   * the direction is DESC, or display order then newest first.  `upper` is the
   * case mapping of `strings.ToUpper`.
   */
  function OrderClause(upper: CaseMap, orderBy: string, orderDir: string): (r: string)
    ensures orderBy == "" ==> r == "display_order ASC, created_at DESC"
    ensures orderBy != "" ==> r == orderBy + " ASC" || r == orderBy + " DESC"
  {
    if orderBy == "" then "display_order ASC, created_at DESC"
    else
      var direction := if orderDir != "" && MapRunes(upper, orderDir) == "DESC" then "DESC" else "ASC";
      orderBy + " " + direction
  }
}
