/**
 * backend/internal/domain/services/menu_service.go: the complete menu
 * (categories, their subcategories and each subcategory's items, with
 * totals), the menu of one category, item search and featured items.
 *
 * The repositories' answers are parameters: the category tree the
 * preloading query returns, and a function giving, per subcategory id, the
 * items the item query returns or its error.
 */
module MenuService {
  import opened Wrappers
  import opened Entities
  import opened Store
  import AppErrors
  import Common

  /** What a list query answers: its rows, or an error. */
  datatype Listing<T> = Listed(rows: seq<T>) | ListFailed(error: AppErrors.Error)

  /** A category with its preloaded (active) subcategories. */
  datatype CategoryTree = CategoryTree(category: CategoryRecord, subCategories: seq<SubCategoryRecord>)

  datatype MenuSubCategory = MenuSubCategory(subCategory: SubCategoryRecord, items: seq<ItemRecord>)
  datatype MenuCategory = MenuCategory(category: CategoryRecord, subCategories: seq<MenuSubCategory>)

  datatype MenuStats = MenuStats(totalCategories: int, totalSubCategories: int, totalItems: int, availableItems: int)
  datatype MenuResponse = MenuResponse(categories: seq<MenuCategory>, stats: MenuStats)

  datatype MenuCategoryStats = MenuCategoryStats(totalSubCategories: int, totalItems: int, availableItems: int)
  datatype MenuCategoryResponse = MenuCategoryResponse(
    category: CategoryRecord, subCategories: seq<MenuSubCategory>, stats: MenuCategoryStats)

  /** The item query's answer for each subcategory id. */
  type ItemQuery = nat -> Listing<ItemRecord>

  /**
   * The subcategories that make it into a menu: those whose item query
   * succeeded, in their order, each with the items it returned.
   */
  function Kept(subs: seq<SubCategoryRecord>, itemsOf: ItemQuery): (r: seq<MenuSubCategory>)
    ensures |r| <= |subs|
    ensures forall j :: 0 <= j < |r| ==> r[j].subCategory in subs && itemsOf(r[j].subCategory.id) == Listed(r[j].items)
  {
    if subs == [] then []
    else
      var last := subs[|subs| - 1];
      Kept(subs[..|subs| - 1], itemsOf) +
        match itemsOf(last.id)
        case Listed(items) => [MenuSubCategory(last, items)]
        case ListFailed(_) => []
  }

  /** When no item query fails, every subcategory is kept, in order. */
  lemma {:induction false} KeptAll(subs: seq<SubCategoryRecord>, itemsOf: ItemQuery)
    requires forall k :: 0 <= k < |subs| ==> itemsOf(subs[k].id).Listed?
    ensures |Kept(subs, itemsOf)| == |subs|
    ensures forall k :: 0 <= k < |subs| ==>
      Kept(subs, itemsOf)[k] == MenuSubCategory(subs[k], itemsOf(subs[k].id).rows)
  {
    if subs != [] {
      var init, last := subs[..|subs| - 1], subs[|subs| - 1];
      assert forall k :: 0 <= k < |init| ==> init[k] == subs[k];
      KeptAll(init, itemsOf);
      var rest := Kept(init, itemsOf);
      assert itemsOf(last.id) == Listed(itemsOf(last.id).rows);
      assert Kept(subs, itemsOf) == rest + [MenuSubCategory(last, itemsOf(last.id).rows)];
      forall k | 0 <= k < |subs|
        ensures Kept(subs, itemsOf)[k] == MenuSubCategory(subs[k], itemsOf(subs[k].id).rows)
      {
        if k < |init| {
          assert Kept(subs, itemsOf)[k] == rest[k];
        }
      }
    }
  }

  /** The number of items over a list of menu subcategories. */
  function ItemTotal(subs: seq<MenuSubCategory>): nat {
    if subs == [] then 0 else ItemTotal(subs[..|subs| - 1]) + |subs[|subs| - 1].items|
  }

  /** The number of available items over a list of menu subcategories. */
  function AvailableTotal(subs: seq<MenuSubCategory>): nat {
    if subs == [] then 0 else AvailableTotal(subs[..|subs| - 1]) + AvailableIn(subs[|subs| - 1].items)
  }

  function AvailableIn(items: seq<ItemRecord>): (n: nat)
    ensures n <= |items|
  {
    if items == [] then 0 else AvailableIn(items[..|items| - 1]) + (if items[|items| - 1].available then 1 else 0)
  }

  /** Available items never outnumber items. */
  lemma {:induction false} AvailableAtMostTotal(subs: seq<MenuSubCategory>)
    ensures AvailableTotal(subs) <= ItemTotal(subs)
  {
    if subs != [] {
      AvailableAtMostTotal(subs[..|subs| - 1]);
    }
  }

  /** When every listed item is available, the two counts agree. */
  lemma {:induction false} AvailableTotalOfAvailableItems(subs: seq<MenuSubCategory>)
    requires forall j, k :: 0 <= j < |subs| && 0 <= k < |subs[j].items| ==> subs[j].items[k].available
    ensures AvailableTotal(subs) == ItemTotal(subs)
  {
    if subs != [] {
      AvailableTotalOfAvailableItems(subs[..|subs| - 1]);
      AllAvailable(subs[|subs| - 1].items);
    }
  }

  lemma {:induction false} AllAvailable(items: seq<ItemRecord>)
    requires forall k :: 0 <= k < |items| ==> items[k].available
    ensures AvailableIn(items) == |items|
  {
    if items != [] {
      AllAvailable(items[..|items| - 1]);
    }
  }

  /** The menu categories: one per category, in order, each with its kept subcategories. */
  function MenuOf(cats: seq<CategoryTree>, itemsOf: ItemQuery): (menu: seq<MenuCategory>)
    ensures |menu| == |cats|
    ensures forall i :: 0 <= i < |cats| ==> menu[i].category == cats[i].category
  {
    seq(|cats|, i requires 0 <= i < |cats| => MenuCategory(cats[i].category, Kept(cats[i].subCategories, itemsOf)))
  }

  /** The number of preloaded subcategories, whether or not their item query succeeded. */
  function SubCategoryTotal(cats: seq<CategoryTree>): nat {
    if cats == [] then 0 else SubCategoryTotal(cats[..|cats| - 1]) + |cats[|cats| - 1].subCategories|
  }

  /** The number of subcategories that made it into a menu. */
  function KeptTotal(menu: seq<MenuCategory>): nat {
    if menu == [] then 0 else KeptTotal(menu[..|menu| - 1]) + |menu[|menu| - 1].subCategories|
  }

  /** The number of items over the whole menu. */
  function MenuItemTotal(menu: seq<MenuCategory>): nat {
    if menu == [] then 0 else MenuItemTotal(menu[..|menu| - 1]) + ItemTotal(menu[|menu| - 1].subCategories)
  }

  /**
   * TotalSubCategories counts the subcategories whose item query failed too:
   * it is at least the number shown, and equal when no query fails.
   */
  lemma {:induction false} SubCategoryTotalCountsOmitted(cats: seq<CategoryTree>, itemsOf: ItemQuery)
    ensures KeptTotal(MenuOf(cats, itemsOf)) <= SubCategoryTotal(cats)
    ensures (forall i, k :: 0 <= i < |cats| && 0 <= k < |cats[i].subCategories| ==>
               itemsOf(cats[i].subCategories[k].id).Listed?) ==>
            KeptTotal(MenuOf(cats, itemsOf)) == SubCategoryTotal(cats)
  {
    if cats != [] {
      var init := cats[..|cats| - 1];
      SubCategoryTotalCountsOmitted(init, itemsOf);
      assert MenuOf(cats, itemsOf)[..|cats| - 1] == MenuOf(init, itemsOf);
      var last := cats[|cats| - 1];
      if forall k :: 0 <= k < |last.subCategories| ==> itemsOf(last.subCategories[k].id).Listed? {
        KeptAll(last.subCategories, itemsOf);
      }
    }
  }

  /** A menu subcategory list extended by one subcategory: the totals grow by its items. */
  lemma ItemTotalsOfSnoc(subs: seq<MenuSubCategory>, m: MenuSubCategory)
    ensures ItemTotal(subs + [m]) == ItemTotal(subs) + |m.items|
    ensures AvailableTotal(subs + [m]) == AvailableTotal(subs) + AvailableIn(m.items)
  {
    assert (subs + [m])[..|subs|] == subs;
  }

  /** One more subcategory of a category: kept exactly when its item query succeeds. */
  lemma KeptSnoc(subs: seq<SubCategoryRecord>, s: SubCategoryRecord, itemsOf: ItemQuery)
    ensures Kept(subs + [s], itemsOf) ==
      Kept(subs, itemsOf) + match itemsOf(s.id) case Listed(items) => [MenuSubCategory(s, items)] case ListFailed(_) => []
  {
    assert (subs + [s])[..|subs|] == subs;
  }

  /** The menu over one more category. */
  lemma MenuSnoc(cats: seq<CategoryTree>, i: nat, itemsOf: ItemQuery)
    requires i < |cats|
    ensures MenuOf(cats[..i + 1], itemsOf) ==
      MenuOf(cats[..i], itemsOf) + [MenuCategory(cats[i].category, Kept(cats[i].subCategories, itemsOf))]
    ensures SubCategoryTotal(cats[..i + 1]) == SubCategoryTotal(cats[..i]) + |cats[i].subCategories|
  {
    assert cats[..i + 1][..i] == cats[..i];
  }

  lemma MenuTotalsSnoc(menu: seq<MenuCategory>, m: MenuCategory)
    ensures MenuItemTotal(menu + [m]) == MenuItemTotal(menu) + ItemTotal(m.subCategories)
  {
    assert (menu + [m])[..|menu|] == menu;
  }

  /**
   * The items of one subcategory loop: append the kept subcategory and add
   * its item count; a failed item query is skipped.
   */
  method CollectSubCategories(subs: seq<SubCategoryRecord>, itemsOf: ItemQuery)
    returns (menuSubs: seq<MenuSubCategory>, totalItems: nat)
    ensures menuSubs == Kept(subs, itemsOf)
    ensures totalItems == ItemTotal(menuSubs)
  {
    menuSubs, totalItems := [], 0;
    var j := 0;
    while j < |subs|
      invariant 0 <= j <= |subs|
      invariant menuSubs == Kept(subs[..j], itemsOf)
      invariant totalItems == ItemTotal(menuSubs)
    {
      var s := subs[j];
      KeptSnoc(subs[..j], s, itemsOf);
      assert subs[..j + 1] == subs[..j] + [s];
      match itemsOf(s.id) {
        case ListFailed(_) =>
        case Listed(items) =>
          ItemTotalsOfSnoc(menuSubs, MenuSubCategory(s, items));
          menuSubs := menuSubs + [MenuSubCategory(s, items)];
          totalItems := totalItems + |items|;
      }
      j := j + 1;
    }
    assert subs[..|subs|] == subs;
  }

  /**
   * `GetCompleteMenu`: `categories` is the answer of the active-category query
   * with its active subcategories preloaded.  The menu keeps the category
   * order; TotalCategories counts the categories, TotalSubCategories every
   * preloaded subcategory, and TotalItems and AvailableItems both count the
   * items of the kept subcategories.
   */
  method GetCompleteMenu(categories: Listing<CategoryTree>, itemsOf: ItemQuery) returns (r: Outcome<MenuResponse>)
    ensures categories.ListFailed? ==> r == Err(AppErrors.App(AppErrors.WrapInternalError(categories.error, "Failed to get menu categories")))
    ensures categories.Listed? ==>
      var cats := categories.rows;
      var menu := MenuOf(cats, itemsOf);
      r == Ok(MenuResponse(menu, MenuStats(|cats|, SubCategoryTotal(cats), MenuItemTotal(menu), MenuItemTotal(menu))))
  {
    if categories.ListFailed? {
      return Err(AppErrors.App(AppErrors.WrapInternalError(categories.error, "Failed to get menu categories")));
    }
    var cats := categories.rows;
    var menuCategories: seq<MenuCategory> := [];
    var totalSubCategories, totalItems, availableItems := 0, 0, 0;
    var i := 0;
    while i < |cats|
      invariant 0 <= i <= |cats|
      invariant menuCategories == MenuOf(cats[..i], itemsOf)
      invariant totalSubCategories == SubCategoryTotal(cats[..i])
      invariant totalItems == availableItems == MenuItemTotal(menuCategories)
    {
      var category := cats[i];
      totalSubCategories := totalSubCategories + |category.subCategories|;
      var menuSubs, subItems := CollectSubCategories(category.subCategories, itemsOf);
      totalItems := totalItems + subItems;
      availableItems := availableItems + subItems;
      MenuSnoc(cats, i, itemsOf);
      MenuTotalsSnoc(menuCategories, MenuCategory(category.category, menuSubs));
      menuCategories := menuCategories + [MenuCategory(category.category, menuSubs)];
      i := i + 1;
    }
    assert cats[..|cats|] == cats;
    return Ok(MenuResponse(menuCategories, MenuStats(|cats|, totalSubCategories, totalItems, availableItems)));
  }

  /** The category lookup `GetWithSubCategories`: an error, no such category (nil), or the category with its active subcategories. */
  datatype CategoryLookup = LookupFailed(error: AppErrors.Error) | NoCategory | FoundCategory(tree: CategoryTree)

  /**
   * The subcategory loop of GetMenuByCategory: keep the subcategories whose
   * item query succeeds, count their items, and count the available ones
   * item by item.
   */
  method CollectWithAvailability(subs: seq<SubCategoryRecord>, itemsOf: ItemQuery)
    returns (menuSubs: seq<MenuSubCategory>, totalItems: nat, availableItems: nat)
    ensures menuSubs == Kept(subs, itemsOf)
    ensures totalItems == ItemTotal(menuSubs) && availableItems == AvailableTotal(menuSubs)
  {
    menuSubs, totalItems, availableItems := [], 0, 0;
    var j := 0;
    while j < |subs|
      invariant 0 <= j <= |subs|
      invariant menuSubs == Kept(subs[..j], itemsOf)
      invariant totalItems == ItemTotal(menuSubs) && availableItems == AvailableTotal(menuSubs)
    {
      var s := subs[j];
      KeptSnoc(subs[..j], s, itemsOf);
      assert subs[..j + 1] == subs[..j] + [s];
      match itemsOf(s.id) {
        case ListFailed(_) =>
        case Listed(items) =>
          ItemTotalsOfSnoc(menuSubs, MenuSubCategory(s, items));
          menuSubs := menuSubs + [MenuSubCategory(s, items)];
          totalItems := totalItems + |items|;
          var available := CountAvailable(items);
          availableItems := availableItems + available;
      }
      j := j + 1;
    }
    assert subs[..|subs|] == subs;
  }

  /** The innermost loop: count the items whose Available flag is set. */
  method CountAvailable(items: seq<ItemRecord>) returns (n: nat)
    ensures n == AvailableIn(items)
  {
    n := 0;
    var k := 0;
    while k < |items|
      invariant 0 <= k <= |items|
      invariant n == AvailableIn(items[..k])
    {
      assert items[..k + 1][..k] == items[..k];
      if items[k].available {
        n := n + 1;
      }
      k := k + 1;
    }
    assert items[..|items|] == items;
  }

  /**
   * `GetMenuByCategory`: NotFound for a missing category; otherwise the kept
   * subcategories with TotalSubCategories counting all preloaded ones and
   * AvailableItems the available items among TotalItems.
   */
  method GetMenuByCategory(lookup: CategoryLookup, itemsOf: ItemQuery) returns (r: Outcome<MenuCategoryResponse>)
    ensures lookup.LookupFailed? ==> r == Err(AppErrors.App(AppErrors.WrapInternalError(lookup.error, "Failed to get category")))
    ensures lookup.NoCategory? ==> r == Err(AppErrors.App(AppErrors.NewNotFoundError("Category")))
    ensures lookup.FoundCategory? ==>
      var subs := lookup.tree.subCategories;
      var kept := Kept(subs, itemsOf);
      r == Ok(MenuCategoryResponse(lookup.tree.category, kept,
                                   MenuCategoryStats(|subs|, ItemTotal(kept), AvailableTotal(kept))))
  {
    match lookup
    case LookupFailed(e) =>
      return Err(AppErrors.App(AppErrors.WrapInternalError(e, "Failed to get category")));
    case NoCategory =>
      return Err(AppErrors.App(AppErrors.NewNotFoundError("Category")));
    case FoundCategory(tree) =>
      var menuSubs, totalItems, availableItems := CollectWithAvailability(tree.subCategories, itemsOf);
      return Ok(MenuCategoryResponse(tree.category, menuSubs,
                                     MenuCategoryStats(|tree.subCategories|, totalItems, availableItems)));
  }

  /** In the category menu, AvailableItems never exceeds TotalItems. */
  lemma MenuByCategoryAvailableAtMostTotal(tree: CategoryTree, itemsOf: ItemQuery)
    ensures AvailableTotal(Kept(tree.subCategories, itemsOf)) <= ItemTotal(Kept(tree.subCategories, itemsOf))
  {
    AvailableAtMostTotal(Kept(tree.subCategories, itemsOf));
  }

  /** `SearchFilters`: the caller's conditions on the item search. */
  datatype SearchFilters = SearchFilters(
    categoryId: Option<nat>, subCategoryId: Option<nat>, minPrice: Option<real>, maxPrice: Option<real>,
    available: Option<bool>, limit: int, offset: int)

  /** The filter SearchMenuItems hands to the repository: a zero limit becomes 20, and a count is always asked for. */
  function SearchItemFilter(filters: SearchFilters): (f: ItemFilter)
    ensures f.limit != 0 && (filters.limit != 0 ==> f.limit == filters.limit)
    ensures filters.limit == 0 ==> f.limit == 20
    ensures f.includeCount && f.search == "" && f.offset == filters.offset
  {
    var f := EmptyItemFilter.(categoryId := filters.categoryId, subCategoryId := filters.subCategoryId,
                              available := filters.available, minPrice := filters.minPrice,
                              maxPrice := filters.maxPrice, limit := filters.limit, offset := filters.offset,
                              includeCount := true);
    if f.limit == 0 then f.(limit := 20) else f
  }

  /** Go's `/` on ints, truncating toward zero, for any non-zero divisor. */
  function TruncatedQuotient(a: int, b: int): (q: int)
    requires b != 0
    ensures b > 0 ==> q == Common.GoQuotient(a, b)
  {
    var magnitude := (if a < 0 then -a else a) / (if b < 0 then -b else b);
    if (a < 0) == (b < 0) then magnitude else -magnitude
  }

  /**
   * The page summary the repository's search returns when a count is asked
   * for: page `offset / limit + 1` (the limit here is never zero) over the
   * matching total.
   */
  function SearchPagination(f: ItemFilter, total: int): Common.Pagination
    requires f.limit != 0
  {
    Common.NewPagination(TruncatedQuotient(f.offset, f.limit) + 1, f.limit, total)
  }

  datatype SearchStats = SearchStats(totalResults: int, searchQuery: string)
  datatype SearchResponse = SearchResponse(items: seq<ItemRecord>, pagination: Common.Pagination, stats: SearchStats)

  /** The repository's search answer: the page of items and the number of matches, or an error. */
  datatype SearchAnswer = Searched(items: seq<ItemRecord>, total: int) | SearchFailed(error: AppErrors.Error)

  /**
   * `SearchMenuItems`: an empty query is a bad request, decided before any
   * repository call (`answer` is then not consulted); otherwise the result
   * carries the repository's items, and TotalResults is the pagination total.
   */
  function SearchMenuItems(query: string, filters: SearchFilters, answer: SearchAnswer): (r: Outcome<SearchResponse>)
    ensures query == "" ==> r == Err(AppErrors.App(AppErrors.NewBadRequestError("Search query is required", "")))
    ensures query == "" ==> r.Err? && AppErrors.GetStatusCode(r.error) == 400
    ensures query != "" && answer.SearchFailed? ==> r.Err? && AppErrors.GetStatusCode(r.error) == 500
    ensures r.Ok? ==> query != "" && answer.Searched? && r.value.items == answer.items
    ensures r.Ok? ==> r.value.stats == SearchStats(r.value.pagination.total, query) && r.value.pagination.total == answer.total
    ensures r.Ok? ==> r.value.pagination == SearchPagination(SearchItemFilter(filters), answer.total)
  {
    if query == "" then Err(AppErrors.App(AppErrors.NewBadRequestError("Search query is required", "")))
    else
      var f := SearchItemFilter(filters);
      match answer
      case SearchFailed(e) => Err(AppErrors.App(AppErrors.WrapInternalError(e, "Failed to search menu items")))
      case Searched(items, total) =>
        var pagination := SearchPagination(f, total);
        Ok(SearchResponse(items, pagination, SearchStats(pagination.total, query)))
  }

  /** The limit GetFeaturedItems asks the repository for: a limit of 0 or less becomes 10. */
  function FeaturedLimit(limit: int): (n: int)
    ensures n >= 1
    ensures limit > 0 ==> n == limit
    ensures limit <= 0 ==> n == 10
  {
    if limit <= 0 then 10 else limit
  }

  /** `GetFeaturedItems`: the repository's items for the defaulted limit, or an internal error. */
  function GetFeaturedItems(limit: int, answer: nat -> Listing<ItemRecord>): (r: Outcome<seq<ItemRecord>>)
    ensures answer(FeaturedLimit(limit)).Listed? ==> r == Ok(answer(FeaturedLimit(limit)).rows)
    ensures answer(FeaturedLimit(limit)).ListFailed? ==> r.Err? && AppErrors.GetStatusCode(r.error) == 500
  {
    match answer(FeaturedLimit(limit))
    case Listed(items) => Ok(items)
    case ListFailed(e) => Err(AppErrors.App(AppErrors.WrapInternalError(e, "Failed to get featured items")))
  }
}
