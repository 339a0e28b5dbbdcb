/**
 * backend/internal/domain/services/item_service.go: item create with its
 * defaults, the partial-update merge, and the list filters of the read
 * operations.  Repository errors are returned unchanged.
 */
module ItemService {
  import opened Wrappers
  import opened Text
  import opened Entities
  import opened Store
  import AppErrors
  import SubCategoryService

  const ItemNotFound: AppErrors.Error := AppErrors.App(AppErrors.NewNotFoundError("Item"))

  /** `fmt.Errorf("failed to get item count: %w", err)`. */
  function CountError(err: AppErrors.Error): (e: AppErrors.Error)
    ensures AppErrors.AsAppError(e) == AppErrors.AsAppError(err)
  {
    AppErrors.Wrapped("failed to get item count: " + AppErrors.ErrorText(err), err)
  }

  /**
   * The outcome of `Create`.  A zero display order becomes the number of
   * items already in the subcategory plus one (a count, call 0); Available
   * is forced to true; an empty currency becomes USD.  `now` is the creation
   * time the database stamps.
   */
  function CreateResult(items: map<nat, ItemRecord>, nextId: nat, now: int, item: ItemRecord, fault: Fault)
    : (r: Outcome<ItemRecord>)
    ensures item.displayOrder == 0 && Fails(fault, 0) ==> r == Err(CountError(fault.error))
    ensures r.Ok? ==> r.value.available
    ensures r.Ok? ==> r.value.id == nextId && r.value.createdAt == now
    ensures r.Ok? ==> r.value.(id := item.id, createdAt := item.createdAt, available := item.available,
                               currency := item.currency, displayOrder := item.displayOrder) == item
    ensures r.Ok? ==> r.value.currency == if item.currency == "" then "USD" else item.currency
    ensures r.Ok? && item.displayOrder != 0 ==> r.value.displayOrder == item.displayOrder
    ensures r.Ok? && item.displayOrder == 0 ==> r.value.displayOrder == |ItemsOf(items, item.subCategoryId)| + 1
    ensures r.Ok? <==> if item.displayOrder == 0 then !Fails(fault, 0) && !Fails(fault, 1) else !Fails(fault, 0)
  {
    if item.displayOrder == 0 && Fails(fault, 0) then Err(CountError(fault.error))
    else
      var order := if item.displayOrder == 0 then |ItemsOf(items, item.subCategoryId)| + 1 else item.displayOrder;
      var insertCall := if item.displayOrder == 0 then 1 else 0;
      if Fails(fault, insertCall) then Err(fault.error)
      else Ok(item.(id := nextId, createdAt := now, displayOrder := order, available := true,
                    currency := if item.currency == "" then "USD" else item.currency))
  }

  /** `Create`: the defaults are assigned one by one on the item, which is then inserted. */
  method Create(db: Database, now: int, item: ItemRecord, fault: Fault) returns (r: Outcome<ItemRecord>)
    requires db.Valid()
    modifies db
    ensures db.Valid()
    ensures r == CreateResult(old(db.items), old(db.nextItemId), now, item, fault)
    ensures r.Ok? ==> db.items == old(db.items)[r.value.id := r.value] && db.nextItemId == old(db.nextItemId) + 1
    ensures r.Err? ==> db.items == old(db.items) && db.nextItemId == old(db.nextItemId)
    ensures db.categories == old(db.categories) && db.subCategories == old(db.subCategories)
    ensures db.nextCategoryId == old(db.nextCategoryId) && db.nextSubCategoryId == old(db.nextSubCategoryId)
  {
    var created := item;
    var call := 0;
    if created.displayOrder == 0 {
      if Fails(fault, call) {
        return Err(CountError(fault.error));
      }
      var count := |ItemsOf(db.items, created.subCategoryId)|;
      created := created.(displayOrder := count + 1);
      call := call + 1;
    }
    if !created.available {
      created := created.(available := true);
    }
    if created.currency == "" {
      created := created.(currency := "USD");
    }
    if Fails(fault, call) {
      return Err(fault.error);
    }
    created := created.(id := db.nextItemId, createdAt := now);
    db.items := db.items[created.id := created];
    db.nextItemId := db.nextItemId + 1;
    return Ok(created);
  }

  /**
   * The merge of Update: Name, Description, Currency and ImageURL replace
   * theirs only when non-empty; Price, SubCategoryID and DisplayOrder only
   * when non-zero; Available and DietaryInfo always.
   */
  function Merge(existing: ItemRecord, update: ItemRecord): (m: ItemRecord)
    ensures m.id == existing.id && m.createdAt == existing.createdAt
    ensures m.name == (if update.name != "" then update.name else existing.name)
    ensures m.description == (if update.description != "" then update.description else existing.description)
    ensures m.currency == (if update.currency != "" then update.currency else existing.currency)
    ensures m.imageUrl == (if update.imageUrl != "" then update.imageUrl else existing.imageUrl)
    ensures m.price == (if update.price != 0.0 then update.price else existing.price)
    ensures m.subCategoryId == (if update.subCategoryId != 0 then update.subCategoryId else existing.subCategoryId)
    ensures m.displayOrder == (if update.displayOrder != 0 then update.displayOrder else existing.displayOrder)
    ensures m.available == update.available && m.dietaryInfo == update.dietaryInfo
  {
    existing.(
      name := if update.name != "" then update.name else existing.name,
      description := if update.description != "" then update.description else existing.description,
      price := if update.price != 0.0 then update.price else existing.price,
      currency := if update.currency != "" then update.currency else existing.currency,
      imageUrl := if update.imageUrl != "" then update.imageUrl else existing.imageUrl,
      subCategoryId := if update.subCategoryId != 0 then update.subCategoryId else existing.subCategoryId,
      displayOrder := if update.displayOrder != 0 then update.displayOrder else existing.displayOrder,
      available := update.available,
      dietaryInfo := update.dietaryInfo)
  }

  /** Applying the same update twice is the same as applying it once. */
  lemma MergeIdempotent(existing: ItemRecord, update: ItemRecord)
    ensures Merge(Merge(existing, update), update) == Merge(existing, update)
  {
  }

  /**
   * An update whose optional fields are all empty or zero still overwrites
   * Available and DietaryInfo: a blank update clears the dietary information.
   */
  lemma MergeOfBlankUpdate(existing: ItemRecord, update: ItemRecord)
    requires update.name == "" && update.description == "" && update.currency == "" && update.imageUrl == ""
    requires update.price == 0.0 && update.subCategoryId == 0 && update.displayOrder == 0
    ensures Merge(existing, update) == existing.(available := update.available, dietaryInfo := update.dietaryInfo)
  {
  }

  /** The outcome of the corrected `Update`: lookup error, NotFound, save error, or success. */
  function UpdateResult(items: map<nat, ItemRecord>, id: nat, fault: Fault): (r: Option<AppErrors.Error>)
    ensures Fails(fault, 0) ==> r == Some(fault.error)
    ensures !Fails(fault, 0) && id !in items ==> r == Some(ItemNotFound)
    ensures r == None <==> id in items && !Fails(fault, 0) && !Fails(fault, 1)
  {
    if Fails(fault, 0) then Some(fault.error)
    else if id !in items then Some(ItemNotFound)
    else if Fails(fault, 1) then Some(fault.error)
    else None
  }

  /**
   * `Update` as written: only the lookup's error is checked, so the (nil, nil)
   * answer for a missing id is dereferenced.
   */
  function UpdateAsWritten(items: map<nat, ItemRecord>, id: nat, fault: Fault): (r: SubCategoryService.GoReturn)
    ensures r == SubCategoryService.NilDereference <==> !Fails(fault, 0) && id !in items
    ensures r != SubCategoryService.NilDereference ==> r == SubCategoryService.Returned(UpdateResult(items, id, fault))
  {
    if Fails(fault, 0) then SubCategoryService.Returned(Some(fault.error))
    else if id !in items then SubCategoryService.NilDereference
    else if Fails(fault, 1) then SubCategoryService.Returned(Some(fault.error))
    else SubCategoryService.Returned(None)
  }

  /** Updating an item that does not exist: the code as written panics, the corrected one answers NotFound. */
  lemma UpdateOfMissingItemPanics(items: map<nat, ItemRecord>, id: nat)
    requires id !in items
    ensures UpdateAsWritten(items, id, NoFault) == SubCategoryService.NilDereference
    ensures UpdateResult(items, id, NoFault) == Some(ItemNotFound)
  {
  }

  /** The field assignments of Update on the fetched item. */
  method Assign(item: ItemRecord, update: ItemRecord) returns (existing: ItemRecord)
    ensures existing == Merge(item, update)
  {
    existing := item;
    if update.name != "" {
      existing := existing.(name := update.name);
    }
    if update.description != "" {
      existing := existing.(description := update.description);
    }
    if update.price != 0.0 {
      existing := existing.(price := update.price);
    }
    if update.currency != "" {
      existing := existing.(currency := update.currency);
    }
    if update.imageUrl != "" {
      existing := existing.(imageUrl := update.imageUrl);
    }
    if update.subCategoryId != 0 {
      existing := existing.(subCategoryId := update.subCategoryId);
    }
    if update.displayOrder != 0 {
      existing := existing.(displayOrder := update.displayOrder);
    }
    existing := existing.(available := update.available, dietaryInfo := update.dietaryInfo);
  }

  /** `Update`, corrected to answer NotFound for a missing id; the fields are merged on the fetched item. */
  method Update(db: Database, id: nat, update: ItemRecord, fault: Fault) returns (err: Option<AppErrors.Error>)
    requires db.Valid()
    modifies db
    ensures db.Valid()
    ensures err == UpdateResult(old(db.items), id, fault)
    ensures err == None ==> db.items == old(db.items)[id := Merge(old(db.items)[id], update)]
    ensures err != None ==> db.items == old(db.items)
    ensures db.categories == old(db.categories) && db.subCategories == old(db.subCategories)
    ensures db.nextCategoryId == old(db.nextCategoryId) && db.nextSubCategoryId == old(db.nextSubCategoryId)
    ensures db.nextItemId == old(db.nextItemId)
  {
    if Fails(fault, 0) {
      return Some(fault.error);
    }
    if id !in db.items {
      return Some(ItemNotFound);
    }
    var merged := Assign(db.items[id], update);
    if Fails(fault, 1) {
      return Some(fault.error);
    }
    db.items := db.items[id := merged];
    return None;
  }

  /** The filter `GetBySubCategoryID` hands to the list query. */
  function GetBySubCategoryIDFilter(subCategoryId: nat): ItemFilter {
    EmptyItemFilter.(subCategoryId := Some(subCategoryId), available := Some(true),
                     orderBy := "display_order", orderDir := "ASC")
  }

  /** The filter `GetFeatured` hands to the list query. */
  function GetFeaturedFilter(limit: int): ItemFilter {
    EmptyItemFilter.(available := Some(true), orderBy := "created_at", orderDir := "DESC", limit := limit)
  }

  /** `Search`: the caller's filter with its search text replaced by the query, and nothing else changed. */
  function SearchFilter(query: string, filter: ItemFilter): (f: ItemFilter)
    ensures f.search == query && f.(search := filter.search) == filter
  {
    filter.(search := query)
  }

  /** `GetBySubCategoryID` lists exactly the available items of the subcategory, by ascending display order. */
  lemma GetBySubCategoryIDSelects(lower: CaseMap, upper: CaseMap, subs: map<nat, SubCategoryRecord>,
                                  subCategoryId: nat, item: ItemRecord)
    ensures ItemMatches(lower, GetBySubCategoryIDFilter(subCategoryId), subs, item) <==>
      item.subCategoryId == subCategoryId && item.available
    ensures var f := GetBySubCategoryIDFilter(subCategoryId);
      OrderClause(upper, f.orderBy, f.orderDir) == "display_order ASC"
  {
    var f := GetBySubCategoryIDFilter(subCategoryId);
    assert MapRunes(upper, f.orderDir) != "DESC" by {
      assert |MapRunes(upper, f.orderDir)| == 3;
    }
  }

  /**
   * `GetFeatured` lists the available items, newest first, at most `limit`
   * of them (a limit of 0 or less lists all), provided `upper` maps the
   * letters of DESC to themselves.
   */
  lemma GetFeaturedSelects(lower: CaseMap, upper: CaseMap, subs: map<nat, SubCategoryRecord>, limit: int, item: ItemRecord)
    requires upper('D') == 'D' && upper('E') == 'E' && upper('S') == 'S' && upper('C') == 'C'
    ensures ItemMatches(lower, GetFeaturedFilter(limit), subs, item) <==> item.available
    ensures var f := GetFeaturedFilter(limit);
      OrderClause(upper, f.orderBy, f.orderDir) == "created_at DESC" && f.limit == limit
  {
    var f := GetFeaturedFilter(limit);
    assert MapRunes(upper, f.orderDir) == "DESC";
  }

  /** `Search` keeps every condition of the caller's filter and adds the text match. */
  lemma SearchSelects(lower: CaseMap, subs: map<nat, SubCategoryRecord>, query: string, filter: ItemFilter, item: ItemRecord)
    ensures ItemMatches(lower, SearchFilter(query, filter), subs, item) <==>
      ItemMatches(lower, filter.(search := ""), subs, item) && SearchMatches(lower, query, item.name, item.description)
  {
  }
}
