/**
 * backend/internal/domain/services/subcategory_service.go: subcategory create
 * with its slug and display-order defaults, the partial-update merge, the
 * active toggle and the display-order update.  Repository errors are
 * returned unchanged.
 */
module SubCategoryService {
  import opened Wrappers
  import opened Text
  import opened Entities
  import opened Store
  import AppErrors
  import Utils

  const SubCategoryNotFound: AppErrors.Error := AppErrors.App(AppErrors.NewNotFoundError("SubCategory"))

  /** `fmt.Errorf("failed to get subcategory count: %w", err)`. */
  function CountError(err: AppErrors.Error): (e: AppErrors.Error)
    ensures AppErrors.AsAppError(e) == AppErrors.AsAppError(err)
  {
    AppErrors.Wrapped("failed to get subcategory count: " + AppErrors.ErrorText(err), err)
  }

  /** The slug Create sets before storing: the given one, else `utils.GenerateSlug(Name)`. */
  function ServiceSlug(lower: CaseMap, sub: SubCategoryRecord): string {
    if sub.slug == "" then Utils.GenerateSlug(lower, sub.name) else sub.slug
  }

  /**
   * The outcome of `Create`.  A zero display order is replaced by the number
   * of subcategories already in the same category plus one, which costs a
   * count (call 0); the insert is the next call.  The BeforeCreate hook then
   * fills a slug that is still empty.
   */
  function CreateResult(lower: CaseMap, subs: map<nat, SubCategoryRecord>, nextId: nat, sub: SubCategoryRecord, fault: Fault)
    : (r: Outcome<SubCategoryRecord>)
    ensures sub.displayOrder == 0 && Fails(fault, 0) ==> r == Err(CountError(fault.error))
    ensures r.Ok? ==> r.value.id == nextId && r.value.name == sub.name && r.value.description == sub.description
    ensures r.Ok? ==> r.value.categoryId == sub.categoryId && r.value.active == sub.active
    ensures r.Ok? && sub.displayOrder != 0 ==> r.value.displayOrder == sub.displayOrder
    ensures r.Ok? && sub.displayOrder == 0 ==> r.value.displayOrder == |SubCategoriesOf(subs, sub.categoryId)| + 1
    ensures r.Ok? && sub.slug != "" ==> r.value.slug == sub.slug
    ensures r.Ok? && sub.slug == "" && Utils.GenerateSlug(lower, sub.name) != "" ==>
      r.value.slug == Utils.GenerateSlug(lower, sub.name)
    ensures r.Ok? <==> if sub.displayOrder == 0 then !Fails(fault, 0) && !Fails(fault, 1) else !Fails(fault, 0)
  {
    var slug := ServiceSlug(lower, sub);
    if sub.displayOrder == 0 && Fails(fault, 0) then Err(CountError(fault.error))
    else
      var order := if sub.displayOrder == 0 then |SubCategoriesOf(subs, sub.categoryId)| + 1 else sub.displayOrder;
      var insertCall := if sub.displayOrder == 0 then 1 else 0;
      if Fails(fault, insertCall) then Err(fault.error)
      else Ok(sub.(id := nextId, slug := CreateSlug(lower, sub.name, slug), displayOrder := order))
  }

  /** `Create`: the defaults are assigned on the subcategory object, which is then inserted. */
  method Create(db: Database, lower: CaseMap, sub: SubCategoryRecord, fault: Fault) returns (r: Outcome<SubCategoryRecord>)
    requires db.Valid()
    modifies db
    ensures db.Valid()
    ensures r == CreateResult(lower, old(db.subCategories), old(db.nextSubCategoryId), sub, fault)
    ensures r.Ok? ==> db.subCategories == old(db.subCategories)[r.value.id := r.value] &&
                      db.nextSubCategoryId == old(db.nextSubCategoryId) + 1
    ensures r.Err? ==> db.subCategories == old(db.subCategories) && db.nextSubCategoryId == old(db.nextSubCategoryId)
    ensures db.categories == old(db.categories) && db.items == old(db.items)
    ensures db.nextCategoryId == old(db.nextCategoryId) && db.nextItemId == old(db.nextItemId)
  {
    var subCategory := sub;
    if subCategory.slug == "" {
      subCategory := subCategory.(slug := Utils.GenerateSlug(lower, subCategory.name));
    }
    var call := 0;
    if subCategory.displayOrder == 0 {
      if Fails(fault, call) {
        return Err(CountError(fault.error));
      }
      var count := |SubCategoriesOf(db.subCategories, subCategory.categoryId)|;
      subCategory := subCategory.(displayOrder := count + 1);
      call := call + 1;
    }
    if Fails(fault, call) {
      return Err(fault.error);
    }
    var stored := Insert(lower, subCategory, db.nextSubCategoryId);
    db.subCategories := db.subCategories[stored.id := stored];
    db.nextSubCategoryId := db.nextSubCategoryId + 1;
    return Ok(stored);
  }

  /** The insert: the BeforeCreate hook runs on the object, which then receives its id. */
  method Insert(lower: CaseMap, sub: SubCategoryRecord, id: nat) returns (stored: SubCategoryRecord)
    ensures stored == sub.(id := id, slug := CreateSlug(lower, sub.name, sub.slug))
  {
    var subCategory := new SubCategory(sub);
    var _ := subCategory.BeforeCreate(lower);
    subCategory.id := id;
    stored := subCategory.Record();
  }

  /**
   * The merge of Update: a non-empty Name replaces the name and regenerates
   * the slug, a non-empty Description and a non-zero CategoryID or
   * DisplayOrder replace theirs, Active is always replaced.
   */
  function Merge(lower: CaseMap, existing: SubCategoryRecord, update: SubCategoryRecord): (m: SubCategoryRecord)
    ensures m.id == existing.id && m.active == update.active
    ensures update.name != "" ==> m.name == update.name && m.slug == Utils.GenerateSlug(lower, update.name)
    ensures update.name == "" ==> m.name == existing.name && m.slug == existing.slug
    ensures m.description == (if update.description != "" then update.description else existing.description)
    ensures m.categoryId == (if update.categoryId != 0 then update.categoryId else existing.categoryId)
    ensures m.displayOrder == (if update.displayOrder != 0 then update.displayOrder else existing.displayOrder)
  {
    var named := if update.name != "" then existing.(name := update.name, slug := Utils.GenerateSlug(lower, update.name))
                 else existing;
    var described := if update.description != "" then named.(description := update.description) else named;
    var moved := if update.categoryId != 0 then described.(categoryId := update.categoryId) else described;
    var ordered := if update.displayOrder != 0 then moved.(displayOrder := update.displayOrder) else moved;
    ordered.(active := update.active)
  }

  /** Applying the same update twice is the same as applying it once. */
  lemma MergeIdempotent(lower: CaseMap, existing: SubCategoryRecord, update: SubCategoryRecord)
    ensures Merge(lower, Merge(lower, existing, update), update) == Merge(lower, existing, update)
  {
  }

  /** An update with every optional field empty or zero changes only Active. */
  lemma MergeOfBlankUpdate(lower: CaseMap, existing: SubCategoryRecord, update: SubCategoryRecord)
    requires update.name == "" && update.description == "" && update.categoryId == 0 && update.displayOrder == 0
    ensures Merge(lower, existing, update) == existing.(active := update.active)
  {
  }

  /**
   * The outcome of the corrected operations that fetch a subcategory and save
   * a changed copy: a lookup error (call 0) or a save error (call 1) is
   * returned unchanged, and an absent id is NotFound.
   */
  function ModifyResult(subs: map<nat, SubCategoryRecord>, id: nat, fault: Fault): (r: Option<AppErrors.Error>)
    ensures Fails(fault, 0) ==> r == Some(fault.error)
    ensures !Fails(fault, 0) && id !in subs ==> r == Some(SubCategoryNotFound)
    ensures r == None <==> id in subs && !Fails(fault, 0) && !Fails(fault, 1)
  {
    if Fails(fault, 0) then Some(fault.error)
    else if id !in subs then Some(SubCategoryNotFound)
    else if Fails(fault, 1) then Some(fault.error)
    else None
  }

  /** How a Go call ends: it returns an error value or nil, or it panics on a nil pointer. */
  datatype GoReturn = Returned(err: Option<AppErrors.Error>) | NilDereference

  /**
   * Update, ToggleActive and UpdateDisplayOrder as written: they check only
   * the error of GetByID, but the repository answers a missing id with
   * (nil, nil), so the next field access dereferences nil.
   */
  function ModifyAsWritten(subs: map<nat, SubCategoryRecord>, id: nat, fault: Fault): (r: GoReturn)
    ensures !Fails(fault, 0) && id !in subs ==> r == NilDereference
  {
    if Fails(fault, 0) then Returned(Some(fault.error))
    else if id !in subs then NilDereference
    else if Fails(fault, 1) then Returned(Some(fault.error))
    else Returned(None)
  }

  /**
   * The two versions agree except on a missing id, where the code as written
   * panics and the corrected one answers NotFound.
   */
  lemma ModifyAsWrittenPanicsWhereCorrectedIsNotFound(subs: map<nat, SubCategoryRecord>, id: nat, fault: Fault)
    ensures ModifyAsWritten(subs, id, fault) == NilDereference <==> !Fails(fault, 0) && id !in subs
    ensures ModifyAsWritten(subs, id, fault) == NilDereference ==> ModifyResult(subs, id, fault) == Some(SubCategoryNotFound)
    ensures ModifyAsWritten(subs, id, fault) != NilDereference ==>
      ModifyAsWritten(subs, id, fault) == Returned(ModifyResult(subs, id, fault))
  {
  }

  /** An empty table and any id: the code as written panics. */
  lemma UpdateOfMissingIdPanics()
    ensures ModifyAsWritten(map[], 1, NoFault) == NilDereference
  {
  }

  /** The field assignments of Update on the fetched subcategory, then the hook that saving runs. */
  method Assign(lower: CaseMap, existing: SubCategoryRecord, update: SubCategoryRecord) returns (saved: SubCategoryRecord)
    ensures saved == Merge(lower, existing, update)
  {
    var subCategory := new SubCategory(existing);
    if update.name != "" {
      subCategory.name := update.name;
      subCategory.slug := Utils.GenerateSlug(lower, update.name);
    }
    if update.description != "" {
      subCategory.description := update.description;
    }
    if update.categoryId != 0 {
      subCategory.categoryId := update.categoryId;
    }
    if update.displayOrder != 0 {
      subCategory.displayOrder := update.displayOrder;
    }
    subCategory.active := update.active;
    var _ := subCategory.BeforeUpdate(lower, false);
    saved := subCategory.Record();
  }

  /** `Update`, corrected to answer NotFound for a missing id. */
  method Update(db: Database, lower: CaseMap, id: nat, update: SubCategoryRecord, fault: Fault)
    returns (err: Option<AppErrors.Error>)
    requires db.Valid()
    modifies db
    ensures db.Valid()
    ensures err == ModifyResult(old(db.subCategories), id, fault)
    ensures err == None ==> db.subCategories == old(db.subCategories)[id := Merge(lower, old(db.subCategories)[id], update)]
    ensures err != None ==> db.subCategories == old(db.subCategories)
    ensures db.categories == old(db.categories) && db.items == old(db.items)
    ensures db.nextCategoryId == old(db.nextCategoryId) && db.nextSubCategoryId == old(db.nextSubCategoryId)
    ensures db.nextItemId == old(db.nextItemId)
  {
    if Fails(fault, 0) {
      return Some(fault.error);
    }
    if id !in db.subCategories {
      return Some(SubCategoryNotFound);
    }
    var saved := Assign(lower, db.subCategories[id], update);
    if Fails(fault, 1) {
      return Some(fault.error);
    }
    db.subCategories := db.subCategories[id := saved];
    return None;
  }

  function Toggled(s: SubCategoryRecord): (t: SubCategoryRecord)
    ensures t.active == !s.active && t.(active := s.active) == s
  {
    s.(active := !s.active)
  }

  /** Toggling twice restores the subcategory. */
  lemma ToggledTwice(s: SubCategoryRecord)
    ensures Toggled(Toggled(s)) == s
  {
  }

  /** `ToggleActive`, corrected to answer NotFound for a missing id: the flag is negated and the record saved. */
  method ToggleActive(db: Database, id: nat, fault: Fault) returns (err: Option<AppErrors.Error>)
    requires db.Valid()
    modifies db
    ensures db.Valid()
    ensures err == ModifyResult(old(db.subCategories), id, fault)
    ensures err == None ==> db.subCategories == old(db.subCategories)[id := Toggled(old(db.subCategories)[id])]
    ensures err != None ==> db.subCategories == old(db.subCategories)
    ensures db.categories == old(db.categories) && db.items == old(db.items)
    ensures db.nextCategoryId == old(db.nextCategoryId) && db.nextSubCategoryId == old(db.nextSubCategoryId)
    ensures db.nextItemId == old(db.nextItemId)
  {
    if Fails(fault, 0) {
      return Some(fault.error);
    }
    if id !in db.subCategories {
      return Some(SubCategoryNotFound);
    }
    var subCategory := db.subCategories[id];
    subCategory := subCategory.(active := !subCategory.active);
    if Fails(fault, 1) {
      return Some(fault.error);
    }
    db.subCategories := db.subCategories[id := subCategory];
    return None;
  }

  /** `UpdateDisplayOrder`, corrected to answer NotFound for a missing id: only DisplayOrder changes. */
  method UpdateDisplayOrder(db: Database, id: nat, order: int, fault: Fault) returns (err: Option<AppErrors.Error>)
    requires db.Valid()
    modifies db
    ensures db.Valid()
    ensures err == ModifyResult(old(db.subCategories), id, fault)
    ensures err == None ==>
      db.subCategories == old(db.subCategories)[id := old(db.subCategories)[id].(displayOrder := order)]
    ensures err != None ==> db.subCategories == old(db.subCategories)
    ensures db.categories == old(db.categories) && db.items == old(db.items)
    ensures db.nextCategoryId == old(db.nextCategoryId) && db.nextSubCategoryId == old(db.nextSubCategoryId)
    ensures db.nextItemId == old(db.nextItemId)
  {
    if Fails(fault, 0) {
      return Some(fault.error);
    }
    if id !in db.subCategories {
      return Some(SubCategoryNotFound);
    }
    var subCategory := db.subCategories[id];
    subCategory := subCategory.(displayOrder := order);
    if Fails(fault, 1) {
      return Some(fault.error);
    }
    db.subCategories := db.subCategories[id := subCategory];
    return None;
  }

  /** The filter `GetByCategoryID` hands to the repository's list query. */
  function GetByCategoryIDFilter(categoryId: nat): SubCategoryFilter {
    EmptySubCategoryFilter.(categoryId := Some(categoryId), active := Some(true),
                            orderBy := "display_order", orderDir := "ASC")
  }

  /**
   * `GetByCategoryID` lists exactly the active subcategories of the category,
   * by ascending display order.
   */
  lemma GetByCategoryIDSelects(lower: CaseMap, upper: CaseMap, categoryId: nat, s: SubCategoryRecord)
    ensures SubCategoryMatches(lower, GetByCategoryIDFilter(categoryId), s) <==> s.categoryId == categoryId && s.active
    ensures var f := GetByCategoryIDFilter(categoryId);
      OrderClause(upper, f.orderBy, f.orderDir) == "display_order ASC"
  {
    var f := GetByCategoryIDFilter(categoryId);
    assert MapRunes(upper, f.orderDir) != "DESC" by {
      assert |MapRunes(upper, f.orderDir)| == 3;
    }
  }
}
