/**
 * backend/internal/domain/services/category_service.go: category CRUD over
 * the store, with the duplicate-name check, the not-found rule and the
 * guard against deleting a category that still has subcategories.
 *
 * Each operation is a method on the store, proved equal to a function that
 * states its outcome; the properties are stated on those functions.
 */
module CategoryService {
  import opened Wrappers
  import opened Text
  import opened Entities
  import opened Store
  import AppErrors

  /** `CreateCategoryRequest` and `UpdateCategoryRequest`, which have the same fields; None is a nil `Active`. */
  datatype CategoryRequest = CategoryRequest(name: string, description: string, displayOrder: int, active: Option<bool>)

  /** `appErrors.WrapInternalError(err, message)` as an error value. */
  function Internal(err: AppErrors.Error, message: string): (e: AppErrors.Error)
    ensures AppErrors.GetStatusCode(e) == 500
  {
    AppErrors.App(AppErrors.WrapInternalError(err, message))
  }

  const CategoryNotFound: AppErrors.Error := AppErrors.App(AppErrors.NewNotFoundError("Category"))
  const NameConflict: AppErrors.Error := AppErrors.App(AppErrors.NewConflictError("Category with this name already exists"))
  const HasSubCategories: AppErrors.Error :=
    AppErrors.App(AppErrors.NewConflictError("Cannot delete category with existing subcategories"))

  /** Some search candidate carries exactly `name` and, when `except` is given, another id. */
  predicate NameTaken(found: seq<CategoryRecord>, name: string, except: Option<nat>) {
    exists k :: 0 <= k < |found| && found[k].name == name && (except.None? || found[k].id != except.value)
  }

  /** The conflict loops of Create and Update over the search candidates. */
  method FindConflict(found: seq<CategoryRecord>, name: string, except: Option<nat>) returns (conflict: bool)
    ensures conflict <==> NameTaken(found, name, except)
  {
    var k := 0;
    while k < |found|
      invariant 0 <= k <= |found|
      invariant forall j :: 0 <= j < k ==> !(found[j].name == name && (except.None? || found[j].id != except.value))
    {
      if found[k].name == name && (except.None? || found[k].id != except.value) {
        return true;
      }
      k := k + 1;
    }
    return false;
  }

  /** The category Create stores under `id`: active unless the request says otherwise, slug from the hook. */
  function NewCategory(lower: CaseMap, req: CategoryRequest, id: nat): (c: CategoryRecord)
    ensures c.id == id && c.name == req.name && c.description == req.description
    ensures c.displayOrder == req.displayOrder
    ensures c.active <==> req.active.None? || req.active.value
    ensures c.slug == Common.GenerateSlug(lower, req.name)
  {
    CategoryRecord(id, req.name, req.description, CreateSlug(lower, req.name, ""), req.displayOrder, req.active.GetOr(true))
  }

  /**
   * The outcome of `Create`: the name search (call 0) failing, a candidate
   * with the same name, the insert (call 1) failing, or the new category under
   * the next id.
   */
  function CreateResult(lower: CaseMap, nextId: nat, req: CategoryRequest, found: seq<CategoryRecord>, fault: Fault)
    : (r: Outcome<CategoryRecord>)
    ensures Fails(fault, 0) ==> r == Err(Internal(fault.error, "Failed to validate category"))
    ensures !Fails(fault, 0) && NameTaken(found, req.name, None) ==> r == Err(NameConflict)
    ensures r.Ok? <==> !Fails(fault, 0) && !NameTaken(found, req.name, None) && !Fails(fault, 1)
    ensures r.Ok? ==> r.value == NewCategory(lower, req, nextId)
  {
    if Fails(fault, 0) then Err(Internal(fault.error, "Failed to validate category"))
    else if NameTaken(found, req.name, None) then Err(NameConflict)
    else if Fails(fault, 1) then Err(Internal(fault.error, "Failed to create category"))
    else Ok(NewCategory(lower, req, nextId))
  }

  /**
   * `Create`.  `found` is what the repository's name search (Limit 1)
   * returned; the category object is passed through the BeforeCreate hook
   * before it is stored.
   */
  method Create(db: Database, lower: CaseMap, req: CategoryRequest, found: seq<CategoryRecord>, fault: Fault)
    returns (r: Outcome<CategoryRecord>)
    requires db.Valid()
    modifies db
    ensures db.Valid()
    ensures r == CreateResult(lower, old(db.nextCategoryId), req, found, fault)
    ensures r.Ok? ==> db.categories == old(db.categories)[r.value.id := r.value] &&
                      db.nextCategoryId == old(db.nextCategoryId) + 1
    ensures r.Err? ==> db.categories == old(db.categories) && db.nextCategoryId == old(db.nextCategoryId)
    ensures db.subCategories == old(db.subCategories) && db.items == old(db.items)
    ensures db.nextSubCategoryId == old(db.nextSubCategoryId) && db.nextItemId == old(db.nextItemId)
  {
    if Fails(fault, 0) {
      return Err(Internal(fault.error, "Failed to validate category"));
    }
    var conflict := FindConflict(found, req.name, None);
    if conflict {
      return Err(NameConflict);
    }
    var category := new Category(CategoryRecord(0, req.name, req.description, "", req.displayOrder, true));
    if req.active.Some? {
      category.active := req.active.value;
    }
    if Fails(fault, 1) {
      return Err(Internal(fault.error, "Failed to create category"));
    }
    var _ := category.BeforeCreate(lower);
    category.id := db.nextCategoryId;
    db.categories := db.categories[category.id := category.Record()];
    db.nextCategoryId := db.nextCategoryId + 1;
    return Ok(category.Record());
  }

  /** `GetByID`: the stored category, NotFound for an absent id, an internal error when the lookup fails. */
  function GetByID(categories: map<nat, CategoryRecord>, id: nat, fault: Fault): (r: Outcome<CategoryRecord>)
    ensures r.Ok? <==> !Fails(fault, 0) && id in categories
    ensures r.Ok? ==> r.value == categories[id]
    ensures !Fails(fault, 0) && id !in categories ==>
      r == Err(CategoryNotFound) && AppErrors.GetStatusCode(r.error) == 404
    ensures Fails(fault, 0) ==> AppErrors.GetStatusCode(r.error) == 500
  {
    if Fails(fault, 0) then Err(Internal(fault.error, "Failed to get category"))
    else if id !in categories then Err(CategoryNotFound)
    else Ok(categories[id])
  }

  /** The fields Update writes: Name, Description and DisplayOrder always, Active only when given. */
  function Updated(c: CategoryRecord, req: CategoryRequest): (u: CategoryRecord)
    ensures u.id == c.id && u.slug == c.slug
    ensures u.name == req.name && u.description == req.description && u.displayOrder == req.displayOrder
    ensures req.active.None? ==> u.active == c.active
    ensures req.active.Some? ==> u.active == req.active.value
  {
    c.(name := req.name, description := req.description, displayOrder := req.displayOrder,
       active := req.active.GetOr(c.active))
  }

  /** Whether Update renames the category, which is when it runs the name search. */
  predicate Renames(categories: map<nat, CategoryRecord>, id: nat, req: CategoryRequest) {
    id in categories && req.name != categories[id].name
  }

  /**
   * The outcome of `Update`: the lookup (call 0), then, only for a rename,
   * the name search (call 1) and the conflict check, then the save.
   */
  function UpdateResult(categories: map<nat, CategoryRecord>, id: nat, req: CategoryRequest,
                        found: seq<CategoryRecord>, fault: Fault): (r: Outcome<CategoryRecord>)
    ensures Fails(fault, 0) ==> r == Err(Internal(fault.error, "Failed to get category"))
    ensures !Fails(fault, 0) && id !in categories ==> r == Err(CategoryNotFound)
    ensures r == Err(NameConflict) <==>
              !Fails(fault, 0) && Renames(categories, id, req) && !Fails(fault, 1) &&
              NameTaken(found, req.name, Some(id))
    ensures r.Ok? <==>
              !Fails(fault, 0) && id in categories &&
              (Renames(categories, id, req) ==> !Fails(fault, 1) && !NameTaken(found, req.name, Some(id))) &&
              !Fails(fault, if Renames(categories, id, req) then 2 else 1)
    ensures r.Ok? ==> id in categories && r.value == Updated(categories[id], req)
  {
    if Fails(fault, 0) then Err(Internal(fault.error, "Failed to get category"))
    else if id !in categories then Err(CategoryNotFound)
    else
      var renamed := Renames(categories, id, req);
      if renamed && Fails(fault, 1) then Err(Internal(fault.error, "Failed to validate category"))
      else if renamed && NameTaken(found, req.name, Some(id)) then Err(NameConflict)
      else if Fails(fault, if renamed then 2 else 1) then Err(Internal(fault.error, "Failed to update category"))
      else Ok(Updated(categories[id], req))
  }

  /**
   * Keeping the name never conflicts, and neither does a candidate with the
   * requested name that is the category being updated.
   */
  lemma UpdateConflictNeedsAnotherCategory(categories: map<nat, CategoryRecord>, id: nat, req: CategoryRequest,
                                           found: seq<CategoryRecord>, fault: Fault)
    requires id in categories
    requires req.name == categories[id].name ||
             forall k :: 0 <= k < |found| && found[k].name == req.name ==> found[k].id == id
    ensures UpdateResult(categories, id, req, found, fault) != Err(NameConflict)
  {
  }

  /**
   * The field assignments of Update on the fetched category, then the
   * BeforeUpdate hook that saving runs, for which GORM's `Save` reports no
   * changed column.
   */
  method Save(lower: CaseMap, current: CategoryRecord, req: CategoryRequest) returns (saved: CategoryRecord)
    ensures saved == Updated(current, req)
  {
    var category := new Category(current);
    category.name := req.name;
    category.description := req.description;
    category.displayOrder := req.displayOrder;
    if req.active.Some? {
      category.active := req.active.value;
    }
    var _ := category.BeforeUpdate(lower, false);
    saved := category.Record();
  }

  /**
   * `Update`: look the category up, check the new name when it changes, then
   * assign the fields and save.  `found` is what the name search returned.
   */
  method Update(db: Database, lower: CaseMap, id: nat, req: CategoryRequest, found: seq<CategoryRecord>, fault: Fault)
    returns (r: Outcome<CategoryRecord>)
    requires db.Valid()
    modifies db
    ensures db.Valid()
    ensures r == UpdateResult(old(db.categories), id, req, found, fault)
    ensures r.Ok? ==> db.categories == old(db.categories)[id := r.value]
    ensures r.Err? ==> db.categories == old(db.categories)
    ensures db.subCategories == old(db.subCategories) && db.items == old(db.items)
    ensures db.nextCategoryId == old(db.nextCategoryId) && db.nextSubCategoryId == old(db.nextSubCategoryId)
    ensures db.nextItemId == old(db.nextItemId)
  {
    if Fails(fault, 0) {
      return Err(Internal(fault.error, "Failed to get category"));
    }
    if id !in db.categories {
      return Err(CategoryNotFound);
    }
    var current := db.categories[id];
    var call := 1;
    if req.name != current.name {
      if Fails(fault, call) {
        return Err(Internal(fault.error, "Failed to validate category"));
      }
      var conflict := FindConflict(found, req.name, Some(id));
      if conflict {
        return Err(NameConflict);
      }
      call := call + 1;
    }
    assert call == if Renames(old(db.categories), id, req) then 2 else 1;
    if Fails(fault, call) {
      return Err(Internal(fault.error, "Failed to update category"));
    }
    var saved := Save(lower, current, req);
    db.categories := db.categories[id := saved];
    return Ok(saved);
  }

  /**
   * The outcome of `Delete`: the lookup (call 0), the subcategory preload
   * (call 1), which sees only active subcategories, then the delete (call 2).
   */
  function DeleteResult(categories: map<nat, CategoryRecord>, subs: map<nat, SubCategoryRecord>, id: nat, fault: Fault)
    : (r: Option<AppErrors.Error>)
    ensures !Fails(fault, 0) && id !in categories ==> r == Some(CategoryNotFound)
    ensures r == Some(HasSubCategories) <==>
      !Fails(fault, 0) && id in categories && !Fails(fault, 1) && ActiveSubCategoriesOf(subs, id) != {}
    ensures r == None <==>
      !Fails(fault, 0) && !Fails(fault, 1) && !Fails(fault, 2) && id in categories &&
      ActiveSubCategoriesOf(subs, id) == {}
  {
    if Fails(fault, 0) then Some(Internal(fault.error, "Failed to get category"))
    else if id !in categories then Some(CategoryNotFound)
    else if Fails(fault, 1) then Some(Internal(fault.error, "Failed to validate category deletion"))
    else if ActiveSubCategoriesOf(subs, id) != {} then Some(HasSubCategories)
    else if Fails(fault, 2) then Some(Internal(fault.error, "Failed to delete category"))
    else None
  }

  /**
   * Inactive subcategories do not block a delete: a category whose only
   * subcategories are inactive is deleted when no call fails.
   */
  lemma DeleteIgnoresInactiveSubCategories(categories: map<nat, CategoryRecord>, subs: map<nat, SubCategoryRecord>, id: nat)
    requires id in categories
    requires forall s | s in subs && subs[s].categoryId == id :: !subs[s].active
    ensures DeleteResult(categories, subs, id, NoFault) == None
  {
    assert ActiveSubCategoriesOf(subs, id) == {};
  }

  /** `Delete`: on success the category row goes; its subcategory rows stay. */
  method Delete(db: Database, id: nat, fault: Fault) returns (err: Option<AppErrors.Error>)
    requires db.Valid()
    modifies db
    ensures db.Valid()
    ensures err == DeleteResult(old(db.categories), old(db.subCategories), id, fault)
    ensures err == None ==> db.categories == old(db.categories) - {id}
    ensures err != None ==> db.categories == old(db.categories)
    ensures db.subCategories == old(db.subCategories) && db.items == old(db.items)
    ensures db.nextCategoryId == old(db.nextCategoryId) && db.nextSubCategoryId == old(db.nextSubCategoryId)
    ensures db.nextItemId == old(db.nextItemId)
  {
    if Fails(fault, 0) {
      return Some(Internal(fault.error, "Failed to get category"));
    }
    if id !in db.categories {
      return Some(CategoryNotFound);
    }
    if Fails(fault, 1) {
      return Some(Internal(fault.error, "Failed to validate category deletion"));
    }
    var preloaded := ActiveSubCategoriesOf(db.subCategories, id);
    if |preloaded| > 0 {
      return Some(HasSubCategories);
    }
    if Fails(fault, 2) {
      return Some(Internal(fault.error, "Failed to delete category"));
    }
    db.categories := db.categories - {id};
    return None;
  }

  function Toggled(c: CategoryRecord): (t: CategoryRecord)
    ensures t.active == !c.active && t.(active := c.active) == c
  {
    c.(active := !c.active)
  }

  /** Toggling twice restores the category. */
  lemma ToggledTwice(c: CategoryRecord)
    ensures Toggled(Toggled(c)) == c
  {
  }

  /**
   * Whether the repository write of ToggleActive or UpdateDisplayOrder takes
   * place: the lookup (call 0) found the category and the write (call 1) did
   * not fail.  The re-read (call 2) can still fail after that.
   */
  predicate WriteCommitted(categories: map<nat, CategoryRecord>, id: nat, fault: Fault) {
    !Fails(fault, 0) && id in categories && !Fails(fault, 1)
  }

  /**
   * The outcome of `ToggleActive` or `UpdateDisplayOrder`, given the record the
   * write leaves: the re-read record, or the first failure.
   */
  function WriteResult(categories: map<nat, CategoryRecord>, id: nat, written: CategoryRecord, fault: Fault,
                       writeMessage: string): (r: Outcome<CategoryRecord>)
    ensures !Fails(fault, 0) && id !in categories ==> r == Err(CategoryNotFound)
    ensures r.Ok? <==> WriteCommitted(categories, id, fault) && !Fails(fault, 2)
    ensures r.Ok? ==> r.value == written
  {
    if Fails(fault, 0) then Err(Internal(fault.error, "Failed to get category"))
    else if id !in categories then Err(CategoryNotFound)
    else if Fails(fault, 1) then Err(Internal(fault.error, writeMessage))
    else if Fails(fault, 2) then Err(Internal(fault.error, "Failed to get updated category"))
    else Ok(written)
  }

  const ToggleMessage := "Failed to toggle category active status"
  const DisplayOrderMessage := "Failed to update category display order"

  /**
   * `ToggleActive`: the repository flips the flag in place and the category is
   * read back.  When the read-back fails the flip has already been stored.
   */
  method ToggleActive(db: Database, id: nat, fault: Fault) returns (r: Outcome<CategoryRecord>)
    requires db.Valid()
    modifies db
    ensures db.Valid()
    ensures WriteCommitted(old(db.categories), id, fault) ==>
      db.categories == old(db.categories)[id := Toggled(old(db.categories)[id])] &&
      r == WriteResult(old(db.categories), id, Toggled(old(db.categories)[id]), fault, ToggleMessage)
    ensures !WriteCommitted(old(db.categories), id, fault) ==>
      db.categories == old(db.categories) &&
      r == WriteResult(old(db.categories), id, CategoryRecord(0, "", "", "", 0, false), fault, ToggleMessage)
    ensures db.subCategories == old(db.subCategories) && db.items == old(db.items)
    ensures db.nextCategoryId == old(db.nextCategoryId) && db.nextSubCategoryId == old(db.nextSubCategoryId)
    ensures db.nextItemId == old(db.nextItemId)
  {
    if Fails(fault, 0) {
      return Err(Internal(fault.error, "Failed to get category"));
    }
    if id !in db.categories {
      return Err(CategoryNotFound);
    }
    if Fails(fault, 1) {
      return Err(Internal(fault.error, ToggleMessage));
    }
    db.categories := db.categories[id := Toggled(db.categories[id])];
    if Fails(fault, 2) {
      return Err(Internal(fault.error, "Failed to get updated category"));
    }
    return Ok(db.categories[id]);
  }

  /** `UpdateDisplayOrder`: as ToggleActive, with the display order set instead of the flag flipped. */
  method UpdateDisplayOrder(db: Database, id: nat, order: int, fault: Fault) returns (r: Outcome<CategoryRecord>)
    requires db.Valid()
    modifies db
    ensures db.Valid()
    ensures WriteCommitted(old(db.categories), id, fault) ==>
      db.categories == old(db.categories)[id := old(db.categories)[id].(displayOrder := order)] &&
      r == WriteResult(old(db.categories), id, old(db.categories)[id].(displayOrder := order), fault, DisplayOrderMessage)
    ensures !WriteCommitted(old(db.categories), id, fault) ==>
      db.categories == old(db.categories) &&
      r == WriteResult(old(db.categories), id, CategoryRecord(0, "", "", "", 0, false), fault, DisplayOrderMessage)
    ensures db.subCategories == old(db.subCategories) && db.items == old(db.items)
    ensures db.nextCategoryId == old(db.nextCategoryId) && db.nextSubCategoryId == old(db.nextSubCategoryId)
    ensures db.nextItemId == old(db.nextItemId)
  {
    if Fails(fault, 0) {
      return Err(Internal(fault.error, "Failed to get category"));
    }
    if id !in db.categories {
      return Err(CategoryNotFound);
    }
    if Fails(fault, 1) {
      return Err(Internal(fault.error, DisplayOrderMessage));
    }
    db.categories := db.categories[id := db.categories[id].(displayOrder := order)];
    if Fails(fault, 2) {
      return Err(Internal(fault.error, "Failed to get updated category"));
    }
    return Ok(db.categories[id]);
  }
}
