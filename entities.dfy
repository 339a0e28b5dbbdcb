/**
 * backend/internal/domain/entities/category.go and subcategory.go: the
 * stored records, and the GORM hooks that fill in a missing slug on the
 * Category and SubCategory objects before they are written.
 */
module Entities {
  import opened Wrappers
  import opened Text
  import Common
  import AppErrors

  /** A category row as the store holds it. */
  datatype CategoryRecord = CategoryRecord(
    id: nat, name: string, description: string, slug: string, displayOrder: int, active: bool)

  /** A subcategory row; `categoryId` is the parent category. */
  datatype SubCategoryRecord = SubCategoryRecord(
    id: nat, name: string, description: string, slug: string, categoryId: nat, displayOrder: int, active: bool)

  /**
   * The free-form dietary attributes of an item (a JSON object in the source);
   * only whole-value replacement matters here.
   */
  type DietaryInfo = map<string, string>

  /**
   * An item row.  `price` is a decimal; `createdAt` is the creation time as an
   * integer, used only for ordering.
   */
  datatype ItemRecord = ItemRecord(
    id: nat, name: string, description: string, price: real, currency: string,
    dietaryInfo: DietaryInfo, imageUrl: string, subCategoryId: nat, available: bool,
    displayOrder: int, createdAt: int)

  /**
   * The slug `BeforeCreate` leaves on a record: an empty slug is filled from
   * the name, any other is kept.  A filled slug is always well formed.
   */
  function CreateSlug(lower: CaseMap, name: string, slug: string): (r: string)
    ensures slug != "" ==> r == slug
    ensures slug == "" ==> r == Common.GenerateSlug(lower, name)
    ensures slug == "" ==> Common.AllSlugChars(r) && |r| <= Common.MaxSlugLength && (r != "" ==> r[0] != '-')
  {
    Common.GenerateSlugShape(lower, name);
    if slug == "" then Common.GenerateSlug(lower, name) else slug
  }

  /**
   * The slug `BeforeUpdate` leaves: regenerated only when the statement
   * changed the name and the slug is empty.
   */
  function UpdateSlug(lower: CaseMap, nameChanged: bool, name: string, slug: string): (r: string)
    ensures !nameChanged || slug != "" ==> r == slug
    ensures nameChanged && slug == "" ==> r == CreateSlug(lower, name, slug)
  {
    if nameChanged && slug == "" then Common.GenerateSlug(lower, name) else slug
  }

  /** Running the create hook a second time changes nothing. */
  lemma CreateSlugIdempotent(lower: CaseMap, name: string, slug: string)
    ensures CreateSlug(lower, name, CreateSlug(lower, name, slug)) == CreateSlug(lower, name, slug)
  {
  }

  /** A Category object whose hooks GORM runs in place. */
  class Category {
    var id: nat
    var name: string
    var description: string
    var slug: string
    var displayOrder: int
    var active: bool

    constructor (r: CategoryRecord)
      ensures Record() == r
    {
      id, name, description, slug := r.id, r.name, r.description, r.slug;
      displayOrder, active := r.displayOrder, r.active;
    }

    function Record(): CategoryRecord
      reads this
    {
      CategoryRecord(id, name, description, slug, displayOrder, active)
    }

    /** `BeforeCreate`: fills an empty slug, touches nothing else and never fails. */
    method BeforeCreate(lower: CaseMap) returns (err: Option<AppErrors.Error>)
      modifies this
      ensures err == None
      ensures Record() == old(Record()).(slug := CreateSlug(lower, old(name), old(slug)))
    {
      if slug == "" {
        slug := Common.GenerateSlug(lower, name);
      }
      return None;
    }

    /**
     * `BeforeUpdate`: `nameChanged` is GORM's report of whether the
     * statement changes the Name column.
     */
    method BeforeUpdate(lower: CaseMap, nameChanged: bool) returns (err: Option<AppErrors.Error>)
      modifies this
      ensures err == None
      ensures Record() == old(Record()).(slug := UpdateSlug(lower, nameChanged, old(name), old(slug)))
    {
      if nameChanged && slug == "" {
        slug := Common.GenerateSlug(lower, name);
      }
      return None;
    }

    function TableName(): string {
      "categories"
    }
  }

  /** A SubCategory object whose hooks GORM runs in place. */
  class SubCategory {
    var id: nat
    var name: string
    var description: string
    var slug: string
    var categoryId: nat
    var displayOrder: int
    var active: bool

    constructor (r: SubCategoryRecord)
      ensures Record() == r
    {
      id, name, description, slug := r.id, r.name, r.description, r.slug;
      categoryId, displayOrder, active := r.categoryId, r.displayOrder, r.active;
    }

    function Record(): SubCategoryRecord
      reads this
    {
      SubCategoryRecord(id, name, description, slug, categoryId, displayOrder, active)
    }

    /** `BeforeCreate`: fills an empty slug, touches nothing else and never fails. */
    method BeforeCreate(lower: CaseMap) returns (err: Option<AppErrors.Error>)
      modifies this
      ensures err == None
      ensures Record() == old(Record()).(slug := CreateSlug(lower, old(name), old(slug)))
    {
      if slug == "" {
        slug := Common.GenerateSlug(lower, name);
      }
      return None;
    }

    /** `BeforeUpdate`: regenerates the slug only for a name change over an empty slug. */
    method BeforeUpdate(lower: CaseMap, nameChanged: bool) returns (err: Option<AppErrors.Error>)
      modifies this
      ensures err == None
      ensures Record() == old(Record()).(slug := UpdateSlug(lower, nameChanged, old(name), old(slug)))
    {
      if nameChanged && slug == "" {
        slug := Common.GenerateSlug(lower, name);
      }
      return None;
    }

    function TableName(): string {
      "sub_categories"
    }
  }
}
