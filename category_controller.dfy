/** The category handlers over the `categories` collection. slugify is the
    parameter `slugify`. */
module CategoryController {
  import opened Common

  type CategoryId = nat

  datatype Category = Category(id: CategoryId, name: string, slug: string)

  ghost predicate DistinctIds(categories: seq<Category>) {
    forall i, j :: 0 <= i < j < |categories| ==> categories[i].id != categories[j].id
  }

  /** `findOne({ name })`. */
  function FindByName(categories: seq<Category>, name: string): (r: Option<nat>)
    ensures r.Some? ==> r.value < |categories| && categories[r.value].name == name
    ensures r.None? ==> forall j :: 0 <= j < |categories| ==> categories[j].name != name
  {
    if categories == [] then None
    else if categories[0].name == name then Some(0)
    else match FindByName(categories[1..], name)
      case None => None
      case Some(k) => Some(k + 1)
  }

  /** `findOne({ slug })`: the first category with that slug. */
  function FindBySlug(categories: seq<Category>, slug: string): (r: Option<nat>)
    ensures r.Some? ==> r.value < |categories| && categories[r.value].slug == slug
    ensures r.Some? ==> forall j :: 0 <= j < r.value ==> categories[j].slug != slug
    ensures r.None? ==> forall j :: 0 <= j < |categories| ==> categories[j].slug != slug
  {
    if categories == [] then None
    else if categories[0].slug == slug then Some(0)
    else match FindBySlug(categories[1..], slug)
      case None => None
      case Some(k) => Some(k + 1)
  }

  /** `findById(id)`. */
  function FindById(categories: seq<Category>, id: CategoryId): (r: Option<nat>)
    ensures r.Some? ==> r.value < |categories| && categories[r.value].id == id
    ensures r.None? ==> forall j :: 0 <= j < |categories| ==> categories[j].id != id
  {
    if categories == [] then None
    else if categories[0].id == id then Some(0)
    else match FindById(categories[1..], id)
      case None => None
      case Some(k) => Some(k + 1)
  }

  /** `categories` without the element at `k`, the others in their order. */
  function RemoveAt(categories: seq<Category>, k: nat): (r: seq<Category>)
    requires k < |categories|
    ensures |r| == |categories| - 1
    ensures forall j :: 0 <= j < k ==> r[j] == categories[j]
    ensures forall j :: k <= j < |r| ==> r[j] == categories[j + 1]
  {
    categories[..k] + categories[k + 1..]
  }

  /** allCategoryConroller: every stored category, in store order. */
  function AllCategories(categories: seq<Category>): (r: (Response, seq<Category>))
    ensures r.0 == Success(200, "All categories")
    ensures |r.1| == |categories| && forall j :: 0 <= j < |r.1| ==> r.1[j] == categories[j]
  {
    (Success(200, "All categories"), categories)
  }

  /** singleCategoryController: the category with that slug, or 404. */
  function SingleCategory(categories: seq<Category>, slug: string): (r: (Response, Option<Category>))
    ensures r.1.Some? <==> exists j :: 0 <= j < |categories| && categories[j].slug == slug
    ensures r.1.Some? ==>
      r.1.value in categories && r.1.value.slug == slug
      && r.0 == Success(200, "Single category found successfully.")
    ensures r.1.None? ==> r.0 == Failure(404, "Category not found")
  {
    match FindBySlug(categories, slug)
    case None => (Failure(404, "Category not found"), None)
    case Some(k) => (Success(200, "Single category found successfully."), Some(categories[k]))
  }

  /** The `categories` collection in insertion order. */
  class CategoryCollection {
    var categories: seq<Category>

    ghost predicate Valid()
      reads this
    {
      DistinctIds(categories)
    }

    constructor ()
      ensures Valid() && categories == []
    {
      categories := [];
    }
  }

  /** createcategoryController. `id` is the identifier the store gives the
      new document. */
  method CreateCategory(db: CategoryCollection, name: Option<string>, slugify: string -> string,
                        id: CategoryId)
    returns (resp: Response, created: Option<Category>)
    requires db.Valid()
    requires forall c :: c in db.categories ==> c.id != id
    modifies db
    ensures db.Valid()
    ensures !Truthy(name) ==>
      resp == Failure(401, "Name is required") && created.None? && db.categories == old(db.categories)
    ensures Truthy(name) && FindByName(old(db.categories), name.value).Some? ==>
      resp == Failure(200, "Category already exists") && created.None?
      && db.categories == old(db.categories)
    ensures Truthy(name) && FindByName(old(db.categories), name.value).None? ==>
      resp == Success(201, "New category created")
      && created == Some(Category(id, name.value, slugify(name.value)))
      && db.categories == old(db.categories) + [created.value]
  {
    if !Truthy(name) {
      return Failure(401, "Name is required"), None;
    }
    if FindByName(db.categories, name.value).Some? {
      return Failure(200, "Category already exists"), None;
    }
    var c := Category(id, name.value, slugify(name.value));
    db.categories := db.categories + [c];
    resp, created := Success(201, "New category created"), Some(c);
  }

  /** updateCategoryController: `{ name, slug: slugify(name) }` on the
      category `id`. slugify throws on a missing name before anything is
      looked up. */
  method UpdateCategory(db: CategoryCollection, id: CategoryId, name: Option<string>,
                        slugify: string -> string)
    returns (resp: Response, updated: Option<Category>)
    requires db.Valid()
    modifies db
    ensures db.Valid()
    ensures name.None? ==>
      resp == Failure(500, "Error while updating Category") && updated.None?
      && db.categories == old(db.categories)
    ensures name.Some? ==>
      match FindById(old(db.categories), id)
      case None =>
        resp == Failure(404, "Category not found") && updated.None?
        && db.categories == old(db.categories)
      case Some(k) =>
        resp == Success(200, "Category updated successfully")
        && updated == Some(Category(id, name.value, slugify(name.value)))
        && db.categories == old(db.categories)[k := updated.value]
  {
    if name.None? {
      return Failure(500, "Error while updating Category"), None;
    }
    var found := FindById(db.categories, id);
    if found.None? {
      return Failure(404, "Category not found"), None;
    }
    var k := found.value;
    var c := Category(id, name.value, slugify(name.value));
    db.categories := db.categories[k := c];
    resp, updated := Success(200, "Category updated successfully"), Some(c);
  }

  /** deleteCategoryController: removes the category `id` and no other. */
  method DeleteCategory(db: CategoryCollection, id: CategoryId)
    returns (resp: Response, deleted: Option<Category>)
    requires db.Valid()
    modifies db
    ensures db.Valid()
    ensures match FindById(old(db.categories), id)
      case None =>
        resp == Failure(404, "Category not found") && deleted.None?
        && db.categories == old(db.categories)
      case Some(k) =>
        resp == Success(200, "Category deleted successfully")
        && deleted == Some(old(db.categories)[k])
        && db.categories == RemoveAt(old(db.categories), k)
  {
    var found := FindById(db.categories, id);
    if found.None? {
      return Failure(404, "Category not found"), None;
    }
    var k := found.value;
    deleted := Some(db.categories[k]);
    db.categories := RemoveAt(db.categories, k);
    resp := Success(200, "Category deleted successfully");
  }

  /** After a delete no category has the deleted identifier, and every other
      category is still there. */
  lemma {:induction false} DeleteRemovesOnlyTarget(categories: seq<Category>, k: nat)
    requires DistinctIds(categories) && k < |categories|
    ensures forall c :: c in RemoveAt(categories, k) ==> c.id != categories[k].id
    ensures forall j :: 0 <= j < |categories| && j != k ==> categories[j] in RemoveAt(categories, k)
  {
    var r := RemoveAt(categories, k);
    forall j | 0 <= j < |categories| && j != k
      ensures categories[j] in r
    {
      if j < k { assert r[j] == categories[j]; } else { assert r[j - 1] == categories[j]; }
    }
  }
}
