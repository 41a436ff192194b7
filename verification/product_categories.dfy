/** The /products/categories routes (routes/product_categories.py): the
    category list, fetching one category, creating a category and the
    partial update. Every read and the update's lookup are confined to the
    `shop_id` the caller carries. */
module CategoryRoutes {
  import opened Base
  import opened Models
  import opened Policy

  /** A category the caller's shop filter lets through: its `shop_id` equals
      the caller's (a NULL `shop_id` equals nothing). */
  predicate InCallerShop(db: Db, c: Caller, k: int)
    requires k in db.categories
  {
    Covers(ReadScope(CategoriesTable, Fetching, db, c), ShopRowPlace(db, db.categories[k].shopId))
  }

  /** The category list: the categories of the caller's shop; 404 when there
      are none. */
  function ListCategories(db: Db, c: Caller): (r: Response<map<int, ProductCategory>>)
    ensures var s := ReadScope(CategoriesTable, Listing, db, c);
      && (r.Err? ==> r.status == NotFound)
      && (r.Err? <==> forall k :: k in db.categories ==> !Covers(s, ShopRowPlace(db, db.categories[k].shopId)))
      && (r.Ok? ==> forall k :: k in r.value <==> k in db.categories && Covers(s, ShopRowPlace(db, db.categories[k].shopId)))
      && (r.Ok? ==> forall k :: k in r.value ==> r.value[k] == db.categories[k])
  {
    var m := map k | k in db.categories && db.categories[k].shopId == Some(c.user.shopId) :: db.categories[k];
    assert forall k :: k in db.categories ==>
      (k in m <==> Covers(ReadScope(CategoriesTable, Listing, db, c), ShopRowPlace(db, db.categories[k].shopId)));
    NonEmpty(m)
  }

  /** Fetch one category of the caller's shop. */
  function GetCategory(db: Db, c: Caller, categoryId: int): (r: Response<ProductCategory>)
    ensures r.Ok? <==> categoryId in db.categories && InCallerShop(db, c, categoryId)
    ensures r.Ok? ==> r.value == db.categories[categoryId]
    ensures r.Err? ==> r.status == NotFound
  {
    if categoryId in db.categories && db.categories[categoryId].shopId == Some(c.user.shopId)
    then Ok(db.categories[categoryId])
    else Err(NotFound)
  }

  /** Create a category: levels 0, 1 and 2; a store refusal is a 400. The
      new row's `shop_id` is whatever the body says, not the caller's. */
  function CreateCategory(db: Db, c: Caller, body: ProductCategoryBody, nextId: int, violatesUnique: UniqueCheck)
    : (r: Outcome<Created<ProductCategory>>)
    ensures r.response.Err? ==> r.db == db
    ensures r.response == Err(Forbidden) <==> !Permits(CategoriesTable, Create, RoleOf(c.user.userLevelId))
    ensures r.response.Err? ==> r.response.status in {Forbidden, BadRequest}
    ensures Permits(CategoriesTable, Create, RoleOf(c.user.userLevelId)) && !ProductCategoryComplete(body) ==> r.response == Err(BadRequest)
    ensures Permits(CategoriesTable, Create, RoleOf(c.user.userLevelId)) && KeyFor(body.id, nextId) in db.categories
            ==> r.response == Err(BadRequest)
    ensures r.response.Ok? ==>
      var k := r.response.value.id;
      && k == KeyFor(body.id, nextId) && k !in db.categories
      && r.db == db.(categories := db.categories[k := r.response.value.row])
      && ProductCategoryFrom(body, r.response.value.row)
      && !violatesUnique(CategoriesTable, r.db, k)
    ensures Permits(CategoriesTable, Create, RoleOf(c.user.userLevelId)) && ProductCategoryComplete(body)
            && KeyFor(body.id, nextId) !in db.categories
            && !violatesUnique(CategoriesTable, db.(categories := db.categories[KeyFor(body.id, nextId) := NewProductCategory(body).value]),
                               KeyFor(body.id, nextId))
            ==> r.response.Ok?
    ensures WellFormed(db) ==> WellFormed(r.db)
  {
    if c.user.userLevelId !in {0, 1, 2} then
      Outcome(Err(Forbidden), db)
    else
      match NewProductCategory(body)
      case None => Outcome(Err(BadRequest), db)
      case Some(row) =>
        var k := KeyFor(body.id, nextId);
        var db' := db.(categories := db.categories[k := row]);
        if k in db.categories || violatesUnique(CategoriesTable, db', k) then Outcome(Err(BadRequest), db)
        else Outcome(Ok(Created(k, row)), db')
  }

  /** Partial update of a category: levels 0, 1 and 2, and only a category of
      the caller's shop; `shop_id` itself is not protected. The commit is
      outside any try block, so a unique clash is a 500. */
  function UpdateCategory(db: Db, c: Caller, categoryId: int, body: ProductCategoryBody, now: Time, violatesUnique: UniqueCheck)
    : (r: Outcome<ProductCategory>)
    ensures r.response.Err? ==> r.db == db
    ensures r.response == Err(Forbidden) <==> !Permits(CategoriesTable, Update, RoleOf(c.user.userLevelId))
    ensures r.response == Err(NotFound) <==>
      Permits(CategoriesTable, Update, RoleOf(c.user.userLevelId)) && !(categoryId in db.categories && InCallerShop(db, c, categoryId))
    ensures r.response.Err? ==> r.response.status in {Forbidden, NotFound, ServerError}
    ensures r.response.Ok? ==>
      && categoryId in db.categories && InCallerShop(db, c, categoryId)
      && r.db == db.(categories := db.categories[categoryId := r.response.value])
      && ProductCategoryPatched(db.categories[categoryId], body, c.id, now, r.response.value)
      && !violatesUnique(CategoriesTable, r.db, categoryId)
    ensures Permits(CategoriesTable, Update, RoleOf(c.user.userLevelId)) && categoryId in db.categories && InCallerShop(db, c, categoryId)
            && !violatesUnique(CategoriesTable, db.(categories := db.categories[categoryId := MergeProductCategory(db.categories[categoryId], body, c.id, now)]), categoryId)
            ==> r.response.Ok?
    ensures WellFormed(db) ==> WellFormed(r.db)
  {
    if c.user.userLevelId !in {0, 1, 2} then
      Outcome(Err(Forbidden), db)
    else if !(categoryId in db.categories && db.categories[categoryId].shopId == Some(c.user.shopId)) then
      Outcome(Err(NotFound), db)
    else
      var row := MergeProductCategory(db.categories[categoryId], body, c.id, now);
      var db' := db.(categories := db.categories[categoryId := row]);
      if violatesUnique(CategoriesTable, db', categoryId) then Outcome(Err(ServerError), db)
      else Outcome(Ok(row), db')
  }

  // ---------------------------------------------------------------------
  // Properties
  // ---------------------------------------------------------------------

  /** Fetching agrees with the list: a category can be fetched exactly when
      the caller's list holds it. */
  lemma FetchAgreesWithList(db: Db, c: Caller, categoryId: int)
    ensures GetCategory(db, c, categoryId).Ok? <==> ListCategories(db, c).Ok? && categoryId in ListCategories(db, c).value
  {
  }

  /** The category scope is the caller's `shop_id` whatever the role: a
      super-admin reads no more categories than a member of the same shop. */
  lemma ScopeIgnoresRole(db: Db, c: Caller, c': Caller, categoryId: int)
    requires c.user.shopId == c'.user.shopId
    ensures GetCategory(db, c, categoryId) == GetCategory(db, c', categoryId)
    ensures ListCategories(db, c) == ListCategories(db, c')
  {
  }

  /** An update may move a category to another shop, after which the caller
      who moved it can no longer fetch it. */
  lemma UpdateMovesCategoryAway(db: Db, c: Caller, categoryId: int, other: int, now: Time, violatesUnique: UniqueCheck)
    requires other != c.user.shopId
    requires UpdateCategory(db, c, categoryId,
                           ProductCategoryBody(None, Unset, Set(Some(other)), AuditBody(Unset, Unset, Unset, Unset)),
                           now, violatesUnique).response.Ok?
    ensures var out := UpdateCategory(db, c, categoryId,
                                     ProductCategoryBody(None, Unset, Set(Some(other)), AuditBody(Unset, Unset, Unset, Unset)),
                                     now, violatesUnique);
      GetCategory(out.db, c, categoryId) == Err(NotFound)
  {
  }
}
