/** The /products routes (routes/products.py): the product list, fetching
    one product, creating a product and the partial update. Every read and
    the update's lookup are confined to the `shop_id` the caller carries. */
module ProductRoutes {
  import opened Base
  import opened Models
  import opened Policy

  /** A product the caller's shop filter lets through: its `shop_id` equals
      the caller's (a NULL `shop_id` equals nothing). */
  predicate InCallerShop(db: Db, c: Caller, k: int)
    requires k in db.products
  {
    Covers(ReadScope(ProductsTable, Fetching, db, c), ShopRowPlace(db, db.products[k].shopId))
  }

  /** The product list: the products of the caller's shop; 404 when there
      are none. */
  function ListProducts(db: Db, c: Caller): (r: Response<map<int, Product>>)
    ensures var s := ReadScope(ProductsTable, Listing, db, c);
      && (r.Err? ==> r.status == NotFound)
      && (r.Err? <==> forall k :: k in db.products ==> !Covers(s, ShopRowPlace(db, db.products[k].shopId)))
      && (r.Ok? ==> forall k :: k in r.value <==> k in db.products && Covers(s, ShopRowPlace(db, db.products[k].shopId)))
      && (r.Ok? ==> forall k :: k in r.value ==> r.value[k] == db.products[k])
  {
    var m := map k | k in db.products && db.products[k].shopId == Some(c.user.shopId) :: db.products[k];
    assert forall k :: k in db.products ==>
      (k in m <==> Covers(ReadScope(ProductsTable, Listing, db, c), ShopRowPlace(db, db.products[k].shopId)));
    NonEmpty(m)
  }

  /** Fetch one product of the caller's shop. */
  function GetProduct(db: Db, c: Caller, productId: int): (r: Response<Product>)
    ensures r.Ok? <==> productId in db.products && InCallerShop(db, c, productId)
    ensures r.Ok? ==> r.value == db.products[productId]
    ensures r.Err? ==> r.status == NotFound
  {
    if productId in db.products && db.products[productId].shopId == Some(c.user.shopId)
    then Ok(db.products[productId])
    else Err(NotFound)
  }

  /** Create a product: levels 0, 1 and 2; a store refusal is a 400. The
      new row's `shop_id` is whatever the body says, not the caller's. */
  function CreateProduct(db: Db, c: Caller, body: ProductBody, nextId: int, violatesUnique: UniqueCheck)
    : (r: Outcome<Created<Product>>)
    ensures r.response.Err? ==> r.db == db
    ensures r.response == Err(Forbidden) <==> !Permits(ProductsTable, Create, RoleOf(c.user.userLevelId))
    ensures r.response.Err? ==> r.response.status in {Forbidden, BadRequest}
    ensures Permits(ProductsTable, Create, RoleOf(c.user.userLevelId)) && !ProductComplete(body) ==> r.response == Err(BadRequest)
    ensures Permits(ProductsTable, Create, RoleOf(c.user.userLevelId)) && KeyFor(body.id, nextId) in db.products
            ==> r.response == Err(BadRequest)
    ensures r.response.Ok? ==>
      var k := r.response.value.id;
      && k == KeyFor(body.id, nextId) && k !in db.products
      && r.db == db.(products := db.products[k := r.response.value.row])
      && ProductFrom(body, r.response.value.row)
      && !violatesUnique(ProductsTable, r.db, k)
    ensures Permits(ProductsTable, Create, RoleOf(c.user.userLevelId)) && ProductComplete(body)
            && KeyFor(body.id, nextId) !in db.products
            && !violatesUnique(ProductsTable, db.(products := db.products[KeyFor(body.id, nextId) := NewProduct(body).value]),
                               KeyFor(body.id, nextId))
            ==> r.response.Ok?
    ensures WellFormed(db) ==> WellFormed(r.db)
  {
    if c.user.userLevelId !in {0, 1, 2} then
      Outcome(Err(Forbidden), db)
    else
      match NewProduct(body)
      case None => Outcome(Err(BadRequest), db)
      case Some(row) =>
        var k := KeyFor(body.id, nextId);
        var db' := db.(products := db.products[k := row]);
        if k in db.products || violatesUnique(ProductsTable, db', k) then Outcome(Err(BadRequest), db)
        else Outcome(Ok(Created(k, row)), db')
  }

  /** Partial update of a product: levels 0, 1 and 2, and only a product of
      the caller's shop; `shop_id` itself is not protected. The commit is
      outside any try block, so a unique clash is a 500. */
  function UpdateProduct(db: Db, c: Caller, productId: int, body: ProductBody, now: Time, violatesUnique: UniqueCheck)
    : (r: Outcome<Product>)
    ensures r.response.Err? ==> r.db == db
    ensures r.response == Err(Forbidden) <==> !Permits(ProductsTable, Update, RoleOf(c.user.userLevelId))
    ensures r.response == Err(NotFound) <==>
      Permits(ProductsTable, Update, RoleOf(c.user.userLevelId)) && !(productId in db.products && InCallerShop(db, c, productId))
    ensures r.response.Err? ==> r.response.status in {Forbidden, NotFound, ServerError}
    ensures r.response.Ok? ==>
      && productId in db.products && InCallerShop(db, c, productId)
      && r.db == db.(products := db.products[productId := r.response.value])
      && ProductPatched(db.products[productId], body, c.id, now, r.response.value)
      && !violatesUnique(ProductsTable, r.db, productId)
    ensures Permits(ProductsTable, Update, RoleOf(c.user.userLevelId)) && productId in db.products && InCallerShop(db, c, productId)
            && !violatesUnique(ProductsTable, db.(products := db.products[productId := MergeProduct(db.products[productId], body, c.id, now)]), productId)
            ==> r.response.Ok?
    ensures WellFormed(db) ==> WellFormed(r.db)
  {
    if c.user.userLevelId !in {0, 1, 2} then
      Outcome(Err(Forbidden), db)
    else if !(productId in db.products && db.products[productId].shopId == Some(c.user.shopId)) then
      Outcome(Err(NotFound), db)
    else
      var row := MergeProduct(db.products[productId], body, c.id, now);
      var db' := db.(products := db.products[productId := row]);
      if violatesUnique(ProductsTable, db', productId) then Outcome(Err(ServerError), db)
      else Outcome(Ok(row), db')
  }

  // ---------------------------------------------------------------------
  // Properties
  // ---------------------------------------------------------------------

  /** Fetching agrees with the list: a product can be fetched exactly when
      the caller's list holds it. */
  lemma FetchAgreesWithList(db: Db, c: Caller, productId: int)
    ensures GetProduct(db, c, productId).Ok? <==> ListProducts(db, c).Ok? && productId in ListProducts(db, c).value
  {
  }

  /** The product scope is the caller's `shop_id` whatever the role: a
      super-admin reads no more products than a member of the same shop. */
  lemma ScopeIgnoresRole(db: Db, c: Caller, c': Caller, productId: int)
    requires c.user.shopId == c'.user.shopId
    ensures GetProduct(db, c, productId) == GetProduct(db, c', productId)
    ensures ListProducts(db, c) == ListProducts(db, c')
  {
  }

  /** An update may move a product to another shop, after which the caller
      who moved it can no longer fetch it. */
  lemma UpdateMovesProductAway(db: Db, c: Caller, productId: int, other: int, now: Time, violatesUnique: UniqueCheck)
    requires other != c.user.shopId
    requires UpdateProduct(db, c, productId,
                           ProductBody(None, Unset, Unset, Unset, Unset, Set(Some(other)), AuditBody(Unset, Unset, Unset, Unset)),
                           now, violatesUnique).response.Ok?
    ensures var out := UpdateProduct(db, c, productId,
                                     ProductBody(None, Unset, Unset, Unset, Unset, Set(Some(other)), AuditBody(Unset, Unset, Unset, Unset)),
                                     now, violatesUnique);
      GetProduct(out.db, c, productId) == Err(NotFound)
  {
  }
}
