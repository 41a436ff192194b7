/** The /shops routes (routes/shops.py): the shops list, fetching one shop,
    creating a shop and the partial update. */
module ShopRoutes {
  import opened Base
  import opened Models
  import opened Policy

  /** A shop some user is attached to. */
  predicate Staffed(db: Db, shopId: int) {
    exists u :: u in db.users && db.users[u].shopId == shopId
  }

  /** The shops list. Level 0 selects the whole table. For levels 1 and 2 the
      query joins Shops to itself on a tautology, so what it returns is up to
      the SQL layer: `selfJoin` stands for those rows. Any other level selects
      the shop the caller's own Users row points at. */
  function ListShops(db: Db, c: Caller, selfJoin: map<int, Shop>): (r: Response<map<int, Shop>>)
    ensures var s := ReadScope(ShopsTable, Listing, db, c);
      && (r.Err? ==> r.status == NotFound)
      && (s != Undetermined ==>
            && (r.Err? <==> forall k :: k in db.shops ==> !Covers(s, ShopPlace(db, k)))
            && (r.Ok? ==> forall k :: k in r.value <==> k in db.shops && Covers(s, ShopPlace(db, k)))
            && (r.Ok? ==> forall k :: k in r.value ==> r.value[k] == db.shops[k]))
      && (s == Undetermined ==> (r.Err? <==> selfJoin == map[]) && (r.Ok? ==> r.value == selfJoin))
  {
    if c.user.userLevelId == 0 then
      NonEmpty(db.shops)
    else if c.user.userLevelId in {1, 2} then
      NonEmpty(selfJoin)
    else
      var m := map k | k in db.shops && c.id in db.users && db.users[c.id].shopId == k :: db.shops[k];
      assert forall k :: k in db.shops ==> (k in m <==> Covers(ReadScope(ShopsTable, Listing, db, c), ShopPlace(db, k)));
      NonEmpty(m)
  }

  /** Fetch one shop. Level 0 looks the key up; levels 1 and 2 get whatever
      the self-joined query returns (`selfJoin`); any other level gets the
      shop when some user, not necessarily the caller, is attached to it:
      the query filters on `Users.shop_id` without tying that user to the
      caller. */
  function GetShop(db: Db, c: Caller, shopId: int, selfJoin: Option<Shop>): (r: Response<Shop>)
    ensures r.Err? ==> r.status == NotFound
    ensures c.user.userLevelId == 0 ==> (r.Ok? <==> shopId in db.shops)
    ensures c.user.userLevelId in {1, 2} ==> (r.Ok? <==> selfJoin.Some?) && (r.Ok? ==> r.value == selfJoin.value)
    ensures c.user.userLevelId !in {0, 1, 2} ==> (r.Ok? <==> shopId in db.shops && Staffed(db, shopId))
    ensures r.Ok? && c.user.userLevelId !in {1, 2} ==> shopId in db.shops && r.value == db.shops[shopId]
  {
    if c.user.userLevelId == 0 then
      if shopId in db.shops then Ok(db.shops[shopId]) else Err(NotFound)
    else if c.user.userLevelId in {1, 2} then
      match selfJoin
      case Some(shop) => Ok(shop)
      case None => Err(NotFound)
    else
      if shopId in db.shops && exists u :: u in db.users && db.users[u].shopId == shopId
      then Ok(db.shops[shopId])
      else Err(NotFound)
  }

  /** Create a shop: levels 0 and 1 only; a store refusal is a 400. */
  function CreateShop(db: Db, c: Caller, body: ShopBody, nextId: int, violatesUnique: UniqueCheck)
    : (r: Outcome<Created<Shop>>)
    ensures r.response.Err? ==> r.db == db
    ensures r.response == Err(Forbidden) <==> !Permits(ShopsTable, Create, RoleOf(c.user.userLevelId))
    ensures r.response.Err? ==> r.response.status in {Forbidden, BadRequest}
    ensures Permits(ShopsTable, Create, RoleOf(c.user.userLevelId)) && !ShopComplete(body) ==> r.response == Err(BadRequest)
    ensures Permits(ShopsTable, Create, RoleOf(c.user.userLevelId)) && KeyFor(body.id, nextId) in db.shops ==> r.response == Err(BadRequest)
    ensures r.response.Ok? ==>
      var k := r.response.value.id;
      && k == KeyFor(body.id, nextId) && k !in db.shops
      && r.db == db.(shops := db.shops[k := r.response.value.row])
      && ShopFrom(body, r.response.value.row)
      && !violatesUnique(ShopsTable, r.db, k)
    ensures Permits(ShopsTable, Create, RoleOf(c.user.userLevelId)) && ShopComplete(body)
            && KeyFor(body.id, nextId) !in db.shops
            && !violatesUnique(ShopsTable, db.(shops := db.shops[KeyFor(body.id, nextId) := NewShop(body).value]),
                               KeyFor(body.id, nextId))
            ==> r.response.Ok?
    ensures WellFormed(db) ==> WellFormed(r.db)
  {
    if c.user.userLevelId !in {0, 1} then
      Outcome(Err(Forbidden), db)
    else
      match NewShop(body)
      case None => Outcome(Err(BadRequest), db)
      case Some(row) =>
        var k := KeyFor(body.id, nextId);
        var db' := db.(shops := db.shops[k := row]);
        if k in db.shops || violatesUnique(ShopsTable, db', k) then Outcome(Err(BadRequest), db)
        else Outcome(Ok(Created(k, row)), db')
  }

  /** Partial update of a shop: levels 0 and 1 only; the target is fetched by
      key alone, with no check that it belongs to the caller's company. */
  function UpdateShop(db: Db, c: Caller, shopId: int, body: ShopBody, now: Time, violatesUnique: UniqueCheck)
    : (r: Outcome<Shop>)
    ensures r.response.Err? ==> r.db == db
    ensures r.response == Err(Forbidden) <==> !Permits(ShopsTable, Update, RoleOf(c.user.userLevelId))
    ensures r.response == Err(NotFound) <==> Permits(ShopsTable, Update, RoleOf(c.user.userLevelId)) && shopId !in db.shops
    ensures r.response.Err? ==> r.response.status in {Forbidden, NotFound, ServerError}
    ensures r.response.Ok? ==>
      && shopId in db.shops
      && r.db == db.(shops := db.shops[shopId := r.response.value])
      && ShopPatched(db.shops[shopId], body, c.id, now, r.response.value)
      && !violatesUnique(ShopsTable, r.db, shopId)
    ensures Permits(ShopsTable, Update, RoleOf(c.user.userLevelId)) && shopId in db.shops
            && !violatesUnique(ShopsTable, db.(shops := db.shops[shopId := MergeShop(db.shops[shopId], body, c.id, now)]), shopId)
            ==> r.response.Ok?
    ensures WellFormed(db) ==> WellFormed(r.db)
  {
    if c.user.userLevelId !in {0, 1} then
      Outcome(Err(Forbidden), db)
    else if shopId !in db.shops then
      Outcome(Err(NotFound), db)
    else
      var row := MergeShop(db.shops[shopId], body, c.id, now);
      var db' := db.(shops := db.shops[shopId := row]);
      if violatesUnique(ShopsTable, db', shopId) then Outcome(Err(ServerError), db)
      else Outcome(Ok(row), db')
  }

  // ---------------------------------------------------------------------
  // Properties
  // ---------------------------------------------------------------------

  /** A member fetching a shop gets it whenever somebody works there, even a
      shop of another company that the member's scope does not cover. */
  lemma MemberFetchesStaffedShop(db: Db, c: Caller, shopId: int, selfJoin: Option<Shop>, u: int)
    requires c.user.userLevelId !in {0, 1, 2}
    requires shopId in db.shops && u in db.users && db.users[u].shopId == shopId
    ensures GetShop(db, c, shopId, selfJoin) == Ok(db.shops[shopId])
    ensures HomeShop(db, c) != Some(shopId) ==> !Covers(ReadScope(ShopsTable, Fetching, db, c), ShopPlace(db, shopId))
  {
  }

  /** A member's shop fetch does not depend on who the member is. */
  lemma {:induction false} MemberFetchIgnoresCaller(db: Db, c: Caller, c': Caller, shopId: int, a: Option<Shop>, a': Option<Shop>)
    requires c.user.userLevelId !in {0, 1, 2} && c'.user.userLevelId !in {0, 1, 2}
    ensures GetShop(db, c, shopId, a) == GetShop(db, c', shopId, a')
  {
    if shopId in db.shops && Staffed(db, shopId) {
      var u :| u in db.users && db.users[u].shopId == shopId;
      MemberFetchesStaffedShop(db, c, shopId, a, u);
      MemberFetchesStaffedShop(db, c', shopId, a', u);
    }
  }

  /** A member's shops list holds at most the member's own shop. */
  lemma MemberListsOwnShopOnly(db: Db, c: Caller, selfJoin: map<int, Shop>)
    requires c.user.userLevelId !in {0, 1, 2}
    requires ListShops(db, c, selfJoin).Ok?
    ensures ListShops(db, c, selfJoin).value.Keys == {db.users[c.id].shopId}
  {
    var m := ListShops(db, c, selfJoin).value;
    var k :| k in m;
    assert HomeShop(db, c).Some?;
  }

  /** An admin may patch any existing shop, one of a different company
      included. */
  lemma AdminPatchesForeignShop(db: Db, c: Caller, shopId: int, body: ShopBody, now: Time, violatesUnique: UniqueCheck)
    requires c.user.userLevelId == 1
    requires shopId in db.shops && HomeCompany(db, c) != Some(db.shops[shopId].companyId)
    requires !violatesUnique(ShopsTable, db.(shops := db.shops[shopId := MergeShop(db.shops[shopId], body, c.id, now)]), shopId)
    ensures UpdateShop(db, c, shopId, body, now, violatesUnique).response.Ok?
  {
  }
}
