/** The /shops/types routes (routes/shop_types.py): the shop-type list,
    fetching one shop type, creating one and the partial update. */
module ShopTypeRoutes {
  import opened Base
  import opened Models
  import opened Policy

  /** The shop-type list takes no caller, so whoever asks gets the rows the
      Shop_Types read scope covers, which is every row; an empty table is an
      empty answer, not a 404. */
  function ListShopTypes(db: Db): (r: Response<map<int, ShopType>>)
    ensures r.Ok?
    ensures forall c: Caller :: forall k ::
      k in r.value <==> k in db.shopTypes && Covers(ReadScope(ShopTypesTable, Listing, db, c), Unplaced())
    ensures forall k :: k in r.value ==> r.value[k] == db.shopTypes[k]
  {
    Ok(db.shopTypes)
  }

  /** Fetch one shop type by key. No caller is taken: for whoever asks, the
      shop type comes back exactly when it exists and the Fetching scope
      covers it, and a refusal is always a 404. */
  function GetShopType(db: Db, shopTypeId: int): (r: Response<ShopType>)
    ensures forall c: Caller ::
      r.Ok? <==> shopTypeId in db.shopTypes && Covers(ReadScope(ShopTypesTable, Fetching, db, c), Unplaced())
    ensures r.Ok? ==> r.value == db.shopTypes[shopTypeId]
    ensures r.Err? ==> r.status == NotFound
  {
    if shopTypeId in db.shopTypes then Ok(db.shopTypes[shopTypeId]) else Err(NotFound)
  }

  /** The body a shop type is created from: `created_by` is replaced by the
      caller's key. */
  function ClaimedShopType(body: ShopTypeBody, c: Caller): ShopTypeBody {
    body.(audit := body.audit.(createdBy := Set(Some(c.id))))
  }

  /** Create a shop type. The gate reads `level` off the caller's
      User_Levels row, and fails when that row is missing. The commit is
      outside any try block, so every store refusal is a 500. */
  function CreateShopType(db: Db, c: Caller, body: ShopTypeBody, nextId: int, violatesUnique: UniqueCheck)
    : (r: Outcome<Created<ShopType>>)
    ensures r.response.Err? ==> r.db == db
    ensures r.response == Err(Forbidden) <==> LevelOf(db, c).Some? && LevelOf(db, c).value != 0
    ensures LevelOf(db, c).None? ==> r.response == Err(ServerError)
    ensures r.response.Err? ==> r.response.status in {Forbidden, ServerError}
    ensures LevelOf(db, c) == Some(0) && (!ShopTypeComplete(ClaimedShopType(body, c)) || KeyFor(body.id, nextId) in db.shopTypes)
            ==> r.response == Err(ServerError)
    ensures r.response.Ok? ==>
      var k := r.response.value.id;
      var row := r.response.value.row;
      && k == KeyFor(body.id, nextId) && k !in db.shopTypes
      && r.db == db.(shopTypes := db.shopTypes[k := row])
      && row.audit.createdBy == Some(c.id)
      && ShopTypeFrom(ClaimedShopType(body, c), row)
      && !violatesUnique(ShopTypesTable, r.db, k)
    ensures LevelOf(db, c) == Some(0) && ShopTypeComplete(ClaimedShopType(body, c)) && KeyFor(body.id, nextId) !in db.shopTypes
            && !violatesUnique(ShopTypesTable,
                               db.(shopTypes := db.shopTypes[KeyFor(body.id, nextId) := NewShopType(ClaimedShopType(body, c)).value]),
                               KeyFor(body.id, nextId))
            ==> r.response.Ok?
    ensures WellFormed(db) ==> WellFormed(r.db)
  {
    match LevelOf(db, c)
    case None =>
      // `current_user.user_level` is None and `.level` raises
      Outcome(Err(ServerError), db)
    case Some(level) =>
      if level != 0 then Outcome(Err(Forbidden), db)
      else
        match NewShopType(ClaimedShopType(body, c))
        case None => Outcome(Err(ServerError), db)
        case Some(row) =>
          var k := KeyFor(body.id, nextId);
          var db' := db.(shopTypes := db.shopTypes[k := row]);
          if k in db.shopTypes || violatesUnique(ShopTypesTable, db', k) then Outcome(Err(ServerError), db)
          else Outcome(Ok(Created(k, row)), db')
  }

  /** Partial update of a shop type: `user_level_id` 0 only. */
  function UpdateShopType(db: Db, c: Caller, shopTypeId: int, body: ShopTypeBody, now: Time, violatesUnique: UniqueCheck)
    : (r: Outcome<ShopType>)
    ensures r.response.Err? ==> r.db == db
    ensures r.response == Err(Forbidden) <==> !Permits(ShopTypesTable, Update, RoleOf(c.user.userLevelId))
    ensures r.response == Err(NotFound) <==> Permits(ShopTypesTable, Update, RoleOf(c.user.userLevelId)) && shopTypeId !in db.shopTypes
    ensures r.response.Err? ==> r.response.status in {Forbidden, NotFound, ServerError}
    ensures r.response.Ok? ==>
      && shopTypeId in db.shopTypes
      && r.db == db.(shopTypes := db.shopTypes[shopTypeId := r.response.value])
      && ShopTypePatched(db.shopTypes[shopTypeId], body, c.id, now, r.response.value)
      && !violatesUnique(ShopTypesTable, r.db, shopTypeId)
    ensures Permits(ShopTypesTable, Update, RoleOf(c.user.userLevelId)) && shopTypeId in db.shopTypes
            && !violatesUnique(ShopTypesTable, db.(shopTypes := db.shopTypes[shopTypeId := MergeShopType(db.shopTypes[shopTypeId], body, c.id, now)]), shopTypeId)
            ==> r.response.Ok?
    ensures WellFormed(db) ==> WellFormed(r.db)
  {
    if c.user.userLevelId != 0 then
      Outcome(Err(Forbidden), db)
    else if shopTypeId !in db.shopTypes then
      Outcome(Err(NotFound), db)
    else
      var row := MergeShopType(db.shopTypes[shopTypeId], body, c.id, now);
      var db' := db.(shopTypes := db.shopTypes[shopTypeId := row]);
      if violatesUnique(ShopTypesTable, db', shopTypeId) then Outcome(Err(ServerError), db)
      else Outcome(Ok(row), db')
  }

  // ---------------------------------------------------------------------
  // Properties
  // ---------------------------------------------------------------------

  /** A body that leaves out `updated_at` can never create a shop type: the
      column is NOT NULL, has no default and the handler does not fill it. */
  lemma CreateNeedsUpdatedAt(db: Db, c: Caller, body: ShopTypeBody, nextId: int, violatesUnique: UniqueCheck)
    requires body.audit.updatedAt.Unset?
    ensures !CreateShopType(db, c, body, nextId, violatesUnique).response.Ok?
  {
  }
}
