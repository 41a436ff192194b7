/** The /packages routes (routes/packages.py): the packages list, creating a
    package and the partial update. */
module PackageRoutes {
  import opened Base
  import opened Models
  import opened Policy

  /** The packages list takes no caller at all, so whoever asks gets the
      rows the Packages read scope covers, which is every row; an empty table
      is an empty answer, not a 404. */
  function ListPackages(db: Db): (r: Response<map<int, Package>>)
    ensures r.Ok?
    ensures forall c: Caller :: forall k ::
      k in r.value <==> k in db.packages && Covers(ReadScope(PackagesTable, Listing, db, c), Unplaced())
    ensures forall k :: k in r.value ==> r.value[k] == db.packages[k]
  {
    Ok(db.packages)
  }

  /** The body a package is created from: whatever `created_by` was sent is
      replaced by the caller's key. */
  function ClaimedPackage(body: PackageBody, c: Caller): PackageBody {
    body.(audit := body.audit.(createdBy := Set(Some(c.id))))
  }

  /** Create a package. The gate reads `level` off the caller's User_Levels
      row rather than `user_level_id`, so it fails when that row is missing.
      The commit is outside any try block: every store refusal is a 500. */
  function CreatePackage(db: Db, c: Caller, body: PackageBody, nextId: int, violatesUnique: UniqueCheck)
    : (r: Outcome<Created<Package>>)
    ensures r.response.Err? ==> r.db == db
    ensures r.response == Err(Forbidden) <==> LevelOf(db, c).Some? && LevelOf(db, c).value != 0
    ensures LevelOf(db, c).None? ==> r.response == Err(ServerError)
    ensures r.response.Err? ==> r.response.status in {Forbidden, ServerError}
    ensures LevelOf(db, c) == Some(0) && (!PackageComplete(body) || KeyFor(body.id, nextId) in db.packages)
            ==> r.response == Err(ServerError)
    ensures r.response.Ok? ==>
      var k := r.response.value.id;
      var row := r.response.value.row;
      && k == KeyFor(body.id, nextId) && k !in db.packages
      && r.db == db.(packages := db.packages[k := row])
      && row.audit.createdBy == Some(c.id)
      && PackageFrom(ClaimedPackage(body, c), row)
      && !violatesUnique(PackagesTable, r.db, k)
    ensures LevelOf(db, c) == Some(0) && PackageComplete(body) && KeyFor(body.id, nextId) !in db.packages
            && !violatesUnique(PackagesTable,
                               db.(packages := db.packages[KeyFor(body.id, nextId) := NewPackage(ClaimedPackage(body, c)).value]),
                               KeyFor(body.id, nextId))
            ==> r.response.Ok?
    ensures WellFormed(db) ==> WellFormed(r.db)
  {
    match LevelOf(db, c)
    case None =>
      // `current_user.user_level` is None and `.level` raises
      Outcome(Err(ServerError), db)
    case Some(level) =>
      if level != 0 then Outcome(Err(Forbidden), db)
      else
        match NewPackage(ClaimedPackage(body, c))
        case None => Outcome(Err(ServerError), db)
        case Some(row) =>
          var k := KeyFor(body.id, nextId);
          var db' := db.(packages := db.packages[k := row]);
          if k in db.packages || violatesUnique(PackagesTable, db', k) then Outcome(Err(ServerError), db)
          else Outcome(Ok(Created(k, row)), db')
  }

  /** Partial update of a package: `user_level_id` 0 only. */
  function UpdatePackage(db: Db, c: Caller, packageId: int, body: PackageBody, now: Time, violatesUnique: UniqueCheck)
    : (r: Outcome<Package>)
    ensures r.response.Err? ==> r.db == db
    ensures r.response == Err(Forbidden) <==> !Permits(PackagesTable, Update, RoleOf(c.user.userLevelId))
    ensures r.response == Err(NotFound) <==> Permits(PackagesTable, Update, RoleOf(c.user.userLevelId)) && packageId !in db.packages
    ensures r.response.Err? ==> r.response.status in {Forbidden, NotFound, ServerError}
    ensures r.response.Ok? ==>
      && packageId in db.packages
      && r.db == db.(packages := db.packages[packageId := r.response.value])
      && PackagePatched(db.packages[packageId], body, c.id, now, r.response.value)
      && !violatesUnique(PackagesTable, r.db, packageId)
    ensures Permits(PackagesTable, Update, RoleOf(c.user.userLevelId)) && packageId in db.packages
            && !violatesUnique(PackagesTable, db.(packages := db.packages[packageId := MergePackage(db.packages[packageId], body, c.id, now)]), packageId)
            ==> r.response.Ok?
    ensures WellFormed(db) ==> WellFormed(r.db)
  {
    if c.user.userLevelId != 0 then
      Outcome(Err(Forbidden), db)
    else if packageId !in db.packages then
      Outcome(Err(NotFound), db)
    else
      var row := MergePackage(db.packages[packageId], body, c.id, now);
      var db' := db.(packages := db.packages[packageId := row]);
      if violatesUnique(PackagesTable, db', packageId) then Outcome(Err(ServerError), db)
      else Outcome(Ok(row), db')
  }

  // ---------------------------------------------------------------------
  // Properties
  // ---------------------------------------------------------------------

  /** When the caller's level row carries the level its key names, the
      create gate is the permission table's: super-admins only. */
  lemma CreateGateMatchesTable(db: Db, c: Caller, body: PackageBody, nextId: int, violatesUnique: UniqueCheck)
    requires LevelOf(db, c) == Some(c.user.userLevelId)
    ensures CreatePackage(db, c, body, nextId, violatesUnique).response == Err(Forbidden)
            <==> !Permits(PackagesTable, Create, RoleOf(c.user.userLevelId))
  {
  }

  /** When the level row says otherwise, create and update disagree: a
      caller whose row at key 0 carries a non-zero level may update packages
      but not create them. */
  lemma CreateAndUpdateGatesDisagree(db: Db, c: Caller, body: PackageBody, nextId: int, packageId: int, now: Time,
                                     violatesUnique: UniqueCheck)
    requires c.user.userLevelId == 0 && 0 in db.userLevels && db.userLevels[0].level != 0
    ensures CreatePackage(db, c, body, nextId, violatesUnique).response == Err(Forbidden)
    ensures UpdatePackage(db, c, packageId, body, now, violatesUnique).response != Err(Forbidden)
  {
  }

  /** The creator column names the caller whatever the body sent. */
  lemma CreatorIsCaller(db: Db, c: Caller, body: PackageBody, nextId: int, violatesUnique: UniqueCheck)
    requires CreatePackage(db, c, body, nextId, violatesUnique).response.Ok?
    ensures var out := CreatePackage(db, c, body, nextId, violatesUnique);
      out.db.packages[out.response.value.id].audit.createdBy == Some(c.id)
  {
  }
}
