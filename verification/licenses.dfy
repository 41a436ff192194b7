/** The /licenses routes (routes/licenses.py): the licenses list, creating a
    license and the partial update. */
module LicenseRoutes {
  import opened Base
  import opened Models
  import opened Policy

  /** The licenses list. Level 0 selects the whole table; any other level
      selects the licenses a company holds through `license_id`, where that
      company is the one of the caller's own shop. An empty result is a 404
      unless the caller's level row says 0. */
  function ListLicenses(db: Db, c: Caller): (r: Response<map<int, License>>)
    ensures var s := ReadScope(LicensesTable, Listing, db, c);
      var none := forall l :: l in db.licenses ==> !LicenseCovered(db, s, l);
      && (r.Ok? ==> forall l :: l in r.value <==> l in db.licenses && LicenseCovered(db, s, l))
      && (r.Ok? ==> forall l :: l in r.value ==> r.value[l] == db.licenses[l])
      && (r == Err(ServerError) <==> none && LevelOf(db, c).None?)
      && (r == Err(NotFound) <==> none && LevelOf(db, c).Some? && LevelOf(db, c).value != 0)
      && (r.Err? ==> r.status in {NotFound, ServerError})
  {
    if c.user.userLevelId == 0 then
      NonEmptyUnlessLevelZero(db.licenses, LevelOf(db, c))
    else
      var m := map l | l in db.licenses
                       && exists co :: co in db.companies && db.companies[co].licenseId == Some(l)
                                       && c.id in db.users && db.users[c.id].shopId in db.shops
                                       && db.shops[db.users[c.id].shopId].companyId == co
                     :: db.licenses[l];
      assert forall l :: l in db.licenses ==> (l in m <==> LicenseCovered(db, ReadScope(LicensesTable, Listing, db, c), l));
      NonEmptyUnlessLevelZero(m, LevelOf(db, c))
  }

  /** Create a license. There is no gate at all: any authenticated caller
      may create one. A store refusal is a 400. */
  function CreateLicense(db: Db, c: Caller, body: LicenseBody, nextId: int, violatesUnique: UniqueCheck)
    : (r: Outcome<Created<License>>)
    ensures r.response.Err? ==> r.db == db
    ensures r.response == Err(Forbidden) <==> !Permits(LicensesTable, Create, RoleOf(c.user.userLevelId))
    ensures r.response.Err? ==> r.response.status == BadRequest
    ensures !LicenseComplete(body) || KeyFor(body.id, nextId) in db.licenses ==> r.response == Err(BadRequest)
    ensures r.response.Ok? ==>
      var k := r.response.value.id;
      && k == KeyFor(body.id, nextId) && k !in db.licenses
      && r.db == db.(licenses := db.licenses[k := r.response.value.row])
      && LicenseFrom(body, r.response.value.row)
      && !violatesUnique(LicensesTable, r.db, k)
    ensures LicenseComplete(body) && KeyFor(body.id, nextId) !in db.licenses
            && !violatesUnique(LicensesTable, db.(licenses := db.licenses[KeyFor(body.id, nextId) := NewLicense(body).value]),
                               KeyFor(body.id, nextId))
            ==> r.response.Ok?
    ensures WellFormed(db) ==> WellFormed(r.db)
  {
    match NewLicense(body)
    case None => Outcome(Err(BadRequest), db)
    case Some(row) =>
      var k := KeyFor(body.id, nextId);
      var db' := db.(licenses := db.licenses[k := row]);
      if k in db.licenses || violatesUnique(LicensesTable, db', k) then Outcome(Err(BadRequest), db)
      else Outcome(Ok(Created(k, row)), db')
  }

  /** Partial update of a license: `user_level_id` 0 only. The commit is
      outside any try block, so a unique clash is a 500. */
  function UpdateLicense(db: Db, c: Caller, licenseId: int, body: LicenseBody, now: Time, violatesUnique: UniqueCheck)
    : (r: Outcome<License>)
    ensures r.response.Err? ==> r.db == db
    ensures r.response == Err(Forbidden) <==> !Permits(LicensesTable, Update, RoleOf(c.user.userLevelId))
    ensures r.response == Err(NotFound) <==> Permits(LicensesTable, Update, RoleOf(c.user.userLevelId)) && licenseId !in db.licenses
    ensures r.response.Err? ==> r.response.status in {Forbidden, NotFound, ServerError}
    ensures r.response.Ok? ==>
      && licenseId in db.licenses
      && r.db == db.(licenses := db.licenses[licenseId := r.response.value])
      && LicensePatched(db.licenses[licenseId], body, c.id, now, r.response.value)
      && !violatesUnique(LicensesTable, r.db, licenseId)
    ensures Permits(LicensesTable, Update, RoleOf(c.user.userLevelId)) && licenseId in db.licenses
            && !violatesUnique(LicensesTable, db.(licenses := db.licenses[licenseId := MergeLicense(db.licenses[licenseId], body, c.id, now)]), licenseId)
            ==> r.response.Ok?
    ensures WellFormed(db) ==> WellFormed(r.db)
  {
    if c.user.userLevelId != 0 then
      Outcome(Err(Forbidden), db)
    else if licenseId !in db.licenses then
      Outcome(Err(NotFound), db)
    else
      var row := MergeLicense(db.licenses[licenseId], body, c.id, now);
      var db' := db.(licenses := db.licenses[licenseId := row]);
      if violatesUnique(LicensesTable, db', licenseId) then Outcome(Err(ServerError), db)
      else Outcome(Ok(row), db')
  }

  // ---------------------------------------------------------------------
  // Properties
  // ---------------------------------------------------------------------

  /** Below level 0 the licenses list depends only on the caller's company
      and level row, not on the caller's role: a member sees exactly what an
      admin of the same company sees. */
  lemma {:induction false} ListDependsOnCompanyOnly(db: Db, c: Caller, c': Caller)
    requires c.user.userLevelId != 0 && c'.user.userLevelId != 0
    requires HomeCompany(db, c) == HomeCompany(db, c') && LevelOf(db, c) == LevelOf(db, c')
    ensures ListLicenses(db, c) == ListLicenses(db, c')
  {
    var s := ReadScope(LicensesTable, Listing, db, c);
    assert s == ReadScope(LicensesTable, Listing, db, c');
    var r, r' := ListLicenses(db, c), ListLicenses(db, c');
    if r.Ok? && r'.Ok? {
      assert r.value.Keys == r'.value.Keys;
      assert r.value == r'.value;
    }
  }

  /** A caller of any level, a member included, may create a license: the
      create handler has no role gate. */
  lemma MemberCreatesLicense(db: Db, c: Caller, body: LicenseBody, nextId: int, violatesUnique: UniqueCheck)
    requires c.user.userLevelId !in {0, 1, 2}
    requires LicenseComplete(body) && KeyFor(body.id, nextId) !in db.licenses
    requires !violatesUnique(LicensesTable, db.(licenses := db.licenses[KeyFor(body.id, nextId) := NewLicense(body).value]),
                             KeyFor(body.id, nextId))
    ensures CreateLicense(db, c, body, nextId, violatesUnique).response.Ok?
  {
  }
}
