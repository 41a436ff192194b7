/** The /companies routes (routes/companies.py): the companies list,
    fetching one company, creating a company and the partial update. */
module CompanyRoutes {
  import opened Base
  import opened Models
  import opened Policy

  /** The companies list. Level 0 selects the whole table; any other level
      selects the company reached from the caller's Users row through its
      shop. An empty result is a 404 unless the caller's level row says 0. */
  function ListCompanies(db: Db, c: Caller): (r: Response<map<int, Company>>)
    ensures var s := ReadScope(CompaniesTable, Listing, db, c);
      var none := forall k :: k in db.companies ==> !Covers(s, CompanyPlace(k));
      && (r.Ok? ==> forall k :: k in r.value <==> k in db.companies && Covers(s, CompanyPlace(k)))
      && (r.Ok? ==> forall k :: k in r.value ==> r.value[k] == db.companies[k])
      && (r == Err(ServerError) <==> none && LevelOf(db, c).None?)
      && (r == Err(NotFound) <==> none && LevelOf(db, c).Some? && LevelOf(db, c).value != 0)
      && (r.Err? ==> r.status in {NotFound, ServerError})
  {
    if c.user.userLevelId == 0 then
      NonEmptyUnlessLevelZero(db.companies, LevelOf(db, c))
    else
      var m := map k | k in db.companies && c.id in db.users && db.users[c.id].shopId in db.shops
                       && db.shops[db.users[c.id].shopId].companyId == k :: db.companies[k];
      assert forall k :: k in db.companies ==> (k in m <==> Covers(ReadScope(CompaniesTable, Listing, db, c), CompanyPlace(k)));
      NonEmptyUnlessLevelZero(m, LevelOf(db, c))
  }

  /** Fetch one company. Level 0 looks the key up; any other level gets the
      company of the caller's own shop, whatever key was asked for. */
  function GetCompany(db: Db, c: Caller, companyId: int): (r: Response<Company>)
    ensures r.Err? ==> r.status == NotFound
    ensures c.user.userLevelId == 0 ==> (r.Ok? <==> companyId in db.companies)
    ensures c.user.userLevelId == 0 && r.Ok? ==> r.value == db.companies[companyId]
    ensures c.user.userLevelId != 0 ==>
      (r.Ok? <==> exists k :: k in db.companies && Covers(ReadScope(CompaniesTable, Fetching, db, c), CompanyPlace(k)))
    ensures r.Ok? ==> exists k :: k in db.companies && db.companies[k] == r.value
                                && Covers(ReadScope(CompaniesTable, Fetching, db, c), CompanyPlace(k))
    ensures c.user.userLevelId != 0 && r.Ok? ==>
      HomeCompany(db, c).Some? && r.value == db.companies[HomeCompany(db, c).value]
  {
    if c.user.userLevelId == 0 then
      if companyId in db.companies then Ok(db.companies[companyId]) else Err(NotFound)
    else if c.id in db.users && db.users[c.id].shopId in db.shops
            && db.shops[db.users[c.id].shopId].companyId in db.companies then
      var k := db.shops[db.users[c.id].shopId].companyId;
      assert Covers(ReadScope(CompaniesTable, Fetching, db, c), CompanyPlace(k));
      Ok(db.companies[k])
    else
      Err(NotFound)
  }

  /** Create a company: levels 0 and 1 only; a store refusal is a 400. */
  function CreateCompany(db: Db, c: Caller, body: CompanyBody, nextId: int, violatesUnique: UniqueCheck)
    : (r: Outcome<Created<Company>>)
    ensures r.response.Err? ==> r.db == db
    ensures r.response == Err(Forbidden) <==> !Permits(CompaniesTable, Create, RoleOf(c.user.userLevelId))
    ensures r.response.Err? ==> r.response.status in {Forbidden, BadRequest}
    ensures Permits(CompaniesTable, Create, RoleOf(c.user.userLevelId)) && !CompanyComplete(body) ==> r.response == Err(BadRequest)
    ensures Permits(CompaniesTable, Create, RoleOf(c.user.userLevelId)) && KeyFor(body.id, nextId) in db.companies
            ==> r.response == Err(BadRequest)
    ensures r.response.Ok? ==>
      var k := r.response.value.id;
      && k == KeyFor(body.id, nextId) && k !in db.companies
      && r.db == db.(companies := db.companies[k := r.response.value.row])
      && CompanyFrom(body, r.response.value.row)
      && !violatesUnique(CompaniesTable, r.db, k)
    ensures Permits(CompaniesTable, Create, RoleOf(c.user.userLevelId)) && CompanyComplete(body)
            && KeyFor(body.id, nextId) !in db.companies
            && !violatesUnique(CompaniesTable, db.(companies := db.companies[KeyFor(body.id, nextId) := NewCompany(body).value]),
                               KeyFor(body.id, nextId))
            ==> r.response.Ok?
    ensures WellFormed(db) ==> WellFormed(r.db)
  {
    if c.user.userLevelId !in {0, 1} then
      Outcome(Err(Forbidden), db)
    else
      match NewCompany(body)
      case None => Outcome(Err(BadRequest), db)
      case Some(row) =>
        var k := KeyFor(body.id, nextId);
        var db' := db.(companies := db.companies[k := row]);
        if k in db.companies || violatesUnique(CompaniesTable, db', k) then Outcome(Err(BadRequest), db)
        else Outcome(Ok(Created(k, row)), db')
  }

  /** Partial update of a company: levels 0 and 1 only; the target is
      fetched by key alone. The commit is outside any try block, so a unique
      clash is a 500. */
  function UpdateCompany(db: Db, c: Caller, companyId: int, body: CompanyBody, now: Time, violatesUnique: UniqueCheck)
    : (r: Outcome<Company>)
    ensures r.response.Err? ==> r.db == db
    ensures r.response == Err(Forbidden) <==> !Permits(CompaniesTable, Update, RoleOf(c.user.userLevelId))
    ensures r.response == Err(NotFound) <==> Permits(CompaniesTable, Update, RoleOf(c.user.userLevelId)) && companyId !in db.companies
    ensures r.response.Err? ==> r.response.status in {Forbidden, NotFound, ServerError}
    ensures r.response.Ok? ==>
      && companyId in db.companies
      && r.db == db.(companies := db.companies[companyId := r.response.value])
      && CompanyPatched(db.companies[companyId], body, c.id, now, r.response.value)
      && !violatesUnique(CompaniesTable, r.db, companyId)
    ensures Permits(CompaniesTable, Update, RoleOf(c.user.userLevelId)) && companyId in db.companies
            && !violatesUnique(CompaniesTable, db.(companies := db.companies[companyId := MergeCompany(db.companies[companyId], body, c.id, now)]), companyId)
            ==> r.response.Ok?
    ensures WellFormed(db) ==> WellFormed(r.db)
  {
    if c.user.userLevelId !in {0, 1} then
      Outcome(Err(Forbidden), db)
    else if companyId !in db.companies then
      Outcome(Err(NotFound), db)
    else
      var row := MergeCompany(db.companies[companyId], body, c.id, now);
      var db' := db.(companies := db.companies[companyId := row]);
      if violatesUnique(CompaniesTable, db', companyId) then Outcome(Err(ServerError), db)
      else Outcome(Ok(row), db')
  }

  // ---------------------------------------------------------------------
  // Properties
  // ---------------------------------------------------------------------

  /** Below level 0 the requested key plays no part in a company fetch. */
  lemma FetchIgnoresKey(db: Db, c: Caller, a: int, b: int)
    requires c.user.userLevelId != 0
    ensures GetCompany(db, c, a) == GetCompany(db, c, b)
  {
  }

  /** A company fetch below level 0 returns the company the caller's list
      holds, so the list and the fetch agree. */
  lemma FetchAgreesWithList(db: Db, c: Caller, companyId: int)
    requires c.user.userLevelId != 0
    requires GetCompany(db, c, companyId).Ok?
    ensures ListCompanies(db, c).Ok?
    ensures exists k :: k in ListCompanies(db, c).value && ListCompanies(db, c).value[k] == GetCompany(db, c, companyId).value
  {
    var k := HomeCompany(db, c).value;
    assert Covers(ReadScope(CompaniesTable, Listing, db, c), CompanyPlace(k));
    assert k in ListCompanies(db, c).value;
  }

  /** An admin may rename or relicense a company other than the admin's own. */
  lemma AdminPatchesForeignCompany(db: Db, c: Caller, companyId: int, body: CompanyBody, now: Time, violatesUnique: UniqueCheck)
    requires c.user.userLevelId == 1
    requires companyId in db.companies && HomeCompany(db, c) != Some(companyId)
    requires !violatesUnique(CompaniesTable, db.(companies := db.companies[companyId := MergeCompany(db.companies[companyId], body, c.id, now)]), companyId)
    ensures UpdateCompany(db, c, companyId, body, now, violatesUnique).response.Ok?
  {
  }
}
