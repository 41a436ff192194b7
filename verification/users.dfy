/** The /users routes (routes/users.py): the users list, fetching one user,
    creating a user and the partial update, including the rule that an
    admin may only update users of the admin's own company. */
module UserRoutes {
  import opened Base
  import opened Models
  import opened Policy

  /** The list handler (named `get_shops` in the source). Level 0 selects the
      whole table; levels 1 and 2 first fetch the caller's own shop and then
      select the users whose shop belongs to that shop's company; any other
      level selects the caller's own row joined to its shop. */
  function ListUsers(db: Db, c: Caller): (r: Response<map<int, User>>)
    ensures var s := ReadScope(UsersTable, Listing, db, c);
      && (r == Err(ServerError) <==> s == Undetermined)
      && (r == Err(NotFound) <==> s != Undetermined && forall k :: k in db.users ==> !Covers(s, UserPlace(db, k)))
      && (r.Err? ==> r.status in {ServerError, NotFound})
      && (r.Ok? ==> forall k :: k in r.value <==> k in db.users && Covers(s, UserPlace(db, k)))
      && (r.Ok? ==> forall k :: k in r.value ==> r.value[k] == db.users[k])
  {
    if c.user.userLevelId == 0 then
      NonEmpty(db.users)
    else if c.user.userLevelId in {1, 2} then
      if !(c.id in db.users && db.users[c.id].shopId in db.shops) then
        // `user_shop` is None and `user_shop.company_id` raises
        Err(ServerError)
      else
        var userShop := db.shops[db.users[c.id].shopId];
        var m := map k | k in db.users && db.users[k].shopId in db.shops
                         && db.shops[db.users[k].shopId].companyId == userShop.companyId :: db.users[k];
        assert ReadScope(UsersTable, Listing, db, c) == CompanyScope(userShop.companyId);
        assert forall k :: k in db.users ==> (k in m <==> Covers(CompanyScope(userShop.companyId), UserPlace(db, k)));
        NonEmpty(m)
    else
      var m := map k | k in db.users && db.users[k].shopId in db.shops && k == c.id :: db.users[k];
      assert forall k :: k in db.users ==> (k in m <==> Covers(SelfScope(c.id), UserPlace(db, k)));
      NonEmpty(m)
  }

  /** Fetch one user. Level 0 looks the key up; levels 1 and 2 require the
      user's shop to belong to the company of the caller's shop; any other
      level requires the user's shop to be the `shop_id` the caller carries. */
  function GetUser(db: Db, c: Caller, userId: int): (r: Response<User>)
    ensures var s := ReadScope(UsersTable, Fetching, db, c);
      && (r == Err(ServerError) <==> s == Undetermined)
      && (r == Err(NotFound) <==> s != Undetermined && !(userId in db.users && Covers(s, UserPlace(db, userId))))
      && (r.Err? ==> r.status in {ServerError, NotFound})
      && (r.Ok? ==> userId in db.users && r.value == db.users[userId])
  {
    if c.user.userLevelId == 0 then
      if userId in db.users then Ok(db.users[userId]) else Err(NotFound)
    else if c.user.userLevelId in {1, 2} then
      if !(c.id in db.users && db.users[c.id].shopId in db.shops) then
        Err(ServerError)
      else
        var userShop := db.shops[db.users[c.id].shopId];
        if userId in db.users && db.users[userId].shopId in db.shops
           && db.shops[db.users[userId].shopId].companyId == userShop.companyId
        then Ok(db.users[userId])
        else Err(NotFound)
    else
      if userId in db.users && db.users[userId].shopId in db.shops && db.users[userId].shopId == c.user.shopId
      then Ok(db.users[userId])
      else Err(NotFound)
  }

  /** Create a user. Only levels 0 and 1 pass the gate; the store refuses a
      row with a NOT NULL column left empty, a taken key or a unique clash,
      and the handler turns that refusal into 400. */
  function CreateUser(db: Db, c: Caller, body: UserBody, nextId: int, violatesUnique: UniqueCheck)
    : (r: Outcome<Created<User>>)
    ensures r.response.Err? ==> r.db == db
    ensures r.response == Err(Forbidden) <==> !Permits(UsersTable, Create, RoleOf(c.user.userLevelId))
    ensures r.response.Err? ==> r.response.status in {Forbidden, BadRequest}
    ensures Permits(UsersTable, Create, RoleOf(c.user.userLevelId)) && !UserComplete(body) ==> r.response == Err(BadRequest)
    ensures Permits(UsersTable, Create, RoleOf(c.user.userLevelId)) && KeyFor(body.id, nextId) in db.users ==> r.response == Err(BadRequest)
    ensures r.response.Ok? ==>
      var k := r.response.value.id;
      && k == KeyFor(body.id, nextId) && k !in db.users
      && r.db == db.(users := db.users[k := r.response.value.row])
      && UserFrom(body, r.response.value.row)
      && !violatesUnique(UsersTable, r.db, k)
    ensures Permits(UsersTable, Create, RoleOf(c.user.userLevelId)) && UserComplete(body)
            && KeyFor(body.id, nextId) !in db.users
            && !violatesUnique(UsersTable, db.(users := db.users[KeyFor(body.id, nextId) := NewUser(body).value]),
                               KeyFor(body.id, nextId))
            ==> r.response.Ok?
    ensures WellFormed(db) ==> WellFormed(r.db)
  {
    if c.user.userLevelId !in {0, 1} then
      Outcome(Err(Forbidden), db)
    else
      match NewUser(body)
      case None => Outcome(Err(BadRequest), db)
      case Some(row) =>
        var k := KeyFor(body.id, nextId);
        var db' := db.(users := db.users[k := row]);
        if k in db.users || violatesUnique(UsersTable, db', k) then Outcome(Err(BadRequest), db)
        else Outcome(Ok(Created(k, row)), db')
  }

  /** The extra gate a level-1 caller meets when updating: the caller's own
      shop must belong to the company of the target's shop. */
  predicate SameCompany(db: Db, c: Caller, target: User) {
    HomeCompany(db, c).Some? && HomeCompany(db, c) == ShopCompany(db, target.shopId)
  }

  /** Partial update of a user. Levels 0 and 1 pass the first gate; a level-1
      caller must also share a company with the target (`db_user.shop` is
      looked up, and a target without a shop crashes). The merge applies the
      sent columns except the five protected ones and stamps the update. The
      commit is outside the try block, so a unique clash is a 500. */
  function UpdateUser(db: Db, c: Caller, userId: int, body: UserBody, now: Time, violatesUnique: UniqueCheck)
    : (r: Outcome<User>)
    ensures r.response.Err? ==> r.db == db
    ensures r.response == Err(Forbidden) <==>
      || !Permits(UsersTable, Update, RoleOf(c.user.userLevelId))
      || (c.user.userLevelId == 1 && userId in db.users && db.users[userId].shopId in db.shops
          && !SameCompany(db, c, db.users[userId]))
    ensures r.response == Err(NotFound) <==> Permits(UsersTable, Update, RoleOf(c.user.userLevelId)) && userId !in db.users
    ensures c.user.userLevelId == 1 && userId in db.users && db.users[userId].shopId !in db.shops
            ==> r.response == Err(ServerError)
    ensures r.response.Err? ==> r.response.status in {Forbidden, NotFound, ServerError}
    ensures r.response.Ok? ==>
      && userId in db.users
      && r.db == db.(users := db.users[userId := r.response.value])
      && UserPatched(db.users[userId], body, c.id, now, r.response.value)
      && !violatesUnique(UsersTable, r.db, userId)
      && (c.user.userLevelId == 1 ==> SameCompany(db, c, db.users[userId]))
    ensures Permits(UsersTable, Update, RoleOf(c.user.userLevelId)) && userId in db.users
            && (c.user.userLevelId == 1 ==> SameCompany(db, c, db.users[userId]))
            && !violatesUnique(UsersTable, db.(users := db.users[userId := MergeUser(db.users[userId], body, c.id, now)]), userId)
            ==> r.response.Ok?
    ensures WellFormed(db) ==> WellFormed(r.db)
  {
    if c.user.userLevelId !in {0, 1} then
      Outcome(Err(Forbidden), db)
    else if userId !in db.users then
      Outcome(Err(NotFound), db)
    else
      var target := db.users[userId];
      if c.user.userLevelId == 1 && ShopOf(db, target).None? then
        // `db_user.shop` is None and `.company_id` raises
        Outcome(Err(ServerError), db)
      else if c.user.userLevelId == 1
              && !(c.id in db.users && db.users[c.id].shopId in db.shops
                   && db.shops[db.users[c.id].shopId].companyId == ShopOf(db, target).value.companyId) then
        Outcome(Err(Forbidden), db)
      else
        var row := MergeUser(target, body, c.id, now);
        var db' := db.(users := db.users[userId := row]);
        if violatesUnique(UsersTable, db', userId) then Outcome(Err(ServerError), db)
        else Outcome(Ok(row), db')
  }

  // ---------------------------------------------------------------------
  // Properties
  // ---------------------------------------------------------------------

  /** A user created without `user_level_id` is stored with level 0, which
      every gate reads as super-admin. */
  lemma CreatedWithoutLevelIsSuperAdmin(db: Db, c: Caller, body: UserBody, nextId: int, violatesUnique: UniqueCheck)
    requires body.userLevelId == Unset
    requires CreateUser(db, c, body, nextId, violatesUnique).response.Ok?
    ensures var u := CreateUser(db, c, body, nextId, violatesUnique).response.value.row;
      u.userLevelId == 0 && RoleOf(u.userLevelId) == SuperAdmin
  {
  }

  /** Create, then fetch as a super-admin: the new row comes back under the
      key it was stored with, carrying every column the body sent. */
  lemma CreateThenFetch(db: Db, c: Caller, body: UserBody, nextId: int, violatesUnique: UniqueCheck, admin: Caller)
    requires CreateUser(db, c, body, nextId, violatesUnique).response.Ok?
    requires admin.user.userLevelId == 0
    ensures var out := CreateUser(db, c, body, nextId, violatesUnique);
      GetUser(out.db, admin, out.response.value.id) == Ok(out.response.value.row)
  {
  }

  /** An admin who shares a company with a user may raise that user, the
      admin included, to super-admin: the update gate does not look at the
      level being written. */
  lemma AdminCanGrantSuperAdmin(db: Db, c: Caller, userId: int, now: Time, violatesUnique: UniqueCheck)
    requires c.user.userLevelId == 1
    requires userId in db.users && SameCompany(db, c, db.users[userId])
    requires var body := UserBody(None, Unset, Unset, Unset, Set(0), Unset, AuditBody(Unset, Unset, Unset, Unset));
      !violatesUnique(UsersTable, db.(users := db.users[userId := MergeUser(db.users[userId], body, c.id, now)]), userId)
    ensures var body := UserBody(None, Unset, Unset, Unset, Set(0), Unset, AuditBody(Unset, Unset, Unset, Unset));
      var out := UpdateUser(db, c, userId, body, now, violatesUnique);
      && out.response.Ok?
      && RoleOf(out.db.users[userId].userLevelId) == SuperAdmin
  {
  }

  /** A member may fetch any user of the shop the member carries, although
      the member's list shows the member alone. */
  lemma MemberFetchesShopmates(db: Db, c: Caller, k: int)
    requires c.user.userLevelId !in {0, 1, 2}
    requires k in db.users && db.users[k].shopId == c.user.shopId && c.user.shopId in db.shops
    ensures GetUser(db, c, k) == Ok(db.users[k])
    ensures ListUsers(db, c).Ok? ==> (k in ListUsers(db, c).value <==> k == c.id)
  {
  }
}
