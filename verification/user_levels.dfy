/** The /users/levels routes (routes/user_levels.py): the level list,
    fetching one level, creating a level and the partial update. */
module UserLevelRoutes {
  import opened Base
  import opened Models
  import opened Policy

  /** The level list takes no caller, so whoever asks gets the rows the
      User_Levels read scope covers, which is every row; an empty table is an
      empty answer, not a 404. */
  function ListUserLevels(db: Db): (r: Response<map<int, UserLevel>>)
    ensures r.Ok?
    ensures forall c: Caller :: forall k ::
      k in r.value <==> k in db.userLevels && Covers(ReadScope(UserLevelsTable, Listing, db, c), Unplaced())
    ensures forall k :: k in r.value ==> r.value[k] == db.userLevels[k]
  {
    Ok(db.userLevels)
  }

  /** Fetch one level by key. No caller is taken: for whoever asks, the
      level comes back exactly when it exists and the Fetching scope covers
      it, and a refusal is always a 404. */
  function GetUserLevel(db: Db, levelId: int): (r: Response<UserLevel>)
    ensures forall c: Caller ::
      r.Ok? <==> levelId in db.userLevels && Covers(ReadScope(UserLevelsTable, Fetching, db, c), Unplaced())
    ensures r.Ok? ==> r.value == db.userLevels[levelId]
    ensures r.Err? ==> r.status == NotFound
  {
    if levelId in db.userLevels then Ok(db.userLevels[levelId]) else Err(NotFound)
  }

  /** The body a level is created from: the creation columns are replaced by
      the caller's key and the current instant. */
  function ClaimedLevel(body: UserLevelBody, c: Caller, now: Time): UserLevelBody {
    body.(audit := body.audit.(createdBy := Set(Some(c.id)), createdAt := Set(Some(now))))
  }

  /** Create a level: `user_level_id` 0 only. The commit is outside any try
      block, so every store refusal is a 500. */
  function CreateUserLevel(db: Db, c: Caller, body: UserLevelBody, now: Time, nextId: int, violatesUnique: UniqueCheck)
    : (r: Outcome<Created<UserLevel>>)
    ensures r.response.Err? ==> r.db == db
    ensures r.response == Err(Forbidden) <==> !Permits(UserLevelsTable, Create, RoleOf(c.user.userLevelId))
    ensures r.response.Err? ==> r.response.status in {Forbidden, ServerError}
    ensures c.user.userLevelId == 0 && (body.name.Unset? || KeyFor(body.id, nextId) in db.userLevels)
            ==> r.response == Err(ServerError)
    ensures r.response.Ok? ==>
      var k := r.response.value.id;
      var row := r.response.value.row;
      && k == KeyFor(body.id, nextId) && k !in db.userLevels
      && r.db == db.(userLevels := db.userLevels[k := row])
      && row.audit.createdBy == Some(c.id) && row.audit.createdAt == Some(now)
      && UserLevelFrom(ClaimedLevel(body, c, now), row)
      && !violatesUnique(UserLevelsTable, r.db, k)
    ensures c.user.userLevelId == 0 && body.name.Set? && KeyFor(body.id, nextId) !in db.userLevels
            && !violatesUnique(UserLevelsTable,
                               db.(userLevels := db.userLevels[KeyFor(body.id, nextId) := NewUserLevel(ClaimedLevel(body, c, now)).value]),
                               KeyFor(body.id, nextId))
            ==> r.response.Ok?
    ensures WellFormed(db) ==> WellFormed(r.db)
  {
    if c.user.userLevelId != 0 then
      Outcome(Err(Forbidden), db)
    else
      match NewUserLevel(ClaimedLevel(body, c, now))
      case None => Outcome(Err(ServerError), db)
      case Some(row) =>
        var k := KeyFor(body.id, nextId);
        var db' := db.(userLevels := db.userLevels[k := row]);
        if k in db.userLevels || violatesUnique(UserLevelsTable, db', k) then Outcome(Err(ServerError), db)
        else Outcome(Ok(Created(k, row)), db')
  }

  /** Partial update of a level: `user_level_id` 0 only. */
  function UpdateUserLevel(db: Db, c: Caller, levelId: int, body: UserLevelBody, now: Time, violatesUnique: UniqueCheck)
    : (r: Outcome<UserLevel>)
    ensures r.response.Err? ==> r.db == db
    ensures r.response == Err(Forbidden) <==> !Permits(UserLevelsTable, Update, RoleOf(c.user.userLevelId))
    ensures r.response == Err(NotFound) <==> Permits(UserLevelsTable, Update, RoleOf(c.user.userLevelId)) && levelId !in db.userLevels
    ensures r.response.Err? ==> r.response.status in {Forbidden, NotFound, ServerError}
    ensures r.response.Ok? ==>
      && levelId in db.userLevels
      && r.db == db.(userLevels := db.userLevels[levelId := r.response.value])
      && UserLevelPatched(db.userLevels[levelId], body, c.id, now, r.response.value)
      && !violatesUnique(UserLevelsTable, r.db, levelId)
    ensures Permits(UserLevelsTable, Update, RoleOf(c.user.userLevelId)) && levelId in db.userLevels
            && !violatesUnique(UserLevelsTable, db.(userLevels := db.userLevels[levelId := MergeUserLevel(db.userLevels[levelId], body, c.id, now)]), levelId)
            ==> r.response.Ok?
    ensures WellFormed(db) ==> WellFormed(r.db)
  {
    if c.user.userLevelId != 0 then
      Outcome(Err(Forbidden), db)
    else if levelId !in db.userLevels then
      Outcome(Err(NotFound), db)
    else
      var row := MergeUserLevel(db.userLevels[levelId], body, c.id, now);
      var db' := db.(userLevels := db.userLevels[levelId := row]);
      if violatesUnique(UserLevelsTable, db', levelId) then Outcome(Err(ServerError), db)
      else Outcome(Ok(row), db')
  }

  // ---------------------------------------------------------------------
  // Properties
  // ---------------------------------------------------------------------

  /** A super-admin may rewrite the `level` of the row at key 0, after which
      every gate that reads `level` (package and shop-type creation, the empty
      company and license lists) treats super-admins as ordinary callers,
      while the gates that read `user_level_id` still admit them. */
  lemma DemotingLevelZero(db: Db, c: Caller, now: Time, violatesUnique: UniqueCheck)
    requires c.user.userLevelId == 0 && 0 in db.userLevels
    requires var body := UserLevelBody(None, Unset, Set(1), Unset, AuditBody(Unset, Unset, Unset, Unset));
      !violatesUnique(UserLevelsTable, db.(userLevels := db.userLevels[0 := MergeUserLevel(db.userLevels[0], body, c.id, now)]), 0)
    ensures var body := UserLevelBody(None, Unset, Set(1), Unset, AuditBody(Unset, Unset, Unset, Unset));
      var out := UpdateUserLevel(db, c, 0, body, now, violatesUnique);
      && out.response.Ok?
      && LevelOf(out.db, c) == Some(1)
      && RoleOf(c.user.userLevelId) == SuperAdmin
  {
  }
}
