/** The /stock routes (routes/stock.py): the stock list, fetching one stock
    row, the listing of one day's stock with product and category names,
    creating a stock row and the partial update. Every read and the
    update's lookup are confined to the `shop_id` the caller carries. */
module StockRoutes {
  import opened Base
  import opened Models
  import opened Policy

  /** A stock row the caller's shop filter lets through. */
  predicate InCallerShop(db: Db, c: Caller, k: int)
    requires k in db.stock
  {
    Covers(ReadScope(StockTable, Fetching, db, c), ShopRowPlace(db, Some(db.stock[k].shopId)))
  }

  /** A stock row the inner join with Products keeps: its product exists. */
  predicate HasProduct(db: Db, k: int)
    requires k in db.stock
  {
    db.stock[k].productId in db.products
  }

  /** The stock list: the rows of the caller's shop whose product exists;
      404 when there are none. */
  function ListStock(db: Db, c: Caller): (r: Response<map<int, Stock>>)
    ensures r.Err? ==> r.status == NotFound
    ensures r.Err? <==> forall k :: k in db.stock ==> !(InCallerShop(db, c, k) && HasProduct(db, k))
    ensures r.Ok? ==> forall k :: k in r.value <==> k in db.stock && InCallerShop(db, c, k) && HasProduct(db, k)
    ensures r.Ok? ==> forall k :: k in r.value ==> r.value[k] == db.stock[k]
  {
    var m := map k | k in db.stock && db.stock[k].productId in db.products && db.stock[k].shopId == c.user.shopId
                   :: db.stock[k];
    assert forall k :: k in db.stock ==> (k in m <==> InCallerShop(db, c, k) && HasProduct(db, k));
    NonEmpty(m)
  }

  /** Fetch one stock row of the caller's shop whose product exists. */
  function GetStock(db: Db, c: Caller, stockId: int): (r: Response<Stock>)
    ensures r.Ok? <==> stockId in db.stock && InCallerShop(db, c, stockId) && HasProduct(db, stockId)
    ensures r.Ok? ==> r.value == db.stock[stockId]
    ensures r.Err? ==> r.status == NotFound
  {
    if stockId in db.stock && db.stock[stockId].productId in db.products && db.stock[stockId].shopId == c.user.shopId
    then Ok(db.stock[stockId])
    else Err(NotFound)
  }

  // ---------------------------------------------------------------------
  // One day's stock
  // ---------------------------------------------------------------------

  /** The date guard as written. The path segment is parsed with
      `strptime` (`day` is its result, None when it raises); a parse error
      escapes the handler as a 500, and the 400 branch after it tests a
      date object, which is never false. */
  function DateGuardAsWritten(day: Option<Date>): (r: Response<Date>)
    ensures r.Ok? <==> day.Some?
    ensures r.Ok? ==> r.value == day.value
    ensures r.Err? ==> r.status == ServerError
  {
    match day
    case None => Err(ServerError)
    case Some(d) => Ok(d)
  }

  /** The date guard as its error message means it: a malformed date is a
      400. */
  function DateGuard(day: Option<Date>): (r: Response<Date>)
    ensures r.Ok? <==> day.Some?
    ensures r.Ok? ==> r.value == day.value
    ensures r.Err? ==> r.status == BadRequest
  {
    match day
    case None => Err(BadRequest)
    case Some(d) => Ok(d)
  }

  /** The 400 of the date guard as written is unreachable: every malformed
      date is answered with a 500 instead. */
  lemma MalformedDateIsNever400(day: Option<Date>)
    ensures DateGuardAsWritten(day) != Err(BadRequest)
    ensures day.None? ==> DateGuardAsWritten(day) == Err(ServerError) && DateGuard(day) == Err(BadRequest)
  {
  }

  /** A row the day's query returns: in the caller's shop, dated `day`, with
      an existing product whose `category_id` names an existing category
      (both joins are inner joins). */
  predicate OnDay(db: Db, c: Caller, day: Date, k: int)
    requires k in db.stock
  {
    var s := db.stock[k];
    && InCallerShop(db, c, k)
    && s.stockDate == Some(day)
    && s.productId in db.products
    && db.products[s.productId].categoryId.Some?
    && db.products[s.productId].categoryId.value in db.categories
  }

  /** One entry of the day's listing: the stock row's key and product, the
      product's name and category, and the opening and added quantities. */
  datatype StockLine = StockLine(
    id: int,
    productId: int,
    productName: string,
    categoryId: int,
    category: string,
    opening: Option<Float>,
    additions: Option<Float>)

  /** The entry for stock row `k`, read through its product and category. */
  function LineOf(db: Db, c: Caller, day: Date, k: int): StockLine
    requires k in db.stock && OnDay(db, c, day, k)
  {
    var s := db.stock[k];
    var p := db.products[s.productId];
    StockLine(k, s.productId, p.name, p.categoryId.value, db.categories[p.categoryId.value].name, s.opening, s.additions)
  }

  /** Stated for any set of keys: some key is no greater than all others. */
  lemma {:induction false} MinExists(s: set<int>)
    requires s != {}
    ensures exists m :: m in s && forall x :: x in s ==> m <= x
    decreases |s|
  {
    NoMemberMeansEmpty(s);
    var x :| x in s;
    if s == {x} {
      forall y | y in s ensures x <= y {
        assert y == x;
      }
    } else {
      MinExists(s - {x});
      var m :| m in s - {x} && forall y :: y in s - {x} ==> m <= y;
      var least := if x <= m then x else m;
      forall y | y in s ensures least <= y {
        if y != x {
          assert y in s - {x};
        }
      }
      assert least in s;
    }
  }

  /** The keys of a set in ascending order. SQL leaves the row order of the
      day's query open; the model fixes it as ascending keys. */
  method SortedKeys(keys: set<int>) returns (s: seq<int>)
    ensures forall i, j :: 0 <= i < j < |s| ==> s[i] < s[j]
    ensures forall k :: k in s <==> k in keys
  {
    s := [];
    var rest := keys;
    while rest != {}
      invariant forall i, j :: 0 <= i < j < |s| ==> s[i] < s[j]
      invariant forall k :: k in keys <==> k in s || k in rest
      invariant forall i, x :: 0 <= i < |s| && x in rest ==> s[i] < x
      decreases |rest|
    {
      MinExists(rest);
      var m :| m in rest && forall x :: x in rest ==> m <= x;
      s := s + [m];
      rest := rest - {m};
    }
  }

  /** The listing of one day's stock in the caller's shop: one entry per
      row the joins keep, in ascending key order; 404 when there is none.
      The date guard is the corrected one (a malformed date is a 400). */
  method StockByDay(db: Db, c: Caller, day: Option<Date>) returns (r: Response<seq<StockLine>>)
    ensures r == Err(BadRequest) <==> day.None?
    ensures r == Err(NotFound) <==> day.Some? && forall k :: k in db.stock ==> !OnDay(db, c, day.value, k)
    ensures r.Err? ==> r.status in {BadRequest, NotFound}
    ensures r.Ok? ==> forall i, j :: 0 <= i < j < |r.value| ==> r.value[i].id < r.value[j].id
    ensures r.Ok? ==> forall i :: 0 <= i < |r.value| ==>
      && r.value[i].id in db.stock && OnDay(db, c, day.value, r.value[i].id)
      && r.value[i] == LineOf(db, c, day.value, r.value[i].id)
    ensures r.Ok? ==> forall k :: k in db.stock && OnDay(db, c, day.value, k) ==>
      exists i :: 0 <= i < |r.value| && r.value[i].id == k
  {
    var guard := DateGuard(day);
    if guard.Err? {
      return Err(guard.status);
    }
    var d := guard.value;
    var onDay := set k | k in db.stock && OnDay(db, c, d, k);
    var keys := SortedKeys(onDay);
    forall j | 0 <= j < |keys|
      ensures keys[j] in onDay
    {
      assert keys[j] in keys;
    }
    forall k | k in db.stock && OnDay(db, c, d, k)
      ensures k in keys
    {
      assert k in onDay;
    }
    if |keys| == 0 {
      return Err(NotFound);
    }
    var lines: seq<StockLine> := [];
    for i := 0 to |keys|
      invariant |lines| == i
      invariant forall j :: 0 <= j < i ==> lines[j] == LineOf(db, c, d, keys[j])
    {
      lines := lines + [LineOf(db, c, d, keys[i])];
    }
    assert keys[0] in onDay;
    forall k | k in db.stock && OnDay(db, c, d, k)
      ensures exists i :: 0 <= i < |lines| && lines[i].id == k
    {
      assert k in keys;
      var i :| 0 <= i < |keys| && keys[i] == k;
      assert lines[i].id == k;
    }
    return Ok(lines);
  }

  /** Every row of a day's listing is also in the caller's stock list. */
  lemma DayRowsAreListed(db: Db, c: Caller, day: Date, k: int)
    requires k in db.stock && OnDay(db, c, day, k)
    ensures ListStock(db, c).Ok? && k in ListStock(db, c).value
  {
  }

  // ---------------------------------------------------------------------
  // Writes
  // ---------------------------------------------------------------------

  /** Create a stock row: levels 0, 1 and 2; a store refusal is a 400. */
  function CreateStock(db: Db, c: Caller, body: StockBody, nextId: int, violatesUnique: UniqueCheck)
    : (r: Outcome<Created<Stock>>)
    ensures r.response.Err? ==> r.db == db
    ensures r.response == Err(Forbidden) <==> !Permits(StockTable, Create, RoleOf(c.user.userLevelId))
    ensures r.response.Err? ==> r.response.status in {Forbidden, BadRequest}
    ensures Permits(StockTable, Create, RoleOf(c.user.userLevelId)) && !StockComplete(body) ==> r.response == Err(BadRequest)
    ensures Permits(StockTable, Create, RoleOf(c.user.userLevelId)) && KeyFor(body.id, nextId) in db.stock
            ==> r.response == Err(BadRequest)
    ensures r.response.Ok? ==>
      var k := r.response.value.id;
      && k == KeyFor(body.id, nextId) && k !in db.stock
      && r.db == db.(stock := db.stock[k := r.response.value.row])
      && StockFrom(body, r.response.value.row)
      && !violatesUnique(StockTable, r.db, k)
    ensures Permits(StockTable, Create, RoleOf(c.user.userLevelId)) && StockComplete(body)
            && KeyFor(body.id, nextId) !in db.stock
            && !violatesUnique(StockTable, db.(stock := db.stock[KeyFor(body.id, nextId) := NewStock(body).value]),
                               KeyFor(body.id, nextId))
            ==> r.response.Ok?
    ensures WellFormed(db) ==> WellFormed(r.db)
  {
    if c.user.userLevelId !in {0, 1, 2} then
      Outcome(Err(Forbidden), db)
    else
      match NewStock(body)
      case None => Outcome(Err(BadRequest), db)
      case Some(row) =>
        var k := KeyFor(body.id, nextId);
        var db' := db.(stock := db.stock[k := row]);
        if k in db.stock || violatesUnique(StockTable, db', k) then Outcome(Err(BadRequest), db)
        else Outcome(Ok(Created(k, row)), db')
  }

  /** Partial update of a stock row: levels 0, 1 and 2, and only a row of the
      caller's shop (the lookup does not join Products). The commit is
      outside any try block, so a unique clash is a 500. */
  function UpdateStock(db: Db, c: Caller, stockId: int, body: StockBody, now: Time, violatesUnique: UniqueCheck)
    : (r: Outcome<Stock>)
    ensures r.response.Err? ==> r.db == db
    ensures r.response == Err(Forbidden) <==> !Permits(StockTable, Update, RoleOf(c.user.userLevelId))
    ensures r.response == Err(NotFound) <==>
      Permits(StockTable, Update, RoleOf(c.user.userLevelId)) && !(stockId in db.stock && InCallerShop(db, c, stockId))
    ensures r.response.Err? ==> r.response.status in {Forbidden, NotFound, ServerError}
    ensures r.response.Ok? ==>
      && stockId in db.stock && InCallerShop(db, c, stockId)
      && r.db == db.(stock := db.stock[stockId := r.response.value])
      && StockPatched(db.stock[stockId], body, c.id, now, r.response.value)
      && !violatesUnique(StockTable, r.db, stockId)
    ensures Permits(StockTable, Update, RoleOf(c.user.userLevelId)) && stockId in db.stock && InCallerShop(db, c, stockId)
            && !violatesUnique(StockTable, db.(stock := db.stock[stockId := MergeStock(db.stock[stockId], body, c.id, now)]), stockId)
            ==> r.response.Ok?
    ensures WellFormed(db) ==> WellFormed(r.db)
  {
    if c.user.userLevelId !in {0, 1, 2} then
      Outcome(Err(Forbidden), db)
    else if !(stockId in db.stock && db.stock[stockId].shopId == c.user.shopId) then
      Outcome(Err(NotFound), db)
    else
      var row := MergeStock(db.stock[stockId], body, c.id, now);
      var db' := db.(stock := db.stock[stockId := row]);
      if violatesUnique(StockTable, db', stockId) then Outcome(Err(ServerError), db)
      else Outcome(Ok(row), db')
  }

  /** A stock row whose product is gone can still be updated although it can
      no longer be fetched: the update's lookup skips the Products join. */
  lemma OrphanUpdatableNotFetchable(db: Db, c: Caller, stockId: int, body: StockBody, now: Time, violatesUnique: UniqueCheck)
    requires c.user.userLevelId in {0, 1, 2}
    requires stockId in db.stock && db.stock[stockId].shopId == c.user.shopId
    requires db.stock[stockId].productId !in db.products
    requires !violatesUnique(StockTable, db.(stock := db.stock[stockId := MergeStock(db.stock[stockId], body, c.id, now)]), stockId)
    ensures GetStock(db, c, stockId) == Err(NotFound)
    ensures UpdateStock(db, c, stockId, body, now, violatesUnique).response.Ok?
  {
  }
}
