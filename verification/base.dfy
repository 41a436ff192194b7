/** Values shared by every part of the model: optional values, request-body
    columns that may or may not have been sent, HTTP outcomes, and the opaque
    scalar types (instants, calendar dates, floating-point numbers) that the
    handlers only store and compare. */
module Base {

  /** The conventional Some/None datatype; stands for a nullable column. */
  datatype Option<+T> = None | Some(value: T)

  /** One column of a request body: left out of the body, or sent with a
      value. `model_dump(exclude_unset=True)` returns exactly the `Set` ones. */
  datatype Sent<+T> = Unset | Set(value: T)

  /** The value that was sent, or `fallback` when the column was left out. */
  function Or<T>(s: Sent<T>, fallback: T): (r: T)
    ensures s.Set? ==> r == s.value
    ensures s.Unset? ==> r == fallback
  {
    match s
    case Set(v) => v
    case Unset => fallback
  }

  /** `after` is what a column holds once `s` has been applied to a column
      that held `before`: the sent value wins, an unsent column keeps its value. */
  predicate Applied<T(==)>(s: Sent<T>, before: T, after: T) {
    match s
    case Set(v) => after == v
    case Unset => after == before
  }

  /** The error statuses the handlers raise: 400, 403, 404 and 500. */
  datatype Status = BadRequest | Forbidden | NotFound | ServerError

  /** What a handler answers: a value, or an HTTP error. */
  datatype Response<+T> = Ok(value: T) | Err(status: Status)

  /** A list result: 404 when the query returned no rows. */
  function NonEmpty<R>(m: map<int, R>): (r: Response<map<int, R>>)
    ensures r == Err(NotFound) <==> forall k :: k !in m
    ensures r.Err? ==> r.status == NotFound
    ensures r.Ok? ==> r.value == m
  {
    if m.Keys == {} then Err(NotFound)
    else
      NoKeyMeansEmpty(m);
      Ok(m)
  }

  /** The list answer of the companies and licenses handlers: an empty
      result is a 404 unless the `level` of the caller's User_Levels row is 0,
      and reading that row fails when it is missing (`level` None). The row
      is only read when the result is empty. */
  function NonEmptyUnlessLevelZero<R>(m: map<int, R>, level: Option<int>): (r: Response<map<int, R>>)
    ensures r.Ok? ==> r.value == m
    ensures r.Ok? <==> !(forall k :: k !in m) || level == Some(0)
    ensures r == Err(ServerError) <==> (forall k :: k !in m) && level.None?
    ensures r == Err(NotFound) <==> (forall k :: k !in m) && level.Some? && level.value != 0
  {
    NoKeyMeansEmpty(m);
    if m.Keys != {} then Ok(m)
    else
      match level
      case None => Err(ServerError)
      case Some(l) => if l != 0 then Err(NotFound) else Ok(m)
  }

  /** A set of keys with no member is the empty set. */
  lemma NoMemberMeansEmpty(s: set<int>)
    ensures (forall x :: x !in s) ==> s == {}
  {
    if forall x :: x !in s {
      assert s == {};
    }
  }

  lemma NoKeyMeansEmpty<R>(m: map<int, R>)
    ensures (forall k :: k !in m) ==> m.Keys == {}
  {
    NoMemberMeansEmpty(m.Keys);
  }

  /** An instant (a `datetime` column). Only stored and compared. */
  type Time = int

  /** A calendar day, as a `stock_date` column holds it and as the date filter
      receives it once parsed. Only compared for equality. */
  type Date = string

  /** A floating-point column (prices, quantities), carried as its IEEE-754
      bit pattern. No arithmetic is done on it. */
  datatype Float = Float(bits: bv64)
}
