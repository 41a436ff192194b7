/** The authorization policy that the route handlers implement one by one,
    written down once: roles, the permission table for writes, and the read
    scopes as tagged values that a filter is compiled from. The handlers in
    the route modules are proved against these definitions. */
module Policy {
  import opened Base
  import opened Models

  /** The four roles. The handlers read a role off the raw `user_level_id`
      by comparing it with the literals 0, 1 and 2, so every other value,
      negative ones included, is an ordinary member. */
  datatype Role = SuperAdmin | Admin | Supervisor | Member

  function RoleOf(levelId: int): (r: Role)
    ensures r == SuperAdmin <==> levelId == 0
    ensures r == Admin <==> levelId == 1
    ensures r == Supervisor <==> levelId == 2
    ensures r == Member <==> levelId !in {0, 1, 2}
  {
    if levelId == 0 then SuperAdmin
    else if levelId == 1 then Admin
    else if levelId == 2 then Supervisor
    else Member
  }

  /** Lower rank, more privilege. */
  function Rank(r: Role): nat {
    match r
    case SuperAdmin => 0
    case Admin => 1
    case Supervisor => 2
    case Member => 3
  }

  datatype Action = Create | Update

  /** The permission table: the least privileged role a write admits;
      None when any authenticated caller may perform it. */
  function Ceiling(t: Table, a: Action): Option<Role> {
    match t
    case UserLevelsTable => Some(SuperAdmin)
    case UsersTable => Some(Admin)
    case PackagesTable => Some(SuperAdmin)
    case LicensesTable => if a == Create then None else Some(SuperAdmin)
    case CompaniesTable => Some(Admin)
    case ShopTypesTable => Some(SuperAdmin)
    case ShopsTable => Some(Admin)
    case CategoriesTable => Some(Supervisor)
    case ProductsTable => Some(Supervisor)
    case StockTable => Some(Supervisor)
  }

  predicate Permits(t: Table, a: Action, r: Role) {
    Ceiling(t, a).None? || Rank(r) <= Rank(Ceiling(t, a).value)
  }

  /** The table is monotone in privilege: whatever a role may write, every
      more privileged role may write too. */
  lemma PermitsMonotone(t: Table, a: Action, r: Role, r': Role)
    requires Permits(t, a, r) && Rank(r') <= Rank(r)
    ensures Permits(t, a, r')
  {
  }

  /** The super-admin passes every gate of the table. */
  lemma SuperAdminPermitted(t: Table, a: Action)
    ensures Permits(t, a, SuperAdmin)
  {
  }

  // ---------------------------------------------------------------------
  // Where the caller and the rows sit in the hierarchy
  // ---------------------------------------------------------------------

  /** The company a shop key belongs to, when the shop exists. */
  function ShopCompany(db: Db, shopId: int): (r: Option<int>)
    ensures r.Some? <==> shopId in db.shops
    ensures r.Some? ==> r.value == db.shops[shopId].companyId
  {
    if shopId in db.shops then Some(db.shops[shopId].companyId) else None
  }

  /** The caller's own shop as the store's join from the caller's Users row
      finds it: present only when that row and its shop both exist. */
  function HomeShop(db: Db, c: Caller): (r: Option<int>)
    ensures r.Some? <==> c.id in db.users && db.users[c.id].shopId in db.shops
    ensures r.Some? ==> r.value == db.users[c.id].shopId
  {
    if c.id in db.users && db.users[c.id].shopId in db.shops then Some(db.users[c.id].shopId) else None
  }

  /** The company of the caller's own shop. */
  function HomeCompany(db: Db, c: Caller): (r: Option<int>)
    ensures r.Some? <==> HomeShop(db, c).Some?
    ensures r.Some? ==> r.value == db.shops[HomeShop(db, c).value].companyId
  {
    match HomeShop(db, c)
    case Some(s) => Some(db.shops[s].companyId)
    case None => None
  }

  /** Where a row sits: its company, its shop and the user it is, as far as
      the row's references resolve. */
  datatype Place = Place(company: Option<int>, shop: Option<int>, user: Option<int>)

  /** A user sits in its shop and that shop's company; a user whose shop row
      is missing is dropped by every join and sits nowhere. */
  function UserPlace(db: Db, k: int): Place
    requires k in db.users
  {
    var s := db.users[k].shopId;
    if s in db.shops then Place(Some(db.shops[s].companyId), Some(s), Some(k)) else Place(None, None, None)
  }

  function ShopPlace(db: Db, s: int): Place
    requires s in db.shops
  {
    Place(Some(db.shops[s].companyId), Some(s), None)
  }

  function CompanyPlace(k: int): Place {
    Place(Some(k), None, None)
  }

  /** Rows of the catalogue tables (packages, user levels, shop types) belong
      to no company, shop or user. */
  function Unplaced(): Place {
    Place(None, None, None)
  }

  /** Products and categories sit in the shop their `shop_id` names, whether
      or not that shop exists. */
  function ShopRowPlace(db: Db, shopId: Option<int>): Place {
    match shopId
    case Some(s) => Place(ShopCompany(db, s), Some(s), None)
    case None => Place(None, None, None)
  }

  // ---------------------------------------------------------------------
  // Read scopes
  // ---------------------------------------------------------------------

  /** A read scope: which rows a read may return. `Undetermined` is a read
      for which the handler derives no scope at all. */
  datatype Scope =
    | All
    | CompanyScope(company: int)
    | ShopScope(shop: int)
    | SelfScope(user: int)
    | Nothing
    | Undetermined

  predicate Covers(s: Scope, p: Place) {
    match s
    case All => true
    case CompanyScope(co) => p.company == Some(co)
    case ShopScope(sh) => p.shop == Some(sh)
    case SelfScope(u) => p.user == Some(u)
    case Nothing => false
    case Undetermined => false
  }

  datatype Read = Listing | Fetching

  /** The scope of each read, by table and caller. Super-admins read
      everything; admins and supervisors read their company; members read
      their own row (users) or shop (shops); companies and licenses are read
      through the caller's company; products, categories and stock through
      the `shop_id` the caller carries, whatever the role; the remaining
      tables are unrestricted. */
  function ReadScope(t: Table, read: Read, db: Db, c: Caller): Scope {
    var role := RoleOf(c.user.userLevelId);
    match t
    case UsersTable =>
      (match role
       case SuperAdmin => All
       case Admin => HomeCompanyScope(db, c)
       case Supervisor => HomeCompanyScope(db, c)
       case Member => if read == Listing then SelfScope(c.id) else ShopScope(c.user.shopId))
    case ShopsTable =>
      (match role
       case SuperAdmin => All
       case Admin => Undetermined
       case Supervisor => Undetermined
       case Member => if HomeShop(db, c).Some? then ShopScope(HomeShop(db, c).value) else Nothing)
    case CompaniesTable => if role == SuperAdmin then All else HomeCompanyOrNothing(db, c)
    case LicensesTable => if role == SuperAdmin then All else HomeCompanyOrNothing(db, c)
    case ProductsTable => ShopScope(c.user.shopId)
    case CategoriesTable => ShopScope(c.user.shopId)
    case StockTable => ShopScope(c.user.shopId)
    case UserLevelsTable => All
    case ShopTypesTable => All
    case PackagesTable => All
  }

  /** Admins and supervisors reading users: their company, or no scope at
      all when their own shop is missing. */
  function HomeCompanyScope(db: Db, c: Caller): Scope {
    if HomeCompany(db, c).Some? then CompanyScope(HomeCompany(db, c).value) else Undetermined
  }

  function HomeCompanyOrNothing(db: Db, c: Caller): Scope {
    if HomeCompany(db, c).Some? then CompanyScope(HomeCompany(db, c).value) else Nothing
  }

  /** A license is in a scope when some company in that scope holds it. */
  predicate LicenseCovered(db: Db, s: Scope, l: int) {
    s == All || exists co :: co in db.companies && db.companies[co].licenseId == Some(l) && Covers(s, CompanyPlace(co))
  }

  /** Whatever the role, a scope other than All and Undetermined never
      reaches outside the caller's own company or shop. */
  lemma ScopeStaysHome(t: Table, read: Read, db: Db, c: Caller)
    requires ReadScope(t, read, db, c) !in {All, Undetermined, Nothing}
    ensures match ReadScope(t, read, db, c)
            case CompanyScope(co) => HomeCompany(db, c) == Some(co)
            case ShopScope(sh) => sh == c.user.shopId || HomeShop(db, c) == Some(sh)
            case SelfScope(u) => u == c.id
            case _ => false
  {
  }

  /** Only a super-admin gets the unrestricted scope on the tables that are
      scoped at all. */
  lemma AllOnlyForSuperAdmin(t: Table, read: Read, db: Db, c: Caller)
    requires t in {UsersTable, ShopsTable, CompaniesTable, LicensesTable}
    ensures ReadScope(t, read, db, c) == All <==> c.user.userLevelId == 0
  {
  }
}
