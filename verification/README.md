# easy-stock backend: authorization, visibility and partial updates

This project models the request handlers of the easy-stock FastAPI backend, an
inventory service. In that service, users belong to shops, shops belong to
companies, and companies hold licenses. The model covers the handlers for
users, shops, companies, licenses, packages, user levels, shop types, product
categories, products and stock.

The handlers are built from three pieces:

- a **role gate** on every write except creating a license. It compares the
  caller's `user_level_id` with the literals 0, 1 and 2, or, when creating a
  package or a shop type, reads the `level` column of the caller's
  User_Levels row;
- a **scope filter** on the reads of users, shops, companies, licenses,
  products, categories and stock. It decides which rows of a table the caller
  may see, based on the caller's shop and company. The reads of packages,
  user levels and shop types take no caller and answer every row;
- on PATCH, a **merge**: the columns the body sent are applied, except the
  five protected ones (`id`, `created_at`, `created_by`, `updated_at`,
  `updated_by`), and then the update is stamped.

## How the model is built

- **The datastore.** It is one immutable value, `Models.Db`, with one
  `map<int, Record>` per table. The key is the row's `id`.
- **Handlers.** Each handler is a pure function from the datastore, the caller
  and the request to a response, except the stock-by-day listing, which is a
  method so that its row order can be computed by a loop. Write handlers also return the datastore
  afterwards (`Models.Outcome`). An error response always leaves the
  datastore unchanged.
- **Request bodies.** A body gives each column as `Unset` or `Set(value)`.
  `model_dump(exclude_unset=True)` is exactly the set of `Set` columns. The
  same body type serves both create and PATCH.
- **Audit columns.** The four audit columns are one `Audit` value in every
  record. Each table also has rules saying which of these columns are
  NOT NULL and which have defaults (`StandardAudit`, `StrictAudit`,
  `PackageAudit`). `Models.WellFormed` says every stored row obeys its
  table's rules, and every write handler preserves it.
- **Policy.** `Policy` writes down once, as tables and scopes, the policy
  the handlers implement, quirks included (a member fetches users by the
  shop it carries but lists only itself; the shop reads of admins and
  supervisors have no determined scope):
  - roles (`RoleOf`);
  - a permission table for writes (`Ceiling`, `Permits`);
  - read scopes as tagged values (`ReadScope`, `Covers`, `Place`).

  The handler contracts are stated against these definitions. A
  handler's body is written the way the route's query is written: joins
  become comprehensions over the maps.
- **Clock, key sequence and unique constraints.** These are parameters:
  - `now` is the current instant;
  - `nextId` is the next value of the table's key sequence;
  - `violatesUnique` answers whether the row just written clashes with a
    unique constraint of the store.
- **Refused rows.** The model refuses a new row when:
  - a NOT NULL column is left empty;
  - the key is taken;
  - `violatesUnique` holds.

  Handlers that catch `IntegrityError` answer such a refusal with 400.
  Handlers that commit outside a try block answer it with 500. These are
  user_levels, shop_types and packages on create, and every PATCH. Only the
  last two causes reach the store in the program: a body that leaves out a
  column with no default is answered 422 by request validation before the
  handler runs (see "Left out").

## Model

| member | source | states |
|---|---|---|
| Base.NonEmpty | routes/users.py:48-49 | a list answer is 404 exactly when the query returned no row, and otherwise holds exactly those rows |
| Base.NonEmptyUnlessLevelZero | routes/companies.py:35-36 | an empty list is 404 when the caller's level row says a level other than 0, 500 when that row is missing, and an empty 200 when it says 0; a non-empty list is always returned |
| Models.FillAudit | utils/models.py:10-13 | a new row's audit columns take what the body sent; `created_by` defaults to 0, `updated_by` to None and nullable columns to NULL; the row is refused exactly when a NOT NULL audit column would be NULL |
| Models.Stamp | routes/users.py:173-175 | a stamped row keeps its creation columns and records the caller and the instant as the last update |
| Models.StampAdmitted | routes/users.py:173-175 | stamping never breaks a table's NOT NULL rules for audit columns |
| Models.KeyFor | utils/models.py:6 | a new row is stored under the `id` the body sent, or under the sequence's next value when none was sent |
| Models.NewUserLevel | utils/models.py:5-13 | a level row is created exactly when `name` and the NOT NULL audit columns are present; `level` defaults to 0 and `description` to None |
| Models.NewUser | utils/models.py:15-25 | a user is created exactly when `name`, `phone`, `shop_id`, `password` and `created_at` are present; `user_level_id` defaults to 0 |
| Models.NewPackage | models.py:4-16 | a package is created exactly when `name`, `amount` and `pay` are present; every other column, the audit columns included, defaults to None |
| Models.NewLicense | utils/models.py:41-50 | a license needs `key`, `package_id`, `expires_at`, `payment_id`, `created_at` and `updated_at` |
| Models.NewCompany | utils/models.py:52-59 | a company needs `name`, `created_at` and `updated_at`; `license_id` defaults to None |
| Models.NewShopType | utils/models.py:61-68 | a shop type needs `name`, `created_at` and `updated_at`; `description` defaults to None |
| Models.NewShop | utils/models.py:70-84 | a shop needs `name`, `location`, `company_id`, `shop_type_id` and `created_at`; phones, paybill, account and till numbers default to None |
| Models.NewProductCategory | utils/models.py:86-93 | a category needs `name`, `created_at` and `updated_at`; `shop_id` defaults to None |
| Models.NewProduct | utils/models.py:95-105 | a product needs `name` and `created_at`; prices, `category_id` and `shop_id` default to None |
| Models.NewStock | utils/models.py:107-119 | a stock row needs `product_id`, `shop_id` and `created_at`; the date, prices and quantities default to None |
| Models.MergeUserLevel | routes/user_levels.py:75-85 | every sent column of a level takes its new value, every unsent one keeps its old value, and the stamp is applied whatever audit columns the body sent |
| Models.MergeUser | routes/users.py:165-175 | the same, for a user |
| Models.MergePackage | routes/packages.py:60-70 | the same, for a package |
| Models.MergeLicense | routes/licenses.py:83-93 | the same, for a license |
| Models.MergeCompany | routes/companies.py:115-125 | the same, for a company |
| Models.MergeShopType | routes/shop_types.py:73-82 | the same, for a shop type |
| Models.MergeShop | routes/shops.py:128-138 | the same, for a shop |
| Models.MergeProductCategory | routes/product_categories.py:103-113 | the same, for a category (its `shop_id` included) |
| Models.MergeProduct | routes/products.py:104-114 | the same, for a product (its `shop_id` included) |
| Models.MergeStock | routes/stock.py:158-168 | the same, for a stock row (its `shop_id` included) |
| Models.LevelOf | routes/companies.py:35 | `current_user.user_level.level` is the `level` of the row at the caller's `user_level_id`, and is absent when that row is missing |
| Models.ShopOf | routes/users.py:154 | `db_user.shop` is the Shops row at the user's `shop_id`, and is absent when that row is missing |
| Policy.RoleOf | routes/users.py:19-22 | `user_level_id` 0, 1 and 2 are super-admin, admin and supervisor; every other value is an ordinary member |
| Policy.PermitsMonotone | routes/products.py:58-62 | whatever the permission table lets a role write, it lets every more privileged role write |
| Policy.SuperAdminPermitted | routes/licenses.py:66-70 | the permission table admits the super-admin for every table and action |
| Policy.ScopeStaysHome | routes/users.py:22-43 | a read scope other than "everything" never reaches outside the caller's own company, shop or row |
| Policy.AllOnlyForSuperAdmin | routes/companies.py:20-21 | on users, shops, companies and licenses, only `user_level_id` 0 reads the whole table |
| UserRoutes.ListUsers | routes/users.py:19-49 | the list holds exactly the users the caller's scope covers: all of them, those of the caller's company, or the caller alone. It is 404 when there are none. It is 500 for an admin or supervisor whose own shop is missing |
| UserRoutes.GetUser | routes/users.py:60-93 | a user comes back exactly when the caller's fetch scope covers it; a member's fetch scope is the shop the member carries |
| UserRoutes.CreateUser | routes/users.py:106-117 | 403 exactly below admin, with nothing stored; otherwise the row is stored under a fresh key with the sent columns and their defaults, or refused with 400; the NULL rules are kept |
| UserRoutes.UpdateUser | routes/users.py:130-180 | 403 below admin, and for an admin whose company is not the target's; 404 for a missing key; 500 when an admin's target has no shop; a unique clash at the commit is a 500, never a 400, and no other status occurs; otherwise only that row changes, as the merge says |
| UserRoutes.CreatedWithoutLevelIsSuperAdmin | utils/models.py:20 | a user created without `user_level_id` is a super-admin |
| UserRoutes.CreateThenFetch | routes/users.py:60-61 | a created user can be fetched back by a super-admin under its new key, unchanged |
| UserRoutes.AdminCanGrantSuperAdmin | routes/users.py:149-171 | an admin may set `user_level_id` 0 on any user of the admin's company, the admin included |
| UserRoutes.MemberFetchesShopmates | routes/users.py:80-87 | a member may fetch every user of the member's shop, but lists only the member's own row |
| ShopRoutes.ListShops | routes/shops.py:19-43 | the list holds all shops for a super-admin, and the shop of the caller's own row for a member; for an admin or supervisor it is the store's answer to the self-join; 404 when empty |
| ShopRoutes.GetShop | routes/shops.py:51-76 | a super-admin gets the shop at the key; a member gets it exactly when it exists and some user, anyone, works there |
| ShopRoutes.CreateShop | routes/shops.py:86-99 | 403 exactly below admin; otherwise stored with the sent columns under a fresh key, or 400 |
| ShopRoutes.UpdateShop | routes/shops.py:110-138 | 403 exactly below admin; 404 exactly for a missing key; otherwise only that shop changes, as the merge says |
| ShopRoutes.MemberFetchesStaffedShop | routes/shops.py:64-68 | a member fetches any shop somebody works in, including one outside the member's own shop, which the member's fetching scope does not cover |
| ShopRoutes.MemberFetchIgnoresCaller | routes/shops.py:64-68 | two members get the same answer for the same shop, whoever they are |
| ShopRoutes.MemberListsOwnShopOnly | routes/shops.py:29-35 | a member's shop list holds the member's own shop only |
| ShopRoutes.AdminPatchesForeignShop | routes/shops.py:117-126 | an admin may patch a shop of another company |
| CompanyRoutes.ListCompanies | routes/companies.py:19-38 | the list holds all companies for `user_level_id` 0 and otherwise the company of the caller's shop; the empty answer follows the level row (404, 500 or an empty list) |
| CompanyRoutes.GetCompany | routes/companies.py:46-65 | a super-admin gets the company at the key; anyone else gets the company of the caller's shop, and the answer always lies in the caller's scope |
| CompanyRoutes.CreateCompany | routes/companies.py:74-87 | 403 exactly below admin; otherwise stored under a fresh key, or 400 |
| CompanyRoutes.UpdateCompany | routes/companies.py:97-131 | 403 exactly below admin; 404 exactly for a missing key; otherwise only that company changes, as the merge says |
| CompanyRoutes.FetchIgnoresKey | routes/companies.py:49-57 | below `user_level_id` 0 the requested key does not matter |
| CompanyRoutes.FetchAgreesWithList | routes/companies.py:22-30 | a company fetched below level 0 is one the caller's list holds |
| CompanyRoutes.AdminPatchesForeignCompany | routes/companies.py:104-113 | an admin may patch a company other than the admin's own |
| LicenseRoutes.ListLicenses | routes/licenses.py:20-38 | the list holds all licenses for `user_level_id` 0, and otherwise the licenses the company of the caller's shop holds; the empty answer follows the level row |
| LicenseRoutes.CreateLicense | routes/licenses.py:43-55 | any caller may create a license; it is stored under a fresh key, or refused with 400 |
| LicenseRoutes.UpdateLicense | routes/licenses.py:66-93 | 403 for every `user_level_id` but 0, before the lookup; 404 for a missing key; otherwise only that license changes |
| LicenseRoutes.ListDependsOnCompanyOnly | routes/licenses.py:23-32 | below level 0 two callers of the same company and level row see the same licenses, whatever their roles |
| LicenseRoutes.MemberCreatesLicense | routes/licenses.py:43-55 | an ordinary member succeeds in creating a license |
| PackageRoutes.ListPackages | routes/packages.py:15-18 | whoever asks, the list holds exactly the packages the Packages listing scope covers, which is all of them, each unchanged; an empty table is an empty answer, never a 404 |
| PackageRoutes.CreatePackage | routes/packages.py:26-33 | 403 exactly when the caller's level row says a level other than 0; 500 when that row is missing or the store refuses; the stored `created_by` is the caller |
| PackageRoutes.UpdatePackage | routes/packages.py:43-70 | 403 for every `user_level_id` but 0; 404 for a missing key; otherwise only that package changes |
| PackageRoutes.CreateGateMatchesTable | routes/packages.py:26-27 | when the level row carries its own key as `level`, the create gate is the super-admin gate |
| PackageRoutes.CreateAndUpdateGatesDisagree | routes/packages.py:26-47 | a caller with `user_level_id` 0 whose level row says otherwise may update packages but may not create them |
| PackageRoutes.CreatorIsCaller | routes/packages.py:29 | the stored `created_by` is the caller, whatever the body sent |
| UserLevelRoutes.ListUserLevels | routes/user_levels.py:14-17 | whoever asks, the list holds exactly the levels the User_Levels listing scope covers, which is all of them, each unchanged; never a 404 |
| UserLevelRoutes.GetUserLevel | routes/user_levels.py:19-31 | whoever asks, the level comes back exactly when it exists and the User_Levels fetching scope covers it; otherwise 404 |
| UserLevelRoutes.CreateUserLevel | routes/user_levels.py:39-48 | 403 for every `user_level_id` but 0; `created_by` and `created_at` become the caller and the instant whatever was sent; a store refusal is 500 |
| UserLevelRoutes.UpdateUserLevel | routes/user_levels.py:58-85 | 403 for every `user_level_id` but 0; 404 for a missing key; otherwise only that level changes |
| UserLevelRoutes.DemotingLevelZero | routes/user_levels.py:76-81 | a super-admin may rewrite the `level` of row 0, after which the gates that read `level` see a non-zero level while `user_level_id` 0 still reads as super-admin |
| ShopTypeRoutes.ListShopTypes | routes/shop_types.py:14-17 | whoever asks, the list holds exactly the shop types the Shop_Types listing scope covers, which is all of them, each unchanged; never a 404 |
| ShopTypeRoutes.GetShopType | routes/shop_types.py:19-31 | whoever asks, the shop type comes back exactly when it exists and the Shop_Types fetching scope covers it; otherwise 404 |
| ShopTypeRoutes.CreateShopType | routes/shop_types.py:39-46 | 403 exactly when the level row says a level other than 0; 500 when it is missing or the store refuses; `created_by` is the caller and `created_at` is as sent |
| ShopTypeRoutes.UpdateShopType | routes/shop_types.py:56-82 | 403 for every `user_level_id` but 0; 404 for a missing key; otherwise only that shop type changes |
| ShopTypeRoutes.CreateNeedsUpdatedAt | utils/models.py:67 | a shop type cannot be created without `updated_at`, which nothing fills in |
| ProductRoutes.ListProducts | routes/products.py:18-26 | the list holds exactly the products whose `shop_id` is the caller's, whatever the role; 404 when none |
| ProductRoutes.GetProduct | routes/products.py:35-47 | a product comes back exactly when it exists and is in the caller's shop |
| ProductRoutes.CreateProduct | routes/products.py:58-70 | 403 exactly for members; otherwise stored with the sent `shop_id`, unchecked, or 400 |
| ProductRoutes.UpdateProduct | routes/products.py:82-114 | 403 exactly for members; 404 unless the product is in the caller's shop; otherwise only that product changes, `shop_id` included |
| ProductRoutes.FetchAgreesWithList | routes/products.py:18-45 | a product can be fetched exactly when the caller's list holds it |
| ProductRoutes.ScopeIgnoresRole | routes/products.py:18 | two callers carrying the same `shop_id` read the same products, whatever their roles |
| ProductRoutes.UpdateMovesProductAway | routes/products.py:105-110 | a patch may move a product to another shop, after which its author cannot fetch it |
| CategoryRoutes.ListCategories | routes/product_categories.py:18-26 | the list holds exactly the categories whose `shop_id` is the caller's; 404 when none |
| CategoryRoutes.GetCategory | routes/product_categories.py:35-47 | a category comes back exactly when it exists and is in the caller's shop |
| CategoryRoutes.CreateCategory | routes/product_categories.py:57-69 | 403 exactly for members; otherwise stored under a fresh key, or 400 |
| CategoryRoutes.UpdateCategory | routes/product_categories.py:81-113 | 403 exactly for members; 404 unless the category is in the caller's shop; otherwise only that category changes |
| CategoryRoutes.FetchAgreesWithList | routes/product_categories.py:18-45 | a category can be fetched exactly when the caller's list holds it |
| CategoryRoutes.ScopeIgnoresRole | routes/product_categories.py:18 | two callers carrying the same `shop_id` read the same categories |
| CategoryRoutes.UpdateMovesCategoryAway | routes/product_categories.py:104-109 | a patch may move a category to another shop, after which its author cannot fetch it |
| StockRoutes.ListStock | routes/stock.py:18-32 | the list holds exactly the caller's-shop rows whose product exists; 404 when none |
| StockRoutes.GetStock | routes/stock.py:41-54 | a row comes back exactly when it is in the caller's shop and its product exists |
| StockRoutes.DateGuardAsWritten | routes/stock.py:65-68 | a malformed date is a 500, never a 400 |
| StockRoutes.DateGuard | routes/stock.py:67-68 | a malformed date is a 400 and a parsed one passes unchanged |
| StockRoutes.MalformedDateIsNever400 | routes/stock.py:65-68 | the 400 branch of the guard as written is unreachable |
| StockRoutes.SortedKeys | routes/stock.py:82-83 | the query's rows in ascending key order, each exactly once |
| StockRoutes.StockByDay | routes/stock.py:70-102 | one entry per caller's-shop row of that day whose product and category exist, and no other, in ascending key order. Each entry has the row's key, product id, product name, category id, category name, opening and additions. 404 when there are none; 400 for a malformed date |
| StockRoutes.DayRowsAreListed | routes/stock.py:18-22 | every row of a day's listing is also in the caller's stock list |
| StockRoutes.CreateStock | routes/stock.py:112-124 | 403 exactly for members; otherwise stored under a fresh key, or 400 |
| StockRoutes.UpdateStock | routes/stock.py:136-168 | 403 exactly for members; 404 unless the row is in the caller's shop; otherwise only that row changes |
| StockRoutes.OrphanUpdatableNotFetchable | routes/stock.py:41-52 | a row whose product is gone cannot be fetched but can still be updated |

## Left out

- The authentication layer (routes/auth.py and its helper module) is not part of this model. The caller is an already resolved Users row with its key.
- Application wiring (main.py), the ORM session, commit and refresh, and the debug `print` are not modelled; an error response leaves the datastore unchanged.
- `datetime.now()` is the parameter `now`. The store's key sequence is the parameter `nextId`. The store's unique constraints, which the schema does not show, are the parameter `violatesUnique`.
- Floating-point columns (prices, quantities, `amount`, `pay`) are opaque bit patterns; no arithmetic is done on them.
- `strptime` is outside the model: the date filter receives its result, or None when it raises. Dates are compared as their normalised text.
- Models.LevelOf reads `current_user.user_level` as a lookup of the User_Levels row at the caller's `user_level_id`. utils/models.py declares no relationship attributes, so whether this attribute resolves on the object that authentication returns depends on authentication code that is not part of this model.
- Models.ShopOf / UserRoutes.UpdateUser: `db_user` is loaded by the handler's own query (routes/users.py:137-139) as a `utils.models.Users`, which declares no `shop` attribute (utils/models.py:15-25). As written, `db_user.shop` at routes/users.py:154 therefore raises, and every level-1 update of an existing user is a 500. The model takes the evidently intended reading instead: the shop row at the target's `shop_id`, with a 500 only when that row is missing.
- Models.FillAudit, the `Models.New*` functions and every `Create*` and `Update*` handler: each route declares the table model itself as its request body, and request validation answers 422 before the handler runs when the body leaves out a column that has no default or sends null for one that is not Optional. This includes `updated_at` on Users, Shops, Products, Stock and User_Levels, which is declared `Optional[datetime] = Field()`: it may be null but must be sent. The model has no 422. It answers such a body from inside the handler: 400 or 500 for a missing NOT NULL column, and for a missing `updated_at` on those five tables it stores the row and answers Ok. Its role gates are therefore reached by bodies the program would have rejected first. Real PATCH bodies always carry the columns that have no default, while the model also admits PATCH bodies that leave them out.
- ShopRoutes.ListShops and ShopRoutes.GetShop: for `user_level_id` 1 and 2, the query joins Shops to itself on a tautology, and its answer depends on how the SQL layer resolves that join. The answer is a parameter, rows or none, and no company scoping is claimed for it. A refusal by the SQL layer to build that join, which would raise and answer 500, is not represented.
- StockRoutes.StockByDay: SQL leaves the row order open; the model fixes it as ascending key order.
- StockRoutes.StockByDay uses the corrected date guard (see Findings). StockRoutes.DateGuardAsWritten keeps the code's behaviour.
- Handlers without a try block (user levels, shop types and packages on create, and every PATCH) answer a store refusal with 500, not 400, as their code does.
- Packages: the record follows models.py, the schema the packages routes import. Its audit columns are nullable there, and its text-typed instants are modelled as the same instant type as the other tables.
- Tables without handlers (Customers, Bills, Expenses, Payment_Modes, Payments, Cashbox) and the rest of models.py are not modelled.
- Request validation other than the missing columns described above (type checks and coercion), `response_model` filtering, serialisation and route ordering are not modelled.

## Findings

| source | as written | input that shows it | evidently intended | confidence | as-written member | corrected member |
|---|---|---|---|---|---|---|
| routes/stock.py:65-68 | a malformed date makes `strptime` raise, which escapes as a 500; the following `if not stock_date` tests a date object, which is never false, so its 400 is unreachable | the path segment `2024-13-45` | a malformed date answered with 400 "Invalid date format" | high; not executed | StockRoutes.DateGuardAsWritten (with StockRoutes.MalformedDateIsNever400) | StockRoutes.DateGuard (used by StockRoutes.StockByDay) |
