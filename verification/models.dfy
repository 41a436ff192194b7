/** The record types of utils/models.py (and the Packages record of models.py,
    which the packages routes import), the request bodies that create and
    PATCH handlers receive, the defaults a new row takes, the partial-update
    merge, and the datastore as one immutable value with a map per table. */
module Models {
  import opened Base

  // ---------------------------------------------------------------------
  // Audit columns
  // ---------------------------------------------------------------------

  /** The four audit columns every table carries besides `id`. Whether each
      may be NULL is a per-table rule (see AuditRules). */
  datatype Audit = Audit(
    createdAt: Option<Time>,
    createdBy: Option<int>,
    updatedAt: Option<Time>,
    updatedBy: Option<int>)

  /** The audit columns as they arrive in a request body. */
  datatype AuditBody = AuditBody(
    createdAt: Sent<Option<Time>>,
    createdBy: Sent<Option<int>>,
    updatedAt: Sent<Option<Time>>,
    updatedBy: Sent<Option<int>>)

  /** How a column behaves when a row is created: NOT NULL without a default
      (it must be supplied), NOT NULL with a default, or nullable with a
      default (`Optional[...] = None`, and `Optional[...] = Field()`, which the
      store fills with NULL when it is left out). */
  datatype Rule<T> = Required | DefaultsTo(default: T) | Nullable(fallback: Option<T>)

  datatype AuditRules = AuditRules(
    createdAt: Rule<Time>,
    createdBy: Rule<int>,
    updatedAt: Rule<Time>,
    updatedBy: Rule<int>)

  /** User_Levels, Users, Shops, Products, Stock: `created_at` NOT NULL,
      `created_by` 0, `updated_at` and `updated_by` nullable. */
  const StandardAudit := AuditRules(Required, DefaultsTo(0), Nullable(None), Nullable(None))

  /** Licenses, Companies, Shop_Types, Product_Categories: as above, but
      `updated_at` is NOT NULL as well. */
  const StrictAudit := AuditRules(Required, DefaultsTo(0), Required, Nullable(None))

  /** Packages: every audit column nullable and None by default. */
  const PackageAudit := AuditRules(Nullable(None), Nullable(None), Nullable(None), Nullable(None))

  /** A column value the rule admits in a stored row. */
  predicate Admits<T>(rule: Rule<T>, v: Option<T>) {
    rule.Nullable? || v.Some?
  }

  /** `v` is what a new row stores for a column the body treated as `s`. */
  predicate Filled<T(==)>(rule: Rule<T>, s: Sent<Option<T>>, v: Option<T>) {
    match s
    case Set(x) => v == x
    case Unset =>
      match rule
      case Required => false
      case DefaultsTo(d) => v == Some(d)
      case Nullable(d) => v == d
  }

  /** The stored value of a new row's column; None when the column would be
      NULL although it is declared NOT NULL. */
  function Fill<T(==)>(rule: Rule<T>, s: Sent<Option<T>>): (r: Option<Option<T>>)
    ensures r.Some? ==> Filled(rule, s, r.value) && Admits(rule, r.value)
    ensures r.None? <==> (s == Unset && rule.Required?) || (s == Set(None) && !rule.Nullable?)
  {
    match s
    case Set(x) => if x.None? && !rule.Nullable? then None else Some(x)
    case Unset =>
      match rule
      case Required => None
      case DefaultsTo(d) => Some(Some(d))
      case Nullable(d) => Some(d)
  }

  predicate AuditAdmits(rules: AuditRules, a: Audit) {
    && Admits(rules.createdAt, a.createdAt)
    && Admits(rules.createdBy, a.createdBy)
    && Admits(rules.updatedAt, a.updatedAt)
    && Admits(rules.updatedBy, a.updatedBy)
  }

  predicate AuditFilled(rules: AuditRules, b: AuditBody, a: Audit) {
    && Filled(rules.createdAt, b.createdAt, a.createdAt)
    && Filled(rules.createdBy, b.createdBy, a.createdBy)
    && Filled(rules.updatedAt, b.updatedAt, a.updatedAt)
    && Filled(rules.updatedBy, b.updatedBy, a.updatedBy)
  }

  /** The audit columns of a new row, or None when one of them breaks its
      NOT NULL rule. */
  function FillAudit(rules: AuditRules, b: AuditBody): (r: Option<Audit>)
    ensures r.Some? ==> AuditFilled(rules, b, r.value) && AuditAdmits(rules, r.value)
    ensures r.None? ==> forall a :: !(AuditFilled(rules, b, a) && AuditAdmits(rules, a))
  {
    var ca := Fill(rules.createdAt, b.createdAt);
    var cb := Fill(rules.createdBy, b.createdBy);
    var ua := Fill(rules.updatedAt, b.updatedAt);
    var ub := Fill(rules.updatedBy, b.updatedBy);
    if ca.Some? && cb.Some? && ua.Some? && ub.Some? then
      Some(Audit(ca.value, cb.value, ua.value, ub.value))
    else
      None
  }

  /** The audit stamp every PATCH applies: the creation columns are kept,
      `updated_at` and `updated_by` are overwritten. */
  predicate Stamped(before: Audit, actor: int, now: Time, after: Audit) {
    && after.createdAt == before.createdAt
    && after.createdBy == before.createdBy
    && after.updatedAt == Some(now)
    && after.updatedBy == Some(actor)
  }

  function Stamp(a: Audit, actor: int, now: Time): (r: Audit)
    ensures Stamped(a, actor, now, r)
  {
    a.(updatedAt := Some(now), updatedBy := Some(actor))
  }

  /** Stamping keeps a row within its table's NULL rules. */
  lemma StampAdmitted(rules: AuditRules, a: Audit, actor: int, now: Time)
    requires AuditAdmits(rules, a)
    ensures AuditAdmits(rules, Stamp(a, actor, now))
  {
  }

  // ---------------------------------------------------------------------
  // User_Levels
  // ---------------------------------------------------------------------

  datatype UserLevel = UserLevel(name: string, level: int, description: Option<string>, audit: Audit)

  datatype UserLevelBody = UserLevelBody(
    id: Option<int>,
    name: Sent<string>,
    level: Sent<int>,
    description: Sent<Option<string>>,
    audit: AuditBody)

  predicate UserLevelComplete(b: UserLevelBody) {
    b.name.Set? && FillAudit(StandardAudit, b.audit).Some?
  }

  /** The row holds every column the body sent and the default of every
      column it left out. */
  predicate UserLevelFrom(b: UserLevelBody, r: UserLevel) {
    && b.name == Set(r.name)
    && Applied(b.level, 0, r.level)
    && Applied(b.description, None, r.description)
    && AuditFilled(StandardAudit, b.audit, r.audit)
  }

  function NewUserLevel(b: UserLevelBody): (r: Option<UserLevel>)
    ensures r.Some? <==> UserLevelComplete(b)
    ensures r.Some? ==> UserLevelFrom(b, r.value) && AuditAdmits(StandardAudit, r.value.audit)
  {
    var a := FillAudit(StandardAudit, b.audit);
    if b.name.Set? && a.Some? then
      Some(UserLevel(b.name.value, Or(b.level, 0), Or(b.description, None), a.value))
    else
      None
  }

  /** Every sent, unprotected column takes its new value; every other column
      keeps its old one; the audit stamp is applied. */
  predicate UserLevelPatched(before: UserLevel, b: UserLevelBody, actor: int, now: Time, after: UserLevel) {
    && Applied(b.name, before.name, after.name)
    && Applied(b.level, before.level, after.level)
    && Applied(b.description, before.description, after.description)
    && Stamped(before.audit, actor, now, after.audit)
  }

  function MergeUserLevel(r: UserLevel, b: UserLevelBody, actor: int, now: Time): (m: UserLevel)
    ensures UserLevelPatched(r, b, actor, now, m)
  {
    UserLevel(Or(b.name, r.name), Or(b.level, r.level), Or(b.description, r.description), Stamp(r.audit, actor, now))
  }

  // ---------------------------------------------------------------------
  // Users
  // ---------------------------------------------------------------------

  datatype User = User(
    name: string,
    phone: string,
    shopId: int,
    userLevelId: int,
    password: string,
    audit: Audit)

  datatype UserBody = UserBody(
    id: Option<int>,
    name: Sent<string>,
    phone: Sent<string>,
    shopId: Sent<int>,
    userLevelId: Sent<int>,
    password: Sent<string>,
    audit: AuditBody)

  predicate UserComplete(b: UserBody) {
    && b.name.Set? && b.phone.Set? && b.shopId.Set? && b.password.Set?
    && FillAudit(StandardAudit, b.audit).Some?
  }

  predicate UserFrom(b: UserBody, r: User) {
    && b.name == Set(r.name)
    && b.phone == Set(r.phone)
    && b.shopId == Set(r.shopId)
    && Applied(b.userLevelId, 0, r.userLevelId)
    && b.password == Set(r.password)
    && AuditFilled(StandardAudit, b.audit, r.audit)
  }

  function NewUser(b: UserBody): (r: Option<User>)
    ensures r.Some? <==> UserComplete(b)
    ensures r.Some? ==> UserFrom(b, r.value) && AuditAdmits(StandardAudit, r.value.audit)
  {
    var a := FillAudit(StandardAudit, b.audit);
    if b.name.Set? && b.phone.Set? && b.shopId.Set? && b.password.Set? && a.Some? then
      Some(User(b.name.value, b.phone.value, b.shopId.value, Or(b.userLevelId, 0), b.password.value, a.value))
    else
      None
  }

  predicate UserPatched(before: User, b: UserBody, actor: int, now: Time, after: User) {
    && Applied(b.name, before.name, after.name)
    && Applied(b.phone, before.phone, after.phone)
    && Applied(b.shopId, before.shopId, after.shopId)
    && Applied(b.userLevelId, before.userLevelId, after.userLevelId)
    && Applied(b.password, before.password, after.password)
    && Stamped(before.audit, actor, now, after.audit)
  }

  function MergeUser(r: User, b: UserBody, actor: int, now: Time): (m: User)
    ensures UserPatched(r, b, actor, now, m)
  {
    User(Or(b.name, r.name), Or(b.phone, r.phone), Or(b.shopId, r.shopId),
         Or(b.userLevelId, r.userLevelId), Or(b.password, r.password), Stamp(r.audit, actor, now))
  }

  // ---------------------------------------------------------------------
  // Packages (the record of models.py that the packages routes import)
  // ---------------------------------------------------------------------

  datatype Package = Package(
    name: string,
    amount: Float,
    pay: Float,
    validity: Option<int>,
    color: Option<string>,
    description: Option<string>,
    offer: Option<string>,
    audit: Audit)

  datatype PackageBody = PackageBody(
    id: Option<int>,
    name: Sent<string>,
    amount: Sent<Float>,
    pay: Sent<Float>,
    validity: Sent<Option<int>>,
    color: Sent<Option<string>>,
    description: Sent<Option<string>>,
    offer: Sent<Option<string>>,
    audit: AuditBody)

  predicate PackageComplete(b: PackageBody) {
    b.name.Set? && b.amount.Set? && b.pay.Set? && FillAudit(PackageAudit, b.audit).Some?
  }

  predicate PackageFrom(b: PackageBody, r: Package) {
    && b.name == Set(r.name)
    && b.amount == Set(r.amount)
    && b.pay == Set(r.pay)
    && Applied(b.validity, None, r.validity)
    && Applied(b.color, None, r.color)
    && Applied(b.description, None, r.description)
    && Applied(b.offer, None, r.offer)
    && AuditFilled(PackageAudit, b.audit, r.audit)
  }

  function NewPackage(b: PackageBody): (r: Option<Package>)
    ensures r.Some? <==> PackageComplete(b)
    ensures r.Some? ==> PackageFrom(b, r.value) && AuditAdmits(PackageAudit, r.value.audit)
  {
    var a := FillAudit(PackageAudit, b.audit);
    if b.name.Set? && b.amount.Set? && b.pay.Set? && a.Some? then
      Some(Package(b.name.value, b.amount.value, b.pay.value, Or(b.validity, None), Or(b.color, None),
                   Or(b.description, None), Or(b.offer, None), a.value))
    else
      None
  }

  predicate PackagePatched(before: Package, b: PackageBody, actor: int, now: Time, after: Package) {
    && Applied(b.name, before.name, after.name)
    && Applied(b.amount, before.amount, after.amount)
    && Applied(b.pay, before.pay, after.pay)
    && Applied(b.validity, before.validity, after.validity)
    && Applied(b.color, before.color, after.color)
    && Applied(b.description, before.description, after.description)
    && Applied(b.offer, before.offer, after.offer)
    && Stamped(before.audit, actor, now, after.audit)
  }

  function MergePackage(r: Package, b: PackageBody, actor: int, now: Time): (m: Package)
    ensures PackagePatched(r, b, actor, now, m)
  {
    Package(Or(b.name, r.name), Or(b.amount, r.amount), Or(b.pay, r.pay), Or(b.validity, r.validity),
            Or(b.color, r.color), Or(b.description, r.description), Or(b.offer, r.offer),
            Stamp(r.audit, actor, now))
  }

  // ---------------------------------------------------------------------
  // Licenses
  // ---------------------------------------------------------------------

  datatype License = License(key: string, packageId: int, expiresAt: Time, paymentId: int, audit: Audit)

  datatype LicenseBody = LicenseBody(
    id: Option<int>,
    key: Sent<string>,
    packageId: Sent<int>,
    expiresAt: Sent<Time>,
    paymentId: Sent<int>,
    audit: AuditBody)

  predicate LicenseComplete(b: LicenseBody) {
    && b.key.Set? && b.packageId.Set? && b.expiresAt.Set? && b.paymentId.Set?
    && FillAudit(StrictAudit, b.audit).Some?
  }

  predicate LicenseFrom(b: LicenseBody, r: License) {
    && b.key == Set(r.key)
    && b.packageId == Set(r.packageId)
    && b.expiresAt == Set(r.expiresAt)
    && b.paymentId == Set(r.paymentId)
    && AuditFilled(StrictAudit, b.audit, r.audit)
  }

  function NewLicense(b: LicenseBody): (r: Option<License>)
    ensures r.Some? <==> LicenseComplete(b)
    ensures r.Some? ==> LicenseFrom(b, r.value) && AuditAdmits(StrictAudit, r.value.audit)
  {
    var a := FillAudit(StrictAudit, b.audit);
    if b.key.Set? && b.packageId.Set? && b.expiresAt.Set? && b.paymentId.Set? && a.Some? then
      Some(License(b.key.value, b.packageId.value, b.expiresAt.value, b.paymentId.value, a.value))
    else
      None
  }

  predicate LicensePatched(before: License, b: LicenseBody, actor: int, now: Time, after: License) {
    && Applied(b.key, before.key, after.key)
    && Applied(b.packageId, before.packageId, after.packageId)
    && Applied(b.expiresAt, before.expiresAt, after.expiresAt)
    && Applied(b.paymentId, before.paymentId, after.paymentId)
    && Stamped(before.audit, actor, now, after.audit)
  }

  function MergeLicense(r: License, b: LicenseBody, actor: int, now: Time): (m: License)
    ensures LicensePatched(r, b, actor, now, m)
  {
    License(Or(b.key, r.key), Or(b.packageId, r.packageId), Or(b.expiresAt, r.expiresAt),
            Or(b.paymentId, r.paymentId), Stamp(r.audit, actor, now))
  }

  // ---------------------------------------------------------------------
  // Companies
  // ---------------------------------------------------------------------

  datatype Company = Company(name: string, licenseId: Option<int>, audit: Audit)

  datatype CompanyBody = CompanyBody(
    id: Option<int>,
    name: Sent<string>,
    licenseId: Sent<Option<int>>,
    audit: AuditBody)

  predicate CompanyComplete(b: CompanyBody) {
    b.name.Set? && FillAudit(StrictAudit, b.audit).Some?
  }

  predicate CompanyFrom(b: CompanyBody, r: Company) {
    && b.name == Set(r.name)
    && Applied(b.licenseId, None, r.licenseId)
    && AuditFilled(StrictAudit, b.audit, r.audit)
  }

  function NewCompany(b: CompanyBody): (r: Option<Company>)
    ensures r.Some? <==> CompanyComplete(b)
    ensures r.Some? ==> CompanyFrom(b, r.value) && AuditAdmits(StrictAudit, r.value.audit)
  {
    var a := FillAudit(StrictAudit, b.audit);
    if b.name.Set? && a.Some? then Some(Company(b.name.value, Or(b.licenseId, None), a.value)) else None
  }

  predicate CompanyPatched(before: Company, b: CompanyBody, actor: int, now: Time, after: Company) {
    && Applied(b.name, before.name, after.name)
    && Applied(b.licenseId, before.licenseId, after.licenseId)
    && Stamped(before.audit, actor, now, after.audit)
  }

  function MergeCompany(r: Company, b: CompanyBody, actor: int, now: Time): (m: Company)
    ensures CompanyPatched(r, b, actor, now, m)
  {
    Company(Or(b.name, r.name), Or(b.licenseId, r.licenseId), Stamp(r.audit, actor, now))
  }

  // ---------------------------------------------------------------------
  // Shop_Types
  // ---------------------------------------------------------------------

  datatype ShopType = ShopType(name: string, description: Option<string>, audit: Audit)

  datatype ShopTypeBody = ShopTypeBody(
    id: Option<int>,
    name: Sent<string>,
    description: Sent<Option<string>>,
    audit: AuditBody)

  predicate ShopTypeComplete(b: ShopTypeBody) {
    b.name.Set? && FillAudit(StrictAudit, b.audit).Some?
  }

  predicate ShopTypeFrom(b: ShopTypeBody, r: ShopType) {
    && b.name == Set(r.name)
    && Applied(b.description, None, r.description)
    && AuditFilled(StrictAudit, b.audit, r.audit)
  }

  function NewShopType(b: ShopTypeBody): (r: Option<ShopType>)
    ensures r.Some? <==> ShopTypeComplete(b)
    ensures r.Some? ==> ShopTypeFrom(b, r.value) && AuditAdmits(StrictAudit, r.value.audit)
  {
    var a := FillAudit(StrictAudit, b.audit);
    if b.name.Set? && a.Some? then Some(ShopType(b.name.value, Or(b.description, None), a.value)) else None
  }

  predicate ShopTypePatched(before: ShopType, b: ShopTypeBody, actor: int, now: Time, after: ShopType) {
    && Applied(b.name, before.name, after.name)
    && Applied(b.description, before.description, after.description)
    && Stamped(before.audit, actor, now, after.audit)
  }

  function MergeShopType(r: ShopType, b: ShopTypeBody, actor: int, now: Time): (m: ShopType)
    ensures ShopTypePatched(r, b, actor, now, m)
  {
    ShopType(Or(b.name, r.name), Or(b.description, r.description), Stamp(r.audit, actor, now))
  }

  // ---------------------------------------------------------------------
  // Shops
  // ---------------------------------------------------------------------

  datatype Shop = Shop(
    name: string,
    location: string,
    companyId: int,
    shopTypeId: int,
    phone1: Option<string>,
    phone2: Option<string>,
    paybill: Option<string>,
    accountNo: Option<string>,
    tillNo: Option<string>,
    audit: Audit)

  datatype ShopBody = ShopBody(
    id: Option<int>,
    name: Sent<string>,
    location: Sent<string>,
    companyId: Sent<int>,
    shopTypeId: Sent<int>,
    phone1: Sent<Option<string>>,
    phone2: Sent<Option<string>>,
    paybill: Sent<Option<string>>,
    accountNo: Sent<Option<string>>,
    tillNo: Sent<Option<string>>,
    audit: AuditBody)

  predicate ShopComplete(b: ShopBody) {
    && b.name.Set? && b.location.Set? && b.companyId.Set? && b.shopTypeId.Set?
    && FillAudit(StandardAudit, b.audit).Some?
  }

  predicate ShopFrom(b: ShopBody, r: Shop) {
    && b.name == Set(r.name)
    && b.location == Set(r.location)
    && b.companyId == Set(r.companyId)
    && b.shopTypeId == Set(r.shopTypeId)
    && Applied(b.phone1, None, r.phone1)
    && Applied(b.phone2, None, r.phone2)
    && Applied(b.paybill, None, r.paybill)
    && Applied(b.accountNo, None, r.accountNo)
    && Applied(b.tillNo, None, r.tillNo)
    && AuditFilled(StandardAudit, b.audit, r.audit)
  }

  function NewShop(b: ShopBody): (r: Option<Shop>)
    ensures r.Some? <==> ShopComplete(b)
    ensures r.Some? ==> ShopFrom(b, r.value) && AuditAdmits(StandardAudit, r.value.audit)
  {
    var a := FillAudit(StandardAudit, b.audit);
    if b.name.Set? && b.location.Set? && b.companyId.Set? && b.shopTypeId.Set? && a.Some? then
      Some(Shop(b.name.value, b.location.value, b.companyId.value, b.shopTypeId.value,
                Or(b.phone1, None), Or(b.phone2, None), Or(b.paybill, None), Or(b.accountNo, None),
                Or(b.tillNo, None), a.value))
    else
      None
  }

  predicate ShopPatched(before: Shop, b: ShopBody, actor: int, now: Time, after: Shop) {
    && Applied(b.name, before.name, after.name)
    && Applied(b.location, before.location, after.location)
    && Applied(b.companyId, before.companyId, after.companyId)
    && Applied(b.shopTypeId, before.shopTypeId, after.shopTypeId)
    && Applied(b.phone1, before.phone1, after.phone1)
    && Applied(b.phone2, before.phone2, after.phone2)
    && Applied(b.paybill, before.paybill, after.paybill)
    && Applied(b.accountNo, before.accountNo, after.accountNo)
    && Applied(b.tillNo, before.tillNo, after.tillNo)
    && Stamped(before.audit, actor, now, after.audit)
  }

  function MergeShop(r: Shop, b: ShopBody, actor: int, now: Time): (m: Shop)
    ensures ShopPatched(r, b, actor, now, m)
  {
    Shop(Or(b.name, r.name), Or(b.location, r.location), Or(b.companyId, r.companyId),
         Or(b.shopTypeId, r.shopTypeId), Or(b.phone1, r.phone1), Or(b.phone2, r.phone2),
         Or(b.paybill, r.paybill), Or(b.accountNo, r.accountNo), Or(b.tillNo, r.tillNo),
         Stamp(r.audit, actor, now))
  }

  // ---------------------------------------------------------------------
  // Product_Categories
  // ---------------------------------------------------------------------

  datatype ProductCategory = ProductCategory(name: string, shopId: Option<int>, audit: Audit)

  datatype ProductCategoryBody = ProductCategoryBody(
    id: Option<int>,
    name: Sent<string>,
    shopId: Sent<Option<int>>,
    audit: AuditBody)

  predicate ProductCategoryComplete(b: ProductCategoryBody) {
    b.name.Set? && FillAudit(StrictAudit, b.audit).Some?
  }

  predicate ProductCategoryFrom(b: ProductCategoryBody, r: ProductCategory) {
    && b.name == Set(r.name)
    && Applied(b.shopId, None, r.shopId)
    && AuditFilled(StrictAudit, b.audit, r.audit)
  }

  function NewProductCategory(b: ProductCategoryBody): (r: Option<ProductCategory>)
    ensures r.Some? <==> ProductCategoryComplete(b)
    ensures r.Some? ==> ProductCategoryFrom(b, r.value) && AuditAdmits(StrictAudit, r.value.audit)
  {
    var a := FillAudit(StrictAudit, b.audit);
    if b.name.Set? && a.Some? then Some(ProductCategory(b.name.value, Or(b.shopId, None), a.value)) else None
  }

  predicate ProductCategoryPatched(before: ProductCategory, b: ProductCategoryBody, actor: int, now: Time,
                                   after: ProductCategory) {
    && Applied(b.name, before.name, after.name)
    && Applied(b.shopId, before.shopId, after.shopId)
    && Stamped(before.audit, actor, now, after.audit)
  }

  function MergeProductCategory(r: ProductCategory, b: ProductCategoryBody, actor: int, now: Time): (m: ProductCategory)
    ensures ProductCategoryPatched(r, b, actor, now, m)
  {
    ProductCategory(Or(b.name, r.name), Or(b.shopId, r.shopId), Stamp(r.audit, actor, now))
  }

  // ---------------------------------------------------------------------
  // Products
  // ---------------------------------------------------------------------

  datatype Product = Product(
    name: string,
    purchasePrice: Option<Float>,
    sellingPrice: Option<Float>,
    categoryId: Option<int>,
    shopId: Option<int>,
    audit: Audit)

  datatype ProductBody = ProductBody(
    id: Option<int>,
    name: Sent<string>,
    purchasePrice: Sent<Option<Float>>,
    sellingPrice: Sent<Option<Float>>,
    categoryId: Sent<Option<int>>,
    shopId: Sent<Option<int>>,
    audit: AuditBody)

  predicate ProductComplete(b: ProductBody) {
    b.name.Set? && FillAudit(StandardAudit, b.audit).Some?
  }

  predicate ProductFrom(b: ProductBody, r: Product) {
    && b.name == Set(r.name)
    && Applied(b.purchasePrice, None, r.purchasePrice)
    && Applied(b.sellingPrice, None, r.sellingPrice)
    && Applied(b.categoryId, None, r.categoryId)
    && Applied(b.shopId, None, r.shopId)
    && AuditFilled(StandardAudit, b.audit, r.audit)
  }

  function NewProduct(b: ProductBody): (r: Option<Product>)
    ensures r.Some? <==> ProductComplete(b)
    ensures r.Some? ==> ProductFrom(b, r.value) && AuditAdmits(StandardAudit, r.value.audit)
  {
    var a := FillAudit(StandardAudit, b.audit);
    if b.name.Set? && a.Some? then
      Some(Product(b.name.value, Or(b.purchasePrice, None), Or(b.sellingPrice, None),
                   Or(b.categoryId, None), Or(b.shopId, None), a.value))
    else
      None
  }

  predicate ProductPatched(before: Product, b: ProductBody, actor: int, now: Time, after: Product) {
    && Applied(b.name, before.name, after.name)
    && Applied(b.purchasePrice, before.purchasePrice, after.purchasePrice)
    && Applied(b.sellingPrice, before.sellingPrice, after.sellingPrice)
    && Applied(b.categoryId, before.categoryId, after.categoryId)
    && Applied(b.shopId, before.shopId, after.shopId)
    && Stamped(before.audit, actor, now, after.audit)
  }

  function MergeProduct(r: Product, b: ProductBody, actor: int, now: Time): (m: Product)
    ensures ProductPatched(r, b, actor, now, m)
  {
    Product(Or(b.name, r.name), Or(b.purchasePrice, r.purchasePrice), Or(b.sellingPrice, r.sellingPrice),
            Or(b.categoryId, r.categoryId), Or(b.shopId, r.shopId), Stamp(r.audit, actor, now))
  }

  // ---------------------------------------------------------------------
  // Stock
  // ---------------------------------------------------------------------

  datatype Stock = Stock(
    stockDate: Option<Date>,
    productId: int,
    shopId: int,
    purchasePrice: Option<Float>,
    sellingPrice: Option<Float>,
    opening: Option<Float>,
    additions: Option<Float>,
    audit: Audit)

  datatype StockBody = StockBody(
    id: Option<int>,
    stockDate: Sent<Option<Date>>,
    productId: Sent<int>,
    shopId: Sent<int>,
    purchasePrice: Sent<Option<Float>>,
    sellingPrice: Sent<Option<Float>>,
    opening: Sent<Option<Float>>,
    additions: Sent<Option<Float>>,
    audit: AuditBody)

  predicate StockComplete(b: StockBody) {
    b.productId.Set? && b.shopId.Set? && FillAudit(StandardAudit, b.audit).Some?
  }

  predicate StockFrom(b: StockBody, r: Stock) {
    && Applied(b.stockDate, None, r.stockDate)
    && b.productId == Set(r.productId)
    && b.shopId == Set(r.shopId)
    && Applied(b.purchasePrice, None, r.purchasePrice)
    && Applied(b.sellingPrice, None, r.sellingPrice)
    && Applied(b.opening, None, r.opening)
    && Applied(b.additions, None, r.additions)
    && AuditFilled(StandardAudit, b.audit, r.audit)
  }

  function NewStock(b: StockBody): (r: Option<Stock>)
    ensures r.Some? <==> StockComplete(b)
    ensures r.Some? ==> StockFrom(b, r.value) && AuditAdmits(StandardAudit, r.value.audit)
  {
    var a := FillAudit(StandardAudit, b.audit);
    if b.productId.Set? && b.shopId.Set? && a.Some? then
      Some(Stock(Or(b.stockDate, None), b.productId.value, b.shopId.value, Or(b.purchasePrice, None),
                 Or(b.sellingPrice, None), Or(b.opening, None), Or(b.additions, None), a.value))
    else
      None
  }

  predicate StockPatched(before: Stock, b: StockBody, actor: int, now: Time, after: Stock) {
    && Applied(b.stockDate, before.stockDate, after.stockDate)
    && Applied(b.productId, before.productId, after.productId)
    && Applied(b.shopId, before.shopId, after.shopId)
    && Applied(b.purchasePrice, before.purchasePrice, after.purchasePrice)
    && Applied(b.sellingPrice, before.sellingPrice, after.sellingPrice)
    && Applied(b.opening, before.opening, after.opening)
    && Applied(b.additions, before.additions, after.additions)
    && Stamped(before.audit, actor, now, after.audit)
  }

  function MergeStock(r: Stock, b: StockBody, actor: int, now: Time): (m: Stock)
    ensures StockPatched(r, b, actor, now, m)
  {
    Stock(Or(b.stockDate, r.stockDate), Or(b.productId, r.productId), Or(b.shopId, r.shopId),
          Or(b.purchasePrice, r.purchasePrice), Or(b.sellingPrice, r.sellingPrice),
          Or(b.opening, r.opening), Or(b.additions, r.additions), Stamp(r.audit, actor, now))
  }

  // ---------------------------------------------------------------------
  // The datastore
  // ---------------------------------------------------------------------

  /** One map per table, from primary key to row. */
  datatype Db = Db(
    userLevels: map<int, UserLevel>,
    users: map<int, User>,
    packages: map<int, Package>,
    licenses: map<int, License>,
    companies: map<int, Company>,
    shopTypes: map<int, ShopType>,
    shops: map<int, Shop>,
    categories: map<int, ProductCategory>,
    products: map<int, Product>,
    stock: map<int, Stock>)

  datatype Table =
    | UserLevelsTable | UsersTable | PackagesTable | LicensesTable | CompaniesTable
    | ShopTypesTable | ShopsTable | CategoriesTable | ProductsTable | StockTable

  /** Every stored row keeps the NULL rules of its table's audit columns. */
  predicate WellFormed(db: Db) {
    && (forall k :: k in db.userLevels ==> AuditAdmits(StandardAudit, db.userLevels[k].audit))
    && (forall k :: k in db.users ==> AuditAdmits(StandardAudit, db.users[k].audit))
    && (forall k :: k in db.packages ==> AuditAdmits(PackageAudit, db.packages[k].audit))
    && (forall k :: k in db.licenses ==> AuditAdmits(StrictAudit, db.licenses[k].audit))
    && (forall k :: k in db.companies ==> AuditAdmits(StrictAudit, db.companies[k].audit))
    && (forall k :: k in db.shopTypes ==> AuditAdmits(StrictAudit, db.shopTypes[k].audit))
    && (forall k :: k in db.shops ==> AuditAdmits(StandardAudit, db.shops[k].audit))
    && (forall k :: k in db.categories ==> AuditAdmits(StrictAudit, db.categories[k].audit))
    && (forall k :: k in db.products ==> AuditAdmits(StandardAudit, db.products[k].audit))
    && (forall k :: k in db.stock ==> AuditAdmits(StandardAudit, db.stock[k].audit))
  }

  /** The unique constraints of the store, which the schema does not show:
      does row `k` of the table, in the datastore that would result from a
      write, clash with another row? */
  type UniqueCheck = (Table, Db, int) -> bool

  /** The authenticated caller: the Users row the bearer token resolved to,
      with its key. */
  datatype Caller = Caller(id: int, user: User)

  /** A created row together with the key it was stored under. */
  datatype Created<R> = Created(id: int, row: R)

  /** What a write handler answers, and the datastore after it. */
  datatype Outcome<T> = Outcome(response: Response<T>, db: Db)

  /** The key a new row is stored under: the one the body sent, or the next
      value of the table's id sequence. */
  function KeyFor(id: Option<int>, nextId: int): (k: int)
    ensures id.Some? ==> k == id.value
    ensures id.None? ==> k == nextId
  {
    match id
    case Some(i) => i
    case None => nextId
  }

  /** `current_user.user_level.level`: the `level` of the caller's User_Levels
      row; None when there is no such row. */
  function LevelOf(db: Db, c: Caller): (r: Option<int>)
    ensures r.Some? <==> c.user.userLevelId in db.userLevels
    ensures r.Some? ==> r.value == db.userLevels[c.user.userLevelId].level
  {
    if c.user.userLevelId in db.userLevels then Some(db.userLevels[c.user.userLevelId].level) else None
  }

  /** `db_user.shop`: the Shops row a user points at; None when it is missing. */
  function ShopOf(db: Db, u: User): (r: Option<Shop>)
    ensures r.Some? <==> u.shopId in db.shops
    ensures r.Some? ==> r.value == db.shops[u.shopId]
  {
    if u.shopId in db.shops then Some(db.shops[u.shopId]) else None
  }
}
