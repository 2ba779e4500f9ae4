/**
 * The two row-level traits of tenant models. BelongsToTenant scopes every
 * query to the current tenant (single-database strategy only) and stamps
 * new rows with its id. HasUserTypeAccess narrows queries by the
 * member's user type and decides, record by record, what the member may
 * view. A query is the list of `where` conditions appended to it; its
 * result is the table filtered by all of them.
 */
module RowFilters {
  import opened Wrappers
  import opened PhpStrings
  import opened Seqs
  import opened Config
  import opened Tenants
  import opened Memberships
  import opened HasTenants

  /** A row of a model that uses the traits, reduced to the columns the rules read; None is NULL. */
  datatype Row = Row(
    tenantId: Option<int>,
    userId: Option<int>,
    vendorId: Option<int>,
    partnerId: Option<int>,
    department: Option<string>,
    status: Option<string>)

  /** A `where` clause the traits add. */
  datatype Condition =
    | TenantIdIs(tenantId: int)     // where tenant_id = ?
    | UserIdIs(userId: int)         // where user_id = ?
    | VendorIdIs(vendorId: int)     // where vendor_id = ?
    | DepartmentIs(department: string)
    | StatusIn(statuses: seq<string>)
    | PartnerIdNotNull

  /** SQL comparison: a NULL column satisfies no equality. */
  predicate Holds(c: Condition, r: Row) {
    match c
    case TenantIdIs(id) => r.tenantId == Some(id)
    case UserIdIs(id) => r.userId == Some(id)
    case VendorIdIs(id) => r.vendorId == Some(id)
    case DepartmentIs(d) => r.department == Some(d)
    case StatusIn(ss) => r.status.Some? && r.status.value in ss
    case PartnerIdNotNull => r.partnerId.Some?
  }

  predicate HoldsAll(cs: seq<Condition>, r: Row) {
    cs == [] || (Holds(cs[0], r) && HoldsAll(cs[1..], r))
  }

  lemma {:induction false} HoldsAllAppend(a: seq<Condition>, b: seq<Condition>, r: Row)
    ensures HoldsAll(a + b, r) <==> HoldsAll(a, r) && HoldsAll(b, r)
  {
    if a == [] {
      assert a + b == b;
    } else {
      HoldsAllAppend(a[1..], b, r);
      assert (a + b)[1..] == a[1..] + b;
    }
  }

  lemma HoldsAllSingle(c: Condition, r: Row)
    ensures HoldsAll([c], r) <==> Holds(c, r)
  {
    assert [c][1..] == [];
  }

  /** `->get()`: the rows satisfying every condition, in table order. */
  function Select(rows: seq<Row>, cs: seq<Condition>): (r: seq<Row>)
    ensures forall x :: x in r <==> x in rows && HoldsAll(cs, x)
  {
    var keep := (x: Row) => HoldsAll(cs, x);
    assert forall x :: x in Filter(rows, keep) <==> x in rows && keep(x) by {
      forall x
        ensures x in Filter(rows, keep) <==> x in rows && keep(x)
      {
        FilterMembership(rows, keep, x);
      }
    }
    Filter(rows, keep)
  }

  /** A query without conditions returns the whole table. */
  lemma SelectNothing(rows: seq<Row>)
    ensures Select(rows, []) == rows
  {
    FilterAll(rows, (x: Row) => HoldsAll([], x));
  }

  /** A query builder: the model's fillable columns and the conditions appended so far. */
  class Query {
    const fillable: set<string>
    var wheres: seq<Condition>

    constructor (fillable: set<string>)
      ensures this.fillable == fillable && wheres == []
    {
      this.fillable := fillable;
      wheres := [];
    }

    method Where(c: Condition)
      modifies this
      ensures wheres == old(wheres) + [c]
    {
      wheres := wheres + [c];
    }
  }

  // ---------------------------------------------------------------
  // BelongsToTenant
  // ---------------------------------------------------------------

  /** TenantScope::apply: only the single-database strategy with a current tenant filters. */
  function TenantScope(strategy: string, current: Option<Tenant>): (cs: seq<Condition>)
    ensures forall r :: HoldsAll(cs, r) <==>
      (strategy == SINGLE_DATABASE && current.Some? ==> r.tenantId == Some(current.value.id))
  {
    if strategy == SINGLE_DATABASE && current.Some? then [TenantIdIs(current.value.id)] else []
  }

  /** scopeForTenant's condition. */
  function ForTenantScope(tenantId: int): (cs: seq<Condition>)
    ensures forall r :: HoldsAll(cs, r) <==> r.tenantId == Some(tenantId)
  {
    [TenantIdIs(tenantId)]
  }

  /** Which global scope a query keeps: the default, `withoutTenant()`, or `forTenant(id)`. */
  datatype Scoping = Scoped | WithoutTenant | ForTenant(tenantId: int)

  /** The rows a tenant model's query returns under the given context. */
  function TenantRows(rows: seq<Row>, strategy: string, current: Option<Tenant>, scoping: Scoping): (r: seq<Row>)
    ensures scoping.Scoped? ==>
      forall x :: x in r <==> x in rows && (strategy == SINGLE_DATABASE && current.Some? ==> x.tenantId == Some(current.value.id))
    ensures scoping.ForTenant? ==> forall x :: x in r <==> x in rows && x.tenantId == Some(scoping.tenantId)
  {
    match scoping
    case Scoped => Select(rows, TenantScope(strategy, current))
    case WithoutTenant => rows
    case ForTenant(id) => Select(rows, ForTenantScope(id))
  }

  /** Outside the single-database strategy, or with no tenant current, the default scope returns every row. */
  lemma UnscopedContexts(rows: seq<Row>, strategy: string, current: Option<Tenant>)
    requires strategy != SINGLE_DATABASE || current.None?
    ensures TenantRows(rows, strategy, current, Scoped) == rows
  {
    SelectNothing(rows);
  }

  /** withoutTenant and forTenant do not depend on the context. */
  lemma ExplicitScopesIgnoreContext(rows: seq<Row>, s1: string, c1: Option<Tenant>, s2: string, c2: Option<Tenant>, id: int)
    ensures TenantRows(rows, s1, c1, WithoutTenant) == rows
    ensures TenantRows(rows, s1, c1, ForTenant(id)) == TenantRows(rows, s2, c2, ForTenant(id))
  {
  }

  /** PHP truthiness of a nullable integer column. */
  predicate TruthyId(o: Option<int>) {
    o.Some? && o.value != 0
  }

  /** The `creating` hook's effect: a falsy tenant_id becomes the current tenant's, whatever the strategy. */
  function Stamped(r: Row, current: Option<Tenant>): (s: Row)
    ensures current.Some? && !TruthyId(r.tenantId) ==> s.tenantId == Some(current.value.id)
    ensures current.None? || TruthyId(r.tenantId) ==> s.tenantId == r.tenantId
    ensures s.(tenantId := r.tenantId) == r
  {
    if current.Some? && !TruthyId(r.tenantId) then r.(tenantId := Some(current.value.id)) else r
  }

  /** A row created in a tenant without an explicit tenant_id is returned by that tenant's scoped queries. */
  lemma StampedRowVisible(rows: seq<Row>, r: Row, t: Tenant)
    requires !TruthyId(r.tenantId) && t.id != 0
    ensures Stamped(r, Some(t)) in TenantRows(rows + [Stamped(r, Some(t))], SINGLE_DATABASE, Some(t), Scoped)
    ensures Stamped(Stamped(r, Some(t)), Some(t)) == Stamped(r, Some(t))
  {
  }

  /** An explicit tenant_id of another tenant is kept, so the row is invisible to the tenant it was created in. */
  lemma ExplicitForeignTenantHidden(rows: seq<Row>, r: Row, t: Tenant)
    requires TruthyId(r.tenantId) && r.tenantId.value != t.id
    ensures Stamped(r, Some(t)) !in TenantRows(rows, SINGLE_DATABASE, Some(t), Scoped)
  {
  }

  /** A model being created, whose attributes the `creating` hook may write. */
  class Draft {
    var row: Row

    constructor (row: Row)
      ensures this.row == row
    {
      this.row := row;
    }

    /** The `creating` hook of BelongsToTenant. */
    method Creating(current: Option<Tenant>)
      modifies this
      ensures row == Stamped(old(row), current)
    {
      if current.Some? && !TruthyId(row.tenantId) {
        row := row.(tenantId := Some(current.value.id));
      }
    }
  }

  // ---------------------------------------------------------------
  // HasUserTypeAccess: query filters
  // ---------------------------------------------------------------

  function PermissionList(m: Membership): seq<string> {
    m.permissions.GetOr([])
  }

  /** `custom_data['department'] ?? null`. */
  function Department(m: Membership): Option<string> {
    if m.customData.Some? && "department" in m.customData.value then Some(m.customData.value["department"]) else None
  }

  /** applyClientFilters: own rows, and active or pending ones, each only when that column is fillable. */
  function ClientConditions(fillable: set<string>, m: Membership): (cs: seq<Condition>)
    ensures forall r :: HoldsAll(cs, r) <==>
      && ("user_id" in fillable ==> r.userId == Some(m.userId))
      && ("status" in fillable ==> r.status.Some? && r.status.value in ["active", "pending"])
  {
    var own := if "user_id" in fillable then [UserIdIs(m.userId)] else [];
    var live := if "status" in fillable then [StatusIn(["active", "pending"])] else [];
    forall r
      ensures HoldsAll(own + live, r) <==>
        && ("user_id" in fillable ==> r.userId == Some(m.userId))
        && ("status" in fillable ==> r.status.Some? && r.status.value in ["active", "pending"])
    {
      HoldsAllAppend(own, live, r);
      HoldsAllSingle(UserIdIs(m.userId), r);
      HoldsAllSingle(StatusIn(["active", "pending"]), r);
    }
    own + live
  }

  /** applyEmployeeFilters. */
  function EmployeeConditions(fillable: set<string>, m: Membership): (cs: seq<Condition>)
    ensures "view_all_data" in PermissionList(m) ==> cs == []
    ensures "view_all_data" !in PermissionList(m) && "view_department_data" in PermissionList(m) ==>
      cs == if Truthy(Department(m)) && "department" in fillable then [DepartmentIs(Department(m).value)] else []
    ensures "view_all_data" !in PermissionList(m) && "view_department_data" !in PermissionList(m) ==>
      forall r :: HoldsAll(cs, r) <==> ("user_id" in fillable ==> r.userId == Some(m.userId))
  {
    var permissions := PermissionList(m);
    if "view_all_data" in permissions then []
    else if "view_department_data" in permissions then
      if Truthy(Department(m)) && "department" in fillable then [DepartmentIs(Department(m).value)] else []
    else if "user_id" in fillable then [UserIdIs(m.userId)]
    else []
  }

  /** applyVendorFilters: vendor_id when fillable, otherwise user_id when fillable. */
  function VendorConditions(fillable: set<string>, m: Membership): (cs: seq<Condition>)
    ensures forall r :: HoldsAll(cs, r) <==>
      if "vendor_id" in fillable then r.vendorId == Some(m.userId)
      else ("user_id" in fillable ==> r.userId == Some(m.userId))
  {
    if "vendor_id" in fillable then [VendorIdIs(m.userId)]
    else if "user_id" in fillable then [UserIdIs(m.userId)]
    else []
  }

  /** applyPartnerFilters. */
  function PartnerConditions(fillable: set<string>, m: Membership): (cs: seq<Condition>)
    ensures forall r :: HoldsAll(cs, r) <==>
      if "view_partner_data" in PermissionList(m) then ("partner_id" in fillable ==> r.partnerId.Some?)
      else ("user_id" in fillable ==> r.userId == Some(m.userId))
  {
    if "view_partner_data" in PermissionList(m) then
      if "partner_id" in fillable then [PartnerIdNotNull] else []
    else if "user_id" in fillable then [UserIdIs(m.userId)]
    else []
  }

  /** applyUserTypeFilters for a member; the other user types get no condition. */
  function UserTypeConditions(fillable: set<string>, m: Membership): (cs: seq<Condition>)
    ensures m.userType !in {TYPE_CLIENT, TYPE_EMPLOYEE, TYPE_VENDOR, TYPE_PARTNER} ==> cs == []
  {
    if m.userType == TYPE_CLIENT then ClientConditions(fillable, m)
    else if m.userType == TYPE_EMPLOYEE then EmployeeConditions(fillable, m)
    else if m.userType == TYPE_VENDOR then VendorConditions(fillable, m)
    else if m.userType == TYPE_PARTNER then PartnerConditions(fillable, m)
    else []
  }

  /** The member whose rules apply: the authenticated user's live row in the current tenant. */
  function CurrentMember(current: Option<Tenant>, userId: Option<int>, rows: seq<Membership>): (r: Option<Membership>)
    ensures current.None? || userId.None? ==> r.None?
    ensures current.Some? && userId.Some? ==> r == GetTenantUser(rows, current.value, userId.value)
  {
    if current.None? || userId.None? then None else GetTenantUser(rows, current.value, userId.value)
  }

  /** The global scope `user_type_access`: appends the member's conditions; without a member it appends nothing. */
  method ApplyUserTypeFilters(q: Query, current: Option<Tenant>, userId: Option<int>, rows: seq<Membership>)
    modifies q
    ensures CurrentMember(current, userId, rows).None? ==> q.wheres == old(q.wheres)
    ensures CurrentMember(current, userId, rows).Some? ==>
      q.wheres == old(q.wheres) + UserTypeConditions(q.fillable, CurrentMember(current, userId, rows).value)
  {
    var member := CurrentMember(current, userId, rows);
    if member.None? {
      return;
    }
    var m := member.value;
    if m.userType == TYPE_CLIENT {
      ApplyClientFilters(q, m);
    } else if m.userType == TYPE_EMPLOYEE {
      ApplyEmployeeFilters(q, m);
    } else if m.userType == TYPE_VENDOR {
      ApplyVendorFilters(q, m);
    } else if m.userType == TYPE_PARTNER {
      ApplyPartnerFilters(q, m);
    }
  }

  method ApplyClientFilters(q: Query, m: Membership)
    modifies q
    ensures q.wheres == old(q.wheres) + ClientConditions(q.fillable, m)
  {
    if "user_id" in q.fillable {
      q.Where(UserIdIs(m.userId));
    }
    if "status" in q.fillable {
      q.Where(StatusIn(["active", "pending"]));
    }
  }

  method ApplyEmployeeFilters(q: Query, m: Membership)
    modifies q
    ensures q.wheres == old(q.wheres) + EmployeeConditions(q.fillable, m)
  {
    var permissions := PermissionList(m);
    if "view_all_data" !in permissions {
      if "view_department_data" in permissions {
        var department := Department(m);
        if Truthy(department) && "department" in q.fillable {
          q.Where(DepartmentIs(department.value));
        }
      } else if "user_id" in q.fillable {
        q.Where(UserIdIs(m.userId));
      }
    }
  }

  method ApplyVendorFilters(q: Query, m: Membership)
    modifies q
    ensures q.wheres == old(q.wheres) + VendorConditions(q.fillable, m)
  {
    if "vendor_id" in q.fillable {
      q.Where(VendorIdIs(m.userId));
    } else if "user_id" in q.fillable {
      q.Where(UserIdIs(m.userId));
    }
  }

  method ApplyPartnerFilters(q: Query, m: Membership)
    modifies q
    ensures q.wheres == old(q.wheres) + PartnerConditions(q.fillable, m)
  {
    if "view_partner_data" in PermissionList(m) {
      if "partner_id" in q.fillable {
        q.Where(PartnerIdNotNull);
      }
    } else if "user_id" in q.fillable {
      q.Where(UserIdIs(m.userId));
    }
  }

  /** scopeForUserType: only client and vendor narrow, and only for a truthy user id. */
  function ForUserTypeConditions(fillable: set<string>, userType: string, userId: Option<int>): (cs: seq<Condition>)
    ensures userType !in {TYPE_CLIENT, TYPE_VENDOR} || !TruthyId(userId) ==> cs == []
    ensures userType == TYPE_CLIENT && TruthyId(userId) ==>
      forall r :: HoldsAll(cs, r) <==> ("user_id" in fillable ==> r.userId == userId)
    ensures userType == TYPE_VENDOR && TruthyId(userId) ==>
      forall r :: HoldsAll(cs, r) <==>
        if "vendor_id" in fillable then r.vendorId == userId else ("user_id" in fillable ==> r.userId == userId)
  {
    if !TruthyId(userId) then []
    else if userType == TYPE_CLIENT then
      if "user_id" in fillable then [UserIdIs(userId.value)] else []
    else if userType == TYPE_VENDOR then
      if "vendor_id" in fillable then [VendorIdIs(userId.value)]
      else if "user_id" in fillable then [UserIdIs(userId.value)]
      else []
    else []
  }

  method ScopeForUserType(q: Query, userType: string, userId: Option<int>)
    modifies q
    ensures q.wheres == old(q.wheres) + ForUserTypeConditions(q.fillable, userType, userId)
  {
    if TruthyId(userId) {
      if userType == TYPE_CLIENT {
        if "user_id" in q.fillable {
          q.Where(UserIdIs(userId.value));
        }
      } else if userType == TYPE_VENDOR {
        if "vendor_id" in q.fillable {
          q.Where(VendorIdIs(userId.value));
        } else if "user_id" in q.fillable {
          q.Where(UserIdIs(userId.value));
        }
      }
    }
  }

  // ---------------------------------------------------------------
  // HasUserTypeAccess: per-record checks
  // ---------------------------------------------------------------

  predicate OwnRecord(r: Row, m: Membership) {
    r.userId.Some? && r.userId.value == m.userId
  }

  predicate CheckClientAccess(r: Row, m: Membership) {
    OwnRecord(r, m)
  }

  predicate CheckEmployeeAccess(r: Row, m: Membership) {
    if "view_all_data" in PermissionList(m) then true
    else if "view_department_data" in PermissionList(m) then
      Truthy(Department(m)) && r.department.Some? && r.department.value == Department(m).value
    else OwnRecord(r, m)
  }

  predicate CheckVendorAccess(r: Row, m: Membership) {
    if r.vendorId.Some? then r.vendorId.value == m.userId else OwnRecord(r, m)
  }

  predicate CheckPartnerAccess(r: Row, m: Membership) {
    if "view_partner_data" in PermissionList(m) then r.partnerId.Some? else OwnRecord(r, m)
  }

  /** checkUserTypeAccess: the four filtered types have their rule, every other type sees nothing. */
  predicate CheckUserTypeAccess(r: Row, m: Membership) {
    if m.userType == TYPE_CLIENT then CheckClientAccess(r, m)
    else if m.userType == TYPE_EMPLOYEE then CheckEmployeeAccess(r, m)
    else if m.userType == TYPE_VENDOR then CheckVendorAccess(r, m)
    else if m.userType == TYPE_PARTNER then CheckPartnerAccess(r, m)
    else false
  }

  /** canBeViewedByCurrentUser. */
  function CanBeViewed(r: Row, current: Option<Tenant>, userId: Option<int>, rows: seq<Membership>): (ok: bool)
    ensures CurrentMember(current, userId, rows).None? ==> !ok
    ensures CurrentMember(current, userId, rows).Some? ==>
      var m := CurrentMember(current, userId, rows).value;
      && (IsOwner(m) || m.role == ROLE_SUPER_ADMIN ==> ok)
      && (!IsOwner(m) && m.role != ROLE_SUPER_ADMIN ==> (ok <==> CheckUserTypeAccess(r, m)))
  {
    match CurrentMember(current, userId, rows)
    case None => false
    case Some(m) => if IsOwner(m) || m.role == ROLE_SUPER_ADMIN then true else CheckUserTypeAccess(r, m)
  }

  /** Admins, consultants and guests that are not super_admin may view no record, though their queries are not narrowed. */
  lemma UnfilteredTypesSeeNoRecord(r: Row, fillable: set<string>, current: Option<Tenant>, userId: Option<int>, rows: seq<Membership>)
    requires CurrentMember(current, userId, rows).Some?
    requires var m := CurrentMember(current, userId, rows).value;
      m.userType in {TYPE_ADMIN, TYPE_CONSULTANT, TYPE_GUEST} && m.role != ROLE_SUPER_ADMIN
    ensures !CanBeViewed(r, current, userId, rows)
    ensures UserTypeConditions(fillable, CurrentMember(current, userId, rows).value) == []
  {
  }

  /** For a client, whenever user_id is fillable, every row the filtered query returns passes the record check; without a fillable status they agree exactly. */
  lemma ClientQueryWithinCheck(fillable: set<string>, m: Membership, r: Row)
    requires m.userType == TYPE_CLIENT && "user_id" in fillable
    ensures HoldsAll(UserTypeConditions(fillable, m), r) ==> CheckUserTypeAccess(r, m)
    ensures "status" !in fillable ==> (HoldsAll(UserTypeConditions(fillable, m), r) <==> CheckUserTypeAccess(r, m))
  {
  }

  /** For a vendor with a fillable vendor_id, the query and the record check agree on rows whose vendor_id is set. */
  lemma VendorQueryAgreesOnVendorRows(fillable: set<string>, m: Membership, r: Row)
    requires m.userType == TYPE_VENDOR && "vendor_id" in fillable && r.vendorId.Some?
    ensures HoldsAll(UserTypeConditions(fillable, m), r) <==> CheckUserTypeAccess(r, m)
  {
  }

  /** For a partner, whenever the column its rule reads is fillable, the query and the record check agree. */
  lemma PartnerQueryAgrees(fillable: set<string>, m: Membership, r: Row)
    requires m.userType == TYPE_PARTNER
    requires if "view_partner_data" in PermissionList(m) then "partner_id" in fillable else "user_id" in fillable
    ensures HoldsAll(UserTypeConditions(fillable, m), r) <==> CheckUserTypeAccess(r, m)
  {
  }

  /**
   * An employee with view_department_data (and not view_all_data) but no
   * department: the query filter adds no condition, so every row comes
   * back, while the record check refuses every row.
   */
  lemma EmployeeWithoutDepartmentGap(fillable: set<string>, m: Membership, table: seq<Row>, r: Row)
    requires m.userType == TYPE_EMPLOYEE
    requires "view_all_data" !in PermissionList(m) && "view_department_data" in PermissionList(m)
    requires !Truthy(Department(m))
    ensures Select(table, UserTypeConditions(fillable, m)) == table
    ensures !CheckUserTypeAccess(r, m)
  {
    SelectNothing(table);
  }

  /** An employee with a department sees, by query and by record check alike, exactly that department's rows when the column is fillable. */
  lemma EmployeeDepartmentAgrees(fillable: set<string>, m: Membership, r: Row)
    requires m.userType == TYPE_EMPLOYEE && "department" in fillable
    requires "view_all_data" !in PermissionList(m) && "view_department_data" in PermissionList(m)
    requires Truthy(Department(m))
    ensures HoldsAll(UserTypeConditions(fillable, m), r) <==> CheckUserTypeAccess(r, m)
  {
    var cs := UserTypeConditions(fillable, m);
    assert cs == [DepartmentIs(Department(m).value)];
    if HoldsAll(cs, r) {
      assert Holds(cs[0], r);
    }
  }
}
