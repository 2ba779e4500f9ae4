/**
 * The TenantUser membership: status, type and role predicates, permission
 * check, basic access with its IP/hour/weekday restrictions, the per-type
 * quota dispatch behind canPerform, and the role hierarchy.
 */
module Memberships {
  import opened Wrappers
  import opened Config
  import opened Tenants

  const TYPE_OWNER := "owner"
  const TYPE_ADMIN := "admin"
  const TYPE_EMPLOYEE := "employee"
  const TYPE_CLIENT := "client"
  const TYPE_VENDOR := "vendor"
  const TYPE_PARTNER := "partner"
  const TYPE_CONSULTANT := "consultant"
  const TYPE_GUEST := "guest"

  const STATUS_ACTIVE := "active"
  const STATUS_INACTIVE := "inactive"
  const STATUS_SUSPENDED := "suspended"
  const STATUS_PENDING := "pending"
  const STATUS_BLOCKED := "blocked"

  const ROLE_SUPER_ADMIN := "super_admin"
  const ROLE_ADMIN := "admin"
  const ROLE_MANAGER := "manager"
  const ROLE_EMPLOYEE := "employee"
  const ROLE_CLIENT := "client"
  const ROLE_VIEWER := "viewer"

  /** `access_hours`: either bound may be missing. */
  datatype HourRange = HourRange(start: Option<int>, end: Option<int>)

  /** `access_restrictions`: a missing or null key is None. */
  datatype Restrictions = Restrictions(
    allowedIps: Option<seq<string>>,
    accessHours: Option<HourRange>,
    accessDays: Option<seq<int>>)

  /** A row of `tenant_users`; `deleted` is the soft-delete mark. */
  datatype Membership = Membership(
    tenantId: int,
    userId: int,
    userType: string,
    role: string,
    status: string,
    permissions: Option<seq<string>>,
    invitedBy: Option<int>,
    invitedAt: Option<int>,
    joinedAt: Option<int>,
    lastAccessAt: Option<int>,
    restrictions: Option<Restrictions>,
    customData: Option<map<string, string>>,
    deleted: bool)

  /** What the request and the clock contribute: the caller's IP, the current hour and weekday (0 = Sunday) and the current time. */
  datatype AccessEnv = AccessEnv(ip: string, hour: int, weekday: int, now: int)

  predicate IsActive(m: Membership) {
    m.status == STATUS_ACTIVE
  }

  predicate IsOwner(m: Membership) {
    m.userType == TYPE_OWNER
  }

  predicate IsAdmin(m: Membership) {
    m.role in [ROLE_SUPER_ADMIN, ROLE_ADMIN] || m.userType == TYPE_ADMIN
  }

  predicate IsEmployee(m: Membership) {
    m.userType == TYPE_EMPLOYEE
  }

  predicate IsClient(m: Membership) {
    m.userType == TYPE_CLIENT
  }

  /** Owner or super_admin: every permission, no quota. */
  predicate Privileged(m: Membership) {
    IsOwner(m) || m.role == ROLE_SUPER_ADMIN
  }

  function Permissions(m: Membership): seq<string> {
    m.permissions.GetOr([])
  }

  predicate HasPermission(m: Membership, permission: string) {
    if Privileged(m) then true else permission in Permissions(m)
  }

  /** Owner and super_admin hold every permission whatever their list says. */
  lemma PrivilegedHasEveryPermission(m: Membership, permission: string)
    requires m.userType == TYPE_OWNER || m.role == ROLE_SUPER_ADMIN
    ensures HasPermission(m, permission)
  {
  }

  /** Everyone else holds exactly the listed permissions; a missing list grants none. */
  lemma HasPermissionFromList(m: Membership, permission: string)
    requires m.userType != TYPE_OWNER && m.role != ROLE_SUPER_ADMIN
    ensures HasPermission(m, permission) <==> m.permissions.Some? && permission in m.permissions.value
  {
  }

  lemma IsAdminCases(m: Membership)
    ensures IsAdmin(m) <==> m.role == ROLE_SUPER_ADMIN || m.role == ROLE_ADMIN || m.userType == TYPE_ADMIN
  {
  }

  /** A non-empty `allowed_ips` list must contain the caller's IP. */
  predicate IpAllowed(r: Restrictions, ip: string) {
    r.allowedIps.None? || |r.allowedIps.value| == 0 || ip in r.allowedIps.value
  }

  /** `access_hours` bounds the hour inclusively, with missing bounds 0 and 23. */
  predicate HourAllowed(r: Restrictions, hour: int) {
    r.accessHours.None? || (r.accessHours.value.start.GetOr(0) <= hour <= r.accessHours.value.end.GetOr(23))
  }

  /** A present `access_days` list must contain the weekday, so an empty one denies. */
  predicate DayAllowed(r: Restrictions, weekday: int) {
    r.accessDays.None? || weekday in r.accessDays.value
  }

  /** checkAccessRestrictions, written as the source's sequence of early returns. */
  function CheckAccessRestrictions(m: Membership, env: AccessEnv): (ok: bool)
    ensures m.restrictions.None? ==> ok
    ensures m.restrictions.Some? ==>
      (ok <==> IpAllowed(m.restrictions.value, env.ip) && HourAllowed(m.restrictions.value, env.hour)
                 && DayAllowed(m.restrictions.value, env.weekday))
  {
    var r := m.restrictions.GetOr(Restrictions(None, None, None));
    if r.allowedIps.Some? && |r.allowedIps.value| > 0 && env.ip !in r.allowedIps.value then false
    else if r.accessHours.Some? &&
            (env.hour < r.accessHours.value.start.GetOr(0) || env.hour > r.accessHours.value.end.GetOr(23)) then false
    else if r.accessDays.Some? && env.weekday !in r.accessDays.value then false
    else true
  }

  /** An empty `access_days` list denies on every day. */
  lemma EmptyAccessDaysDenies(m: Membership, env: AccessEnv)
    requires m.restrictions.Some? && m.restrictions.value.accessDays == Some([])
    ensures !CheckAccessRestrictions(m, env)
  {
  }

  /** An empty `allowed_ips` list places no IP restriction. */
  lemma EmptyAllowedIpsAllowsAnyIp(m: Membership, env: AccessEnv, ip: string)
    requires m.restrictions.Some? && m.restrictions.value.allowedIps == Some([])
    ensures CheckAccessRestrictions(m, env) == CheckAccessRestrictions(m, env.(ip := ip))
  {
  }

  /** canAccess; `t` is the membership's tenant. */
  function CanAccess(m: Membership, t: Tenant, env: AccessEnv): (ok: bool)
    ensures ok ==> IsActive(m) && Tenants.IsActive(t)
    ensures IsActive(m) && Tenants.IsActive(t) ==> (ok <==> CheckAccessRestrictions(m, env))
  {
    if !IsActive(m) then false
    else if !Tenants.IsActive(t) then false
    else CheckAccessRestrictions(m, env)
  }

  /** The context count under `key`, 0 when absent. */
  function ContextCount(context: map<string, int>, key: string): int {
    if key in context then context[key] else 0
  }

  function CheckClientLimits(t: Tenant, plans: Plans, action: string, context: map<string, int>): bool {
    if action == "create_order" then CanPerform(t, plans, "client_orders", ContextCount(context, "current_orders"))
    else if action == "access_api" then CanPerform(t, plans, "api_calls", ContextCount(context, "current_calls"))
    else if action == "upload_file" then CanPerform(t, plans, "storage", ContextCount(context, "current_storage"))
    else true
  }

  function CheckEmployeeLimits(m: Membership, t: Tenant, plans: Plans, action: string, context: map<string, int>): bool {
    if action == "manage_clients" then HasPermission(m, "manage_clients")
    else if action == "access_reports" then HasPermission(m, "view_reports")
    else if action == "export_data" then
      HasPermission(m, "export_data") && CanPerform(t, plans, "data_exports", ContextCount(context, "current_exports"))
    else HasPermission(m, action)
  }

  function CheckVendorLimits(m: Membership, t: Tenant, plans: Plans, action: string, context: map<string, int>, now: int): bool {
    if action == "create_product" then CanPerform(t, plans, "vendor_products", ContextCount(context, "current_products"))
    else if action == "access_vendor_portal" then SubscriptionActive(t, now) || OnTrial(t, now)
    else HasPermission(m, action)
  }

  function CheckGeneralLimits(m: Membership, action: string): bool {
    HasPermission(m, action)
  }

  /** checkTenantLimits: owner and super_admin pass, the other types meet the quota or permission of their type. */
  function CheckTenantLimits(m: Membership, t: Tenant, plans: Plans, action: string, context: map<string, int>, now: int): (ok: bool)
    ensures Privileged(m) ==> ok
    ensures !Privileged(m) && m.userType !in {TYPE_CLIENT, TYPE_EMPLOYEE, TYPE_VENDOR} ==> (ok <==> action in Permissions(m))
    ensures !Privileged(m) && m.userType == TYPE_CLIENT && action !in {"create_order", "access_api", "upload_file"} ==> ok
    ensures !Privileged(m) && m.userType == TYPE_EMPLOYEE && action !in {"manage_clients", "access_reports", "export_data"} ==>
      (ok <==> action in Permissions(m))
  {
    if Privileged(m) then true
    else if m.userType == TYPE_CLIENT then CheckClientLimits(t, plans, action, context)
    else if m.userType == TYPE_EMPLOYEE then CheckEmployeeLimits(m, t, plans, action, context)
    else if m.userType == TYPE_VENDOR then CheckVendorLimits(m, t, plans, action, context, now)
    else CheckGeneralLimits(m, action)
  }

  /** canPerform: basic access, then the permission, then the quota for the user type. */
  function CanPerformAction(m: Membership, t: Tenant, plans: Plans, action: string, context: map<string, int>, env: AccessEnv): (ok: bool)
    ensures ok ==> CanAccess(m, t, env) && HasPermission(m, action)
    ensures Privileged(m) ==> (ok <==> CanAccess(m, t, env))
  {
    CanAccess(m, t, env) && HasPermission(m, action) && CheckTenantLimits(m, t, plans, action, context, env.now)
  }

  /** For a client that passes access and permission, the three quota actions consult the tenant's limits and anything else passes. */
  lemma ClientQuotas(m: Membership, t: Tenant, plans: Plans, action: string, context: map<string, int>, env: AccessEnv)
    requires m.userType == TYPE_CLIENT && m.role != ROLE_SUPER_ADMIN
    requires CanAccess(m, t, env) && HasPermission(m, action)
    ensures action == "create_order" ==>
      (CanPerformAction(m, t, plans, action, context, env) <==> CanPerform(t, plans, "client_orders", ContextCount(context, "current_orders")))
    ensures action == "access_api" ==>
      (CanPerformAction(m, t, plans, action, context, env) <==> CanPerform(t, plans, "api_calls", ContextCount(context, "current_calls")))
    ensures action == "upload_file" ==>
      (CanPerformAction(m, t, plans, action, context, env) <==> CanPerform(t, plans, "storage", ContextCount(context, "current_storage")))
    ensures action !in {"create_order", "access_api", "upload_file"} ==> CanPerformAction(m, t, plans, action, context, env)
  {
  }

  /** An order created with no `current_orders` in the context is counted as 0. */
  lemma ClientOrderCountDefaultsToZero(m: Membership, t: Tenant, plans: Plans, env: AccessEnv)
    requires m.userType == TYPE_CLIENT && m.role != ROLE_SUPER_ADMIN
    requires CanAccess(m, t, env) && HasPermission(m, "create_order")
    ensures CanPerformAction(m, t, plans, "create_order", map[], env) <==> CanPerform(t, plans, "client_orders", 0)
  {
  }

  /** The extra conditions of employees and vendors. */
  lemma EmployeeAndVendorQuotas(m: Membership, t: Tenant, plans: Plans, context: map<string, int>, env: AccessEnv)
    requires m.role != ROLE_SUPER_ADMIN
    requires CanAccess(m, t, env)
    ensures m.userType == TYPE_EMPLOYEE ==>
      (CanPerformAction(m, t, plans, "access_reports", context, env) <==> HasPermission(m, "access_reports") && HasPermission(m, "view_reports"))
    ensures m.userType == TYPE_EMPLOYEE ==>
      (CanPerformAction(m, t, plans, "export_data", context, env) <==> HasPermission(m, "export_data") && CanPerform(t, plans, "data_exports", ContextCount(context, "current_exports")))
    ensures m.userType == TYPE_VENDOR ==>
      (CanPerformAction(m, t, plans, "create_product", context, env) <==> HasPermission(m, "create_product") && CanPerform(t, plans, "vendor_products", ContextCount(context, "current_products")))
    ensures m.userType == TYPE_VENDOR ==>
      (CanPerformAction(m, t, plans, "access_vendor_portal", context, env) <==> HasPermission(m, "access_vendor_portal") && (SubscriptionActive(t, env.now) || OnTrial(t, env.now)))
  {
  }

  function HierarchyLevel(role: string): (level: int)
    ensures level in {0, 10, 50, 70, 80, 90, 100}
    ensures level == 0 <==> role !in {ROLE_SUPER_ADMIN, ROLE_ADMIN, ROLE_MANAGER, ROLE_EMPLOYEE, ROLE_CLIENT, ROLE_VIEWER}
  {
    if role == ROLE_SUPER_ADMIN then 100
    else if role == ROLE_ADMIN then 90
    else if role == ROLE_MANAGER then 80
    else if role == ROLE_EMPLOYEE then 70
    else if role == ROLE_CLIENT then 50
    else if role == ROLE_VIEWER then 10
    else 0
  }

  /** The predefined roles in strictly decreasing rank. */
  lemma HierarchyOrder()
    ensures HierarchyLevel(ROLE_SUPER_ADMIN) > HierarchyLevel(ROLE_ADMIN) > HierarchyLevel(ROLE_MANAGER)
          > HierarchyLevel(ROLE_EMPLOYEE) > HierarchyLevel(ROLE_CLIENT) > HierarchyLevel(ROLE_VIEWER) > 0
  {
  }

  /** updateLastAccess, as a value: only last_access_at changes. */
  function Touched(m: Membership, now: int): (r: Membership)
    ensures r.lastAccessAt == Some(now)
    ensures r.(lastAccessAt := m.lastAccessAt) == m
  {
    m.(lastAccessAt := Some(now))
  }
}
