/**
 * The HasTenants trait of the user model: the user's memberships and
 * tenants, the per-tenant checks that go through its membership row,
 * joining and leaving, switching into a tenant and its access summary.
 */
module HasTenants {
  import opened Wrappers
  import opened Seqs
  import opened Config
  import opened Tenants
  import opened Memberships
  import opened Store
  import opened TenantContext
  import opened Manager

  /** `getTenantUser`: the user's live membership row in the tenant. */
  function GetTenantUser(rows: seq<Membership>, t: Tenant, userId: int): (r: Option<Membership>)
    ensures r.Some? ==> r.value in rows && LiveMatch(r.value, t.id, userId)
    ensures r.None? ==> forall i :: 0 <= i < |rows| ==> !LiveMatch(rows[i], t.id, userId)
  {
    match LiveIndex(rows, t.id, userId)
    case None => None
    case Some(k) => Some(rows[k])
  }

  /** With the unique index, the live row of the pair is the only one. */
  lemma GetTenantUserUnique(rows: seq<Membership>, t: Tenant, userId: int, k: nat)
    requires UniquePairs(rows) && k < |rows| && LiveMatch(rows[k], t.id, userId)
    ensures GetTenantUser(rows, t, userId) == Some(rows[k])
  {
    var j := LiveIndex(rows, t.id, userId).value;
    if j != k {
      assert false;
    }
  }

  /**
   * `$tenantUser->canAccess()` on a loaded row: the row's own status first,
   * then its `tenant` relation, which is loaded again by tenant_id with
   * trashed tenants hidden. A trashed or missing tenant is null there, and
   * calling `isActive()` on it throws.
   */
  function RowCanAccess(tenants: seq<Tenant>, m: Membership, env: AccessEnv): (r: Result<bool, Failure>)
    ensures r == Ok(true) <==> FindById(tenants, m.tenantId).Some? && CanAccess(m, FindById(tenants, m.tenantId).value, env)
    ensures r.Err? <==> Memberships.IsActive(m) && FindById(tenants, m.tenantId).None?
    ensures r.Err? ==> r.error == NullTenant
  {
    if !Memberships.IsActive(m) then Ok(false)
    else match FindById(tenants, m.tenantId)
      case None => Err(NullTenant)
      case Some(rt) => Ok(CanAccess(m, rt, env))
  }

  function CanAccessTenant(rows: seq<Membership>, tenants: seq<Tenant>, t: Tenant, userId: int, env: AccessEnv): Result<bool, Failure> {
    match GetTenantUser(rows, t, userId)
    case None => Ok(false)
    case Some(m) => RowCanAccess(tenants, m, env)
  }

  /**
   * A user can access a tenant exactly when a live row of theirs there
   * passes canAccess against the tenant as the table holds it now; the
   * check throws exactly when that row is active and its tenant is no
   * longer live.
   */
  lemma CanAccessTenantByRow(rows: seq<Membership>, tenants: seq<Tenant>, t: Tenant, userId: int, env: AccessEnv)
    requires UniquePairs(rows)
    ensures CanAccessTenant(rows, tenants, t, userId, env) == Ok(true) <==>
      exists i :: 0 <= i < |rows| && LiveMatch(rows[i], t.id, userId) && FindById(tenants, t.id).Some? && CanAccess(rows[i], FindById(tenants, t.id).value, env)
    ensures CanAccessTenant(rows, tenants, t, userId, env).Err? <==>
      exists i :: 0 <= i < |rows| && LiveMatch(rows[i], t.id, userId) && Memberships.IsActive(rows[i]) && FindById(tenants, t.id).None?
  {
    if i :| 0 <= i < |rows| && LiveMatch(rows[i], t.id, userId) {
      GetTenantUserUnique(rows, t, userId, i);
    }
    if GetTenantUser(rows, t, userId).Some? {
      var k := LiveIndex(rows, t.id, userId).value;
      assert LiveMatch(rows[k], t.id, userId);
    }
  }

  /** Only the tenant's key matters: the per-tenant checks read the tenant from the table, not the value the caller holds. */
  lemma AccessIgnoresTenantValue(rows: seq<Membership>, tenants: seq<Tenant>, t: Tenant, stale: Tenant, userId: int, env: AccessEnv)
    requires stale.id == t.id
    ensures CanAccessTenant(rows, tenants, stale, userId, env) == CanAccessTenant(rows, tenants, t, userId, env)
  {
    assert forall i :: 0 <= i < |rows| ==> (LiveMatch(rows[i], stale.id, userId) <==> LiveMatch(rows[i], t.id, userId));
  }

  predicate HasPermissionInTenant(rows: seq<Membership>, t: Tenant, userId: int, permission: string) {
    match GetTenantUser(rows, t, userId)
    case None => false
    case Some(m) => HasPermission(m, permission)
  }

  /** `canPerformInTenant`: canPerform runs canAccess first, so the limits are read only from a live tenant. */
  function CanPerformInTenant(rows: seq<Membership>, tenants: seq<Tenant>, t: Tenant, userId: int, plans: Plans, action: string, context: map<string, int>, env: AccessEnv): Result<bool, Failure> {
    match GetTenantUser(rows, t, userId)
    case None => Ok(false)
    case Some(m) =>
      match RowCanAccess(tenants, m, env)
      case Err(e) => Err(e)
      case Ok(false) => Ok(false)
      case Ok(true) => Ok(CanPerformAction(m, FindById(tenants, m.tenantId).value, plans, action, context, env))
  }

  /** Without a live membership every per-tenant check answers no, and the lookups answer null. */
  lemma NonMemberHasNothing(rows: seq<Membership>, tenants: seq<Tenant>, t: Tenant, userId: int, permission: string, plans: Plans, action: string, context: map<string, int>, env: AccessEnv)
    requires forall i :: 0 <= i < |rows| ==> !LiveMatch(rows[i], t.id, userId)
    ensures CanAccessTenant(rows, tenants, t, userId, env) == Ok(false) && !HasPermissionInTenant(rows, t, userId, permission)
    ensures CanPerformInTenant(rows, tenants, t, userId, plans, action, context, env) == Ok(false)
    ensures UserTypeInTenant(rows, t, userId).None? && RoleInTenant(rows, t, userId).None?
    ensures !IsOwnerOfTenant(rows, t, userId) && !IsAdminInTenant(rows, t, userId)
    ensures !IsEmployeeInTenant(rows, t, userId) && !IsClientInTenant(rows, t, userId)
    ensures AccessStats(rows, t, userId).None?
  {
  }

  /**
   * With a live membership, `hasPermissionInTenant` is the row's permission
   * check, and `canPerformInTenant` is the row's canPerform against the
   * tenant the table holds under the key; it throws exactly when the row is
   * active and that tenant is no longer live.
   */
  lemma MemberRightsFollowRow(rows: seq<Membership>, tenants: seq<Tenant>, t: Tenant, userId: int, k: nat, permission: string, plans: Plans, action: string, context: map<string, int>, env: AccessEnv)
    requires UniquePairs(rows) && k < |rows| && LiveMatch(rows[k], t.id, userId)
    ensures HasPermissionInTenant(rows, t, userId, permission) <==> HasPermission(rows[k], permission)
    ensures CanPerformInTenant(rows, tenants, t, userId, plans, action, context, env) == Ok(true) <==>
      FindById(tenants, t.id).Some? && CanPerformAction(rows[k], FindById(tenants, t.id).value, plans, action, context, env)
    ensures CanPerformInTenant(rows, tenants, t, userId, plans, action, context, env).Err? <==>
      Memberships.IsActive(rows[k]) && FindById(tenants, t.id).None?
  {
    GetTenantUserUnique(rows, t, userId, k);
  }

  function UserTypeInTenant(rows: seq<Membership>, t: Tenant, userId: int): Option<string> {
    match GetTenantUser(rows, t, userId)
    case None => None
    case Some(m) => Some(m.userType)
  }

  function RoleInTenant(rows: seq<Membership>, t: Tenant, userId: int): Option<string> {
    match GetTenantUser(rows, t, userId)
    case None => None
    case Some(m) => Some(m.role)
  }

  predicate IsOwnerOfTenant(rows: seq<Membership>, t: Tenant, userId: int) {
    GetTenantUser(rows, t, userId).Some? && IsOwner(GetTenantUser(rows, t, userId).value)
  }

  predicate IsAdminInTenant(rows: seq<Membership>, t: Tenant, userId: int) {
    GetTenantUser(rows, t, userId).Some? && IsAdmin(GetTenantUser(rows, t, userId).value)
  }

  predicate IsEmployeeInTenant(rows: seq<Membership>, t: Tenant, userId: int) {
    GetTenantUser(rows, t, userId).Some? && IsEmployee(GetTenantUser(rows, t, userId).value)
  }

  predicate IsClientInTenant(rows: seq<Membership>, t: Tenant, userId: int) {
    GetTenantUser(rows, t, userId).Some? && IsClient(GetTenantUser(rows, t, userId).value)
  }

  /** The per-tenant role checks are the membership predicates of the user's live row. */
  lemma RoleChecksFollowRow(rows: seq<Membership>, t: Tenant, userId: int, k: nat)
    requires UniquePairs(rows) && k < |rows| && LiveMatch(rows[k], t.id, userId)
    ensures UserTypeInTenant(rows, t, userId) == Some(rows[k].userType)
    ensures RoleInTenant(rows, t, userId) == Some(rows[k].role)
    ensures IsOwnerOfTenant(rows, t, userId) <==> rows[k].userType == TYPE_OWNER
    ensures IsAdminInTenant(rows, t, userId) <==> rows[k].role in {ROLE_SUPER_ADMIN, ROLE_ADMIN} || rows[k].userType == TYPE_ADMIN
    ensures IsEmployeeInTenant(rows, t, userId) <==> rows[k].userType == TYPE_EMPLOYEE
    ensures IsClientInTenant(rows, t, userId) <==> rows[k].userType == TYPE_CLIENT
  {
    GetTenantUserUnique(rows, t, userId, k);
  }

  /** A tenant reached through the pivot, with the pivot row. */
  datatype Joined = Joined(tenant: Tenant, pivot: Membership)

  /** A pivot row of the user whose tenant is live, so that the relation reaches it. */
  predicate Reaches(userId: int, tenants: seq<Tenant>, m: Membership) {
    m.userId == userId && FindById(tenants, m.tenantId).Some?
  }

  /** The pivot rows of a list of joins, in order. */
  function Pivots(js: seq<Joined>): (r: seq<Membership>)
    ensures |r| == |js| && forall j :: 0 <= j < |js| ==> r[j] == js[j].pivot
  {
    if js == [] then [] else [js[0].pivot] + Pivots(js[1..])
  }

  /**
   * `tenants()`: every pivot row of the user, soft-deleted or not, joined
   * with its live tenant, in pivot order.
   */
  function Joins(userId: int, rows: seq<Membership>, tenants: seq<Tenant>): (r: seq<Joined>)
    ensures forall j :: 0 <= j < |r| ==>
      r[j].pivot in rows && r[j].pivot.userId == userId && r[j].tenant in tenants && !r[j].tenant.trashed && r[j].tenant.id == r[j].pivot.tenantId
    ensures forall j :: 0 <= j < |r| ==> FindById(tenants, r[j].pivot.tenantId) == Some(r[j].tenant)
  {
    if rows == [] then []
    else
      var rest := Joins(userId, rows[1..], tenants);
      var m := rows[0];
      if m.userId == userId then
        match FindById(tenants, m.tenantId)
        case None => rest
        case Some(t) => [Joined(t, m)] + rest
      else rest
  }

  /** The pivots `tenants()` reaches are exactly the user's rows whose tenant is live, soft-deleted ones included, in table order. */
  lemma {:induction false} JoinsPivots(userId: int, rows: seq<Membership>, tenants: seq<Tenant>)
    ensures Pivots(Joins(userId, rows, tenants)) == Filter(rows, (m: Membership) => Reaches(userId, tenants, m))
  {
    if rows != [] {
      JoinsPivots(userId, rows[1..], tenants);
      var js := Joins(userId, rows, tenants);
      if Reaches(userId, tenants, rows[0]) {
        assert js[1..] == Joins(userId, rows[1..], tenants);
        assert Pivots(js) == [rows[0]] + Pivots(js[1..]);
      }
    }
  }

  /** Every pivot row of the user whose tenant is live gives a join with that tenant. */
  lemma {:induction false} JoinsComplete(userId: int, rows: seq<Membership>, tenants: seq<Tenant>, m: Membership)
    requires m in rows && Reaches(userId, tenants, m)
    ensures exists j :: 0 <= j < |Joins(userId, rows, tenants)| && Joins(userId, rows, tenants)[j] == Joined(FindById(tenants, m.tenantId).value, m)
  {
    var js := Joins(userId, rows, tenants);
    JoinsPivots(userId, rows, tenants);
    FilterMembership(rows, (n: Membership) => Reaches(userId, tenants, n), m);
    var ps := Pivots(js);
    var j :| 0 <= j < |ps| && ps[j] == m;
    assert js[j] == Joined(FindById(tenants, m.tenantId).value, m);
  }

  /** The tenants of a list of joins, in order. */
  function TenantsOf(js: seq<Joined>): (r: seq<Tenant>)
    ensures |r| == |js| && forall j :: 0 <= j < |js| ==> r[j] == js[j].tenant
  {
    if js == [] then [] else [js[0].tenant] + TenantsOf(js[1..])
  }

  /** Leaving a tenant does not take it out of `tenants()`: the pivot relation does not skip soft-deleted rows. */
  lemma {:induction false} JoinsIgnoreSoftDelete(userId: int, rows: seq<Membership>, tenants: seq<Tenant>, tenantId: int)
    ensures TenantsOf(Joins(userId, SoftDeleted(rows, tenantId, userId), tenants)) == TenantsOf(Joins(userId, rows, tenants))
  {
    if rows != [] {
      var after := SoftDeleted(rows, tenantId, userId);
      assert after[0].userId == rows[0].userId && after[0].tenantId == rows[0].tenantId;
      assert after[1..] == SoftDeleted(rows[1..], tenantId, userId);
      JoinsIgnoreSoftDelete(userId, rows[1..], tenants, tenantId);
      if rows[0].userId == userId && FindById(tenants, rows[0].tenantId).Some? {
        var t := FindById(tenants, rows[0].tenantId).value;
        var ja := Joins(userId, after, tenants);
        var jr := Joins(userId, rows, tenants);
        assert ja == [Joined(t, after[0])] + Joins(userId, after[1..], tenants);
        assert jr == [Joined(t, rows[0])] + Joins(userId, rows[1..], tenants);
        assert ja[1..] == Joins(userId, after[1..], tenants);
        assert jr[1..] == Joins(userId, rows[1..], tenants);
      }
    }
  }

  predicate IsActiveJoin(j: Joined) {
    j.pivot.status == Memberships.STATUS_ACTIVE && j.tenant.status == Tenants.STATUS_ACTIVE
  }

  predicate IsOwnedJoin(j: Joined) {
    j.pivot.userType == TYPE_OWNER
  }

  predicate IsAdminJoin(j: Joined) {
    j.pivot.role in {ROLE_SUPER_ADMIN, ROLE_ADMIN}
  }

  /** `activeTenants`: active pivot row and active tenant. */
  function ActiveJoins(userId: int, rows: seq<Membership>, tenants: seq<Tenant>): seq<Joined> {
    Filter(Joins(userId, rows, tenants), IsActiveJoin)
  }

  /** `ownedTenants`: pivot user_type owner. */
  function OwnedJoins(userId: int, rows: seq<Membership>, tenants: seq<Tenant>): seq<Joined> {
    Filter(Joins(userId, rows, tenants), IsOwnedJoin)
  }

  /** `adminTenants`, read as pivot role super_admin or admin. */
  function AdminJoins(userId: int, rows: seq<Membership>, tenants: seq<Tenant>): seq<Joined> {
    Filter(Joins(userId, rows, tenants), IsAdminJoin)
  }

  /**
   * `getPrimaryTenant`: the tenant of the first owned join in pivot order,
   * else of the first admin join, else of the first active join.
   */
  function PrimaryTenant(userId: int, rows: seq<Membership>, tenants: seq<Tenant>): (r: Option<Tenant>)
    ensures var js := Joins(userId, rows, tenants); var o := FirstIndex(js, IsOwnedJoin);
      o.Some? ==> r == Some(js[o.value].tenant)
    ensures var js := Joins(userId, rows, tenants); var o := FirstIndex(js, IsOwnedJoin); var a := FirstIndex(js, IsAdminJoin);
      o.None? && a.Some? ==> r == Some(js[a.value].tenant)
    ensures var js := Joins(userId, rows, tenants); var o := FirstIndex(js, IsOwnedJoin); var a := FirstIndex(js, IsAdminJoin);
      var v := FirstIndex(js, IsActiveJoin);
      o.None? && a.None? ==> r == (if v.Some? then Some(js[v.value].tenant) else None)
  {
    var js := Joins(userId, rows, tenants);
    FilterHead(js, IsOwnedJoin);
    FilterHead(js, IsAdminJoin);
    FilterHead(js, IsActiveJoin);
    var owned := OwnedJoins(userId, rows, tenants);
    var admin := AdminJoins(userId, rows, tenants);
    var active := ActiveJoins(userId, rows, tenants);
    if |owned| > 0 then Some(owned[0].tenant)
    else if |admin| > 0 then Some(admin[0].tenant)
    else if |active| > 0 then Some(active[0].tenant)
    else None
  }

  /**
   * The primary tenant is one the user is joined to; it is owned whenever
   * some joined tenant is owned; it is missing only when the user owns,
   * administers and actively belongs to nothing.
   */
  lemma PrimaryTenantChoice(userId: int, rows: seq<Membership>, tenants: seq<Tenant>)
    ensures var r := PrimaryTenant(userId, rows, tenants); var joins := Joins(userId, rows, tenants);
      r.Some? ==> exists jn :: jn in joins && jn.tenant == r.value
    ensures var r := PrimaryTenant(userId, rows, tenants); var joins := Joins(userId, rows, tenants);
      (exists j :: 0 <= j < |joins| && joins[j].pivot.userType == TYPE_OWNER) ==>
        r.Some? && exists j :: 0 <= j < |joins| && joins[j].tenant == r.value && joins[j].pivot.userType == TYPE_OWNER
    ensures var r := PrimaryTenant(userId, rows, tenants); var joins := Joins(userId, rows, tenants);
      r.None? <==> forall j :: 0 <= j < |joins| ==>
        joins[j].pivot.userType != TYPE_OWNER && joins[j].pivot.role !in {ROLE_SUPER_ADMIN, ROLE_ADMIN}
        && !(joins[j].pivot.status == Memberships.STATUS_ACTIVE && joins[j].tenant.status == Tenants.STATUS_ACTIVE)
  {
    var js := Joins(userId, rows, tenants);
    var o := FirstIndex(js, IsOwnedJoin);
    var a := FirstIndex(js, IsAdminJoin);
    var v := FirstIndex(js, IsActiveJoin);
    var pick := if o.Some? then o else if a.Some? then a else v;
    if pick.Some? {
      assert js[pick.value] in js;
    }
  }

  /** The pivot row `joinTenant` creates. */
  function NewMembership(t: Tenant, userId: int, userType: string, role: string, permissions: seq<string>, now: int): (m: Membership)
    ensures m.tenantId == t.id && m.userId == userId && m.userType == userType && m.role == role
    ensures Memberships.IsActive(m) && m.permissions == Some(permissions) && m.joinedAt == Some(now) && !m.deleted
  {
    Membership(t.id, userId, userType, role, Memberships.STATUS_ACTIVE, Some(permissions),
               None, None, Some(now), None, None, None, false)
  }

  /**
   * After `leaveTenant`, the user no longer belongs (no live row), but the
   * soft-deleted row still holds the unique index, so joining again is
   * refused.
   */
  lemma RejoinAfterLeaveIsRefused(rows: seq<Membership>, t: Tenant, userId: int)
    requires exists i :: 0 <= i < |rows| && LiveMatch(rows[i], t.id, userId)
    ensures var after := SoftDeleted(rows, t.id, userId);
      GetTenantUser(after, t, userId).None? && PairTaken(after, t.id, userId)
  {
    SoftDeletedKeepsPair(rows, t.id, userId);
  }

  /** `getTenantAccessStats`. */
  datatype Stats = Stats(userType: string, role: string, status: string, joinedAt: Option<int>,
                         lastAccessAt: Option<int>, permissionsCount: nat, hierarchyLevel: int)

  function AccessStats(rows: seq<Membership>, t: Tenant, userId: int): (r: Option<Stats>)
    ensures r.Some? <==> GetTenantUser(rows, t, userId).Some?
    ensures r.Some? ==> var m := GetTenantUser(rows, t, userId).value;
      && r.value.permissionsCount == |Permissions(m)|
      && r.value.hierarchyLevel == HierarchyLevel(m.role)
      && (r.value.userType, r.value.role, r.value.status) == (m.userType, m.role, m.status)
      && (r.value.joinedAt, r.value.lastAccessAt) == (m.joinedAt, m.lastAccessAt)
  {
    match GetTenantUser(rows, t, userId)
    case None => None
    case Some(m) => Some(Stats(m.userType, m.role, m.status, m.joinedAt, m.lastAccessAt, |m.permissions.GetOr([])|, HierarchyLevel(m.role)))
  }

  /** `joinTenant`: insert the pivot row; the unique index refuses a second row for the pair. */
  method JoinTenant(db: Database, t: Tenant, userId: int, userType: string, role: string, permissions: seq<string>, now: int)
    returns (r: Result<Membership, DbError>)
    requires db.Valid()
    modifies db
    ensures db.Valid()
    ensures var m := NewMembership(t, userId, userType, role, permissions, now);
      if PairTaken(old(db.memberships), t.id, userId) then r == Err(UniqueViolation) && db.memberships == old(db.memberships)
      else r == Ok(m) && db.memberships == old(db.memberships) + [m]
    ensures db.tenants == old(db.tenants) && db.invitations == old(db.invitations) && db.users == old(db.users)
  {
    var m := NewMembership(t, userId, userType, role, permissions, now);
    var err := db.InsertMembership(m);
    if err.Some? {
      return Err(UniqueViolation);
    }
    return Ok(m);
  }

  /** `leaveTenant`: soft-delete the user's rows in the tenant; true when there was one. */
  method LeaveTenant(db: Database, t: Tenant, userId: int) returns (left: bool)
    requires db.Valid()
    modifies db
    ensures db.Valid()
    ensures db.memberships == SoftDeleted(old(db.memberships), t.id, userId)
    ensures left <==> GetTenantUser(old(db.memberships), t, userId).Some?
    ensures GetTenantUser(db.memberships, t, userId).None?
    ensures db.tenants == old(db.tenants) && db.invitations == old(db.invitations) && db.users == old(db.users)
  {
    ghost var rows := db.memberships;
    var n := db.SoftDeletePair(t.id, userId);
    SoftDeletedKeepsPair(rows, t.id, userId);
    var p := (m: Membership) => LiveMatch(m, t.id, userId);
    if GetTenantUser(rows, t, userId).Some? {
      var k := LiveIndex(rows, t.id, userId).value;
      FilterMembership(rows, p, rows[k]);
    } else {
      if |Filter(rows, p)| > 0 {
        FilterMembership(rows, p, Filter(rows, p)[0]);
      }
    }
    left := n > 0;
  }

  /** `updateTenantAccess`. */
  method UpdateTenantAccess(db: Database, t: Tenant, userId: int, now: int)
    requires db.Valid()
    modifies db
    ensures db.Valid()
    ensures match LiveIndex(old(db.memberships), t.id, userId)
      case None => db.memberships == old(db.memberships)
      case Some(k) => db.memberships == old(db.memberships)[k := Touched(old(db.memberships)[k], now)]
    ensures db.tenants == old(db.tenants) && db.invitations == old(db.invitations) && db.users == old(db.users)
  {
    db.UpdateLastAccess(t.id, userId, now);
  }

  /**
   * The trait's `switchToTenant`: refused without access, and the access
   * check throws when the row's tenant is no longer live; otherwise the
   * manager switches to the given tenant (which may throw) and then the
   * access is recorded.
   */
  method SwitchToTenant(db: Database, manager: TenantManager, t: Tenant, userId: int, env: AccessEnv)
    returns (r: Result<bool, Failure>)
    requires db.Valid()
    modifies db, manager, manager.config
    ensures db.Valid()
    ensures CanAccessTenant(old(db.memberships), old(db.tenants), t, userId, env).Err? ==>
      r == Err(NullTenant) && manager.Ctx() == old(manager.Ctx()) && db.memberships == old(db.memberships)
    ensures CanAccessTenant(old(db.memberships), old(db.tenants), t, userId, env) == Ok(false) ==>
      r == Ok(false) && manager.Ctx() == old(manager.Ctx()) && db.memberships == old(db.memberships)
    ensures CanAccessTenant(old(db.memberships), old(db.tenants), t, userId, env) == Ok(true) ==>
      var st := TenantContext.Set(old(manager.Ctx()), Some(t), manager.Env());
      var k := LiveIndex(old(db.memberships), t.id, userId).value;
      && manager.Ctx() == st.ctx
      && (st.err.Some? ==> r == Err(st.err.value) && db.memberships == old(db.memberships))
      && (st.err.None? ==> r == Ok(true) && db.memberships == old(db.memberships)[k := Touched(old(db.memberships)[k], env.now)])
    ensures manager.cache == old(manager.cache)
    ensures db.tenants == old(db.tenants) && db.invitations == old(db.invitations) && db.users == old(db.users)
  {
    var access := CanAccessTenant(db.memberships, db.tenants, t, userId, env);
    if access.Err? {
      return Err(access.error);
    }
    if !access.value {
      return Ok(false);
    }
    var err := manager.Set(Some(t));
    if err.Some? {
      return Err(err.value);
    }
    UpdateTenantAccess(db, t, userId, env.now);
    return Ok(true);
  }
}
