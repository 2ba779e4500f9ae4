/**
 * TenantAccessControlMiddleware: after the tenant and the user are known,
 * the user's membership must pass canAccess and every route parameter
 * (`type:`, `role:`, `permission:`, `level:`, `not_client`,
 * `internal_only`, `subscription_required`, `plan:`); a passing member's
 * last access is then recorded.
 */
module AccessControl {
  import opened Wrappers
  import opened PhpStrings
  import opened Config
  import opened Tenants
  import opened Memberships
  import opened Store
  import opened HasTenants
  import opened Http
  import opened TenantContext

  /** The user types `internal_only` admits; "manager" is a role name, not a user type. */
  const INTERNAL_TYPES := [TYPE_OWNER, TYPE_ADMIN, TYPE_EMPLOYEE, "manager"]

  /** `checkParameter`: the first matching form decides; an unknown parameter passes. */
  function CheckParameter(m: Membership, t: Tenant, parameter: string, now: int): bool {
    if StartsWith(parameter, "type:") then m.userType == Substr(parameter, 5)
    else if StartsWith(parameter, "role:") then m.role == Substr(parameter, 5)
    else if StartsWith(parameter, "permission:") then HasPermission(m, Substr(parameter, 11))
    else if StartsWith(parameter, "level:") then HierarchyLevel(m.role) >= IntCast(Substr(parameter, 6))
    else if parameter == "not_client" then !IsClient(m)
    else if parameter == "internal_only" then m.userType in INTERNAL_TYPES
    else if parameter == "subscription_required" then SubscriptionActive(t, now) || OnTrial(t, now)
    else if StartsWith(parameter, "plan:") then t.plan == Substr(parameter, 5)
    else true
  }

  lemma PrefixedParameter(prefix: string, x: string)
    ensures StartsWith(prefix + x, prefix) && Substr(prefix + x, |prefix|) == x
  {
    assert (prefix + x)[..|prefix|] == prefix;
    assert (prefix + x)[|prefix|..] == x;
  }

  lemma DiffersAt(s: string, prefix: string, i: nat)
    requires i < |s| && i < |prefix| && s[i] != prefix[i]
    ensures !StartsWith(s, prefix)
  {
    if |prefix| <= |s| {
      assert s[..|prefix|][i] != prefix[i];
    }
  }

  /** `type:X`, `role:X`, `permission:X` and `plan:X` compare with X exactly. */
  lemma NamedParameters(m: Membership, t: Tenant, x: string, now: int)
    ensures CheckParameter(m, t, "type:" + x, now) <==> m.userType == x
    ensures CheckParameter(m, t, "role:" + x, now) <==> m.role == x
    ensures CheckParameter(m, t, "permission:" + x, now) <==> HasPermission(m, x)
    ensures CheckParameter(m, t, "plan:" + x, now) <==> t.plan == x
  {
    PrefixedParameter("type:", x);
    PrefixedParameter("role:", x);
    PrefixedParameter("permission:", x);
    PrefixedParameter("plan:", x);
    DiffersAt("role:" + x, "type:", 0);
    DiffersAt("permission:" + x, "type:", 0);
    DiffersAt("permission:" + x, "role:", 0);
    DiffersAt("plan:" + x, "type:", 0);
    DiffersAt("plan:" + x, "role:", 0);
    DiffersAt("plan:" + x, "permission:", 1);
    DiffersAt("plan:" + x, "level:", 0);
  }

  /** `level:N` with N written in decimal asks for a role ranked at least N. */
  lemma LevelParameter(m: Membership, t: Tenant, n: nat, now: int)
    ensures CheckParameter(m, t, "level:" + NatToString(n), now) <==> HierarchyLevel(m.role) >= n
  {
    var p := "level:" + NatToString(n);
    PrefixedParameter("level:", NatToString(n));
    IntCastOfNatToString(n);
    DiffersAt(p, "type:", 0);
    DiffersAt(p, "role:", 0);
    DiffersAt(p, "permission:", 0);
  }

  /** A `level:` parameter without a number casts to 0 and lets every member through. */
  lemma LevelWithoutNumberPasses(m: Membership, t: Tenant, x: string, now: int)
    requires |x| == 0 || (!IsDigit(x[0]) && x[0] != '-' && x[0] != '+')
    ensures CheckParameter(m, t, "level:" + x, now)
  {
    var p := "level:" + x;
    PrefixedParameter("level:", x);
    IntCastNonNumeric(x);
    DiffersAt(p, "type:", 0);
    DiffersAt(p, "role:", 0);
    DiffersAt(p, "permission:", 0);
  }

  /** For members of the package's own user types, `internal_only` means owner, admin or employee. */
  lemma InternalOnlyTypes(m: Membership, t: Tenant, now: int)
    requires m.userType in {TYPE_OWNER, TYPE_ADMIN, TYPE_EMPLOYEE, TYPE_CLIENT, TYPE_VENDOR, TYPE_PARTNER, TYPE_CONSULTANT, TYPE_GUEST}
    ensures CheckParameter(m, t, "internal_only", now) <==> m.userType in {TYPE_OWNER, TYPE_ADMIN, TYPE_EMPLOYEE}
  {
    var p := "internal_only";
    DiffersAt(p, "type:", 0);
    DiffersAt(p, "role:", 0);
    DiffersAt(p, "permission:", 0);
    DiffersAt(p, "level:", 0);
    assert p != "not_client" by { assert p[0] != "not_client"[0]; }
    assert m.userType[0] != "manager"[0];
  }

  /** `not_client` refuses exactly the client members. */
  lemma NotClientParameter(m: Membership, t: Tenant, now: int)
    ensures CheckParameter(m, t, "not_client", now) <==> m.userType != TYPE_CLIENT
  {
    var p := "not_client";
    DiffersAt(p, "type:", 0);
    DiffersAt(p, "role:", 0);
    DiffersAt(p, "permission:", 0);
    DiffersAt(p, "level:", 0);
  }

  /** `subscription_required` passes exactly while the tenant's subscription runs or it is on a running trial. */
  lemma SubscriptionRequiredParameter(m: Membership, t: Tenant, now: int)
    ensures CheckParameter(m, t, "subscription_required", now) <==>
      (t.subscriptionEndsAt.Some? && t.subscriptionEndsAt.value > now)
      || (t.status == Tenants.STATUS_TRIAL && t.trialEndsAt.Some? && t.trialEndsAt.value > now)
  {
    var p := "subscription_required";
    DiffersAt(p, "type:", 0);
    DiffersAt(p, "role:", 0);
    DiffersAt(p, "permission:", 1);
    DiffersAt(p, "level:", 0);
    assert p != "not_client" by { assert p[0] != "not_client"[0]; }
    assert p != "internal_only" by { assert p[0] != "internal_only"[0]; }
  }

  /** A parameter of none of the known forms passes. */
  lemma UnknownParameterPasses(m: Membership, t: Tenant, parameter: string, now: int)
    requires !StartsWith(parameter, "type:") && !StartsWith(parameter, "role:") && !StartsWith(parameter, "permission:")
    requires !StartsWith(parameter, "level:") && !StartsWith(parameter, "plan:")
    requires parameter !in {"not_client", "internal_only", "subscription_required"}
    ensures CheckParameter(m, t, parameter, now)
  {
  }

  /** `checkMiddlewareRestrictions`: every parameter must pass, checked in order until one fails. */
  method CheckMiddlewareRestrictions(m: Membership, t: Tenant, parameters: seq<string>, now: int) returns (ok: bool)
    ensures ok <==> forall i :: 0 <= i < |parameters| ==> CheckParameter(m, t, parameters[i], now)
  {
    var i := 0;
    while i < |parameters|
      invariant 0 <= i <= |parameters|
      invariant forall j :: 0 <= j < i ==> CheckParameter(m, t, parameters[j], now)
    {
      if !CheckParameter(m, t, parameters[i], now) {
        return false;
      }
      i := i + 1;
    }
    return true;
  }

  predicate AllParametersPass(m: Membership, t: Tenant, parameters: seq<string>, now: int) {
    forall i :: 0 <= i < |parameters| ==> CheckParameter(m, t, parameters[i], now)
  }

  /** What `handle` decides, before it is turned into a response. */
  datatype Decision =
    | NoTenant
    | Guest                    // no authenticated user: the route is public
    | NotInTenant
    | Denied(reason: string)   // "basic_access" or "middleware_restrictions"
    | Granted(member: Membership)
    | Errored(error: Failure)  // canAccess called `isActive()` on a null tenant relation

  /**
   * `handle`'s decision. The membership row is found for the current
   * tenant's key; canAccess and the `subscription_required` and `plan:`
   * parameters then read the row's `tenant` relation, the tenant as the
   * table holds it now.
   */
  function Decide(current: Option<Tenant>, user: Option<int>, rows: seq<Membership>, tenants: seq<Tenant>, parameters: seq<string>, env: AccessEnv): (d: Decision)
    ensures d.Granted? ==>
      && current.Some? && user.Some?
      && GetTenantUser(rows, current.value, user.value) == Some(d.member)
      && FindById(tenants, current.value.id).Some?
      && CanAccess(d.member, FindById(tenants, current.value.id).value, env)
      && AllParametersPass(d.member, FindById(tenants, current.value.id).value, parameters, env.now)
    ensures d.Errored? ==> d.error == NullTenant && current.Some? && FindById(tenants, current.value.id).None?
  {
    if current.None? then NoTenant
    else if user.None? then Guest
    else match GetTenantUser(rows, current.value, user.value)
      case None => NotInTenant
      case Some(m) =>
        match RowCanAccess(tenants, m, env)
        case Err(e) => Errored(e)
        case Ok(false) => Denied("basic_access")
        case Ok(true) =>
          if !AllParametersPass(m, FindById(tenants, m.tenantId).value, parameters, env.now) then Denied("middleware_restrictions")
          else Granted(m)
  }

  /**
   * An authenticated user gets through exactly with a live membership
   * that passes canAccess and every parameter against the tenant the
   * table holds under the current tenant's key.
   */
  lemma DecideGrants(current: Option<Tenant>, userId: int, rows: seq<Membership>, tenants: seq<Tenant>, parameters: seq<string>, env: AccessEnv)
    requires current.Some?
    ensures Decide(current, Some(userId), rows, tenants, parameters, env).Granted? <==>
      var m := GetTenantUser(rows, current.value, userId); var rt := FindById(tenants, current.value.id);
      m.Some? && rt.Some? && CanAccess(m.value, rt.value, env) && AllParametersPass(m.value, rt.value, parameters, env.now)
  {
  }

  /**
   * The current tenant value can be stale: when the table has suspended
   * that tenant since, an active member is refused with basic_access, and
   * when it has been soft-deleted, `handle` throws.
   */
  lemma StaleCurrentTenant(t: Tenant, m: Membership, userId: int, parameters: seq<string>, env: AccessEnv)
    requires !t.trashed && LiveMatch(m, t.id, userId) && Memberships.IsActive(m)
    ensures Decide(Some(t), Some(userId), [m], [t.(status := Tenants.STATUS_SUSPENDED)], parameters, env) == Denied("basic_access")
    ensures Decide(Some(t), Some(userId), [m], [t.(trashed := true)], parameters, env) == Errored(NullTenant)
  {
    assert FindById([t.(status := Tenants.STATUS_SUSPENDED)], t.id) == Some(t.(status := Tenants.STATUS_SUSPENDED));
    assert FindById([t.(trashed := true)], t.id).None?;
  }

  /** The message of a refusal, "Access denied" for a reason without one. */
  function DenialMessage(reason: string): string {
    if reason == "basic_access" then "Your access to this tenant has been restricted"
    else if reason == "middleware_restrictions" then "You do not have the required permissions for this action"
    else "Access denied"
  }

  function Respond(d: Decision, expectsJson: bool): (r: Response)
    ensures r == Passed <==> d.Guest? || d.Granted?
    ensures d.NoTenant? && expectsJson ==> Status(r) == 404
    ensures d.NotInTenant? || d.Denied? ==> Status(r) == 403
    ensures d.Errored? ==> Status(r) == 500
  {
    match d
    case NoTenant =>
      if expectsJson then Json(404, "Tenant required", "No tenant context available for this request")
      else RedirectToRoute("tenant.select")
    case Guest => Passed
    case NotInTenant =>
      if expectsJson then Json(403, "Access denied", "User does not have access to this tenant")
      else View(403, "multitenant::errors.user-not-in-tenant")
    case Denied(reason) =>
      if expectsJson then Json(403, "Access denied", DenialMessage(reason))
      else View(403, "multitenant::errors.access-denied")
    case Granted(_) => Passed
    case Errored(_) => Failed(500)
  }

  /** `handle`: decide, and record the access of a granted member. */
  method Handle(db: Database, current: Option<Tenant>, user: Option<int>, parameters: seq<string>, env: AccessEnv, expectsJson: bool)
    returns (d: Decision, r: Response)
    requires db.Valid()
    modifies db
    ensures db.Valid()
    ensures d == Decide(current, user, old(db.memberships), old(db.tenants), parameters, env) && r == Respond(d, expectsJson)
    ensures !d.Granted? ==> db.memberships == old(db.memberships)
    ensures d.Granted? ==>
      var k := LiveIndex(old(db.memberships), current.value.id, user.value).value;
      db.memberships == old(db.memberships)[k := Touched(old(db.memberships)[k], env.now)]
    ensures db.tenants == old(db.tenants) && db.invitations == old(db.invitations) && db.users == old(db.users)
  {
    if current.None? {
      d := NoTenant;
    } else if user.None? {
      d := Guest;
    } else {
      var tenantUser := GetTenantUser(db.memberships, current.value, user.value);
      var access := if tenantUser.Some? then RowCanAccess(db.tenants, tenantUser.value, env) else Ok(false);
      if tenantUser.None? {
        d := NotInTenant;
      } else if access.Err? {
        d := Errored(access.error);
      } else if !access.value {
        d := Denied("basic_access");
      } else {
        var own := FindById(db.tenants, tenantUser.value.tenantId).value;
        var ok := CheckMiddlewareRestrictions(tenantUser.value, own, parameters, env.now);
        if !ok {
          d := Denied("middleware_restrictions");
        } else {
          db.UpdateLastAccess(current.value.id, user.value, env.now);
          d := Granted(tenantUser.value);
        }
      }
    }
    r := Respond(d, expectsJson);
  }
}
