/**
 * The tenant administration controller's writing actions: the user-limit
 * guard of the invitation form, sending an invitation, updating and
 * removing a member (owners protected), and merging the tenant settings.
 */
module TenantAdmin {
  import opened Wrappers
  import opened Seqs
  import opened Config
  import opened Tenants
  import opened Memberships
  import opened Invitations
  import opened Store
  import InvitationFlow
  import opened AccessControl

  /** The roles an administrator may invite with or assign. */
  const ASSIGNABLE_ROLES := [ROLE_ADMIN, ROLE_MANAGER, ROLE_EMPLOYEE, ROLE_CLIENT, ROLE_VIEWER]

  /** The user types an administrator may choose; owner is not among them. */
  const ASSIGNABLE_TYPES := [TYPE_ADMIN, TYPE_EMPLOYEE, TYPE_CLIENT, TYPE_VENDOR, TYPE_PARTNER, TYPE_CONSULTANT]

  /** The statuses updateUser accepts. */
  const ASSIGNABLE_STATUSES := [Memberships.STATUS_ACTIVE, Memberships.STATUS_INACTIVE, Memberships.STATUS_SUSPENDED]

  /** How an administrative action ends. */
  datatype AdminResult =
    | Rejected                   // request validation failed
    | NotFound                   // firstOrFail found no live row
    | OwnerProtected             // the owner's row is left alone
    | DuplicatePending           // a pending invitation for the email exists
    | LimitReached               // the plan's user limit is reached
    | Sent(invitation: Invitation)
    | Done
    | Crashed(error: DbError)    // an exception escaped the controller

  predicate InTenant(m: Membership, tenantId: int) {
    m.tenantId == tenantId
  }

  /** `$tenant->users()->count()`: every tenant_users row of the tenant, soft-deleted ones included. */
  function UsersCount(rows: seq<Membership>, tenantId: int): nat {
    Count(rows, (m: Membership) => InTenant(m, tenantId))
  }

  /** Soft-deleting rows never lowers any tenant's user count. */
  lemma {:induction false} SoftDeleteKeepsUsersCount(rows: seq<Membership>, tenantId: int, userId: int, counted: int)
    ensures UsersCount(SoftDeleted(rows, tenantId, userId), counted) == UsersCount(rows, counted)
  {
    var p := (m: Membership) => InTenant(m, counted);
    if rows != [] {
      SoftDeleteKeepsUsersCount(rows[1..], tenantId, userId, counted);
      var r := SoftDeleted(rows, tenantId, userId);
      assert r[1..] == SoftDeleted(rows[1..], tenantId, userId);
      assert p(r[0]) == p(rows[0]);
    }
  }

  /** The guard of inviteUser and sendInvitation: the tenant may have one more user. */
  predicate LimitAllows(t: Tenant, plans: Plans, rows: seq<Membership>) {
    CanPerform(t, plans, "users", UsersCount(rows, t.id))
  }

  /** With an explicit or plan limit, the guard admits exactly the tenants below it. */
  lemma LimitAllowsBelowLimit(t: Tenant, plans: Plans, rows: seq<Membership>)
    requires "users" in Limits(t, plans) && Limits(t, plans)["users"] != UNLIMITED
    ensures LimitAllows(t, plans, rows) <==> UsersCount(rows, t.id) < Limits(t, plans)["users"]
  {
    CanPerformBelowLimit(t, plans, "users", UsersCount(rows, t.id));
  }

  /** Members who leave keep their seat: the guard's answer is the same after the soft delete. */
  lemma LeavingFreesNoSeat(t: Tenant, plans: Plans, rows: seq<Membership>, userId: int)
    ensures LimitAllows(t, plans, SoftDeleted(rows, t.id, userId)) == LimitAllows(t, plans, rows)
  {
    SoftDeleteKeepsUsersCount(rows, t.id, userId, t.id);
  }

  /** The response of inviteUser: the form with its choices, or the limit error. */
  datatype InviteView = LimitError | InviteForm(userTypes: seq<string>, roles: seq<string>)

  /** inviteUser. */
  function InviteUser(t: Tenant, plans: Plans, rows: seq<Membership>): (v: InviteView)
    ensures v.LimitError? <==> !LimitAllows(t, plans, rows)
    ensures v.InviteForm? ==> TYPE_OWNER !in v.userTypes && ROLE_SUPER_ADMIN !in v.roles
  {
    if !LimitAllows(t, plans, rows) then LimitError else InviteForm(ASSIGNABLE_TYPES, ASSIGNABLE_ROLES)
  }

  /** sendInvitation's validation; the email format check is not modelled beyond non-emptiness. */
  predicate InvitationInputValid(email: string, role: string, userType: string, message: Option<string>) {
    |email| > 0 && role in ASSIGNABLE_ROLES && userType in ASSIGNABLE_TYPES
    && (message.None? || |message.value| <= 500)
  }

  /** The duplicate guard: an invitation of the tenant for the email whose status is pending, expired or not. */
  predicate HasPendingFor(invs: seq<Invitation>, tenantId: int, email: string) {
    exists i :: 0 <= i < |invs| && invs[i].tenantId == tenantId && invs[i].email == email
                && invs[i].status == Invitations.STATUS_PENDING
  }

  /** An invitation past its expiry still blocks a new one while its status says pending. */
  lemma ExpiredInvitationStillBlocks(invs: seq<Invitation>, k: nat, now: int)
    requires k < |invs| && invs[k].status == Invitations.STATUS_PENDING && IsExpired(invs[k], now)
    ensures !IsPending(invs[k], now)
    ensures HasPendingFor(invs, invs[k].tenantId, invs[k].email)
  {
  }

  /** Every role an administrator can invite with yields a member without manage_tenant, which the admin pages require. */
  lemma InviteesCannotAdministrate(inv: Invitation, userId: int, t: Tenant, now: int)
    requires inv.role in ASSIGNABLE_ROLES
    ensures !CheckParameter(InvitationFlow.InvitedMembership(inv, userId, now), t, "permission:manage_tenant", now)
  {
    var m := InvitationFlow.InvitedMembership(inv, userId, now);
    assert inv.role != ROLE_SUPER_ADMIN;
    InvitationFlow.InvitedMembershipRights(inv, userId, now);
    assert !HasPermission(m, "manage_tenant");
    NamedParameters(m, t, "manage_tenant", now);
    ManageTenantParameter();
  }

  /** The admin routes' parameter is the `permission:` form applied to manage_tenant. */
  lemma ManageTenantParameter()
    ensures "permission:" + "manage_tenant" == "permission:manage_tenant"
  {
  }

  /**
   * sendInvitation in the current tenant `t`: validation, the duplicate
   * guard, the limit guard, then the insert. `generated` stands for the
   * random token; the chosen user type is validated and then dropped.
   */
  method SendInvitation(db: Database, t: Tenant, plans: Plans, inviter: int, email: string, role: string,
                        userType: string, message: Option<string>, now: int, generated: string)
    returns (r: AdminResult)
    requires db.Valid() && |generated| == 40
    modifies db
    ensures db.Valid()
    ensures !InvitationInputValid(email, role, userType, message) ==> r == Rejected && db.invitations == old(db.invitations)
    ensures InvitationInputValid(email, role, userType, message) && HasPendingFor(old(db.invitations), t.id, email) ==>
      r == DuplicatePending && db.invitations == old(db.invitations)
    ensures InvitationInputValid(email, role, userType, message) && !HasPendingFor(old(db.invitations), t.id, email)
            && !LimitAllows(t, plans, old(db.memberships)) ==>
      r == LimitReached && db.invitations == old(db.invitations)
    ensures InvitationInputValid(email, role, userType, message) && !HasPendingFor(old(db.invitations), t.id, email)
            && LimitAllows(t, plans, old(db.memberships)) ==>
      var inv := Created(t.id, email, role, None, None, Some(inviter), message, now, generated);
      && (TokenTaken(old(db.invitations), inv.token) ==> r == Crashed(UniqueViolation) && db.invitations == old(db.invitations))
      && (!TokenTaken(old(db.invitations), inv.token) ==> r == Sent(inv) && db.invitations == old(db.invitations) + [inv])
    ensures db.tenants == old(db.tenants) && db.memberships == old(db.memberships) && db.users == old(db.users)
  {
    if !InvitationInputValid(email, role, userType, message) {
      return Rejected;
    }
    if exists i :: 0 <= i < |db.invitations| && db.invitations[i].tenantId == t.id && db.invitations[i].email == email
                   && db.invitations[i].status == Invitations.STATUS_PENDING {
      return DuplicatePending;
    }
    if !LimitAllows(t, plans, db.memberships) {
      return LimitReached;
    }
    var inv := Created(t.id, email, role, None, None, Some(inviter), message, now, generated);
    var err := db.InsertInvitation(inv);
    if err.Some? {
      return Crashed(UniqueViolation);
    }
    return Sent(inv);
  }

  /** updateUser's validation. */
  predicate UpdateInputValid(userType: string, role: string, status: string) {
    userType in ASSIGNABLE_TYPES && role in ASSIGNABLE_ROLES && status in ASSIGNABLE_STATUSES
  }

  /** The row after updateUser: the five assigned columns replaced, missing lists stored empty. */
  function Reassigned(m: Membership, userType: string, role: string, status: string,
                      permissions: Option<seq<string>>, restrictions: Option<Restrictions>): (r: Membership)
    ensures r.userType == userType && r.role == role && r.status == status
    ensures r.permissions == Some(permissions.GetOr([]))
    ensures r.restrictions == Some(restrictions.GetOr(Restrictions(None, None, None)))
    ensures r.(userType := m.userType, role := m.role, status := m.status,
               permissions := m.permissions, restrictions := m.restrictions) == m
  {
    m.(userType := userType, role := role, status := status,
       permissions := Some(permissions.GetOr([])),
       restrictions := Some(restrictions.GetOr(Restrictions(None, None, None))))
  }

  /** No accepted update makes an owner or a super_admin, so none grants the unconditional rights. */
  lemma UpdateGrantsNoPrivilege(m: Membership, userType: string, role: string, status: string,
                                permissions: Option<seq<string>>, restrictions: Option<Restrictions>)
    requires UpdateInputValid(userType, role, status)
    ensures !Privileged(Reassigned(m, userType, role, status, permissions, restrictions))
  {
  }

  /** An update without restrictions leaves an empty restriction set, which lets every IP, hour and day through. */
  lemma UpdateWithoutRestrictionsOpensAccess(m: Membership, userType: string, role: string, status: string,
                                             permissions: Option<seq<string>>, env: AccessEnv)
    ensures CheckAccessRestrictions(Reassigned(m, userType, role, status, permissions, None), env)
  {
  }

  /** updateUser on the user's live row in the current tenant `t`. */
  method UpdateUser(db: Database, t: Tenant, userId: int, userType: string, role: string, status: string,
                    permissions: Option<seq<string>>, restrictions: Option<Restrictions>)
    returns (r: AdminResult)
    requires db.Valid()
    modifies db
    ensures db.Valid()
    ensures !UpdateInputValid(userType, role, status) ==> r == Rejected && unchanged(db)
    ensures UpdateInputValid(userType, role, status) ==>
      match LiveIndex(old(db.memberships), t.id, userId)
      case None => r == NotFound && unchanged(db)
      case Some(k) =>
        var m := old(db.memberships)[k];
        && (IsOwner(m) ==> r == OwnerProtected && unchanged(db))
        && (!IsOwner(m) ==> r == Done)
        && (!IsOwner(m) ==> db.memberships == old(db.memberships)[k := Reassigned(m, userType, role, status, permissions, restrictions)])
    ensures db.tenants == old(db.tenants) && db.invitations == old(db.invitations) && db.users == old(db.users)
  {
    if !UpdateInputValid(userType, role, status) {
      return Rejected;
    }
    var found := LiveIndex(db.memberships, t.id, userId);
    if found.None? {
      return NotFound;
    }
    var k := found.value;
    if IsOwner(db.memberships[k]) {
      return OwnerProtected;
    }
    db.ReplaceMembership(k, Reassigned(db.memberships[k], userType, role, status, permissions, restrictions));
    return Done;
  }

  /** removeUser: soft-deletes the user's live row unless it is the owner's. */
  method RemoveUser(db: Database, t: Tenant, userId: int) returns (r: AdminResult)
    requires db.Valid()
    modifies db
    ensures db.Valid()
    ensures match LiveIndex(old(db.memberships), t.id, userId)
      case None => r == NotFound && unchanged(db)
      case Some(k) =>
        var m := old(db.memberships)[k];
        && (IsOwner(m) ==> r == OwnerProtected && unchanged(db))
        && (!IsOwner(m) ==> r == Done && db.memberships == old(db.memberships)[k := m.(deleted := true)])
    ensures db.tenants == old(db.tenants) && db.invitations == old(db.invitations) && db.users == old(db.users)
  {
    var found := LiveIndex(db.memberships, t.id, userId);
    if found.None? {
      return NotFound;
    }
    var k := found.value;
    if IsOwner(db.memberships[k]) {
      return OwnerProtected;
    }
    db.ReplaceMembership(k, db.memberships[k].(deleted := true));
    return Done;
  }

  /** After a removal the user has no live row left in the tenant, yet the removal frees no seat. */
  lemma RemovalEffect(rows: seq<Membership>, t: Tenant, plans: Plans, userId: int, k: nat)
    requires UniquePairs(rows) && LiveIndex(rows, t.id, userId) == Some(k)
    ensures LiveIndex(rows[k := rows[k].(deleted := true)], t.id, userId).None?
    ensures LimitAllows(t, plans, rows[k := rows[k].(deleted := true)]) == LimitAllows(t, plans, rows)
  {
    var after := rows[k := rows[k].(deleted := true)];
    forall j | 0 <= j < |after|
      ensures !LiveMatch(after[j], t.id, userId)
    {
      if j != k && LiveMatch(after[j], t.id, userId) {
        assert false;
      }
    }
    CountUpdate(rows, (m: Membership) => InTenant(m, t.id), k, rows[k].(deleted := true));
  }

  /** `array_merge($old ?? [], $new ?? [])` on string keys: the request's entries win, the others stay. */
  function Merge(base: Option<map<string, string>>, update: Option<map<string, string>>): (r: map<string, string>)
    ensures forall key :: key in r <==> (base.Some? && key in base.value) || (update.Some? && key in update.value)
    ensures forall key :: update.Some? && key in update.value ==> r[key] == update.value[key]
    ensures forall key :: base.Some? && key in base.value && !(update.Some? && key in update.value) ==> r[key] == base.value[key]
  {
    base.GetOr(map[]) + update.GetOr(map[])
  }

  /** Sending the same settings twice gives what sending them once gave. */
  lemma MergeIdempotent(base: Option<map<string, string>>, update: Option<map<string, string>>)
    ensures Merge(Some(Merge(base, update)), update) == Merge(base, update)
  {
  }

  /** updateSettings' validation: name required, at most 255 characters; app_name at most 255; locale es or en. */
  predicate SettingsInputValid(name: string, settings: Option<map<string, string>>) {
    0 < |name| <= 255
    && (settings.Some? && "app_name" in settings.value ==> |settings.value["app_name"]| <= 255)
    && (settings.Some? && "locale" in settings.value ==> settings.value["locale"] in {"es", "en"})
  }

  /** updateSettings on the current tenant: the updated row, or None when validation fails. */
  function UpdateSettings(t: Tenant, name: string, settings: Option<map<string, string>>,
                          customData: Option<map<string, string>>): (r: Option<Tenant>)
    ensures r.Some? <==> SettingsInputValid(name, settings)
    ensures r.Some? ==>
      && r.value.name == name
      && r.value.settings == Some(Merge(t.settings, settings))
      && r.value.customData == Some(Merge(t.customData, customData))
      && r.value.(name := t.name, settings := t.settings, customData := t.customData) == t
  {
    if !SettingsInputValid(name, settings) then None
    else Some(t.(name := name, settings := Some(Merge(t.settings, settings)),
                 customData := Some(Merge(t.customData, customData))))
  }
}
