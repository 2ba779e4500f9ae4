/**
 * The invitation controller: the role tables that decide what an invited
 * user becomes, the acceptance form, and the acceptance itself, which
 * finds or creates the user, refuses existing members, creates the
 * membership row and then accepts the invitation.
 */
module InvitationFlow {
  import opened Wrappers
  import opened Seqs
  import opened Memberships
  import opened Invitations
  import opened Store

  /** getUserTypeFromRole. */
  function UserTypeFromRole(role: string): (userType: string)
    ensures userType in {TYPE_ADMIN, TYPE_EMPLOYEE, TYPE_CLIENT, TYPE_GUEST}
    ensures userType == TYPE_ADMIN <==> role in {ROLE_SUPER_ADMIN, ROLE_ADMIN}
    ensures userType == TYPE_CLIENT <==> role == ROLE_CLIENT
    ensures userType == TYPE_GUEST <==> role == ROLE_VIEWER
  {
    if role == ROLE_SUPER_ADMIN || role == ROLE_ADMIN then TYPE_ADMIN
    else if role == ROLE_MANAGER then TYPE_EMPLOYEE
    else if role == ROLE_EMPLOYEE then TYPE_EMPLOYEE
    else if role == ROLE_CLIENT then TYPE_CLIENT
    else if role == ROLE_VIEWER then TYPE_GUEST
    else TYPE_EMPLOYEE
  }

  /** getPermissionsFromRole. */
  function PermissionsFromRole(role: string): (permissions: seq<string>)
    ensures role !in {ROLE_SUPER_ADMIN, ROLE_ADMIN, ROLE_MANAGER, ROLE_EMPLOYEE, ROLE_CLIENT, ROLE_VIEWER} ==> permissions == []
  {
    if role == ROLE_SUPER_ADMIN then
      ["view_all_data", "manage_users", "manage_tenant", "billing_access", "view_dashboard",
       "view_users", "invite_users", "view_logs", "view_analytics", "export_data"]
    else if role == ROLE_ADMIN then
      ["view_all_data", "manage_users", "view_dashboard", "view_users", "invite_users",
       "view_analytics", "export_data"]
    else if role == ROLE_MANAGER then
      ["view_department_data", "view_dashboard", "view_users", "invite_users", "view_reports"]
    else if role == ROLE_EMPLOYEE then
      ["view_dashboard", "view_reports"]
    else if role == ROLE_CLIENT then
      ["view_own_data", "create_order", "access_api"]
    else if role == ROLE_VIEWER then
      ["view_own_data"]
    else []
  }

  /** Each role's list names every permission once, and only super_admin's contains manage_tenant and billing_access. */
  lemma PermissionsFromRoleShape(role: string)
    ensures forall i, j :: 0 <= i < j < |PermissionsFromRole(role)| ==> PermissionsFromRole(role)[i] != PermissionsFromRole(role)[j]
    ensures "manage_tenant" in PermissionsFromRole(role) <==> role == ROLE_SUPER_ADMIN
    ensures "billing_access" in PermissionsFromRole(role) <==> role == ROLE_SUPER_ADMIN
  {
  }

  /** The admin role's list is the super_admin list without manage_tenant, billing_access and view_logs. */
  lemma AdminPermissionsWithinSuperAdmin()
    ensures forall p :: p in PermissionsFromRole(ROLE_ADMIN) ==> p in PermissionsFromRole(ROLE_SUPER_ADMIN)
    ensures forall p :: p in PermissionsFromRole(ROLE_SUPER_ADMIN) && p !in PermissionsFromRole(ROLE_ADMIN) ==>
      p in {"manage_tenant", "billing_access", "view_logs"}
  {
  }

  /** The membership row the controller creates for an accepted invitation. */
  function InvitedMembership(inv: Invitation, userId: int, now: int): (m: Membership)
    ensures m.tenantId == inv.tenantId && m.userId == userId && !m.deleted
  {
    Membership(inv.tenantId, userId, UserTypeFromRole(inv.role), inv.role, Memberships.STATUS_ACTIVE,
               Some(PermissionsFromRole(inv.role)), inv.invitedBy, Some(inv.createdAt), Some(now),
               None, None, None, false)
  }

  /**
   * What an invitation makes of its invitee: never an owner; an admin
   * exactly for the two admin roles; holding manage_tenant exactly for
   * super_admin.
   */
  lemma InvitedMembershipRights(inv: Invitation, userId: int, now: int)
    ensures var m := InvitedMembership(inv, userId, now);
      && !IsOwner(m)
      && IsActive(m)
      && (IsAdmin(m) <==> inv.role in {ROLE_SUPER_ADMIN, ROLE_ADMIN})
      && (HasPermission(m, "manage_tenant") <==> inv.role == ROLE_SUPER_ADMIN)
      && m.invitedBy == inv.invitedBy && m.invitedAt == Some(inv.createdAt) && m.joinedAt == Some(now)
  {
    PermissionsFromRoleShape(inv.role);
  }

  /** The response of showAcceptForm. */
  datatype FormView = FormNotFound | InvalidForm(status: string) | AcceptForm(invitation: Invitation)

  /** showAcceptForm: the acceptance form for a pending invitation, otherwise "expirada" or "ya utilizada". */
  function ShowAcceptForm(invs: seq<Invitation>, token: string, now: int): (v: FormView)
    ensures v.FormNotFound? <==> !TokenTaken(invs, token)
    ensures v.AcceptForm? ==> v.invitation.token == token && IsPending(v.invitation, now)
    ensures v.InvalidForm? ==> v.status in {"expirada", "ya utilizada"}
  {
    match TokenIndex(invs, token)
    case None => FormNotFound
    case Some(k) =>
      if !IsPending(invs[k], now) then InvalidForm(if IsExpired(invs[k], now) then "expirada" else "ya utilizada")
      else AcceptForm(invs[k])
  }

  /** The form calls every not-pending, unexpired invitation "already used", a cancelled one included. */
  lemma CancelledInvitationShownAsUsed(invs: seq<Invitation>, k: nat, now: int)
    requires UniqueTokens(invs) && k < |invs|
    requires invs[k].status == STATUS_CANCELLED && !IsExpired(invs[k], now)
    ensures ShowAcceptForm(invs, invs[k].token, now) == InvalidForm("ya utilizada")
  {
    var j := TokenIndex(invs, invs[k].token).value;
    if j != k {
      assert false;
    }
  }

  /** The request validation: name required and at most 255 characters, password at least 8 and confirmed. */
  predicate SignupValid(name: string, password: string, confirmation: string) {
    0 < |name| <= 255 && |password| >= 8 && confirmation == password
  }

  /** The user with the invitation's email, created with the entered name when there is none. */
  function Signup(users: seq<User>, email: string, name: string): (r: (User, seq<User>))
    ensures r.0.email == email
    ensures UserByEmail(users, email).Some? ==> r.0 == UserByEmail(users, email).value && r.1 == users
    ensures UserByEmail(users, email).None? ==>
      && r.0.name == name
      && (forall i :: 0 <= i < |users| ==> users[i].id != r.0.id)
      && r.1 == users + [r.0]
  {
    match UserByEmail(users, email)
    case Some(u) => (u, users)
    case None => var u := User(NextUserId(users), email, name); (u, users + [u])
  }

  /** How an acceptance request ends. */
  datatype AcceptResult =
    | InvitationNotFound       // firstOrFail: 404
    | InvitationInvalid        // not pending: back to login
    | InputRejected            // validation failed
    | AlreadyMember            // the invitation is cancelled, back to login
    | Welcome(user: User)      // logged in and sent to the tenant dashboard
    | Crashed(error: DbError)  // an exception escaped the controller

  /** The part both versions of the acceptance share: stopped early, or the membership row was created. */
  datatype Admission = Stopped(result: AcceptResult) | Admitted(index: nat, user: User)

  /** Lines up to the creation of the membership row, on the four tables. */
  function Admit(t: Tables, token: string, name: string, password: string, confirmation: string, now: int): (r: (Admission, Tables))
    ensures r.0.Admitted? ==> r.0.index < |t.invitations|
    ensures r.0.Admitted? ==>
      var k := r.0.index;
      var inv := t.invitations[k];
      && inv.token == token && IsPending(inv, now)
      && r.1 == t.(users := Signup(t.users, inv.email, name).1,
                   memberships := t.memberships + [InvitedMembership(inv, r.0.user.id, now)])
      && !PairTaken(t.memberships, inv.tenantId, r.0.user.id)
    ensures r.0.Stopped? ==> !r.0.result.Welcome?
    ensures !SignupValid(name, password, confirmation) ==> r.0.Stopped? && r.1 == t
    ensures r.1.users != t.users ==>
      TokenIndex(t.invitations, token).Some? && UserByEmail(t.users, t.invitations[TokenIndex(t.invitations, token).value].email).None?
  {
    match TokenIndex(t.invitations, token)
    case None => (Stopped(InvitationNotFound), t)
    case Some(k) =>
      var inv := t.invitations[k];
      if !IsPending(inv, now) then (Stopped(InvitationInvalid), t)
      else if !SignupValid(name, password, confirmation) then (Stopped(InputRejected), t)
      else
        var signedUp := Signup(t.users, inv.email, name);
        var u := signedUp.0;
        var users := signedUp.1;
        if LiveIndex(t.memberships, inv.tenantId, u.id).Some? then
          (Stopped(AlreadyMember), t.(users := users, invitations := t.invitations[k := inv.(status := STATUS_CANCELLED)]))
        else if PairTaken(t.memberships, inv.tenantId, u.id) then
          (Stopped(Crashed(UniqueViolation)), t.(users := users))
        else
          (Admitted(k, u), t.(users := users, memberships := t.memberships + [InvitedMembership(inv, u.id, now)]))
  }

  /**
   * acceptInvitation as written: after creating the membership row it
   * calls accept with the user, which attaches the same pair again. The
   * unique index refuses that insert after the invitation has been
   * marked accepted, so the request can never reach the dashboard.
   */
  function AcceptAsWritten(t: Tables, token: string, name: string, password: string, confirmation: string, now: int): (r: (AcceptResult, Tables))
    ensures !r.0.Welcome?
    ensures Admit(t, token, name, password, confirmation, now).0.Admitted? ==> r.0 == Crashed(UniqueViolation)
  {
    match Admit(t, token, name, password, confirmation, now)
    case (Stopped(result), t1) => (result, t1)
    case (Admitted(k, u), t1) =>
      var inv := t1.invitations[k];
      assert t1.memberships[|t1.memberships| - 1] == InvitedMembership(inv, u.id, now);
      var accepted := t1.(invitations := t1.invitations[k := AcceptedAt(inv, now)]);
      if PairTaken(t1.memberships, inv.tenantId, u.id) then (Crashed(UniqueViolation), accepted)
      else (Welcome(u), accepted.(memberships := t1.memberships + [AttachedRow(inv, u.id, now)]))
  }

  /** acceptInvitation as evidently intended: the invitation is accepted without attaching the user a second time. */
  function AcceptIntended(t: Tables, token: string, name: string, password: string, confirmation: string, now: int): (r: (AcceptResult, Tables))
    ensures r.0.Welcome? <==> Admit(t, token, name, password, confirmation, now).0.Admitted?
    ensures r.0.Welcome? ==>
      var k := Admit(t, token, name, password, confirmation, now).0.index;
      var inv := t.invitations[k];
      && r.0.user.email == inv.email
      && r.1.invitations == t.invitations[k := AcceptedAt(inv, now)]
      && r.1.memberships == t.memberships + [InvitedMembership(inv, r.0.user.id, now)]
  {
    match Admit(t, token, name, password, confirmation, now)
    case (Stopped(result), t1) => (result, t1)
    case (Admitted(k, u), t1) =>
      (Welcome(u), t1.(invitations := t1.invitations[k := AcceptedAt(t1.invitations[k], now)]))
  }

  /** A request for an invitation that is not pending changes no table. */
  lemma NotPendingChangesNothing(t: Tables, token: string, name: string, password: string, confirmation: string, now: int)
    requires TokenTaken(t.invitations, token)
    requires !IsPending(t.invitations[TokenIndex(t.invitations, token).value], now)
    ensures AcceptAsWritten(t, token, name, password, confirmation, now) == (InvitationInvalid, t)
    ensures AcceptIntended(t, token, name, password, confirmation, now) == (InvitationInvalid, t)
  {
  }

  /** An existing user with the invitation's email is reused, whatever name is entered, and the users table is unchanged. */
  lemma ExistingUserReused(t: Tables, token: string, name: string, password: string, confirmation: string, now: int)
    requires TokenTaken(t.invitations, token)
    requires UserByEmail(t.users, t.invitations[TokenIndex(t.invitations, token).value].email).Some?
    ensures AcceptAsWritten(t, token, name, password, confirmation, now).1.users == t.users
    ensures AcceptIntended(t, token, name, password, confirmation, now).1.users == t.users
  {
  }

  /** A user who already has a live row in the tenant gets no new row, and the invitation becomes cancelled. */
  lemma MemberInvitationCancelled(t: Tables, token: string, name: string, password: string, confirmation: string, now: int, u: User)
    requires TokenTaken(t.invitations, token)
    requires var inv := t.invitations[TokenIndex(t.invitations, token).value];
      IsPending(inv, now) && SignupValid(name, password, confirmation)
      && UserByEmail(t.users, inv.email) == Some(u) && LiveIndex(t.memberships, inv.tenantId, u.id).Some?
    ensures var k := TokenIndex(t.invitations, token).value;
      AcceptAsWritten(t, token, name, password, confirmation, now)
        == (AlreadyMember, t.(invitations := t.invitations[k := t.invitations[k].(status := STATUS_CANCELLED)]))
  {
  }

  /** Admission against a Database: finds or creates the user, refuses members, creates the membership row. */
  method AdmitInvitee(db: Database, token: string, name: string, password: string, confirmation: string, now: int)
    returns (a: Admission)
    requires db.Valid()
    modifies db
    ensures db.Valid()
    ensures (a, db.Snapshot()) == Admit(old(db.Snapshot()), token, name, password, confirmation, now)
  {
    var found := TokenIndex(db.invitations, token);
    if found.None? {
      return Stopped(InvitationNotFound);
    }
    var k := found.value;
    var inv := db.invitations[k];
    if !IsPending(inv, now) {
      return Stopped(InvitationInvalid);
    }
    if !SignupValid(name, password, confirmation) {
      return Stopped(InputRejected);
    }
    var existing := UserByEmail(db.users, inv.email);
    var u;
    if existing.Some? {
      u := existing.value;
    } else {
      u := db.CreateUser(inv.email, name);
    }
    if LiveIndex(db.memberships, inv.tenantId, u.id).Some? {
      db.SetInvitationStatus(k, STATUS_CANCELLED);
      return Stopped(AlreadyMember);
    }
    var err := db.InsertMembership(InvitedMembership(inv, u.id, now));
    if err.Some? {
      return Stopped(Crashed(UniqueViolation));
    }
    return Admitted(k, u);
  }

  /** acceptInvitation as written, against a Database. */
  method AcceptInvitation(db: Database, token: string, name: string, password: string, confirmation: string, now: int)
    returns (r: AcceptResult)
    requires db.Valid()
    modifies db
    ensures db.Valid()
    ensures (r, db.Snapshot()) == AcceptAsWritten(old(db.Snapshot()), token, name, password, confirmation, now)
  {
    var a := AdmitInvitee(db, token, name, password, confirmation, now);
    if a.Stopped? {
      return a.result;
    }
    var accepted := db.AcceptInvitation(a.index, Some(a.user.id), now);
    if accepted.Err? {
      return Crashed(UniqueViolation);
    }
    return Welcome(a.user);
  }

  /** acceptInvitation as evidently intended, against a Database. */
  method AcceptInvitationIntended(db: Database, token: string, name: string, password: string, confirmation: string, now: int)
    returns (r: AcceptResult)
    requires db.Valid()
    modifies db
    ensures db.Valid()
    ensures (r, db.Snapshot()) == AcceptIntended(old(db.Snapshot()), token, name, password, confirmation, now)
  {
    var a := AdmitInvitee(db, token, name, password, confirmation, now);
    if a.Stopped? {
      return a.result;
    }
    var accepted := db.AcceptInvitation(a.index, None, now);
    return Welcome(a.user);
  }
}
