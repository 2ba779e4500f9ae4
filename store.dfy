/**
 * The tables the core reads and writes (tenants, tenant_users,
 * tenant_invitations, users) as fields of one object, with the unique
 * indexes of the migrations as its invariant, and the row-level writes
 * of the models: inserting a membership, updateLastAccess, and the
 * invitation transitions accept and cancel.
 */
module Store {
  import opened Wrappers
  import opened Seqs
  import opened Tenants
  import opened Memberships
  import opened Invitations

  /** A row of the application's `users` table: the collaborator's principal. */
  datatype User = User(id: int, email: string, name: string)

  datatype DbError = UniqueViolation

  /** The unique index on (tenant_id, user_id); soft-deleted rows still occupy it. */
  predicate PairTaken(rows: seq<Membership>, tenantId: int, userId: int) {
    exists i :: 0 <= i < |rows| && rows[i].tenantId == tenantId && rows[i].userId == userId
  }

  predicate UniquePairs(rows: seq<Membership>) {
    forall i, j :: 0 <= i < j < |rows| ==> (rows[i].tenantId, rows[i].userId) != (rows[j].tenantId, rows[j].userId)
  }

  predicate UniqueTokens(invs: seq<Invitation>) {
    forall i, j :: 0 <= i < j < |invs| ==> invs[i].token != invs[j].token
  }

  predicate TokenTaken(invs: seq<Invitation>, token: string) {
    exists i :: 0 <= i < |invs| && invs[i].token == token
  }

  /** A live (not soft-deleted) row for the pair: what `TenantUser::where(...)` sees. */
  predicate LiveMatch(m: Membership, tenantId: int, userId: int) {
    !m.deleted && m.tenantId == tenantId && m.userId == userId
  }

  function LiveIndex(rows: seq<Membership>, tenantId: int, userId: int): (r: Option<nat>)
    ensures r.Some? ==> r.value < |rows| && LiveMatch(rows[r.value], tenantId, userId)
    ensures r.None? ==> forall j :: 0 <= j < |rows| ==> !LiveMatch(rows[j], tenantId, userId)
  {
    FirstIndex(rows, (m: Membership) => LiveMatch(m, tenantId, userId))
  }

  /** The pivot row `accept` attaches: the invitation's role, status active, the column defaults elsewhere. */
  function AttachedRow(inv: Invitation, userId: int, now: int): (m: Membership)
    ensures m.tenantId == inv.tenantId && m.userId == userId && m.role == inv.role
    ensures m.status == Memberships.STATUS_ACTIVE && m.joinedAt == Some(now) && !m.deleted
  {
    Membership(inv.tenantId, userId, TYPE_EMPLOYEE, inv.role, Memberships.STATUS_ACTIVE,
               None, None, None, Some(now), None, None, None, false)
  }

  /** The soft-delete of every live row of the pair. */
  function SoftDeleted(rows: seq<Membership>, tenantId: int, userId: int): (r: seq<Membership>)
    ensures |r| == |rows|
    ensures forall i :: 0 <= i < |rows| ==>
      r[i] == if LiveMatch(rows[i], tenantId, userId) then rows[i].(deleted := true) else rows[i]
  {
    if rows == [] then []
    else [if LiveMatch(rows[0], tenantId, userId) then rows[0].(deleted := true) else rows[0]]
         + SoftDeleted(rows[1..], tenantId, userId)
  }

  /** Soft-deleting keeps every row, so the unique index still holds the pair, while no live row is left. */
  lemma SoftDeletedKeepsPair(rows: seq<Membership>, tenantId: int, userId: int)
    ensures forall i :: 0 <= i < |rows| ==> !LiveMatch(SoftDeleted(rows, tenantId, userId)[i], tenantId, userId)
    ensures PairTaken(SoftDeleted(rows, tenantId, userId), tenantId, userId) == PairTaken(rows, tenantId, userId)
  {
    var r := SoftDeleted(rows, tenantId, userId);
    if PairTaken(rows, tenantId, userId) {
      var i :| 0 <= i < |rows| && rows[i].tenantId == tenantId && rows[i].userId == userId;
      assert r[i].tenantId == tenantId && r[i].userId == userId;
    }
    if PairTaken(r, tenantId, userId) {
      var i :| 0 <= i < |r| && r[i].tenantId == tenantId && r[i].userId == userId;
      assert rows[i].tenantId == tenantId && rows[i].userId == userId;
    }
  }

  /** All four tables at one moment, as a value. */
  datatype Tables = Tables(tenants: seq<Tenant>, memberships: seq<Membership>, invitations: seq<Invitation>, users: seq<User>)

  /** `where('email', ...)->first()` on the users table. */
  function UserByEmail(users: seq<User>, email: string): (r: Option<User>)
    ensures r.Some? ==> r.value in users && r.value.email == email
    ensures r.None? ==> forall i :: 0 <= i < |users| ==> users[i].email != email
    ensures r.Some? ==> exists i :: 0 <= i < |users| && users[i] == r.value && forall k :: 0 <= k < i ==> users[k].email != email
  {
    match FirstIndex(users, (u: User) => u.email == email)
    case None => None
    case Some(i) => Some(users[i])
  }

  /** The auto-increment id the next user row receives: above every id in the table. */
  function NextUserId(users: seq<User>): (id: int)
    ensures forall i :: 0 <= i < |users| ==> users[i].id < id
  {
    if users == [] then 1
    else
      var rest := NextUserId(users[1..]);
      assert forall i :: 1 <= i < |users| ==> users[i] == users[1..][i - 1];
      if users[0].id < rest then rest else users[0].id + 1
  }

  /** `where('token', ...)`: the position of the invitation with that token. */
  function TokenIndex(invs: seq<Invitation>, token: string): (r: Option<nat>)
    ensures r.Some? ==> r.value < |invs| && invs[r.value].token == token
    ensures r.None? ==> !TokenTaken(invs, token)
  {
    FirstIndex(invs, (i: Invitation) => i.token == token)
  }

  class Database {
    var tenants: seq<Tenant>
    var memberships: seq<Membership>
    var invitations: seq<Invitation>
    var users: seq<User>

    /** The unique indexes of tenant_users and tenant_invitations. */
    ghost predicate Valid()
      reads this
    {
      UniquePairs(memberships) && UniqueTokens(invitations)
    }

    function Snapshot(): (t: Tables)
      reads this
    {
      Tables(tenants, memberships, invitations, users)
    }

    constructor (tenants: seq<Tenant>, users: seq<User>)
      ensures Valid()
      ensures this.tenants == tenants && this.users == users
      ensures memberships == [] && invitations == []
    {
      this.tenants := tenants;
      this.users := users;
      memberships := [];
      invitations := [];
    }

    /** An INSERT into tenant_users, refused by the unique index when the pair already has a row. */
    method InsertMembership(m: Membership) returns (err: Option<DbError>)
      requires Valid()
      modifies this
      ensures Valid()
      ensures err.Some? <==> PairTaken(old(memberships), m.tenantId, m.userId)
      ensures memberships == if err.Some? then old(memberships) else old(memberships) + [m]
      ensures tenants == old(tenants) && invitations == old(invitations) && users == old(users)
    {
      if exists i :: 0 <= i < |memberships| && memberships[i].tenantId == m.tenantId && memberships[i].userId == m.userId {
        return Some(UniqueViolation);
      }
      memberships := memberships + [m];
      return None;
    }

    /** An INSERT into tenant_invitations, refused by the unique index on the token. */
    method InsertInvitation(inv: Invitation) returns (err: Option<DbError>)
      requires Valid()
      modifies this
      ensures Valid()
      ensures err.Some? <==> TokenTaken(old(invitations), inv.token)
      ensures invitations == if err.Some? then old(invitations) else old(invitations) + [inv]
      ensures tenants == old(tenants) && memberships == old(memberships) && users == old(users)
    {
      if exists i :: 0 <= i < |invitations| && invitations[i].token == inv.token {
        return Some(UniqueViolation);
      }
      invitations := invitations + [inv];
      return None;
    }

    /** `TenantUser::where(pair)->delete()`: soft-deletes the live rows of the pair and counts them. */
    method SoftDeletePair(tenantId: int, userId: int) returns (n: nat)
      requires Valid()
      modifies this
      ensures Valid()
      ensures memberships == SoftDeleted(old(memberships), tenantId, userId)
      ensures n == Count(old(memberships), (m: Membership) => LiveMatch(m, tenantId, userId))
      ensures tenants == old(tenants) && invitations == old(invitations) && users == old(users)
    {
      n := Count(memberships, (m: Membership) => LiveMatch(m, tenantId, userId));
      ghost var rows := memberships;
      memberships := SoftDeleted(memberships, tenantId, userId);
      assert forall j :: 0 <= j < |rows| ==> memberships[j].tenantId == rows[j].tenantId && memberships[j].userId == rows[j].userId;
    }

    /** updateLastAccess on the live row of the pair; nothing happens when there is none. */
    method UpdateLastAccess(tenantId: int, userId: int, now: int)
      requires Valid()
      modifies this
      ensures Valid()
      ensures |memberships| == |old(memberships)|
      ensures match LiveIndex(old(memberships), tenantId, userId)
        case None => memberships == old(memberships)
        case Some(k) => memberships == old(memberships)[k := Touched(old(memberships)[k], now)]
      ensures tenants == old(tenants) && invitations == old(invitations) && users == old(users)
    {
      var k := LiveIndex(memberships, tenantId, userId);
      if k.Some? {
        memberships := memberships[k.value := Touched(memberships[k.value], now)];
      }
    }

    /**
     * TenantInvitation::accept on the k-th invitation: a non-pending one is
     * refused without change; otherwise it becomes accepted and, when a user
     * is given, the pair is attached, which the unique index refuses when the
     * user already has a row in the tenant (the status change stays).
     */
    method AcceptInvitation(k: nat, user: Option<int>, now: int) returns (r: Result<bool, DbError>)
      requires Valid() && k < |invitations|
      modifies this
      ensures Valid()
      ensures var inv := old(invitations[k]);
        if !IsPending(inv, now) then
          r == Ok(false) && invitations == old(invitations) && memberships == old(memberships)
        else
          && invitations == old(invitations)[k := AcceptedAt(inv, now)]
          && (user.None? ==> r == Ok(true) && memberships == old(memberships))
          && (user.Some? && PairTaken(old(memberships), inv.tenantId, user.value) ==>
                r == Err(UniqueViolation) && memberships == old(memberships))
          && (user.Some? && !PairTaken(old(memberships), inv.tenantId, user.value) ==>
                r == Ok(true) && memberships == old(memberships) + [AttachedRow(inv, user.value, now)])
      ensures tenants == old(tenants) && users == old(users)
    {
      var inv := invitations[k];
      if !IsPending(inv, now) {
        return Ok(false);
      }
      invitations := invitations[k := AcceptedAt(inv, now)];
      assert forall i :: 0 <= i < |invitations| ==> invitations[i].token == old(invitations)[i].token;
      if user.Some? {
        var err := InsertMembership(AttachedRow(inv, user.value, now));
        if err.Some? {
          return Err(UniqueViolation);
        }
      }
      return Ok(true);
    }

    /** TenantInvitation::cancel: only a pending invitation (expired or not) becomes cancelled. */
    method CancelInvitation(k: nat) returns (ok: bool)
      requires Valid() && k < |invitations|
      modifies this
      ensures Valid()
      ensures ok <==> old(invitations[k]).status == Invitations.STATUS_PENDING
      ensures invitations == if ok then old(invitations)[k := old(invitations[k]).(status := Invitations.STATUS_CANCELLED)] else old(invitations)
      ensures tenants == old(tenants) && memberships == old(memberships) && users == old(users)
    {
      if invitations[k].status != Invitations.STATUS_PENDING {
        return false;
      }
      invitations := invitations[k := invitations[k].(status := Invitations.STATUS_CANCELLED)];
      assert forall i :: 0 <= i < |invitations| ==> invitations[i].token == old(invitations)[i].token;
      return true;
    }

    /** `User::create`: a row with the next auto-increment id. */
    method CreateUser(email: string, name: string) returns (u: User)
      requires Valid()
      modifies this
      ensures Valid()
      ensures u == User(NextUserId(old(users)), email, name) && users == old(users) + [u]
      ensures tenants == old(tenants) && memberships == old(memberships) && invitations == old(invitations)
    {
      u := User(NextUserId(users), email, name);
      users := users + [u];
    }

    /** An UPDATE of the k-th tenant_users row that keeps its (tenant_id, user_id) pair. */
    method ReplaceMembership(k: nat, m: Membership)
      requires Valid() && k < |memberships|
      requires m.tenantId == memberships[k].tenantId && m.userId == memberships[k].userId
      modifies this
      ensures Valid()
      ensures memberships == old(memberships)[k := m]
      ensures tenants == old(tenants) && invitations == old(invitations) && users == old(users)
    {
      memberships := memberships[k := m];
      assert forall i :: 0 <= i < |memberships| ==>
        memberships[i].tenantId == old(memberships)[i].tenantId && memberships[i].userId == old(memberships)[i].userId;
    }

    /** `$invitation->update(['status' => ...])`, with no check of the current status. */
    method SetInvitationStatus(k: nat, status: string)
      requires Valid() && k < |invitations|
      modifies this
      ensures Valid()
      ensures invitations == old(invitations)[k := old(invitations[k]).(status := status)]
      ensures tenants == old(tenants) && memberships == old(memberships) && users == old(users)
    {
      invitations := invitations[k := invitations[k].(status := status)];
      assert forall i :: 0 <= i < |invitations| ==> invitations[i].token == old(invitations)[i].token;
    }
  }
}
