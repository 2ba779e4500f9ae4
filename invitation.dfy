/**
 * The TenantInvitation model as a value: the defaults filled in on
 * creation, expiry and pendency, and the pending/expired query scopes.
 * The transitions accept and cancel write the store (see Store).
 */
module Invitations {
  import opened Wrappers
  import opened PhpStrings
  import opened Seqs

  const STATUS_PENDING := "pending"
  const STATUS_ACCEPTED := "accepted"
  const STATUS_EXPIRED := "expired"
  const STATUS_CANCELLED := "cancelled"

  /** `now()->addDays(7)`, in seconds. */
  const SEVEN_DAYS := 7 * 24 * 60 * 60

  /** A row of `tenant_invitations`. */
  datatype Invitation = Invitation(
    tenantId: int,
    email: string,
    role: string,
    token: string,
    status: string,
    invitedBy: Option<int>,
    expiresAt: int,
    acceptedAt: Option<int>,
    message: Option<string>,
    createdAt: int)

  /**
   * The row the `creating` hook produces. `generated` stands for
   * `Str::random(40)`; the hook uses it only when no truthy token was given.
   * The status is the column default, pending.
   */
  function Created(tenantId: int, email: string, role: string, token: Option<string>, expiresAt: Option<int>,
                   invitedBy: Option<int>, message: Option<string>, now: int, generated: string): (inv: Invitation)
    requires |generated| == 40
    ensures Truthy(token) ==> inv.token == token.value
    ensures !Truthy(token) ==> inv.token == generated && |inv.token| == 40
    ensures expiresAt.Some? ==> inv.expiresAt == expiresAt.value
    ensures expiresAt.None? ==> inv.expiresAt == now + SEVEN_DAYS
    ensures inv.status == STATUS_PENDING && inv.acceptedAt.None? && inv.createdAt == now
    ensures inv.tenantId == tenantId && inv.email == email && inv.role == role && inv.invitedBy == invitedBy
  {
    Invitation(tenantId, email, role,
               if Truthy(token) then token.value else generated,
               STATUS_PENDING, invitedBy,
               if expiresAt.Some? then expiresAt.value else now + SEVEN_DAYS,
               None, message, now)
  }

  /** A fresh invitation without explicit expiry is pending for the next seven days and expired afterwards. */
  lemma FreshInvitationLifetime(inv: Invitation, now: int, later: int)
    requires inv.status == STATUS_PENDING && inv.expiresAt == now + SEVEN_DAYS && now <= later
    ensures IsPending(inv, later) <==> later <= now + SEVEN_DAYS
  {
  }

  /** `expires_at->isPast()`. */
  predicate IsExpired(inv: Invitation, now: int) {
    inv.expiresAt < now
  }

  predicate IsPending(inv: Invitation, now: int) {
    inv.status == STATUS_PENDING && !IsExpired(inv, now)
  }

  /** The invitation after a successful accept. */
  function AcceptedAt(inv: Invitation, now: int): (r: Invitation)
    ensures r.status == STATUS_ACCEPTED && r.acceptedAt == Some(now)
    ensures r.(status := inv.status, acceptedAt := inv.acceptedAt) == inv
  {
    inv.(status := STATUS_ACCEPTED, acceptedAt := Some(now))
  }

  /** After accepting, the invitation is no longer pending, so a second accept fails. */
  lemma AcceptedIsNotPending(inv: Invitation, now: int, later: int)
    ensures !IsPending(AcceptedAt(inv, now), later)
  {
  }

  /** `scopePending`: status pending and expiry strictly in the future. */
  function ScopePending(invs: seq<Invitation>, now: int): seq<Invitation> {
    Filter(invs, (i: Invitation) => i.status == STATUS_PENDING && i.expiresAt > now)
  }

  /** `scopeExpired`: expiry not in the future, or status expired. */
  function ScopeExpired(invs: seq<Invitation>, now: int): seq<Invitation> {
    Filter(invs, (i: Invitation) => i.expiresAt <= now || i.status == STATUS_EXPIRED)
  }

  /**
   * The scope and the predicate disagree only at the instant of expiry:
   * a row with `expires_at == now` is isPending but not in scopePending.
   */
  lemma ScopePendingVersusIsPending(invs: seq<Invitation>, now: int, inv: Invitation)
    requires inv in invs
    ensures inv in ScopePending(invs, now) ==> IsPending(inv, now)
    ensures IsPending(inv, now) && inv.expiresAt != now ==> inv in ScopePending(invs, now)
    ensures IsPending(inv, now) && inv.expiresAt == now ==> inv !in ScopePending(invs, now)
  {
    FilterMembership(invs, (i: Invitation) => i.status == STATUS_PENDING && i.expiresAt > now, inv);
  }

  /** No row is in both scopes. */
  lemma ScopesDisjoint(invs: seq<Invitation>, now: int, inv: Invitation)
    ensures !(inv in ScopePending(invs, now) && inv in ScopeExpired(invs, now))
  {
    FilterMembership(invs, (i: Invitation) => i.status == STATUS_PENDING && i.expiresAt > now, inv);
    FilterMembership(invs, (i: Invitation) => i.expiresAt <= now || i.status == STATUS_EXPIRED, inv);
  }
}
