/**
 * EnsureTenantMiddleware: a request passes only with a current tenant
 * that is active and, when billing is on, has a valid subscription.
 */
module EnsureTenant {
  import opened Wrappers
  import opened Config
  import opened Tenants
  import opened Http

  /** `hasValidSubscription`. */
  predicate HasValidSubscription(s: Settings, t: Tenant, now: int) {
    !s.billingEnabled || OnTrial(t, now) || SubscriptionActive(t, now)
  }

  /** `handle`, with the tenant the manager holds and whether the request expects JSON. */
  function Handle(s: Settings, current: Option<Tenant>, expectsJson: bool, now: int): (r: Response)
  {
    if current.None? then
      if expectsJson then Json(404, "Tenant not found", "No valid tenant could be identified for this request")
      else Redirect("http://" + s.centralDomain)
    else if !IsActive(current.value) then
      if expectsJson then Json(403, "Tenant inactive", "This tenant is currently inactive")
      else View(403, "multitenant::errors.tenant-inactive")
    else if !HasValidSubscription(s, current.value, now) then
      if expectsJson then Json(402, "Subscription required", "A valid subscription is required to access this tenant")
      else View(402, "multitenant::errors.subscription-required")
    else Passed
  }

  /** The request passes exactly when there is an active tenant with a valid subscription. */
  lemma HandlePasses(s: Settings, current: Option<Tenant>, expectsJson: bool, now: int)
    ensures Handle(s, current, expectsJson, now) == Passed <==>
      current.Some? && current.value.status == STATUS_ACTIVE && HasValidSubscription(s, current.value, now)
  {
  }

  /** Each refusal carries its own status: 404 (or a redirect to the central domain) without a tenant, 403 inactive, 402 unpaid. */
  lemma HandleRefusals(s: Settings, current: Option<Tenant>, expectsJson: bool, now: int)
    ensures var r := Handle(s, current, expectsJson, now);
      && (current.None? ==> if expectsJson then Status(r) == 404 else r == Redirect("http://" + s.centralDomain))
      && (current.Some? && !IsActive(current.value) ==> Status(r) == 403)
      && (current.Some? && IsActive(current.value) && !HasValidSubscription(s, current.value, now) ==> Status(r) == 402)
  {
  }

  /** With billing off, the subscription is never consulted. */
  lemma BillingOffIgnoresSubscription(s: Settings, t: Tenant, expectsJson: bool, now: int)
    requires !s.billingEnabled
    ensures Handle(s, Some(t), expectsJson, now) == Passed <==> IsActive(t)
  {
  }

  /**
   * The activity check comes first and a trial tenant is never active, so
   * with billing on only a paid subscription lets a request through: the
   * trial branch of `hasValidSubscription` is never reached.
   */
  lemma TrialTenantsAreRefused(s: Settings, t: Tenant, expectsJson: bool, now: int)
    requires s.billingEnabled
    ensures Handle(s, Some(t), expectsJson, now) == Passed <==> IsActive(t) && SubscriptionActive(t, now)
    ensures OnTrial(t, now) ==> Status(Handle(s, Some(t), expectsJson, now)) == 403
  {
    OnTrialExcludesActive(t, now);
  }
}
