/**
 * TenantResolver: finding the tenant of a request by subdomain, domain,
 * path, header or session, through the cache it shares with the manager,
 * and the manual `setTenant` / `clearTenant` that also keep the session.
 */
module Resolver {
  import opened Wrappers
  import opened PhpStrings
  import opened Seqs
  import opened Config
  import opened Tenants
  import opened TenantContext
  import opened Manager

  /** The parts of an HTTP request the resolver reads; `session` is absent when the request has no session store. */
  datatype Request = Request(host: string, path: string, tenantHeader: Option<string>, session: Option<map<string, int>>)

  /** `queryTenantByIdentifier`: slug, domain or subdomain, active, not trashed. */
  predicate QueryMatches(t: Tenant, identifier: string) {
    && !t.trashed
    && (t.slug == identifier || t.domain == Some(identifier) || t.subdomain == Some(identifier))
    && t.status == Tenants.STATUS_ACTIVE
  }

  function QueryByIdentifier(tenants: seq<Tenant>, identifier: string): (r: Option<Tenant>)
    ensures r.Some? ==> r.value in tenants && IsActive(r.value) && !r.value.trashed
    ensures r.Some? ==> r.value.slug == identifier || MatchesDomain(r.value, identifier)
    ensures r.None? ==> forall i :: 0 <= i < |tenants| ==> !QueryMatches(tenants[i], identifier)
  {
    First(tenants, (t: Tenant) => QueryMatches(t, identifier))
  }

  /** `findTenantByIdentifier`: the query through the cache when it is enabled, under the manager's key. */
  function FindByIdentifier(s: Settings, tenants: seq<Tenant>, cache: map<string, Tenant>, identifier: string): (r: (Option<Tenant>, map<string, Tenant>))
    ensures !s.cacheEnabled ==> r == (QueryByIdentifier(tenants, identifier), cache)
    ensures s.cacheEnabled && CacheKey(s, identifier) in cache ==> r == (Some(cache[CacheKey(s, identifier)]), cache)
    ensures s.cacheEnabled && CacheKey(s, identifier) !in cache ==> r.0 == QueryByIdentifier(tenants, identifier)
    ensures r.0.None? ==> r.1 == cache
    ensures r.1 == cache || (r.0.Some? && CacheKey(s, identifier) !in cache && r.1 == cache[CacheKey(s, identifier) := r.0.value])
  {
    if s.cacheEnabled then Remember(cache, CacheKey(s, identifier), QueryByIdentifier(tenants, identifier))
    else (QueryByIdentifier(tenants, identifier), cache)
  }

  /** The tenant slug of a path: its first segment, unless that is empty or "0". */
  function PathSlug(path: string): (r: Option<string>)
    ensures r.Some? ==> !Falsy(r.value) && StartsWith(path, r.value) && '/' !in r.value
    ensures r.Some? && |r.value| < |path| ==> path[|r.value|] == '/'
    ensures r.None? <==> Falsy(FirstSegment(path))
    ensures r.Some? ==> r.value == FirstSegment(path)
  {
    var segment := FirstSegment(path);
    if Falsy(segment) then None else Some(segment)
  }

  /** The session's `tenant_id`, 0 when missing. */
  function SessionTenantId(session: map<string, int>): int {
    if "tenant_id" in session then session["tenant_id"] else 0
  }

  /**
   * `resolve`. The subdomain pattern is a parameter: `subdomainOf(host)` is
   * the first capture group of a successful match.
   */
  function Resolve(s: Settings, subdomainOf: string -> Option<string>, req: Request, tenants: seq<Tenant>, cache: map<string, Tenant>): (r: (Option<Tenant>, map<string, Tenant>))
    ensures r.0.None? ==> r.1 == cache
    ensures !s.cacheEnabled || s.identificationMethod == SESSION ==> r.1 == cache
    ensures forall key :: key in cache ==> key in r.1 && r.1[key] == cache[key]
  {
    var how := s.identificationMethod;
    if how == SUBDOMAIN then
      if req.host == s.centralDomain then (None, cache)
      else match subdomainOf(req.host)
        case None => (None, cache)
        case Some(sub) => FindByIdentifier(s, tenants, cache, sub)
    else if how == DOMAIN then
      if req.host == s.centralDomain then (None, cache)
      else FindByIdentifier(s, tenants, cache, req.host)
    else if how == PATH then
      match PathSlug(req.path)
      case None => (None, cache)
      case Some(slug) => FindByIdentifier(s, tenants, cache, slug)
    else if how == HEADER then
      if !Truthy(req.tenantHeader) then (None, cache)
      else FindByIdentifier(s, tenants, cache, req.tenantHeader.value)
    else if how == SESSION then
      if req.session.None? || SessionTenantId(req.session.value) == 0 then (None, cache)
      else (FindById(tenants, SessionTenantId(req.session.value)), cache)
    else (None, cache)
  }

  /** The subdomain method: nothing for the central host or a host the pattern does not match, otherwise the captured subdomain is looked up. */
  lemma SubdomainBranch(s: Settings, subdomainOf: string -> Option<string>, req: Request, tenants: seq<Tenant>, cache: map<string, Tenant>)
    requires s.identificationMethod == SUBDOMAIN
    ensures req.host == s.centralDomain || subdomainOf(req.host).None? ==> Resolve(s, subdomainOf, req, tenants, cache) == (None, cache)
    ensures req.host != s.centralDomain && subdomainOf(req.host).Some? ==>
      Resolve(s, subdomainOf, req, tenants, cache) == FindByIdentifier(s, tenants, cache, subdomainOf(req.host).value)
  {
  }

  /** The domain method: nothing for the central host, otherwise the whole host is looked up. */
  lemma DomainBranch(s: Settings, subdomainOf: string -> Option<string>, req: Request, tenants: seq<Tenant>, cache: map<string, Tenant>)
    requires s.identificationMethod == DOMAIN
    ensures req.host != s.centralDomain ==> Resolve(s, subdomainOf, req, tenants, cache) == FindByIdentifier(s, tenants, cache, req.host)
  {
  }

  /** The path method: an empty or "0" first segment resolves nothing, any other first segment is looked up. */
  lemma PathBranch(s: Settings, subdomainOf: string -> Option<string>, req: Request, tenants: seq<Tenant>, cache: map<string, Tenant>)
    requires s.identificationMethod == PATH
    ensures FirstSegment(req.path) in {"", "0"} ==> Resolve(s, subdomainOf, req, tenants, cache) == (None, cache)
    ensures FirstSegment(req.path) !in {"", "0"} ==>
      Resolve(s, subdomainOf, req, tenants, cache) == FindByIdentifier(s, tenants, cache, FirstSegment(req.path))
  {
  }

  /** A request for `acme/orders` is looked up under the slug `acme`. */
  lemma PathSlugOfSegmentedPath()
    ensures PathSlug("acme/orders") == Some("acme")
  {
    assert FirstSegment("acme/orders") == "acme" by {
      assert "acme/orders"[4] == '/';
      assert "acme/orders"[..4] == "acme";
    }
  }

  /** The header method: a missing, empty or "0" X-Tenant-ID resolves nothing, any other value is looked up as an identifier. */
  lemma HeaderBranch(s: Settings, subdomainOf: string -> Option<string>, req: Request, tenants: seq<Tenant>, cache: map<string, Tenant>)
    requires s.identificationMethod == HEADER
    ensures req.tenantHeader.None? || req.tenantHeader.value in {"", "0"} ==> Resolve(s, subdomainOf, req, tenants, cache) == (None, cache)
    ensures req.tenantHeader.Some? && req.tenantHeader.value !in {"", "0"} ==>
      Resolve(s, subdomainOf, req, tenants, cache) == FindByIdentifier(s, tenants, cache, req.tenantHeader.value)
  {
  }

  /** An identification method outside the five the switch names falls into its default: no tenant, and the cache is not consulted. */
  lemma UnknownMethodResolvesNothing(s: Settings, subdomainOf: string -> Option<string>, req: Request, tenants: seq<Tenant>, cache: map<string, Tenant>)
    requires s.identificationMethod !in {SUBDOMAIN, DOMAIN, PATH, HEADER, SESSION}
    ensures Resolve(s, subdomainOf, req, tenants, cache) == (None, cache)
  {
  }

  /** Every cached identifier maps to what the resolver's own query finds now. */
  ghost predicate QueryFresh(s: Settings, tenants: seq<Tenant>, cache: map<string, Tenant>) {
    forall identifier :: CacheKey(s, identifier) in cache ==>
      QueryByIdentifier(tenants, identifier) == Some(cache[CacheKey(s, identifier)])
  }

  /** The central domain is never a tenant, and looking at it touches no cache. */
  lemma CentralDomainResolvesNothing(s: Settings, subdomainOf: string -> Option<string>, req: Request, tenants: seq<Tenant>, cache: map<string, Tenant>)
    requires s.identificationMethod == SUBDOMAIN || s.identificationMethod == DOMAIN
    requires req.host == s.centralDomain
    ensures Resolve(s, subdomainOf, req, tenants, cache) == (None, cache)
  {
  }

  /**
   * With a cache that agrees with the query, every method but the session
   * one resolves only active, live tenants of the table, and the cache
   * keeps agreeing.
   */
  lemma ResolvedTenantIsActive(s: Settings, subdomainOf: string -> Option<string>, req: Request, tenants: seq<Tenant>, cache: map<string, Tenant>)
    requires QueryFresh(s, tenants, cache) && s.identificationMethod != SESSION
    ensures var r := Resolve(s, subdomainOf, req, tenants, cache);
      (r.0.Some? ==> r.0.value in tenants && IsActive(r.0.value) && !r.0.value.trashed) && QueryFresh(s, tenants, r.1)
  {
    var how := s.identificationMethod;
    var identifier: Option<string> :=
      if how == SUBDOMAIN then (if req.host == s.centralDomain then None else subdomainOf(req.host))
      else if how == DOMAIN then (if req.host == s.centralDomain then None else Some(req.host))
      else if how == PATH then PathSlug(req.path)
      else if how == HEADER then (if Truthy(req.tenantHeader) then req.tenantHeader else None)
      else None;
    if identifier.Some? {
      FindByIdentifierOnFreshCache(s, tenants, cache, identifier.value);
    }
  }

  lemma FindByIdentifierOnFreshCache(s: Settings, tenants: seq<Tenant>, cache: map<string, Tenant>, identifier: string)
    requires QueryFresh(s, tenants, cache)
    ensures FindByIdentifier(s, tenants, cache, identifier).0 == QueryByIdentifier(tenants, identifier)
    ensures QueryFresh(s, tenants, FindByIdentifier(s, tenants, cache, identifier).1)
  {
    var r := FindByIdentifier(s, tenants, cache, identifier);
    forall other | CacheKey(s, other) in r.1
      ensures QueryByIdentifier(tenants, other) == Some(r.1[CacheKey(s, other)])
    {
      if other != identifier {
        CacheKeyInjective(s, other, identifier);
      }
    }
  }

  /** The session method looks the tenant up by key only, so a suspended tenant still resolves. */
  lemma SessionIgnoresStatus(s: Settings, subdomainOf: string -> Option<string>, req: Request, t: Tenant, cache: map<string, Tenant>)
    requires s.identificationMethod == SESSION && req.session.Some? && SessionTenantId(req.session.value) == t.id
    requires t.id != 0 && !t.trashed
    ensures Resolve(s, subdomainOf, req, [t], cache).0 == Some(t)
  {
  }

  /**
   * The manager's `find` and the resolver's `findTenantByIdentifier` store
   * under the same key but answer different queries: once the manager has
   * found an inactive tenant by its subdomain, the resolver serves it from
   * the cache although its own query finds nothing.
   */
  lemma SharedCacheServesInactiveTenant(t: Tenant)
    requires t.subdomain == Some("acme") && t.status == Tenants.STATUS_SUSPENDED && !t.trashed
    ensures var s := DefaultSettings;
      var afterManager := TenantContext.Find(s, [t], map[], "acme").1;
      && QueryByIdentifier([t], "acme").None?
      && FindByIdentifier(s, [t], afterManager, "acme").0 == Some(t)
  {
    var s := DefaultSettings;
    assert Identifies(s, t, "acme");
    assert ResolveTenant(s, [t], "acme") == Some(t);
  }

  /**
   * After `setTenant` stores a tenant's id in the session, the session
   * method resolves that tenant again, and after `clearTenant` nothing.
   */
  lemma SessionRoundTrip(s: Settings, subdomainOf: string -> Option<string>, req: Request, tenants: seq<Tenant>, cache: map<string, Tenant>, k: nat)
    requires s.identificationMethod == SESSION && req.session.Some?
    requires k < |tenants| && !tenants[k].trashed && tenants[k].id != 0
    requires forall i :: 0 <= i < |tenants| && i != k ==> tenants[i].id != tenants[k].id
    ensures var stored := req.(session := Some(req.session.value["tenant_id" := tenants[k].id]));
      Resolve(s, subdomainOf, stored, tenants, cache).0 == Some(tenants[k])
    ensures var cleared := req.(session := Some(req.session.value - {"tenant_id"}));
      Resolve(s, subdomainOf, cleared, tenants, cache).0.None?
  {
  }

  /** The resolver: it holds the request once booted, and sets the manager's tenant. */
  class TenantResolver {
    const manager: TenantManager
    const subdomainOf: string -> Option<string>
    var request: Option<Request>

    constructor (manager: TenantManager, subdomainOf: string -> Option<string>)
      ensures this.manager == manager && this.subdomainOf == subdomainOf && request.None?
    {
      this.manager := manager;
      this.subdomainOf := subdomainOf;
      request := None;
    }

    /** `boot`: take the request, resolve, and set a found tenant (which may throw). */
    method Boot(req: Request, tenants: seq<Tenant>) returns (found: Option<Tenant>, err: Option<Failure>)
      modifies this, manager, manager.config
      ensures request == Some(req)
      ensures var r := Resolve(manager.settings, subdomainOf, req, tenants, old(manager.cache));
        && found == r.0 && manager.cache == r.1
        && (found.None? ==> manager.Ctx() == old(manager.Ctx()) && err.None?)
        && (found.Some? ==> Step(manager.Ctx(), err) == TenantContext.Set(old(manager.Ctx()), found, manager.Env()))
    {
      request := Some(req);
      var r := Resolve(manager.settings, subdomainOf, req, tenants, manager.cache);
      manager.cache := r.1;
      found := r.0;
      err := None;
      if found.Some? {
        err := manager.Set(found);
      }
    }

    /**
     * `setTenant`: a numeric identifier is a key, anything else goes through
     * the cached query. Under the session method the id is then written to
     * the session, which fails when there is none, after the switch.
     */
    method SetTenant(identifier: string, tenants: seq<Tenant>) returns (r: Result<Option<Tenant>, Failure>)
      modifies this, manager, manager.config
      ensures var lookup := if IsIntegerString(identifier) then (FindById(tenants, IntCast(identifier)), old(manager.cache))
                            else FindByIdentifier(manager.settings, tenants, old(manager.cache), identifier);
        && manager.cache == lookup.1
        && (lookup.0.None? ==> r == Ok(None) && manager.Ctx() == old(manager.Ctx()) && request == old(request))
        && (lookup.0.Some? ==>
              var st := TenantContext.Set(old(manager.Ctx()), lookup.0, manager.Env());
              && manager.Ctx() == st.ctx
              && (st.err.Some? ==> r == Err(st.err.value) && request == old(request))
              && (st.err.None? && manager.settings.identificationMethod != SESSION ==> r == Ok(lookup.0) && request == old(request))
              && (st.err.None? && manager.settings.identificationMethod == SESSION
                  && (old(request).None? || old(request).value.session.None?) ==>
                    r == Err(NoSession) && request == old(request))
              && (st.err.None? && manager.settings.identificationMethod == SESSION
                  && old(request).Some? && old(request).value.session.Some? ==>
                    r == Ok(lookup.0)
                    && request == Some(old(request).value.(session := Some(old(request).value.session.value["tenant_id" := lookup.0.value.id])))))
    {
      var tenant: Option<Tenant>;
      if IsIntegerString(identifier) {
        tenant := FindById(tenants, IntCast(identifier));
      } else {
        var lookup := FindByIdentifier(manager.settings, tenants, manager.cache, identifier);
        manager.cache := lookup.1;
        tenant := lookup.0;
      }
      if tenant.None? {
        return Ok(None);
      }
      var err := manager.Set(tenant);
      if err.Some? {
        return Err(err.value);
      }
      if manager.settings.identificationMethod == SESSION {
        if request.None? || request.value.session.None? {
          return Err(NoSession);
        }
        var req := request.value;
        request := Some(req.(session := Some(req.session.value["tenant_id" := tenant.value.id])));
      }
      return Ok(tenant);
    }

    /** `clearTenant`: forget the manager's tenant, then the session's `tenant_id` under the session method. */
    method ClearTenant() returns (err: Option<Failure>)
      modifies this, manager, manager.config
      ensures manager.Ctx() == TenantContext.Set(old(manager.Ctx()), None, manager.Env()).ctx
      ensures manager.cache == old(manager.cache)
      ensures manager.settings.identificationMethod != SESSION ==> err.None? && request == old(request)
      ensures manager.settings.identificationMethod == SESSION ==>
        if old(request).None? || old(request).value.session.None? then err == Some(NoSession) && request == old(request)
        else err.None? && request == Some(old(request).value.(session := Some(old(request).value.session.value - {"tenant_id"})))
    {
      manager.Forget();
      if manager.settings.identificationMethod == SESSION {
        if request.None? || request.value.session.None? {
          return Some(NoSession);
        }
        var req := request.value;
        request := Some(req.(session := Some(req.session.value - {"tenant_id"})));
      }
      return None;
    }
  }
}
