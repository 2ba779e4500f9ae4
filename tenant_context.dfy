/**
 * What TenantManager does, stated on values: the current tenant of a
 * request, switching the application between the central database and a
 * tenant's database, schema or tenant-id slot, running callbacks inside a
 * tenant's context, and the identifier lookup with its cache. The class in
 * module Manager performs these changes on its fields and is proved to
 * agree with them.
 */
module TenantContext {
  import opened Wrappers
  import opened Seqs
  import opened Config
  import opened Tenants

  /** What the manager dispatches: `tenant.switched` and `tenant.cleared`. */
  datatype Event = Switched(tenant: Tenant) | Cleared

  datatype Failure =
    | NotResolved                        // TenantNotResolvedException
    | ConnectionFailed(connection: string) // "Could not connect to tenant database"
    | CallbackError(code: int)           // an exception thrown by a callback
    | NoSession                          // session() on a request without a session store
    | NullTenant                         // a method called on a null `tenant` relation (a PHP Error)

  /** What a callback can return. */
  datatype Value = Nothing | Number(n: int) | TenantOf(tenant: Option<Tenant>)

  datatype Outcome = Returned(value: Value) | Threw(failure: Failure)

  /**
   * What stays fixed while the manager runs: the package configuration,
   * the `database.default` captured when the manager was built, and the
   * connections whose test (`getPdo`) succeeds.
   */
  datatype Environment = Environment(settings: Settings, originalConnection: string, reachable: set<string>)

  /** The state the manager reads and writes. */
  datatype Context = Context(
    current: Option<Tenant>,
    defaultConnection: string,            // database.default
    connections: map<string, Connection>, // database.connections
    tenantId: Option<int>,                // the `current_tenant_id` container binding
    searchPath: Option<string>,           // the PostgreSQL session's search_path
    events: seq<Event>)

  /** A state change that may end in an exception, after its writes have happened. */
  datatype Step = Step(ctx: Context, err: Option<Failure>)

  /**
   * The callbacks given to `run` and `each`, as the actions they take on
   * the manager: return a value, read `current()`, throw, call `set`,
   * call `run` again, or one action after another.
   */
  datatype Callback =
    | Return(v: int)
    | ReadCurrent
    | Throw(code: int)
    | SetTo(target: Option<Tenant>)
    | RunIn(tenant: Tenant, body: Callback)
    | Then(first: Callback, second: Callback)

  /**
   * How the switchable state follows the current tenant under each
   * strategy: the default connection is the tenant's under
   * multiple_databases and the original one otherwise; the tenant-id slot
   * holds the tenant's id under single_database and nothing otherwise;
   * the search_path names the tenant's schema under multiple_schemas.
   */
  predicate Coherent(c: Context, env: Environment) {
    var strategy := env.settings.databaseStrategy;
    && c.defaultConnection == (if strategy == MULTIPLE_DATABASES && c.current.Some? then ConnectionName(c.current.value) else env.originalConnection)
    && c.tenantId == (if strategy == SINGLE_DATABASE && c.current.Some? then Some(c.current.value.id) else None)
    && (strategy == MULTIPLE_SCHEMAS && c.current.Some? ==>
          c.searchPath == Some(DatabaseName(c.current.value, env.settings.dbPrefix, env.settings.dbSuffix)))
  }

  /** What a caller can observe of the tenant context. */
  function View(c: Context): (Option<Tenant>, string, Option<int>) {
    (c.current, c.defaultConnection, c.tenantId)
  }

  /** Whether switching to `t` passes the connection test. */
  predicate CanEnter(t: Tenant, env: Environment) {
    env.settings.databaseStrategy != MULTIPLE_DATABASES || ConnectionName(t) in env.reachable
  }

  /** switchToTenant (without the assignment of the current tenant, which `set` does first). */
  function SwitchToTenant(c: Context, t: Tenant, env: Environment): (r: Step)
    ensures r.ctx.current == c.current
    ensures r.err.Some? <==> !CanEnter(t, env)
    ensures env.settings.databaseStrategy == MULTIPLE_DATABASES ==>
      r.ctx.defaultConnection == ConnectionName(t) && ConnectionName(t) in r.ctx.connections
    ensures env.settings.databaseStrategy == SINGLE_DATABASE ==> r.ctx.tenantId == Some(t.id)
    ensures env.settings.databaseStrategy == MULTIPLE_SCHEMAS ==>
      r.ctx.searchPath == Some(DatabaseName(t, env.settings.dbPrefix, env.settings.dbSuffix))
    ensures c.connections.Keys <= r.ctx.connections.Keys
  {
    var s := env.settings;
    if s.databaseStrategy == MULTIPLE_DATABASES then
      var name := ConnectionName(t);
      var c1 := c.(connections := Configured(c.connections, t, s), defaultConnection := name);
      if name in env.reachable then Step(c1.(events := c1.events + [Switched(t)]), None)
      else Step(c1, Some(ConnectionFailed(name)))
    else
      var c1 :=
        if s.databaseStrategy == MULTIPLE_SCHEMAS then c.(searchPath := Some(DatabaseName(t, s.dbPrefix, s.dbSuffix)))
        else if s.databaseStrategy == SINGLE_DATABASE then c.(tenantId := Some(t.id))
        else c;
      Step(c1.(events := c1.events + [Switched(t)]), None)
  }

  /** switchToCentral: it restores the default connection and the tenant-id slot, but not the search_path. */
  function SwitchToCentral(c: Context, env: Environment): Context {
    c.(defaultConnection := env.originalConnection, tenantId := None, events := c.events + [Cleared])
  }

  /**
   * `set`: the current tenant is assigned first, then the switch, so a
   * failed connection test leaves the new tenant current.
   */
  function Set(c: Context, target: Option<Tenant>, env: Environment): (r: Step)
    ensures r.ctx.current == target
    ensures r.err.Some? <==> target.Some? && !CanEnter(target.value, env)
    ensures r.err.Some? ==> r.err.value == ConnectionFailed(ConnectionName(target.value))
    ensures Coherent(c, env) ==> Coherent(r.ctx, env)
    ensures r.ctx.events == c.events + [if target.Some? then Switched(target.value) else Cleared]
         || (r.err.Some? && r.ctx.events == c.events)
    ensures target.None? ==> r.ctx.searchPath == c.searchPath
    ensures c.connections.Keys <= r.ctx.connections.Keys
  {
    var c1 := c.(current := target);
    if target.Some? then SwitchToTenant(c1, target.value, env)
    else Step(SwitchToCentral(c1, env), None)
  }

  /** Running a callback: the state it leaves and what it returns or throws. */
  function Exec(cb: Callback, c: Context, env: Environment): (r: (Outcome, Context))
    decreases cb, 1
  {
    match cb
    case Return(v) => (Returned(Number(v)), c)
    case ReadCurrent => (Returned(TenantOf(c.current)), c)
    case Throw(code) => (Threw(CallbackError(code)), c)
    case SetTo(target) =>
      var st := Set(c, target, env);
      (if st.err.Some? then Threw(st.err.value) else Returned(Nothing), st.ctx)
    case Then(a, b) =>
      var first := Exec(a, c, env);
      if first.0.Threw? then first else Exec(b, first.1, env)
    case RunIn(t, body) => Run(t, body, c, env)
  }

  /** `run`: try { set($tenant); return $callback(); } finally { set($originalTenant); } */
  function Run(t: Tenant, body: Callback, c: Context, env: Environment): (r: (Outcome, Context))
    ensures r.1.current == c.current
    ensures r.0.Returned? ==> CanEnter(t, env)
    decreases body, 2
  {
    var entered := Set(c, Some(t), env);
    var inner := if entered.err.Some? then (Threw(entered.err.value), entered.ctx) else Exec(body, entered.ctx, env);
    var restored := Set(inner.1, c.current, env);
    (if restored.err.Some? then Threw(restored.err.value) else inner.0, restored.ctx)
  }

  /** A coherent state stays coherent whatever the callback does. */
  lemma {:induction false} ExecPreservesCoherent(cb: Callback, c: Context, env: Environment)
    requires Coherent(c, env)
    ensures Coherent(Exec(cb, c, env).1, env)
    decreases cb
  {
    match cb
    case Then(a, b) =>
      ExecPreservesCoherent(a, c, env);
      var first := Exec(a, c, env);
      if !first.0.Threw? {
        ExecPreservesCoherent(b, first.1, env);
      }
    case RunIn(t, body) =>
      var entered := Set(c, Some(t), env);
      if entered.err.None? {
        ExecPreservesCoherent(body, entered.ctx, env);
      }
    case _ =>
  }

  /**
   * `run` puts back what was there before: the current tenant, the default
   * connection and the tenant-id slot, whether the callback returns,
   * throws, switches tenants itself, or the switch fails.
   */
  lemma RunRestores(t: Tenant, body: Callback, c: Context, env: Environment)
    requires Coherent(c, env)
    ensures var r := Run(t, body, c, env);
      View(r.1) == View(c) && Coherent(r.1, env)
  {
    var entered := Set(c, Some(t), env);
    if entered.err.None? {
      ExecPreservesCoherent(body, entered.ctx, env);
    }
  }

  /** Inside `run`, the callback sees the tenant it was given. */
  lemma CallbackSeesItsTenant(t: Tenant, c: Context, env: Environment)
    requires CanEnter(t, env) && (c.current.None? || CanEnter(c.current.value, env))
    ensures Run(t, ReadCurrent, c, env).0 == Returned(TenantOf(Some(t)))
  {
  }

  /** An exception from the callback leaves `run` unchanged when the switches succeed. */
  lemma RunPropagatesThrow(t: Tenant, code: int, c: Context, env: Environment)
    requires CanEnter(t, env) && (c.current.None? || CanEnter(c.current.value, env))
    ensures Run(t, Throw(code), c, env).0 == Threw(CallbackError(code))
  {
  }

  /** `run` either throws or returns what its callback returned in the tenant's context. */
  lemma RunReturnsCallbackValue(t: Tenant, body: Callback, c: Context, env: Environment)
    ensures var o := Run(t, body, c, env).0;
      o.Threw? || (CanEnter(t, env) && o == Exec(body, Set(c, Some(t), env).ctx, env).0)
  {
  }

  /** After a nested `run` returns, the outer callback is back in the outer tenant. */
  lemma NestedRunsAreLifo(a: Tenant, b: Tenant, body: Callback, c: Context, env: Environment)
    requires Coherent(c, env)
    ensures var o := Run(a, Then(RunIn(b, body), ReadCurrent), c, env).0;
      o.Threw? || o == Returned(TenantOf(Some(a)))
  {
    var outer := Then(RunIn(b, body), ReadCurrent);
    RunReturnsCallbackValue(a, outer, c, env);
    if CanEnter(a, env) {
      var entered := Set(c, Some(a), env).ctx;
      assert Coherent(entered, env) && entered.current == Some(a);
      RunRestores(b, body, entered, env);
      ExecRunIn(b, body, entered, env);
      ThenReadCurrent(RunIn(b, body), entered, env);
    }
  }

  lemma ExecRunIn(t: Tenant, body: Callback, c: Context, env: Environment)
    ensures Exec(RunIn(t, body), c, env) == Run(t, body, c, env)
  {
  }

  lemma ThenReadCurrent(first: Callback, c: Context, env: Environment)
    ensures var o := Exec(Then(first, ReadCurrent), c, env).0;
      o.Threw? || o == Returned(TenantOf(Exec(first, c, env).1.current))
  {
  }

  /**
   * switchToCentral does not reset the search_path: under
   * multiple_schemas, a `run` that starts outside any tenant comes back
   * with no current tenant but with the tenant's schema still first on
   * the search_path.
   */
  lemma SearchPathLeaksAfterRun(t: Tenant, body: Callback, c: Context, env: Environment)
    requires env.settings.databaseStrategy == MULTIPLE_SCHEMAS && c.current.None?
    requires Exec(body, Set(c, Some(t), env).ctx, env).1.current == Some(t)
    ensures var r := Run(t, body, c, env).1;
      r.current.None? && r.searchPath == Exec(body, Set(c, Some(t), env).ctx, env).1.searchPath
      && (Coherent(c, env) ==> r.searchPath == Some(DatabaseName(t, env.settings.dbPrefix, env.settings.dbSuffix)))
  {
    if Coherent(c, env) {
      var entered := Set(c, Some(t), env);
      ExecPreservesCoherent(body, entered.ctx, env);
    }
  }

  /**
   * `each` over the tenants it loaded: a `run` per tenant in order,
   * stopping at the first exception. The third component is how many
   * runs were started.
   */
  function EachFrom(ts: seq<Tenant>, f: Tenant -> Callback, c: Context, env: Environment): (r: (Outcome, Context, nat))
    ensures r.2 <= |ts|
    ensures r.0.Returned? ==> r.0 == Returned(Nothing) && r.2 == |ts|
    ensures r.0.Threw? ==> 1 <= r.2
    decreases |ts|, 1
  {
    if ts == [] then (Returned(Nothing), c, 0)
    else EachAfter(Run(ts[0], f(ts[0]), c, env), ts[1..], f, env)
  }

  /** What `each` does once the run for one tenant has given `first`: stop if it threw, otherwise go on with `rest`. */
  function EachAfter(first: (Outcome, Context), rest: seq<Tenant>, f: Tenant -> Callback, env: Environment): (r: (Outcome, Context, nat))
    ensures r.2 <= |rest| + 1
    ensures r.0.Returned? ==> r.0 == Returned(Nothing) && r.2 == |rest| + 1
    ensures r.0.Threw? ==> 1 <= r.2
    decreases |rest|, 2
  {
    if first.0.Threw? then (first.0, first.1, 1)
    else
      var next := EachFrom(rest, f, first.1, env);
      (next.0, next.1, next.2 + 1)
  }

  /** One step of `each` at position i, once the run for `ts[i]` has given `after`. */
  lemma EachStep(ts: seq<Tenant>, i: nat, f: Tenant -> Callback, before: Context, after: (Outcome, Context), env: Environment)
    requires i < |ts| && after == Run(ts[i], f(ts[i]), before, env)
    ensures after.0.Threw? ==> EachFrom(ts[i..], f, before, env) == (after.0, after.1, 1)
    ensures !after.0.Threw? ==>
      var next := EachFrom(ts[i + 1..], f, after.1, env);
      EachFrom(ts[i..], f, before, env) == (next.0, next.1, next.2 + 1)
  {
    assert ts[i..][1..] == ts[i + 1..];
  }

  /** `each` also puts back the tenant context it started in. */
  lemma {:induction false} EachRestores(ts: seq<Tenant>, f: Tenant -> Callback, c: Context, env: Environment)
    requires Coherent(c, env)
    ensures var r := EachFrom(ts, f, c, env);
      View(r.1) == View(c) && Coherent(r.1, env)
    decreases |ts|
  {
    if ts != [] {
      RunRestores(ts[0], f(ts[0]), c, env);
      var first := Run(ts[0], f(ts[0]), c, env);
      if !first.0.Threw? {
        EachRestores(ts[1..], f, first.1, env);
      }
    }
  }

  /** The cache key of an identifier. */
  function CacheKey(s: Settings, identifier: string): string {
    s.cachePrefix + "identifier:" + identifier
  }

  lemma CacheKeyInjective(s: Settings, a: string, b: string)
    requires a != b
    ensures CacheKey(s, a) != CacheKey(s, b)
  {
    var n := |s.cachePrefix + "identifier:"|;
    assert CacheKey(s, a)[n..] == a;
    assert CacheKey(s, b)[n..] == b;
  }

  /**
   * `Cache::remember`: a hit returns the stored tenant; a miss returns the
   * computed one and stores it unless it is null.
   */
  function Remember(cache: map<string, Tenant>, key: string, computed: Option<Tenant>): (r: (Option<Tenant>, map<string, Tenant>))
    ensures key in cache ==> r == (Some(cache[key]), cache)
    ensures key !in cache && computed.None? ==> r == (None, cache)
    ensures key !in cache && computed.Some? ==> r == (computed, cache[key := computed.value])
  {
    if key in cache then (Some(cache[key]), cache)
    else if computed.Some? then (computed, cache[key := computed.value])
    else (None, cache)
  }

  /** The match of `resolveTenant`: by domain or subdomain under those methods, by slug otherwise; trashed tenants never match. */
  predicate Identifies(s: Settings, t: Tenant, identifier: string) {
    && !t.trashed
    && if s.identificationMethod == SUBDOMAIN || s.identificationMethod == DOMAIN then MatchesDomain(t, identifier)
       else t.slug == identifier
  }

  function ResolveTenant(s: Settings, tenants: seq<Tenant>, identifier: string): (r: Option<Tenant>)
    ensures r.Some? ==> r.value in tenants && Identifies(s, r.value, identifier)
    ensures r.None? ==> forall i :: 0 <= i < |tenants| ==> !Identifies(s, tenants[i], identifier)
  {
    First(tenants, (t: Tenant) => Identifies(s, t, identifier))
  }

  /** `find`: through the cache when it is enabled. */
  function Find(s: Settings, tenants: seq<Tenant>, cache: map<string, Tenant>, identifier: string): (r: (Option<Tenant>, map<string, Tenant>))
    ensures !s.cacheEnabled ==> r == (ResolveTenant(s, tenants, identifier), cache)
    ensures s.cacheEnabled && CacheKey(s, identifier) in cache ==> r == (Some(cache[CacheKey(s, identifier)]), cache)
    ensures s.cacheEnabled && CacheKey(s, identifier) !in cache ==> r.0 == ResolveTenant(s, tenants, identifier)
    ensures r.0.None? ==> r.1 == cache
    ensures r.1 == cache || (r.0.Some? && CacheKey(s, identifier) !in cache && r.1 == cache[CacheKey(s, identifier) := r.0.value])
  {
    if s.cacheEnabled then Remember(cache, CacheKey(s, identifier), ResolveTenant(s, tenants, identifier))
    else (ResolveTenant(s, tenants, identifier), cache)
  }

  /** Every cached identifier maps to what `resolveTenant` finds in the table now. */
  ghost predicate Fresh(s: Settings, tenants: seq<Tenant>, cache: map<string, Tenant>) {
    forall identifier :: CacheKey(s, identifier) in cache ==>
      ResolveTenant(s, tenants, identifier) == Some(cache[CacheKey(s, identifier)])
  }

  /** On a fresh cache `find` returns what the table holds, and the cache stays fresh. */
  lemma FindOnFreshCache(s: Settings, tenants: seq<Tenant>, cache: map<string, Tenant>, identifier: string)
    requires Fresh(s, tenants, cache)
    ensures Find(s, tenants, cache, identifier).0 == ResolveTenant(s, tenants, identifier)
    ensures Fresh(s, tenants, Find(s, tenants, cache, identifier).1)
  {
    var r := Find(s, tenants, cache, identifier);
    forall other | CacheKey(s, other) in r.1
      ensures ResolveTenant(s, tenants, other) == Some(r.1[CacheKey(s, other)])
    {
      if other != identifier {
        CacheKeyInjective(s, other, identifier);
      }
    }
  }

  /** The keys `delete` forgets: slug, domain and subdomain (a null one gives the empty identifier). */
  function Evicted(s: Settings, cache: map<string, Tenant>, t: Tenant): (r: map<string, Tenant>)
    ensures r.Keys == cache.Keys - {CacheKey(s, t.slug), CacheKey(s, t.domain.GetOr("")), CacheKey(s, t.subdomain.GetOr(""))}
    ensures forall k :: k in r ==> r[k] == cache[k]
  {
    cache - {CacheKey(s, t.slug), CacheKey(s, t.domain.GetOr("")), CacheKey(s, t.subdomain.GetOr(""))}
  }

  /**
   * Soft-deleting a tenant and forgetting its three keys keeps a fresh
   * cache fresh: no cached identifier leads to the deleted tenant.
   */
  lemma DeleteKeepsCacheFresh(s: Settings, tenants: seq<Tenant>, cache: map<string, Tenant>, k: nat)
    requires k < |tenants| && Fresh(s, tenants, cache)
    ensures Fresh(s, tenants[k := tenants[k].(trashed := true)], Evicted(s, cache, tenants[k]))
  {
    var t := tenants[k];
    var after := tenants[k := t.(trashed := true)];
    var evicted := Evicted(s, cache, t);
    forall identifier | CacheKey(s, identifier) in evicted
      ensures ResolveTenant(s, after, identifier) == Some(evicted[CacheKey(s, identifier)])
    {
      var p := (x: Tenant) => Identifies(s, x, identifier);
      if identifier == t.slug || t.domain == Some(identifier) || t.subdomain == Some(identifier) {
        assert false;
      }
      assert !p(t) && !p(t.(trashed := true));
      FirstIndexUnaffected(tenants, p, k, t.(trashed := true));
    }
  }
}
