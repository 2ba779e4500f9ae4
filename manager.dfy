/**
 * TenantManager as an object: its fields are the current tenant, the
 * tenant-id slot, the search_path, the dispatched events and the cache,
 * and it writes `database.*` through the shared ConfigRepository. Each
 * method is proved to agree with the definition in TenantContext.
 */
module Manager {
  import opened Wrappers
  import opened Config
  import opened Tenants
  import opened TenantContext
  import Store

  /** The manager bound in the container as `tenant`. */
  class TenantManager {
    const settings: Settings
    const originalConnection: string
    const reachable: set<string>
    const config: ConfigRepository
    var current: Option<Tenant>
    var tenantId: Option<int>
    var searchPath: Option<string>
    var events: seq<Event>
    /** The application cache, shared with the resolver. */
    var cache: map<string, Tenant>

    function Env(): Environment {
      Environment(settings, originalConnection, reachable)
    }

    function Ctx(): Context
      reads this, config
    {
      Context(current, config.defaultConnection, config.connections, tenantId, searchPath, events)
    }

    ghost predicate Valid()
      reads this, config
    {
      Coherent(Ctx(), Env())
    }

    /** The original connection is `database.default` at construction. */
    constructor (settings: Settings, config: ConfigRepository, reachable: set<string>)
      ensures this.settings == settings && this.config == config && this.reachable == reachable
      ensures originalConnection == config.defaultConnection
      ensures current.None? && tenantId.None? && searchPath.None? && events == [] && cache == map[]
      ensures Valid()
    {
      this.settings := settings;
      this.config := config;
      this.reachable := reachable;
      originalConnection := config.defaultConnection;
      current := None;
      tenantId := None;
      searchPath := None;
      events := [];
      cache := map[];
    }

    /** `current()` in its nullable form. */
    method Current() returns (t: Option<Tenant>)
      ensures t == current
    {
      return current;
    }

    /** `current()` in its throwing form. */
    method CurrentOrFail() returns (r: Result<Tenant, Failure>)
      ensures current.Some? ==> r == Ok(current.value)
      ensures current.None? ==> r == Err(NotResolved)
    {
      if current.None? {
        return Err(NotResolved);
      }
      return Ok(current.value);
    }

    method Check() returns (b: bool)
      ensures b <==> current.Some?
    {
      return current.Some?;
    }

    method SwitchToTenant(t: Tenant) returns (err: Option<Failure>)
      modifies this, config
      ensures Step(Ctx(), err) == TenantContext.SwitchToTenant(old(Ctx()), t, Env())
      ensures cache == old(cache)
    {
      if settings.databaseStrategy == MULTIPLE_DATABASES {
        var name := ConnectionName(t);
        config.ConfigureDatabaseConnection(t, settings);
        config.defaultConnection := name;
        if name !in reachable {
          return Some(ConnectionFailed(name));
        }
      } else if settings.databaseStrategy == MULTIPLE_SCHEMAS {
        searchPath := Some(DatabaseName(t, settings.dbPrefix, settings.dbSuffix));
      } else if settings.databaseStrategy == SINGLE_DATABASE {
        tenantId := Some(t.id);
      }
      events := events + [Switched(t)];
      return None;
    }

    method SwitchToCentral()
      modifies this, config
      ensures Ctx() == TenantContext.SwitchToCentral(old(Ctx()), Env())
      ensures cache == old(cache)
    {
      config.defaultConnection := originalConnection;
      tenantId := None;
      events := events + [Cleared];
    }

    method Set(target: Option<Tenant>) returns (err: Option<Failure>)
      modifies this, config
      ensures Step(Ctx(), err) == TenantContext.Set(old(Ctx()), target, Env())
      ensures cache == old(cache)
      ensures old(Valid()) ==> Valid()
    {
      current := target;
      if target.Some? {
        err := SwitchToTenant(target.value);
      } else {
        SwitchToCentral();
        err := None;
      }
    }

    method Forget()
      modifies this, config
      ensures Ctx() == TenantContext.Set(old(Ctx()), None, Env()).ctx
      ensures cache == old(cache)
      ensures old(Valid()) ==> Valid() && current.None?
    {
      var _ := Set(None);
    }

    method Exec(cb: Callback) returns (o: Outcome)
      modifies this, config
      ensures (o, Ctx()) == TenantContext.Exec(cb, old(Ctx()), Env())
      ensures cache == old(cache)
      decreases cb, 1
    {
      match cb {
        case Return(v) => o := Returned(Number(v));
        case ReadCurrent => o := Returned(TenantOf(current));
        case Throw(code) => o := Threw(CallbackError(code));
        case SetTo(target) =>
          var err := Set(target);
          o := if err.Some? then Threw(err.value) else Returned(Nothing);
        case Then(a, b) =>
          o := Exec(a);
          if !o.Threw? {
            o := Exec(b);
          }
        case RunIn(t, body) =>
          o := Run(t, body);
      }
    }

    /** `run`: the callback between two calls of `set`, the second in a `finally`. */
    method Run(t: Tenant, body: Callback) returns (o: Outcome)
      modifies this, config
      ensures (o, Ctx()) == TenantContext.Run(t, body, old(Ctx()), Env())
      ensures cache == old(cache)
      ensures old(Valid()) ==> Valid() && View(Ctx()) == View(old(Ctx()))
      decreases body, 2
    {
      ghost var c0 := Ctx();
      var original := current;
      var err := Set(Some(t));
      if err.Some? {
        o := Threw(err.value);
      } else {
        o := Exec(body);
      }
      var restoreErr := Set(original);
      if restoreErr.Some? {
        o := Threw(restoreErr.value);
      }
      if old(Valid()) {
        RunRestores(t, body, c0, Env());
      }
    }

    /** `each`: a `run` for every active tenant of the table, in order, until one throws. */
    method Each(tenants: seq<Tenant>, f: Tenant -> Callback) returns (o: Outcome)
      modifies this, config
      ensures var r := EachFrom(ActiveTenants(tenants), f, old(Ctx()), Env());
        o == r.0 && Ctx() == r.1
      ensures cache == old(cache)
      ensures old(Valid()) ==> Valid() && View(Ctx()) == View(old(Ctx()))
    {
      var ts := ActiveTenants(tenants);
      ghost var c0 := Ctx();
      var i := 0;
      o := Returned(Nothing);
      while i < |ts|
        invariant 0 <= i <= |ts|
        invariant cache == old(cache)
        invariant EachFrom(ts[i..], f, Ctx(), Env()).0 == EachFrom(ts, f, c0, Env()).0
        invariant EachFrom(ts[i..], f, Ctx(), Env()).1 == EachFrom(ts, f, c0, Env()).1
      {
        var tenant := ts[i];
        ghost var before := Ctx();
        o := Run(tenant, f(tenant));
        EachStep(ts, i, f, before, (o, Ctx()), Env());
        if o.Threw? {
          if old(Valid()) {
            EachRestores(ts, f, c0, Env());
          }
          return;
        }
        i := i + 1;
      }
      assert ts[i..] == [];
      o := Returned(Nothing);
      if old(Valid()) {
        EachRestores(ts, f, c0, Env());
      }
    }

    /** `find` on the tenants table, through the shared cache. */
    method Find(identifier: string, tenants: seq<Tenant>) returns (r: Option<Tenant>)
      modifies this
      ensures (r, cache) == TenantContext.Find(settings, tenants, old(cache), identifier)
      ensures current == old(current) && tenantId == old(tenantId) && searchPath == old(searchPath) && events == old(events)
    {
      var found := ResolveTenant(settings, tenants, identifier);
      if !settings.cacheEnabled {
        return found;
      }
      var key := CacheKey(settings, identifier);
      if key in cache {
        return Some(cache[key]);
      }
      if found.Some? {
        cache := cache[key := found.value];
      }
      return found;
    }

    /** `delete`: soft-delete the k-th tenant row, then forget its cache keys. */
    method Delete(db: Store.Database, k: nat) returns (ok: bool)
      requires k < |db.tenants|
      modifies this, db
      ensures ok
      ensures db.tenants == old(db.tenants)[k := old(db.tenants[k]).(trashed := true)]
      ensures db.memberships == old(db.memberships) && db.invitations == old(db.invitations) && db.users == old(db.users)
      ensures cache == if settings.cacheEnabled then Evicted(settings, old(cache), old(db.tenants[k])) else old(cache)
      ensures current == old(current) && tenantId == old(tenantId) && searchPath == old(searchPath) && events == old(events)
    {
      var t := db.tenants[k];
      db.tenants := db.tenants[k := t.(trashed := true)];
      if settings.cacheEnabled {
        cache := cache - {CacheKey(settings, t.slug), CacheKey(settings, t.domain.GetOr("")), CacheKey(settings, t.subdomain.GetOr(""))};
      }
      return true;
    }
  }
}
