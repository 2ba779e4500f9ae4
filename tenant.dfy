/**
 * The Tenant model: naming of its connection and database, lifecycle and
 * billing predicates, plan limits, the domain scope, and the two methods
 * that write the application's database configuration.
 */
module Tenants {
  import opened Wrappers
  import opened PhpStrings
  import opened Seqs
  import opened Config

  const STATUS_ACTIVE := "active"
  const STATUS_INACTIVE := "inactive"
  const STATUS_SUSPENDED := "suspended"
  const STATUS_TRIAL := "trial"

  /** Unlimited, as a limit value. */
  const UNLIMITED := -1

  /** A row of the `tenants` table; `trashed` is the soft-delete mark. */
  datatype Tenant = Tenant(
    id: int,
    name: string,
    slug: string,
    domain: Option<string>,
    subdomain: Option<string>,
    databaseName: Option<string>,
    databaseHost: Option<string>,
    databasePort: Option<string>,
    databaseUsername: Option<string>,
    databasePassword: Option<string>,
    status: string,
    plan: string,
    trialEndsAt: Option<int>,
    subscriptionEndsAt: Option<int>,
    settings: Option<map<string, string>>,
    limits: Option<map<string, int>>,
    customData: Option<map<string, string>>,
    trashed: bool)

  /** A connection entry of `database.connections`. */
  type Connection = map<string, string>

  function ConnectionName(t: Tenant): string {
    "tenant_" + t.slug
  }

  /** Distinct slugs give distinct connection names, so tenants never share a connection entry. */
  lemma ConnectionNameInjective(a: Tenant, b: Tenant)
    requires a.slug != b.slug
    ensures ConnectionName(a) != ConnectionName(b)
  {
    assert ConnectionName(a)[7..] == a.slug;
    assert ConnectionName(b)[7..] == b.slug;
  }

  function DatabaseName(t: Tenant, prefix: string, suffix: string): (r: string)
    ensures Truthy(t.databaseName) ==> r == t.databaseName.value
    ensures !Truthy(t.databaseName) ==> r == prefix + t.slug + suffix
  {
    if Truthy(t.databaseName) then t.databaseName.value else prefix + t.slug + suffix
  }

  /** With the shipped prefix and suffix, a tenant without an explicit database name uses its connection name. */
  lemma DefaultDatabaseNameIsConnectionName(t: Tenant)
    requires !Truthy(t.databaseName)
    ensures DatabaseName(t, DefaultSettings.dbPrefix, DefaultSettings.dbSuffix) == ConnectionName(t)
  {
  }

  predicate IsActive(t: Tenant) {
    t.status == STATUS_ACTIVE
  }

  predicate OnTrial(t: Tenant, now: int) {
    t.status == STATUS_TRIAL && t.trialEndsAt.Some? && t.trialEndsAt.value > now
  }

  predicate SubscriptionActive(t: Tenant, now: int) {
    t.subscriptionEndsAt.Some? && t.subscriptionEndsAt.value > now
  }

  /** A trial tenant is never active; an active tenant is never on trial. */
  lemma OnTrialExcludesActive(t: Tenant, now: int)
    ensures OnTrial(t, now) ==> !IsActive(t)
  {
  }

  /** Moving trial_ends_at to now or earlier ends the trial without touching the status. */
  lemma TrialEndsWhenMovedToPast(t: Tenant, now: int, past: int)
    requires OnTrial(t, now) && past <= now
    ensures var moved := t.(trialEndsAt := Some(past));
      !OnTrial(moved, now) && moved.status == t.status == STATUS_TRIAL
  {
  }

  /** The subscription check ignores the status. */
  lemma SubscriptionIgnoresStatus(t: Tenant, now: int, status: string)
    ensures SubscriptionActive(t.(status := status), now) == SubscriptionActive(t, now)
  {
  }

  /** The plan's `features` table overridden key by key by the tenant's own `limits`. */
  function Limits(t: Tenant, plans: Plans): (r: map<string, int>)
    ensures var features := if t.plan in plans then plans[t.plan] else map[];
      var own := t.limits.GetOr(map[]);
      && r.Keys == features.Keys + own.Keys
      && (forall k :: k in own ==> r[k] == own[k])
      && (forall k :: k in features && k !in own ==> r[k] == features[k])
  {
    var features := if t.plan in plans then plans[t.plan] else map[];
    features + t.limits.GetOr(map[])
  }

  function CanPerform(t: Tenant, plans: Plans, action: string, current: int): bool {
    var limits := Limits(t, plans);
    if action !in limits then true
    else if limits[action] == UNLIMITED then true
    else current < limits[action]
  }

  /** No limit for the action: allowed whatever the current count. */
  lemma CanPerformWithoutLimit(t: Tenant, plans: Plans, action: string, current: int)
    requires (t.plan !in plans || action !in plans[t.plan]) && (t.limits.None? || action !in t.limits.value)
    ensures CanPerform(t, plans, action, current)
  {
  }

  /** A limit of -1, from the tenant or from its plan, allows every current count. */
  lemma CanPerformUnlimited(t: Tenant, plans: Plans, action: string, current: int)
    requires (t.limits.Some? && action in t.limits.value && t.limits.value[action] == UNLIMITED)
          || ((t.limits.None? || action !in t.limits.value) && t.plan in plans
              && action in plans[t.plan] && plans[t.plan][action] == UNLIMITED)
    ensures CanPerform(t, plans, action, current)
  {
  }

  /** Any other limit allows exactly the counts below it. */
  lemma CanPerformBelowLimit(t: Tenant, plans: Plans, action: string, current: int)
    requires action in Limits(t, plans) && Limits(t, plans)[action] != UNLIMITED
    ensures CanPerform(t, plans, action, current) <==> current < Limits(t, plans)[action]
  {
  }

  /** Lowering the current count never turns an allowed action into a refused one. */
  lemma CanPerformMonotone(t: Tenant, plans: Plans, action: string, current: int, lower: int)
    requires lower <= current && CanPerform(t, plans, action, current)
    ensures CanPerform(t, plans, action, lower)
  {
  }

  /** On the shipped basic plan without overrides, `users` allows fewer than 5. */
  lemma BasicPlanUsers(t: Tenant, n: int)
    requires t.plan == "basic" && t.limits.None?
    ensures CanPerform(t, DefaultSettings.plans, "users", n) <==> n < 5
  {
    assert Limits(t, DefaultSettings.plans)["users"] == 5;
  }

  predicate MatchesDomain(t: Tenant, d: string) {
    t.domain == Some(d) || t.subdomain == Some(d)
  }

  /** `Tenant::byDomain($d)`: live tenants whose domain or subdomain is `d`, in table order. */
  function ByDomain(tenants: seq<Tenant>, d: string): (r: seq<Tenant>)
  {
    Filter(tenants, (t: Tenant) => !t.trashed && MatchesDomain(t, d))
  }

  lemma ByDomainMembers(tenants: seq<Tenant>, d: string, t: Tenant)
    ensures t in ByDomain(tenants, d) <==> t in tenants && !t.trashed && (t.domain == Some(d) || t.subdomain == Some(d))
  {
    FilterMembership(tenants, (t: Tenant) => !t.trashed && MatchesDomain(t, d), t);
  }

  /** `Tenant::find($id)`: the live tenant with that key, whatever its status. */
  function FindById(tenants: seq<Tenant>, id: int): (r: Option<Tenant>)
    ensures r.Some? ==> r.value in tenants && r.value.id == id && !r.value.trashed
    ensures r.None? ==> forall i :: 0 <= i < |tenants| ==> tenants[i].trashed || tenants[i].id != id
  {
    First(tenants, (t: Tenant) => !t.trashed && t.id == id)
  }

  /** `Tenant::active()->get()`: live active tenants in table order. */
  function ActiveTenants(tenants: seq<Tenant>): (r: seq<Tenant>)
  {
    Filter(tenants, (t: Tenant) => !t.trashed && IsActive(t))
  }

  lemma ActiveTenantsMembers(tenants: seq<Tenant>, t: Tenant)
    ensures t in ActiveTenants(tenants) <==> t in tenants && !t.trashed && t.status == STATUS_ACTIVE
  {
    FilterMembership(tenants, (t: Tenant) => !t.trashed && IsActive(t), t);
  }

  /** The connection entry built for a tenant from the template. */
  function TenantConnection(t: Tenant, s: Settings): (c: Connection)
  {
    var c0 := s.connectionTemplate["database" := DatabaseName(t, s.dbPrefix, s.dbSuffix)];
    var c1 := if Truthy(t.databaseHost) then c0["host" := t.databaseHost.value] else c0;
    var c2 := if Truthy(t.databasePort) then c1["port" := t.databasePort.value] else c1;
    var c3 := if Truthy(t.databaseUsername) then c2["username" := t.databaseUsername.value] else c2;
    if Truthy(t.databasePassword) then c3["password" := t.databasePassword.value] else c3
  }

  /** What the entry holds: the database name, each credential overridden only when the tenant's value is truthy, the rest of the template as is. */
  lemma TenantConnectionEntries(t: Tenant, s: Settings)
    ensures var c := TenantConnection(t, s);
      && c.Keys == s.connectionTemplate.Keys + {"database"}
           + (if Truthy(t.databaseHost) then {"host"} else {})
           + (if Truthy(t.databasePort) then {"port"} else {})
           + (if Truthy(t.databaseUsername) then {"username"} else {})
           + (if Truthy(t.databasePassword) then {"password"} else {})
      && c["database"] == DatabaseName(t, s.dbPrefix, s.dbSuffix)
      && (Truthy(t.databaseHost) ==> c["host"] == t.databaseHost.value)
      && (!Truthy(t.databaseHost) && "host" in s.connectionTemplate ==> c["host"] == s.connectionTemplate["host"])
      && (Truthy(t.databasePort) ==> c["port"] == t.databasePort.value)
      && (!Truthy(t.databasePort) && "port" in s.connectionTemplate ==> c["port"] == s.connectionTemplate["port"])
      && (Truthy(t.databaseUsername) ==> c["username"] == t.databaseUsername.value)
      && (!Truthy(t.databaseUsername) && "username" in s.connectionTemplate ==> c["username"] == s.connectionTemplate["username"])
      && (Truthy(t.databasePassword) ==> c["password"] == t.databasePassword.value)
      && (!Truthy(t.databasePassword) && "password" in s.connectionTemplate ==> c["password"] == s.connectionTemplate["password"])
      && (forall k :: k in s.connectionTemplate && k !in {"database", "host", "port", "username", "password"} ==> c[k] == s.connectionTemplate[k])
  {
  }

  /** `database.connections` after configureDatabaseConnection: an existing entry under the tenant's name is left alone. */
  function Configured(connections: map<string, Connection>, t: Tenant, s: Settings): (r: map<string, Connection>)
    ensures ConnectionName(t) in r
    ensures ConnectionName(t) in connections ==> r == connections
    ensures ConnectionName(t) !in connections ==> r == connections[ConnectionName(t) := TenantConnection(t, s)]
  {
    if ConnectionName(t) in connections then connections
    else connections[ConnectionName(t) := TenantConnection(t, s)]
  }

  /** Configuring twice is the same as configuring once, and no other entry changes. */
  lemma ConfiguredIdempotent(connections: map<string, Connection>, t: Tenant, s: Settings)
    ensures Configured(Configured(connections, t, s), t, s) == Configured(connections, t, s)
    ensures forall k :: k in connections ==> k in Configured(connections, t, s) && Configured(connections, t, s)[k] == connections[k]
  {
  }

  /** The slug of a fresh Tenant model: null, which string interpolation reads as "". */
  const FRESH_SLUG := ""

  /**
   * `Tenant::find($id)` as written: Eloquent runs a model's query on the
   * connection its `getConnectionName()` names, here for the fresh model the
   * query starts from, and a connection missing from `database.connections`
   * throws. The error carries the connection's name.
   */
  function FindByIdAsWritten(connections: map<string, Connection>, tenants: seq<Tenant>, id: int): (r: Result<Option<Tenant>, string>)
    ensures r.Ok? ==> r.value == FindById(tenants, id)
  {
    var name := "tenant_" + FRESH_SLUG;
    if name in connections then Ok(FindById(tenants, id)) else Err(name)
  }

  /**
   * Configuring a tenant never configures the connection a fresh model
   * names: a tenant with a slug adds `tenant_<slug>`, so the lookup as
   * written keeps failing however many tenants have been configured.
   */
  lemma TenantLookupFailsAsWritten(connections: map<string, Connection>, t: Tenant, s: Settings, tenants: seq<Tenant>, id: int)
    requires "tenant_" !in connections && t.slug != ""
    ensures "tenant_" !in Configured(connections, t, s)
    ensures FindByIdAsWritten(Configured(connections, t, s), tenants, id) == Err("tenant_")
  {
    assert |ConnectionName(t)| > |"tenant_"|;
    assert "tenant_" + FRESH_SLUG == "tenant_";
  }

  /** The application's `database.*` configuration, which the tenant writes into. */
  class ConfigRepository {
    var connections: map<string, Connection>
    var defaultConnection: string

    constructor (connections: map<string, Connection>, defaultConnection: string)
      ensures this.connections == connections && this.defaultConnection == defaultConnection
    {
      this.connections := connections;
      this.defaultConnection := defaultConnection;
    }

    method ConfigureDatabaseConnection(t: Tenant, s: Settings)
      modifies this
      ensures connections == Configured(old(connections), t, s)
      ensures defaultConnection == old(defaultConnection)
    {
      var name := ConnectionName(t);
      if name in connections {
        return;
      }
      connections := connections[name := TenantConnection(t, s)];
    }

    method SwitchDatabase(t: Tenant, s: Settings)
      modifies this
      ensures connections == Configured(old(connections), t, s)
      ensures defaultConnection == if s.databaseStrategy == MULTIPLE_DATABASES then ConnectionName(t) else old(defaultConnection)
    {
      ConfigureDatabaseConnection(t, s);
      if s.databaseStrategy == MULTIPLE_DATABASES {
        defaultConnection := ConnectionName(t);
      }
    }
  }
}
