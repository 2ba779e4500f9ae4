# Multitenancy core of the Kodikas Laravel package, modelled in Dafny

This project models the tenancy core of a Laravel application.
- Tenants are rows of a `tenants` table. Each tenant has a plan, limits, a status, a trial end and a subscription end.
- The application runs under three database strategies:
  - `multiple_databases`: a connection per tenant, built from a template;
  - `multiple_schemas`: a PostgreSQL `search_path` per tenant;
  - `single_database`: one database, with a `current_tenant_id` binding and a global `tenant_id` scope.
- The manager (`TenantManager`):
  - holds the current tenant and switches the application in and out of it;
  - runs callbacks inside a tenant and puts the previous context back afterwards;
  - looks tenants up through a shared cache.
- The resolver (`TenantResolver`) identifies the tenant of a request by subdomain, domain, path, header or session.
- Users belong to tenants through `tenant_users` rows. A row holds a user type, a role, permissions, access restrictions and a soft-delete mark.
- On top of these rows sit:
  - two middlewares (`EnsureTenantMiddleware`, `TenantAccessControlMiddleware`);
  - the `HasTenants` user trait;
  - the row-level traits `BelongsToTenant` and `HasUserTypeAccess`;
  - the invitation flow (`TenantInvitation`, `TenantInvitationController`);
  - the tenant administration controller (`TenantAdminController`).

Modules follow the source:
- `Tenants`, `Memberships` and `Invitations` hold the model classes as datatypes and functions.
- `Store.Database` holds the four tables as a class whose methods perform the inserts and updates. It keeps two unique indexes as its invariant: (tenant_id, user_id) on `tenant_users`, which soft-deleted rows still occupy, and `token` on `tenant_invitations`.
- `TenantContext` states on values what `TenantManager` does. `Manager.TenantManager` is the class that does it on fields, and each of its methods is proved equal to the value-level function.
- `Resolver` holds the resolver.
- `HasTenants` holds the user trait.
- `EnsureTenant` and `AccessControl` hold the middlewares.
- `InvitationFlow` holds the acceptance controller.
- `TenantAdmin` holds the administration controller.
- `RowFilters` holds the two row-level traits, with a `Query` builder class.
- `PhpStrings`, `Seqs` and `Wrappers` are helpers: PHP's string casts and truthiness, table filters, and Option/Result.

The environment is passed in as parameters:
- the clock (`now`, hour, weekday);
- the request (host, path, header, session, IP);
- the connection test (the set of reachable connection names);
- the random token (a 40-character string parameter);
- the subdomain regular expression (a function parameter).

## Model

| member | source | states |
|---|---|---|
| Tenants.ConnectionNameInjective | packages/kodikas/multitenant/src/Models/Tenant.php:59-62 | tenants with different slugs get different connection names `tenant_<slug>` |
| Tenants.ConnectionName | packages/kodikas/multitenant/src/Models/Tenant.php:59-62 | `tenant_` followed by the slug; specified by ConnectionNameInjective and DefaultDatabaseNameIsConnectionName |
| Tenants.DatabaseName | packages/kodikas/multitenant/src/Models/Tenant.php:67-77 | a truthy `database_name` is used as is; otherwise the prefix, the slug and the suffix; the properties are in DefaultDatabaseNameIsConnectionName |
| Tenants.DefaultDatabaseNameIsConnectionName | packages/kodikas/multitenant/src/Models/Tenant.php:59-77 | with the shipped prefix `tenant_` and empty suffix, the default database name equals the connection name |
| Tenants.IsActive | packages/kodikas/multitenant/src/Models/Tenant.php:82-85 | status active; specified by OnTrialExcludesActive and, through the middleware, HandlePasses |
| Tenants.OnTrial | packages/kodikas/multitenant/src/Models/Tenant.php:90-95 | status trial with a trial end strictly ahead; specified by OnTrialExcludesActive and TrialEndsWhenMovedToPast |
| Tenants.SubscriptionActive | packages/kodikas/multitenant/src/Models/Tenant.php:100-104 | a subscription end strictly ahead, whatever the status; specified by SubscriptionIgnoresStatus |
| Tenants.OnTrialExcludesActive | packages/kodikas/multitenant/src/Models/Tenant.php:82-95 | a tenant on trial is never active, and an active one is never on trial |
| Tenants.TrialEndsWhenMovedToPast | packages/kodikas/multitenant/src/Models/Tenant.php:90-95 | moving `trial_ends_at` into the past ends the trial while the status stays `trial` |
| Tenants.SubscriptionIgnoresStatus | packages/kodikas/multitenant/src/Models/Tenant.php:100-104 | whether the subscription is active does not depend on the status |
| Tenants.Limits | packages/kodikas/multitenant/src/Models/Tenant.php:130-135 | the plan's features overridden key by key by the tenant's own limits: the key union, the tenant winning |
| Tenants.CanPerform | packages/kodikas/multitenant/src/Models/Tenant.php:109-125 | no limit allows, -1 allows, otherwise the count must be below the limit; specified by CanPerformWithoutLimit, CanPerformUnlimited, CanPerformBelowLimit and CanPerformMonotone |
| Tenants.CanPerformWithoutLimit | packages/kodikas/multitenant/src/Models/Tenant.php:109-125 | an action with no limit anywhere is always allowed |
| Tenants.CanPerformUnlimited | packages/kodikas/multitenant/src/Models/Tenant.php:109-125 | a limit of -1 from the tenant, or from the plan when the tenant has none, allows every count |
| Tenants.CanPerformBelowLimit | packages/kodikas/multitenant/src/Models/Tenant.php:109-125 | any other limit allows exactly the counts strictly below it |
| Tenants.CanPerformMonotone | packages/kodikas/multitenant/src/Models/Tenant.php:109-125 | a lower current count is never refused where a higher one was allowed |
| Tenants.BasicPlanUsers | config/multitenant.php:93-103 | on the shipped basic plan, `users` is allowed exactly below 5 |
| Tenants.ByDomain | packages/kodikas/multitenant/src/Models/Tenant.php:193-197 | live tenants whose domain or subdomain is the given one; specified by ByDomainMembers |
| Tenants.ByDomainMembers | packages/kodikas/multitenant/src/Models/Tenant.php:193-197 | `byDomain` returns exactly the live tenants whose domain or subdomain is the argument |
| Tenants.FindById | src/TenantResolver.php:149 | the framework's primary-key lookup `Tenant::find`, used by the session method here and by `setTenant` at line 190: a live tenant with that key whatever its status, or none when no live row has it |
| Tenants.ActiveTenants | packages/kodikas/multitenant/src/Models/Tenant.php:176-179 | live tenants with status active; specified by ActiveTenantsMembers |
| Tenants.FindByIdAsWritten | packages/kodikas/multitenant/src/Models/Tenant.php:59-62 | the primary-key lookup as written: it runs on the connection a fresh Tenant model names, `tenant_`, and fails when that connection is not configured; when it runs, it answers what FindById answers |
| Tenants.TenantLookupFailsAsWritten | packages/kodikas/multitenant/src/Models/Tenant.php:59-62 | configuring any tenant with a slug never configures `tenant_`, so the lookup as written keeps failing |
| Tenants.ActiveTenantsMembers | packages/kodikas/multitenant/src/Models/Tenant.php:176-179 | `active()` returns exactly the live tenants with status active |
| Tenants.TenantConnectionEntries | packages/kodikas/multitenant/src/Models/Tenant.php:202-230 | the connection entry is the template with `database` set and each credential replaced only when the tenant's value is truthy |
| Tenants.TenantConnection | packages/kodikas/multitenant/src/Models/Tenant.php:202-230 | the entry built from the template; specified by TenantConnectionEntries |
| Tenants.Configured | packages/kodikas/multitenant/src/Models/Tenant.php:202-230 | an entry already present under the tenant's connection name is left alone; otherwise the built entry is added; the properties are in ConfiguredIdempotent and TenantConnectionEntries |
| Tenants.ConfiguredIdempotent | packages/kodikas/multitenant/src/Models/Tenant.php:202-230 | configuring twice equals configuring once, and no other entry changes |
| Tenants.ConfigRepository.ConfigureDatabaseConnection | packages/kodikas/multitenant/src/Models/Tenant.php:202-230 | the configuration's connections become `Configured(old)`; the default connection is unchanged |
| Tenants.ConfigRepository.SwitchDatabase | packages/kodikas/multitenant/src/Models/Tenant.php:235-244 | configures the connection; the default connection becomes the tenant's only under multiple_databases |
| Memberships.PrivilegedHasEveryPermission | packages/kodikas/multitenant/src/Models/TenantUser.php:131-141 | owners and super_admins hold every permission |
| Memberships.IsActive | packages/kodikas/multitenant/src/Models/TenantUser.php:90-93 | status active; specified by CanAccess and HasTenants.RowCanAccess, which refuse an inactive row first |
| Memberships.IsOwner | packages/kodikas/multitenant/src/Models/TenantUser.php:98-101 | user type owner; specified by HasTenants.RoleChecksFollowRow |
| Memberships.IsAdmin | packages/kodikas/multitenant/src/Models/TenantUser.php:106-110 | specified by IsAdminCases |
| Memberships.IsEmployee | packages/kodikas/multitenant/src/Models/TenantUser.php:115-118 | user type employee; specified by HasTenants.RoleChecksFollowRow |
| Memberships.IsClient | packages/kodikas/multitenant/src/Models/TenantUser.php:123-126 | user type client; specified by HasTenants.RoleChecksFollowRow and AccessControl.NotClientParameter |
| Memberships.Privileged | packages/kodikas/multitenant/src/Models/TenantUser.php:134-136 | owner type or super_admin role, the short-circuit of hasPermission; specified by PrivilegedHasEveryPermission and CheckTenantLimits |
| Memberships.HasPermission | packages/kodikas/multitenant/src/Models/TenantUser.php:131-141 | specified by PrivilegedHasEveryPermission and HasPermissionFromList |
| Memberships.HasPermissionFromList | packages/kodikas/multitenant/src/Models/TenantUser.php:131-141 | anyone else holds exactly the listed permissions; a null list grants none |
| Memberships.IsAdminCases | packages/kodikas/multitenant/src/Models/TenantUser.php:106-110 | admin exactly for role super_admin or admin, or user type admin |
| Memberships.CheckAccessRestrictions | packages/kodikas/multitenant/src/Models/TenantUser.php:165-197 | no restrictions pass; otherwise IP (when the list is non-empty), hour window (defaults 0 and 23) and weekday must all pass |
| Memberships.IpAllowed | packages/kodikas/multitenant/src/Models/TenantUser.php:170-175 | a missing or empty `allowed_ips` allows every IP; otherwise the IP must be listed; specified by EmptyAllowedIpsAllowsAnyIp |
| Memberships.HourAllowed | packages/kodikas/multitenant/src/Models/TenantUser.php:178-186 | the hour must lie within `access_hours`, bounds inclusive, with missing bounds 0 and 23; specified by CheckAccessRestrictions |
| Memberships.DayAllowed | packages/kodikas/multitenant/src/Models/TenantUser.php:189-194 | a present `access_days` list must hold the weekday; specified by EmptyAccessDaysDenies |
| Memberships.EmptyAccessDaysDenies | packages/kodikas/multitenant/src/Models/TenantUser.php:189-194 | an empty `access_days` list refuses every day |
| Memberships.EmptyAllowedIpsAllowsAnyIp | packages/kodikas/multitenant/src/Models/TenantUser.php:170-175 | an empty `allowed_ips` list places no IP restriction |
| Memberships.CanAccess | packages/kodikas/multitenant/src/Models/TenantUser.php:146-160 | access needs an active row and an active tenant, and is then exactly the restriction check |
| Memberships.CheckTenantLimits | packages/kodikas/multitenant/src/Models/TenantUser.php:221-244 | owners and super_admins pass; a type with no quotas of its own needs the action among its permissions; a client passes every action but its three quota actions; an employee needs the permission for every action but its three special ones |
| Memberships.CanPerformAction | packages/kodikas/multitenant/src/Models/TenantUser.php:202-216 | allowed only with access and the permission; for owners and super_admins exactly with access |
| Memberships.ClientQuotas | packages/kodikas/multitenant/src/Models/TenantUser.php:249-269 | for clients, orders, API calls and uploads follow the matching tenant limit; any other action passes |
| Memberships.CheckClientLimits | packages/kodikas/multitenant/src/Models/TenantUser.php:249-269 | the three quota actions consult their tenant limit, anything else passes; specified by ClientQuotas and ClientOrderCountDefaultsToZero |
| Memberships.ContextCount | packages/kodikas/multitenant/src/Models/TenantUser.php:256-263 | the context count under a key, 0 when absent (`?? 0`); specified by ClientOrderCountDefaultsToZero |
| Memberships.ClientOrderCountDefaultsToZero | packages/kodikas/multitenant/src/Models/TenantUser.php:249-269 | a missing `current_orders` counts as 0 |
| Memberships.EmployeeAndVendorQuotas | packages/kodikas/multitenant/src/Models/TenantUser.php:274-311 | access_reports also needs view_reports; export_data needs its quota; vendor products need their quota; the vendor portal needs a subscription or a trial |
| Memberships.CheckEmployeeLimits | packages/kodikas/multitenant/src/Models/TenantUser.php:274-292 | specified by EmployeeAndVendorQuotas |
| Memberships.CheckVendorLimits | packages/kodikas/multitenant/src/Models/TenantUser.php:297-311 | specified by EmployeeAndVendorQuotas |
| Memberships.CheckGeneralLimits | packages/kodikas/multitenant/src/Models/TenantUser.php:316-319 | the permission itself; specified by CheckTenantLimits |
| Memberships.HierarchyLevel | packages/kodikas/multitenant/src/Models/TenantUser.php:324-342 | levels come from {0,10,50,70,80,90,100}, and 0 exactly for roles outside the six known ones |
| Memberships.HierarchyOrder | packages/kodikas/multitenant/src/Models/TenantUser.php:324-342 | super_admin > admin > manager > employee > client > viewer > 0 |
| Memberships.Touched | packages/kodikas/multitenant/src/Models/TenantUser.php:347-350 | updateLastAccess sets `last_access_at` to now and changes nothing else |
| Invitations.Created | packages/kodikas/multitenant/src/Models/TenantInvitation.php:45-53 | a 40-character random token unless one was given; expiry now plus seven days unless given; status pending, not accepted |
| Invitations.FreshInvitationLifetime | packages/kodikas/multitenant/src/Models/TenantInvitation.php:45-86 | a fresh invitation is pending exactly up to seven days after creation |
| Invitations.IsExpired | packages/kodikas/multitenant/src/Models/TenantInvitation.php:75-78 | the expiry lies strictly in the past; specified by FreshInvitationLifetime and ScopePendingVersusIsPending |
| Invitations.IsPending | packages/kodikas/multitenant/src/Models/TenantInvitation.php:83-86 | status pending and not expired; specified by FreshInvitationLifetime and AcceptedIsNotPending |
| Invitations.AcceptedAt | packages/kodikas/multitenant/src/Models/TenantInvitation.php:91-111 | accepting sets status accepted and `accepted_at`, and changes nothing else |
| Invitations.AcceptedIsNotPending | packages/kodikas/multitenant/src/Models/TenantInvitation.php:83-111 | an accepted invitation is never pending again, so it cannot be accepted twice |
| Invitations.ScopePendingVersusIsPending | packages/kodikas/multitenant/src/Models/TenantInvitation.php:75-86 | `scopePending` and `isPending` agree except at the instant of expiry, where only `isPending` holds |
| Invitations.ScopePending | packages/kodikas/multitenant/src/Models/TenantInvitation.php:130-134 | status pending with the expiry strictly ahead; specified by ScopePendingVersusIsPending and ScopesDisjoint |
| Invitations.ScopeExpired | packages/kodikas/multitenant/src/Models/TenantInvitation.php:139-143 | expiry not ahead, or status expired; specified by ScopesDisjoint |
| Invitations.ScopesDisjoint | packages/kodikas/multitenant/src/Models/TenantInvitation.php:130-143 | no invitation is both in `pending()` and in `expired()` |
| PhpStrings.Substr | packages/kodikas/multitenant/src/Http/Middleware/TenantAccessControlMiddleware.php:78-122 | `substr($s, n)` is the rest after n characters, and empty past the end |
| PhpStrings.LeadingDigits | packages/kodikas/multitenant/src/Http/Middleware/TenantAccessControlMiddleware.php:97-100 | the length of the leading digit run read by the `(int)` cast |
| PhpStrings.NatToString | packages/kodikas/multitenant/src/Http/Middleware/TenantAccessControlMiddleware.php:97-100 | the decimal rendering is non-empty and all digits |
| PhpStrings.DecimalValueOfNatToString | packages/kodikas/multitenant/src/Http/Middleware/TenantAccessControlMiddleware.php:97-100 | the decimal value of a rendered number is that number |
| PhpStrings.IntCastOfNatToString | packages/kodikas/multitenant/src/Http/Middleware/TenantAccessControlMiddleware.php:97-100 | `(int)` reads every rendered natural number back |
| PhpStrings.IntCastNonNumeric | packages/kodikas/multitenant/src/Http/Middleware/TenantAccessControlMiddleware.php:97-100 | a string starting with neither a sign nor a digit casts to 0 |
| PhpStrings.FirstSegment | src/TenantResolver.php:106-118 | the first element of `explode('/')`: a prefix with no '/' that ends at a '/' or at the end |
| Store.LiveIndex | packages/kodikas/multitenant/src/Traits/HasTenants.php:115-120 | the position of the live row of the pair, or none when there is no live row |
| Store.AttachedRow | packages/kodikas/multitenant/src/Models/TenantInvitation.php:102-108 | the attached pivot row carries the invitation's tenant and role, is active and was joined now |
| Store.SoftDeleted | packages/kodikas/multitenant/src/Traits/HasTenants.php:229-234 | live rows of the pair are marked deleted; every other row is kept as is |
| Store.SoftDeletedKeepsPair | packages/kodikas/multitenant/database/migrations/2024_01_01_000002_create_tenant_users_table.php:36-38 | after the soft delete no live row is left, yet the unique index still holds the pair |
| Store.UserByEmail | packages/kodikas/multitenant/src/Http/Controllers/TenantInvitationController.php:49 | the first user with the email, or none when no user has it |
| Store.NextUserId | packages/kodikas/multitenant/src/Http/Controllers/TenantInvitationController.php:51-59 | the next auto-increment id is above every existing id |
| Store.TokenIndex | packages/kodikas/multitenant/src/Http/Controllers/TenantInvitationController.php:34 | the position of the invitation with the token, or none when no invitation has it |
| Store.Database.constructor | packages/kodikas/multitenant/database/migrations/2024_01_01_000002_create_tenant_users_table.php:38 | a database with the given tenants and users and no memberships or invitations satisfies both unique indexes |
| Store.Database.InsertMembership | packages/kodikas/multitenant/database/migrations/2024_01_01_000002_create_tenant_users_table.php:38 | the insert fails exactly when the pair already has a row, soft-deleted or not; otherwise the row is appended |
| Store.Database.InsertInvitation | packages/kodikas/multitenant/database/migrations/2024_01_01_000003_create_tenant_invitations_table.php:21 | the insert fails exactly when the token is taken; otherwise the invitation is appended |
| Store.Database.SoftDeletePair | packages/kodikas/multitenant/src/Traits/HasTenants.php:229-234 | the rows become `SoftDeleted(old)`; the result counts the live rows deleted |
| Store.Database.UpdateLastAccess | packages/kodikas/multitenant/src/Traits/HasTenants.php:239-246 | the live row of the pair is touched; without one nothing changes |
| Store.Database.AcceptInvitation | packages/kodikas/multitenant/src/Models/TenantInvitation.php:91-111 | a non-pending invitation is refused unchanged; otherwise it is accepted and the user attached, which the unique index may refuse after the status change |
| Store.Database.CancelInvitation | packages/kodikas/multitenant/src/Models/TenantInvitation.php:116-125 | only a pending-status invitation becomes cancelled, and the answer says whether it did |
| Store.Database.CreateUser | packages/kodikas/multitenant/src/Http/Controllers/TenantInvitationController.php:51-59 | appends a user with the next id, the email and the name |
| Store.Database.ReplaceMembership | src/Http/Controllers/TenantAdminController.php:226-232 | replaces one row in place, keeping its pair and so the unique index |
| Store.Database.SetInvitationStatus | packages/kodikas/multitenant/src/Http/Controllers/TenantInvitationController.php:67 | sets one invitation's status, whatever it was before |
| TenantContext.SwitchToTenant | src/TenantManager.php:96-156 | the current tenant is left alone; under multiple_databases the tenant's connection is configured and made the default, and the switch fails exactly when it is unreachable; under single_database the id slot holds the tenant's id; under multiple_schemas the search_path names its schema |
| TenantContext.Set | src/TenantManager.php:33-42 | the target becomes current even when its switch fails; it fails exactly when a tenant's connection is unreachable under multiple_databases; coherence is kept |
| TenantContext.SwitchToCentral | src/TenantManager.php:158-165 | the original default connection and no tenant id, with the search_path left as it was; specified by Set, RunRestores and SearchPathLeaksAfterRun |
| TenantContext.Exec | src/TenantManager.php:67-77 | a callback inside `run`; specified by ExecPreservesCoherent, ExecRunIn and ThenReadCurrent |
| TenantContext.ExecPreservesCoherent | src/TenantManager.php:67-77 | no callback breaks the agreement between the current tenant and the connection, id slot and search_path |
| TenantContext.Run | src/TenantManager.php:67-77 | the current tenant after `run` is the one before it, and `run` returns only when the switch to its tenant passes the connection test |
| TenantContext.RunRestores | src/TenantManager.php:67-77 | after `run`, the current tenant, default connection and tenant id are what they were, whether the callback returned or threw |
| TenantContext.CallbackSeesItsTenant | src/TenantManager.php:67-77 | inside `run($t, ...)`, `current()` is `t` |
| TenantContext.RunPropagatesThrow | src/TenantManager.php:67-77 | an exception of the callback comes out of `run` unchanged |
| TenantContext.RunReturnsCallbackValue | src/TenantManager.php:67-77 | `run` returns the callback's result in the tenant's context, or throws |
| TenantContext.NestedRunsAreLifo | src/TenantManager.php:67-77 | after a nested `run`, the outer callback is back in the outer tenant |
| TenantContext.SearchPathLeaksAfterRun | src/TenantManager.php:139-144 | under multiple_schemas, a `run` started outside any tenant leaves the tenant's schema on the search_path |
| TenantContext.EachFrom | src/TenantManager.php:82-91 | `each` starts at most one run per tenant, completes all of them when nothing throws, and stops at the first exception |
| TenantContext.EachAfter | src/TenantManager.php:82-91 | after one tenant's run, `each` stops on an exception and otherwise completes the remaining tenants, counting the run just made |
| TenantContext.EachStep | src/TenantManager.php:82-91 | the loop's step: a run that threw ends `each` with that exception; otherwise `each` from this tenant is `each` from the next one, one run later |
| TenantContext.EachRestores | src/TenantManager.php:82-91 | `each` also puts back the context it started in |
| TenantContext.CacheKeyInjective | src/TenantManager.php:178-189 | different identifiers have different cache keys |
| TenantContext.Find | src/TenantManager.php:178-189 | with caching off, `resolveTenant`'s answer; with caching on, a hit returns the stored tenant, a miss `resolveTenant`'s answer, and only a found tenant is stored, under its own key |
| TenantContext.Remember | src/TenantManager.php:178-189 | a hit returns the stored tenant; a miss stores the computed tenant unless it is null; the properties are in FindOnFreshCache and DeleteKeepsCacheFresh |
| TenantContext.ResolveTenant | src/TenantManager.php:194-209 | a live tenant matching by domain or subdomain (under those methods) or by slug; none when no row matches |
| TenantContext.FindOnFreshCache | src/TenantManager.php:178-209 | with a cache that agrees with the table, `find` answers what the table holds, and the cache keeps agreeing |
| TenantContext.Evicted | src/TenantManager.php:264-291 | `delete` forgets the slug, domain and subdomain keys and keeps every other entry |
| TenantContext.DeleteKeepsCacheFresh | src/TenantManager.php:264-291 | soft-deleting a tenant and forgetting its keys keeps the cache agreeing with the table |
| Manager.TenantManager.constructor | src/TenantManager.php:16-20 | starts with no tenant and an empty cache, and remembers the original default connection |
| Manager.TenantManager.Current | src/TenantManager.php:25-28 | returns the current tenant |
| Manager.TenantManager.CurrentOrFail | src/TenantManager.php:55-62 | returns the current tenant, or the not-resolved exception when there is none |
| Manager.TenantManager.Check | src/TenantManager.php:47-50 | true exactly when a tenant is current |
| Manager.TenantManager.SwitchToTenant | src/TenantManager.php:96-153 | the new state is `TenantContext.SwitchToTenant` of the old one for the configured strategy |
| Manager.TenantManager.SwitchToCentral | src/TenantManager.php:158-165 | the new state is `TenantContext.SwitchToCentral` of the old one |
| Manager.TenantManager.Set | src/TenantManager.php:33-42 | the new state is `TenantContext.Set` of the old one, and the class invariant is kept |
| Manager.TenantManager.Forget | src/TenantManager.php:170-173 | `set(null)`: no tenant is current and the invariant is kept |
| Manager.TenantManager.Exec | src/TenantManager.php:67-77 | running a callback on the fields matches `TenantContext.Exec` |
| Manager.TenantManager.Run | src/TenantManager.php:67-77 | matches `TenantContext.Run` and restores the view of the context |
| Manager.TenantManager.Each | src/TenantManager.php:82-91 | runs over the active tenants as `EachFrom` says, and restores the view |
| Manager.TenantManager.Find | src/TenantManager.php:178-189 | result and new cache are `TenantContext.Find`; the tenant context is unchanged |
| Manager.TenantManager.Delete | src/TenantManager.php:264-291 | soft-deletes the tenant row and evicts its keys when the cache is enabled |
| Resolver.QueryByIdentifier | src/TenantResolver.php:171-180 | a live, active tenant matching by slug, domain or subdomain; none when no row matches |
| Resolver.FindByIdentifier | src/TenantResolver.php:155-166 | with caching off, the query's answer; with caching on, a hit returns the stored tenant, a miss the query's answer, and only a found tenant is stored, under its own key |
| Resolver.PathSlug | src/TenantResolver.php:106-118 | none exactly when the first path segment is empty or "0"; otherwise that segment, which holds no '/' and ends at a '/' or at the end of the path |
| Resolver.PathSlugOfSegmentedPath | src/TenantResolver.php:106-118 | the path `acme/orders` gives the slug `acme` |
| Resolver.Resolve | src/TenantResolver.php:38-61 | a resolution that finds nothing stores nothing; caching off or the session method leave the cache as it was; no cached entry is ever overwritten |
| Resolver.SubdomainBranch | src/TenantResolver.php:66-84 | the central host or a host the pattern does not match resolves nothing; otherwise the captured subdomain is looked up |
| Resolver.DomainBranch | src/TenantResolver.php:90-101 | any host but the central one is looked up as it is |
| Resolver.PathBranch | src/TenantResolver.php:106-118 | an empty or "0" first segment resolves nothing and leaves the cache; any other first segment is looked up |
| Resolver.HeaderBranch | src/TenantResolver.php:123-132 | a missing, empty or "0" X-Tenant-ID resolves nothing and leaves the cache; any other value is looked up |
| Resolver.UnknownMethodResolvesNothing | src/TenantResolver.php:38-61 | an identification method outside the five named ones resolves nothing and leaves the cache |
| Resolver.CentralDomainResolvesNothing | src/TenantResolver.php:66-101 | under subdomain or domain identification, the central domain resolves no tenant and leaves the cache alone |
| Resolver.ResolvedTenantIsActive | src/TenantResolver.php:38-180 | with an agreeing cache, every method but the session one resolves only live, active tenants, and the cache keeps agreeing |
| Resolver.FindByIdentifierOnFreshCache | src/TenantResolver.php:155-166 | with an agreeing cache, `findTenantByIdentifier` answers what its query finds |
| Resolver.SessionIgnoresStatus | src/TenantResolver.php:137-150 | the session method resolves a suspended tenant |
| Resolver.SharedCacheServesInactiveTenant | src/TenantResolver.php:155-180 | once the manager has cached a suspended tenant, the resolver serves it though its own query finds nothing |
| Resolver.SessionRoundTrip | src/TenantResolver.php:137-218 | after `setTenant` stores the id, the session method resolves the tenant; after `clearTenant`, nothing |
| Resolver.TenantResolver.constructor | src/TenantResolver.php:15-18 | starts with its manager and no request |
| Resolver.TenantResolver.Boot | src/TenantResolver.php:23-33 | stores the request, resolves it, and sets a found tenant through the manager |
| Resolver.TenantResolver.SetTenant | src/TenantResolver.php:185-205 | a numeric identifier is a key, anything else goes through the cached query; under the session method the id is stored, failing without a session |
| Resolver.TenantResolver.ClearTenant | src/TenantResolver.php:210-218 | forgets the tenant, and under the session method removes `tenant_id`, failing without a session |
| HasTenants.GetTenantUser | packages/kodikas/multitenant/src/Traits/HasTenants.php:115-120 | a live row of the user in the tenant, or none when there is no live row |
| HasTenants.GetTenantUserUnique | packages/kodikas/multitenant/src/Traits/HasTenants.php:115-120 | under the unique index, the live row found is the only one |
| HasTenants.RowCanAccess | packages/kodikas/multitenant/src/Models/TenantUser.php:146-160 | an inactive row is refused; an active row whose tenant relation, reloaded by tenant_id with trashed tenants hidden, is null fails with the error on null; otherwise the checks run against the reloaded tenant |
| HasTenants.CanAccessTenant | packages/kodikas/multitenant/src/Traits/HasTenants.php:101-110 | false without a live row, otherwise the row's canAccess; specified by CanAccessTenantByRow and AccessIgnoresTenantValue |
| HasTenants.CanAccessTenantByRow | packages/kodikas/multitenant/src/Traits/HasTenants.php:101-110 | access exactly when a live row of the user passes `canAccess` against the tenant the table holds under the key; an error exactly when that row is active and the table holds no live tenant under the key |
| HasTenants.AccessIgnoresTenantValue | packages/kodikas/multitenant/src/Traits/HasTenants.php:101-110 | the answer depends only on the tenant's key: a stale tenant value with the same id gives the same answer |
| HasTenants.HasPermissionInTenant | packages/kodikas/multitenant/src/Traits/HasTenants.php:125-134 | false without a live row, otherwise the row's hasPermission; specified by MemberRightsFollowRow and NonMemberHasNothing |
| HasTenants.CanPerformInTenant | packages/kodikas/multitenant/src/Traits/HasTenants.php:139-148 | false without a live row, otherwise the row's canPerform; specified by MemberRightsFollowRow and NonMemberHasNothing |
| HasTenants.MemberRightsFollowRow | packages/kodikas/multitenant/src/Traits/HasTenants.php:125-148 | with a live row, the permission check is the row's; canPerform holds exactly when the table holds a live tenant under the key and the row's canPerform passes against it; it fails exactly when the row is active and that tenant is gone |
| HasTenants.NonMemberHasNothing | packages/kodikas/multitenant/src/Traits/HasTenants.php:101-208 | without a live row every per-tenant check is false (no error is raised) and every lookup is null |
| HasTenants.UserTypeInTenant | packages/kodikas/multitenant/src/Traits/HasTenants.php:153-158 | the live row's user type, or null; specified by RoleChecksFollowRow and NonMemberHasNothing |
| HasTenants.RoleInTenant | packages/kodikas/multitenant/src/Traits/HasTenants.php:163-168 | the live row's role, or null; specified by RoleChecksFollowRow and NonMemberHasNothing |
| HasTenants.IsOwnerOfTenant | packages/kodikas/multitenant/src/Traits/HasTenants.php:173-178 | specified by RoleChecksFollowRow and NonMemberHasNothing |
| HasTenants.IsAdminInTenant | packages/kodikas/multitenant/src/Traits/HasTenants.php:183-188 | specified by RoleChecksFollowRow and NonMemberHasNothing |
| HasTenants.IsEmployeeInTenant | packages/kodikas/multitenant/src/Traits/HasTenants.php:193-198 | specified by RoleChecksFollowRow and NonMemberHasNothing |
| HasTenants.IsClientInTenant | packages/kodikas/multitenant/src/Traits/HasTenants.php:203-208 | specified by RoleChecksFollowRow and NonMemberHasNothing |
| HasTenants.RoleChecksFollowRow | packages/kodikas/multitenant/src/Traits/HasTenants.php:153-208 | the per-tenant type and role lookups and the owner, admin, employee and client checks read the user's live row |
| HasTenants.Joins | packages/kodikas/multitenant/src/Traits/HasTenants.php:16-26 | each join pairs a pivot row of the user, soft-deleted or not, with the live tenant that `find` gives for its tenant_id |
| HasTenants.JoinsPivots | packages/kodikas/multitenant/src/Traits/HasTenants.php:16-26 | the pivots of the joins are exactly the user's pivot rows whose tenant is live, soft-deleted ones included, in table order |
| HasTenants.JoinsComplete | packages/kodikas/multitenant/src/Traits/HasTenants.php:16-26 | every pivot row of the user with a live tenant gives a join with that tenant |
| HasTenants.TenantsOf | packages/kodikas/multitenant/src/Traits/HasTenants.php:16-26 | the tenants of a list of joins, one per join and in the same order |
| HasTenants.JoinsIgnoreSoftDelete | packages/kodikas/multitenant/src/Traits/HasTenants.php:16-26 | soft-deleting a membership (leaving a tenant) leaves the list of tenants reached through `tenants()` exactly as it was |
| HasTenants.PrimaryTenant | packages/kodikas/multitenant/src/Traits/HasTenants.php:251-267 | the tenant of the first owned join in pivot order; with none owned, of the first admin join; with neither, of the first active join, or none |
| HasTenants.PrimaryTenantChoice | packages/kodikas/multitenant/src/Traits/HasTenants.php:251-267 | the primary tenant is a joined one, owned whenever one is owned, missing exactly when nothing is owned, administered or active |
| HasTenants.NewMembership | packages/kodikas/multitenant/src/Traits/HasTenants.php:213-224 | the created row has the given tenant, user, type, role and permissions, is active and was joined now |
| HasTenants.RejoinAfterLeaveIsRefused | packages/kodikas/multitenant/src/Traits/HasTenants.php:213-234 | after leaving, no live row is left, but the pair still blocks a new join |
| HasTenants.AccessStats | packages/kodikas/multitenant/src/Traits/HasTenants.php:287-304 | stats exist exactly for members and report the row's fields, permission count and hierarchy level |
| HasTenants.JoinTenant | packages/kodikas/multitenant/src/Traits/HasTenants.php:213-224 | inserts the new row, or fails with a unique violation when the pair is taken |
| HasTenants.LeaveTenant | packages/kodikas/multitenant/src/Traits/HasTenants.php:229-234 | soft-deletes the pair's rows; true exactly when there was a live one |
| HasTenants.UpdateTenantAccess | packages/kodikas/multitenant/src/Traits/HasTenants.php:239-246 | touches the live row, if any |
| HasTenants.SwitchToTenant | packages/kodikas/multitenant/src/Traits/HasTenants.php:272-282 | fails with the null-tenant error and changes nothing when the access check does; refused without access; otherwise the manager switches, and the access time is recorded after a successful switch |
| EnsureTenant.HandlePasses | packages/kodikas/multitenant/src/Http/Middleware/EnsureTenantMiddleware.php:15-34 | passes exactly for an active tenant with a valid subscription |
| EnsureTenant.HasValidSubscription | packages/kodikas/multitenant/src/Http/Middleware/EnsureTenantMiddleware.php:86-93 | billing off, on trial, or a running subscription; specified by BillingOffIgnoresSubscription and TrialTenantsAreRefused |
| EnsureTenant.Handle | packages/kodikas/multitenant/src/Http/Middleware/EnsureTenantMiddleware.php:15-81 | no tenant, then an inactive tenant, then an invalid subscription are refused, in that order; specified by HandlePasses, HandleRefusals, BillingOffIgnoresSubscription and TrialTenantsAreRefused |
| EnsureTenant.HandleRefusals | packages/kodikas/multitenant/src/Http/Middleware/EnsureTenantMiddleware.php:15-81 | 404 or a redirect to the central domain without a tenant, 403 when inactive, 402 without subscription |
| EnsureTenant.BillingOffIgnoresSubscription | packages/kodikas/multitenant/src/Http/Middleware/EnsureTenantMiddleware.php:86-93 | with billing off, only the status matters |
| EnsureTenant.TrialTenantsAreRefused | packages/kodikas/multitenant/src/Http/Middleware/EnsureTenantMiddleware.php:15-93 | with billing on, only active tenants with a paid subscription pass, and a trial tenant gets 403 |
| AccessControl.NamedParameters | packages/kodikas/multitenant/src/Http/Middleware/TenantAccessControlMiddleware.php:76-126 | `type:`, `role:`, `permission:` and `plan:` compare with their argument exactly |
| AccessControl.CheckParameter | packages/kodikas/multitenant/src/Http/Middleware/TenantAccessControlMiddleware.php:76-126 | the first matching form decides; specified by NamedParameters, LevelParameter, LevelWithoutNumberPasses, NotClientParameter, InternalOnlyTypes, SubscriptionRequiredParameter and UnknownParameterPasses |
| AccessControl.LevelParameter | packages/kodikas/multitenant/src/Http/Middleware/TenantAccessControlMiddleware.php:97-100 | `level:N` requires a hierarchy level of at least N |
| AccessControl.LevelWithoutNumberPasses | packages/kodikas/multitenant/src/Http/Middleware/TenantAccessControlMiddleware.php:97-100 | `level:` followed by a non-number lets every member through |
| AccessControl.InternalOnlyTypes | packages/kodikas/multitenant/src/Http/Middleware/TenantAccessControlMiddleware.php:107-112 | for the package's user types, `internal_only` means owner, admin or employee |
| AccessControl.NotClientParameter | packages/kodikas/multitenant/src/Http/Middleware/TenantAccessControlMiddleware.php:103-105 | `not_client` passes exactly for members whose type is not client |
| AccessControl.SubscriptionRequiredParameter | packages/kodikas/multitenant/src/Http/Middleware/TenantAccessControlMiddleware.php:115-117 | `subscription_required` passes exactly while the tenant's subscription end lies ahead, or it is on trial with the trial end ahead |
| AccessControl.UnknownParameterPasses | packages/kodikas/multitenant/src/Http/Middleware/TenantAccessControlMiddleware.php:76-126 | an unrecognised parameter passes |
| AccessControl.CheckMiddlewareRestrictions | packages/kodikas/multitenant/src/Http/Middleware/TenantAccessControlMiddleware.php:62-71 | true exactly when every parameter passes |
| AccessControl.Decide | packages/kodikas/multitenant/src/Http/Middleware/TenantAccessControlMiddleware.php:14-57 | a granted member is the user's live row and passes `canAccess` and every parameter against the tenant the table holds under the current key; an error comes only from a missing live tenant under that key |
| AccessControl.DecideGrants | packages/kodikas/multitenant/src/Http/Middleware/TenantAccessControlMiddleware.php:14-57 | an authenticated user is granted exactly when a live row exists, the table holds a live tenant under the current key, and the row passes `canAccess` and every parameter against that tenant |
| AccessControl.StaleCurrentTenant | packages/kodikas/multitenant/src/Models/TenantUser.php:146-160 | a current tenant suspended in the table since it was resolved gives basic_access; a soft-deleted one makes `handle` fail |
| AccessControl.Respond | packages/kodikas/multitenant/src/Http/Middleware/TenantAccessControlMiddleware.php:131-185 | passes for guests and granted members; 404 JSON without a tenant; 403 for non-members and refusals; 500 when `canAccess` failed |
| AccessControl.Handle | packages/kodikas/multitenant/src/Http/Middleware/TenantAccessControlMiddleware.php:14-57 | decides on the memberships and tenants tables as they were, responds, touches the row of a granted member only, and changes no other table |
| InvitationFlow.UserTypeFromRole | packages/kodikas/multitenant/src/Http/Controllers/TenantInvitationController.php:103-113 | admin exactly for the two admin roles, client for client, guest for viewer, employee otherwise |
| InvitationFlow.PermissionsFromRole | packages/kodikas/multitenant/src/Http/Controllers/TenantInvitationController.php:118-163 | an unknown role gets no permissions |
| InvitationFlow.PermissionsFromRoleShape | packages/kodikas/multitenant/src/Http/Controllers/TenantInvitationController.php:118-163 | no list repeats a permission; manage_tenant and billing_access belong to super_admin only |
| InvitationFlow.AdminPermissionsWithinSuperAdmin | packages/kodikas/multitenant/src/Http/Controllers/TenantInvitationController.php:118-163 | admin holds the super_admin list minus manage_tenant, billing_access and view_logs |
| InvitationFlow.InvitedMembership | packages/kodikas/multitenant/src/Http/Controllers/TenantInvitationController.php:79-89 | the created row joins the invitation's tenant and the user |
| InvitationFlow.InvitedMembershipRights | packages/kodikas/multitenant/src/Http/Controllers/TenantInvitationController.php:79-89 | an invitee is never owner, is active, is admin exactly for admin roles, has manage_tenant exactly as super_admin |
| InvitationFlow.ShowAcceptForm | packages/kodikas/multitenant/src/Http/Controllers/TenantInvitationController.php:15-27 | not found exactly for an unknown token; the form only for a pending invitation; otherwise "expirada" or "ya utilizada" |
| InvitationFlow.CancelledInvitationShownAsUsed | packages/kodikas/multitenant/src/Http/Controllers/TenantInvitationController.php:21-24 | a cancelled, unexpired invitation is reported as already used |
| InvitationFlow.Signup | packages/kodikas/multitenant/src/Http/Controllers/TenantInvitationController.php:49-59 | an existing user with the email is reused; otherwise a user with a fresh id and the entered name is appended |
| InvitationFlow.SignupValid | packages/kodikas/multitenant/src/Http/Controllers/TenantInvitationController.php:41-44 | a non-empty name of at most 255 characters and a confirmed password of at least 8; specified by Admit, which stops and changes no table when they fail |
| InvitationFlow.Admit | packages/kodikas/multitenant/src/Http/Controllers/TenantInvitationController.php:32-89 | admission needs a pending invitation and a user with no row in the tenant, and creates the user if needed and the membership; invalid name or password input stops it with no table changed |
| InvitationFlow.AcceptAsWritten | packages/kodikas/multitenant/src/Http/Controllers/TenantInvitationController.php:32-98 | as written, acceptance never reaches the welcome redirect; every admitted request ends in a unique violation |
| InvitationFlow.AcceptIntended | packages/kodikas/multitenant/src/Http/Controllers/TenantInvitationController.php:32-98 | corrected: welcome exactly when admitted, with the invitation accepted and one membership row added |
| InvitationFlow.NotPendingChangesNothing | packages/kodikas/multitenant/src/Http/Controllers/TenantInvitationController.php:37-39 | a non-pending invitation changes no table |
| InvitationFlow.ExistingUserReused | packages/kodikas/multitenant/src/Http/Controllers/TenantInvitationController.php:49-59 | an existing user is reused and no user row is added |
| InvitationFlow.MemberInvitationCancelled | packages/kodikas/multitenant/src/Http/Controllers/TenantInvitationController.php:62-70 | an existing member gets no new row and the invitation becomes cancelled |
| InvitationFlow.AdmitInvitee | packages/kodikas/multitenant/src/Http/Controllers/TenantInvitationController.php:32-89 | on the database, the result and the new tables are those of `Admit` |
| InvitationFlow.AcceptInvitation | packages/kodikas/multitenant/src/Http/Controllers/TenantInvitationController.php:32-98 | on the database, the result and the new tables are those of `AcceptAsWritten` |
| InvitationFlow.AcceptInvitationIntended | packages/kodikas/multitenant/src/Http/Controllers/TenantInvitationController.php:32-98 | on the database, the result and the new tables are those of `AcceptIntended` |
| TenantAdmin.SoftDeleteKeepsUsersCount | src/Http/Controllers/TenantAdminController.php:165-168 | soft deletes never lower a tenant's `users()->count()` |
| TenantAdmin.UsersCount | src/Http/Controllers/TenantAdminController.php:102 | `users()->count()`: the tenant's pivot rows, soft-deleted ones included; specified by SoftDeleteKeepsUsersCount |
| TenantAdmin.LimitAllowsBelowLimit | src/Http/Controllers/TenantAdminController.php:102-105 | the user-limit guard admits exactly counts below the limit |
| TenantAdmin.LimitAllows | src/Http/Controllers/TenantAdminController.php:102-105 | canPerform('users', count); specified by LimitAllowsBelowLimit and LeavingFreesNoSeat |
| TenantAdmin.LeavingFreesNoSeat | src/Http/Controllers/TenantAdminController.php:165-168 | a member leaving does not change the guard's answer |
| TenantAdmin.InviteUser | src/Http/Controllers/TenantAdminController.php:97-125 | the limit error exactly when the guard refuses; the form never offers owner or super_admin |
| TenantAdmin.ExpiredInvitationStillBlocks | src/Http/Controllers/TenantAdminController.php:155-162 | an expired invitation whose status is pending still blocks a new one for the email |
| TenantAdmin.InvitationInputValid | src/Http/Controllers/TenantAdminController.php:134-152 | sendInvitation's rules: an email, an assignable role and type, a message of at most 500 characters; specified by SendInvitation |
| TenantAdmin.HasPendingFor | src/Http/Controllers/TenantAdminController.php:155-162 | an invitation of the tenant for the email with status pending, whatever its expiry; specified by SendInvitation and ExpiredInvitationStillBlocks |
| TenantAdmin.InviteesCannotAdministrate | src/Http/Controllers/TenantAdminController.php:134-152 | no assignable role gives an invitee `permission:manage_tenant` |
| TenantAdmin.SendInvitation | src/Http/Controllers/TenantAdminController.php:130-183 | validation, the duplicate guard and the limit guard refuse unchanged, in that order; otherwise the created invitation is inserted |
| TenantAdmin.Reassigned | src/Http/Controllers/TenantAdminController.php:226-232 | the five assigned columns are replaced, missing lists stored empty; nothing else changes |
| TenantAdmin.UpdateGrantsNoPrivilege | src/Http/Controllers/TenantAdminController.php:192-215 | no accepted update makes an owner or a super_admin |
| TenantAdmin.UpdateInputValid | src/Http/Controllers/TenantAdminController.php:192-215 | updateUser's rules: an assignable type and role and a listed status; specified by UpdateUser and UpdateGrantsNoPrivilege |
| TenantAdmin.UpdateWithoutRestrictionsOpensAccess | src/Http/Controllers/TenantAdminController.php:226-232 | an update without restrictions lets every IP, hour and day through |
| TenantAdmin.UpdateUser | src/Http/Controllers/TenantAdminController.php:188-235 | invalid input, a missing row and the owner's row leave everything unchanged; otherwise the row is reassigned |
| TenantAdmin.RemoveUser | src/Http/Controllers/TenantAdminController.php:240-256 | a missing row and the owner's row are refused unchanged; otherwise the row is soft-deleted |
| TenantAdmin.RemovalEffect | src/Http/Controllers/TenantAdminController.php:240-256 | after removal no live row is left, and the user limit is unaffected |
| TenantAdmin.Merge | src/Http/Controllers/TenantAdminController.php:283-287 | the key union; the request's values win, the others stay |
| TenantAdmin.MergeIdempotent | src/Http/Controllers/TenantAdminController.php:283-287 | sending the same settings twice equals sending them once |
| TenantAdmin.SettingsInputValid | src/Http/Controllers/TenantAdminController.php:275-281 | updateSettings's rules on the name, app_name and locale; specified by UpdateSettings |
| TenantAdmin.UpdateSettings | src/Http/Controllers/TenantAdminController.php:271-290 | updated exactly when valid: the name set, settings and custom data merged, the rest kept |
| RowFilters.Select | packages/kodikas/multitenant/src/Traits/HasUserTypeAccess.php:25-56 | the query returns exactly the rows satisfying all its conditions |
| RowFilters.SelectNothing | packages/kodikas/multitenant/src/Traits/HasUserTypeAccess.php:25-56 | a query without conditions returns the whole table |
| RowFilters.TenantScope | packages/kodikas/multitenant/src/Traits/BelongsToTenant.php:15-22 | filters by the current tenant only under single_database with a tenant current |
| RowFilters.ForTenantScope | packages/kodikas/multitenant/src/Traits/BelongsToTenant.php:60-64 | the rows of the given tenant |
| RowFilters.TenantRows | packages/kodikas/multitenant/src/Traits/BelongsToTenant.php:15-64 | the default scope and `forTenant` return exactly the rows their condition admits |
| RowFilters.UnscopedContexts | packages/kodikas/multitenant/src/Traits/BelongsToTenant.php:15-22 | outside single_database, or with no tenant current, every row is returned |
| RowFilters.ExplicitScopesIgnoreContext | packages/kodikas/multitenant/src/Traits/BelongsToTenant.php:52-64 | `withoutTenant` and `forTenant` do not depend on the context |
| RowFilters.Stamped | packages/kodikas/multitenant/src/Traits/BelongsToTenant.php:34-38 | a falsy tenant_id becomes the current tenant's; nothing else changes |
| RowFilters.StampedRowVisible | packages/kodikas/multitenant/src/Traits/BelongsToTenant.php:15-38 | a row created in a tenant is returned by that tenant's queries, and stamping twice changes nothing |
| RowFilters.ExplicitForeignTenantHidden | packages/kodikas/multitenant/src/Traits/BelongsToTenant.php:15-38 | a row created with another tenant's id is invisible to the creating tenant |
| RowFilters.Query.constructor | packages/kodikas/multitenant/src/Traits/HasUserTypeAccess.php:14-20 | a query over the fillable columns with no conditions |
| RowFilters.Query.Where | packages/kodikas/multitenant/src/Traits/HasUserTypeAccess.php:61-136 | appends one condition |
| RowFilters.Draft.constructor | packages/kodikas/multitenant/src/Traits/BelongsToTenant.php:34-38 | a model being created holds the given row |
| RowFilters.Draft.Creating | packages/kodikas/multitenant/src/Traits/BelongsToTenant.php:34-38 | the hook leaves the row `Stamped` |
| RowFilters.ClientConditions | packages/kodikas/multitenant/src/Traits/HasUserTypeAccess.php:61-74 | own rows with status active or pending, each only where the column is fillable |
| RowFilters.EmployeeConditions | packages/kodikas/multitenant/src/Traits/HasUserTypeAccess.php:79-99 | no condition with view_all_data; the department with view_department_data (none without one); otherwise own rows |
| RowFilters.VendorConditions | packages/kodikas/multitenant/src/Traits/HasUserTypeAccess.php:104-114 | vendor_id when fillable, else user_id when fillable |
| RowFilters.PartnerConditions | packages/kodikas/multitenant/src/Traits/HasUserTypeAccess.php:119-136 | partner rows with view_partner_data, otherwise own rows |
| RowFilters.UserTypeConditions | packages/kodikas/multitenant/src/Traits/HasUserTypeAccess.php:25-56 | types other than client, employee, vendor and partner get no condition |
| RowFilters.CurrentMember | packages/kodikas/multitenant/src/Traits/HasUserTypeAccess.php:25-40 | the live row of the authenticated user in the current tenant |
| RowFilters.ApplyUserTypeFilters | packages/kodikas/multitenant/src/Traits/HasUserTypeAccess.php:25-56 | appends the member's conditions, or nothing without a member |
| RowFilters.ApplyClientFilters | packages/kodikas/multitenant/src/Traits/HasUserTypeAccess.php:61-74 | appends `ClientConditions` |
| RowFilters.ApplyEmployeeFilters | packages/kodikas/multitenant/src/Traits/HasUserTypeAccess.php:79-99 | appends `EmployeeConditions` |
| RowFilters.ApplyVendorFilters | packages/kodikas/multitenant/src/Traits/HasUserTypeAccess.php:104-114 | appends `VendorConditions` |
| RowFilters.ApplyPartnerFilters | packages/kodikas/multitenant/src/Traits/HasUserTypeAccess.php:119-136 | appends `PartnerConditions` |
| RowFilters.ForUserTypeConditions | packages/kodikas/multitenant/src/Traits/HasUserTypeAccess.php:149-170 | only client and vendor with a truthy id narrow, to own or vendor rows |
| RowFilters.ScopeForUserType | packages/kodikas/multitenant/src/Traits/HasUserTypeAccess.php:149-170 | appends `ForUserTypeConditions` |
| RowFilters.CanBeViewed | packages/kodikas/multitenant/src/Traits/HasUserTypeAccess.php:175-218 | false without a member; true for owners and super_admins; otherwise the user-type rule; its agreement with the query filters is in ClientQueryWithinCheck, VendorQueryAgreesOnVendorRows, EmployeeDepartmentAgrees and EmployeeWithoutDepartmentGap |
| RowFilters.CheckUserTypeAccess | packages/kodikas/multitenant/src/Traits/HasUserTypeAccess.php:200-218 | the per-type record check, false for the other types; specified by UnfilteredTypesSeeNoRecord |
| RowFilters.CheckClientAccess | packages/kodikas/multitenant/src/Traits/HasUserTypeAccess.php:223-227 | the record is the client's own; specified by ClientQueryWithinCheck |
| RowFilters.CheckEmployeeAccess | packages/kodikas/multitenant/src/Traits/HasUserTypeAccess.php:232-249 | specified by EmployeeDepartmentAgrees and EmployeeWithoutDepartmentGap |
| RowFilters.CheckVendorAccess | packages/kodikas/multitenant/src/Traits/HasUserTypeAccess.php:254-262 | specified by VendorQueryAgreesOnVendorRows |
| RowFilters.CheckPartnerAccess | packages/kodikas/multitenant/src/Traits/HasUserTypeAccess.php:267-278 | with view_partner_data, any record whose partner_id is set; otherwise the member's own; specified by PartnerQueryAgrees |
| RowFilters.PartnerQueryAgrees | packages/kodikas/multitenant/src/Traits/HasUserTypeAccess.php:119-136 | for a partner, when the column its rule reads is fillable, the filtered query and the record check agree |
| RowFilters.UnfilteredTypesSeeNoRecord | packages/kodikas/multitenant/src/Traits/HasUserTypeAccess.php:25-56 | admins, consultants and guests get unfiltered queries yet may view no record |
| RowFilters.ClientQueryWithinCheck | packages/kodikas/multitenant/src/Traits/HasUserTypeAccess.php:61-74 | every row of a client's query passes the record check, and they agree when status is not fillable |
| RowFilters.VendorQueryAgreesOnVendorRows | packages/kodikas/multitenant/src/Traits/HasUserTypeAccess.php:104-114 | for a vendor, query and record check agree on rows with a vendor_id |
| RowFilters.EmployeeWithoutDepartmentGap | packages/kodikas/multitenant/src/Traits/HasUserTypeAccess.php:79-99 | an employee with view_department_data and no department gets every row from the query but may view none |
| RowFilters.EmployeeDepartmentAgrees | packages/kodikas/multitenant/src/Traits/HasUserTypeAccess.php:79-99 | with a department, query and record check agree |

## Findings

| source | as written | input that shows it | evidently intended | confidence | as-written member | corrected member |
|---|---|---|---|---|---|---|
| packages/kodikas/multitenant/src/Http/Controllers/TenantInvitationController.php:79-92 | the controller creates the tenant_users row for the invitee, then calls `accept($user)`, which attaches the same (tenant_id, user_id) pair again; the unique index refuses the second insert after the invitation has been marked accepted | any pending invitation with a valid form, for a user with no tenant_users row in the tenant | create the membership once, mark the invitation accepted, log the user in and redirect to the dashboard | not executed | InvitationFlow.AcceptAsWritten | InvitationFlow.AcceptIntended |
| packages/kodikas/multitenant/src/Models/Tenant.php:59-62 | `getConnectionName()` is overridden to return `tenant_{slug}`, and Eloquent opens every query of a model on the connection that method names. `Tenant::find`, `Tenant::where` and `Tenant::active()` start from a fresh model whose slug is null, so they ask for the connection `tenant_`. configureDatabaseConnection adds only `tenant_<slug>` for a tenant with a slug, so that connection is never configured and the query throws | `Tenant::find(1)` in resolveFromSession (src/TenantResolver.php:149), with no `tenant_` entry in `database.connections`, after any number of tenants with a slug have been configured | read the tenants table on the central connection, and use `tenant_{slug}` only as the name of the tenant's own connection | not executed; medium: it rests on Eloquent resolving every query's connection through the model's `getConnectionName()`, which is framework code outside this model | Tenants.FindByIdAsWritten | Tenants.FindById |

## Left out

- Tenant creation and the migration, seed and make commands are not modelled: they create and drop databases and run migrations, which is outside the model's database tables.
- The cache TTL is not modelled: entries never expire in the model.
- Authentication, bcrypt hashing and login are not modelled. The user and the clock are parameters.
- The email-format and `exists` validation rules are not modelled: an email is required only to be non-empty.
- The `required` rule in the model counts characters and does not trim whitespace.
- Views, flash messages and session redirects are modelled only as outcome constructors. `$request->merge` and event payloads are not modelled.
- The subdomain regular expression is a function parameter.
- Concurrency and transactions are not modelled. Each method runs alone on the tables.
- PhpStrings.IntCast: leading whitespace and decimal or exponent forms of `is_numeric` are not modelled, because every identifier and parameter the core casts is a plain token.
- Tenants.TenantConnection: the template entries `strict => true` and `engine => null` are not modelled, because connection values are strings.
- Plan features that are not integers, such as `storage => '1GB'`, are not modelled, because limits are integers.
- `TenantManager::current` is declared twice in the source: the nullable form at src/TenantManager.php:25-28 and, at :55-62, a form that throws TenantNotResolvedException when no tenant is current. PHP refuses a class that declares a method twice, with a fatal "Cannot redeclare" error, so as written the class does not load at all. The model takes the evident intent: `Manager.TenantManager.Current` is the nullable form and `Manager.TenantManager.CurrentOrFail` the throwing one.
- Manager.TenantManager.Delete: does not model the DROP DATABASE of the tenant's database under multiple_databases, because databases are outside the model's tables. It also does not model the rollback and re-throw when the delete fails: the soft delete in the model cannot fail.
- Queries that end in `first()` without an `orderBy` are modelled as returning the first match in table order. That covers GetTenantUser, LiveIndex and UserByEmail, PrimaryTenant's `first()` over the joins, which come in pivot-table order, and Resolver.QueryByIdentifier and TenantContext.ResolveTenant. The database does not promise that order. In the last two it decides the answer when one tenant's slug equals another tenant's domain or subdomain, since nothing makes those three columns unique across each other. For GetTenantUser and LiveIndex it does not matter: under the unique index at most one live row matches (GetTenantUserUnique).
- TenantAdmin.UsersCount: counts the tenant's pivot rows, soft-deleted ones included. `users()->count()` also inner-joins the users table, so a pivot row whose user was removed is not counted there. The model does not check pivot rows against the users table, so it counts such a row.
- The `tenant` relation of an invitation is assumed present when the invitation is accepted: an invitation whose tenant has been soft-deleted is not modelled.
- TenantAdmin.Merge: the renumbering of integer keys by `array_merge` is not modelled, because settings keys are strings.
- TenantAdmin.UpdateSettings: the save is returned as the updated tenant value rather than written back into the tenants table.
- `scopeWithoutUserTypeAccess` is not a separate member: removing the global scope amounts to not calling `ApplyUserTypeFilters`.
- `adminTenants` uses `wherePivot` with an array; the model reads it as role super_admin or admin. That reading is the evident intent, not Laravel's established behaviour: `where` with an array value may bind only its first element. `PrimaryTenant` uses the same reading.
- The administration controller's dashboard, users, settings, billing, accessLogs and analytics actions are not modelled: they query and render views without any state change of the core.
- `switchToCentral` under multiple_schemas runs no `SET search_path`, and the model keeps that: `SearchPathLeaksAfterRun` shows the effect.
- The `getPdo` connection test is the set of reachable connection names in the environment.
- Tenants.ConnectionName: the model treats `tenant_<slug>` only as the name of the tenant's own connection, and every tenants-table query reads the one central table. As written, the override also decides the connection of the Tenant model's own queries, which then fail; "## Findings" records this with Tenants.FindByIdAsWritten.
- Under multiple_databases, switching into a tenant makes `tenant_<slug>` the default connection (src/TenantManager.php:119-134). After that, every model without its own `$connection` reads the tenant's database: TenantUser, TenantInvitation and the user model. `tenant:migrate` gives that database the same tables, empty at first. The model reads one central set of tables everywhere. So once a tenant is set, these members read the central memberships, invitations and users where the source reads the tenant's tables: AccessControl.Decide and AccessControl.Handle, the updateTenantAccess step of HasTenants.SwitchToTenant, RowFilters.CurrentMember, the TenantAdmin operations and the InvitationFlow operations.
- Collation is not modelled: slugs, domains, emails and tokens compare character for character, whereas MySQL's default collation compares them case-insensitively.
- The resolver's `IdentifyTenantMiddleware` and the service provider's bindings are not modelled beyond `Boot`, which is what they call.
