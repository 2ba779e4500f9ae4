/**
 * The `multitenant` configuration record that the core reads, with the
 * option values it compares against.
 */
module Config {

  // identification_method values
  const SUBDOMAIN := "subdomain"
  const DOMAIN := "domain"
  const PATH := "path"
  const HEADER := "header"
  const SESSION := "session"

  // database_strategy values
  const SINGLE_DATABASE := "single_database"
  const MULTIPLE_DATABASES := "multiple_databases"
  const MULTIPLE_SCHEMAS := "multiple_schemas"

  /** Plan name to its `features` table (limit name to integer limit). */
  type Plans = map<string, map<string, int>>

  datatype Settings = Settings(
    identificationMethod: string,
    databaseStrategy: string,
    centralDomain: string,
    dbPrefix: string,
    dbSuffix: string,
    connectionTemplate: map<string, string>,
    billingEnabled: bool,
    plans: Plans,
    cacheEnabled: bool,
    cachePrefix: string)

  /**
   * The shipped defaults (every environment variable unset). The plans'
   * `storage` entries are strings such as "1GB" and are not integer limits,
   * so they are not part of this table.
   */
  const DefaultSettings := Settings(
    SUBDOMAIN,
    SINGLE_DATABASE,
    "localhost",
    "tenant_",
    "",
    map["driver" := "mysql", "host" := "127.0.0.1", "port" := "3306",
        "username" := "forge", "password" := "", "charset" := "utf8mb4",
        "collation" := "utf8mb4_unicode_ci", "prefix" := ""],
    false,
    map["basic" := map["users" := 5, "api_calls" := 1000],
        "pro" := map["users" := 25, "api_calls" := 10000]],
    true,
    "tenant:")
}
