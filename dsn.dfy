/** contrib/database/sql/internal/dsn.go: turning a data source name into the
    meta tags every span of a connection carries. Only MySQL names are
    understood; the MySQL parser itself belongs to the MySQL driver and is a
    parameter here. */
module Dsn {
  import opened Base

  // Tag keys of the tracing `ext` package.
  const TagDBInstance := "db.instance"
  const TagDBUser := "db.user"
  const TagDBType := "db.type"

  /** The fields of a parsed MySQL configuration the tags use. */
  datatype MySQLConfig = MySQLConfig(addr: string, dbName: string, user: string)

  /** A parser of MySQL data source names: a configuration or an error. */
  type MySQLParser = string -> Result<MySQLConfig, Error>

  /** `parseMySQLDSN` (dsn.go:26-37): on success, the instance
      ("address/database"), the user and the type "mysql"; the parser's error
      otherwise. */
  function ParseMySQLDSN(dsn: string, parse: MySQLParser): (r: Result<map<string, string>, Error>)
    ensures parse(dsn).Err? <==> r.Err?
    ensures r.Err? ==> r.error == parse(dsn).error
    ensures r.Ok? ==> var cfg := parse(dsn).value;
      && r.value.Keys == {TagDBInstance, TagDBUser, TagDBType}
      && r.value[TagDBInstance] == cfg.addr + "/" + cfg.dbName
      && r.value[TagDBUser] == cfg.user
      && r.value[TagDBType] == "mysql"
  {
    match parse(dsn)
    case Err(e) => Err(e)
    case Ok(cfg) =>
      Ok(map[TagDBInstance := cfg.addr + "/" + cfg.dbName, TagDBUser := cfg.user, TagDBType := "mysql"])
  }

  /** `ParseDSN` (dsn.go:11-23): MySQL names go to `ParseMySQLDSN`; any other
      driver name gives no tags and no error. */
  function ParseDSN(driverName: string, dsn: string, parse: MySQLParser): (r: Result<map<string, string>, Error>)
    ensures driverName != "mysql" ==> r == Ok(map[])
    ensures driverName == "mysql" ==> r == ParseMySQLDSN(dsn, parse)
  {
    if driverName == "mysql" then ParseMySQLDSN(dsn, parse) else Ok(map[])
  }

  /** Only a MySQL name can fail, and then exactly when the MySQL parser fails. */
  lemma ParseDSNFailsOnlyForMySQL(driverName: string, dsn: string, parse: MySQLParser)
    ensures ParseDSN(driverName, dsn, parse).Err? <==> driverName == "mysql" && parse(dsn).Err?
  {
  }

  /** What a successful parse yields is either nothing or the three MySQL tags,
      and the type tag names MySQL whenever there are tags. */
  lemma ParseDSNTags(driverName: string, dsn: string, parse: MySQLParser)
    requires ParseDSN(driverName, dsn, parse).Ok?
    ensures var meta := ParseDSN(driverName, dsn, parse).value;
      && (meta == map[] || meta.Keys == {TagDBInstance, TagDBUser, TagDBType})
      && (meta != map[] <==> driverName == "mysql")
      && (meta != map[] ==> meta[TagDBType] == "mysql")
  {
    if driverName == "mysql" {
      assert TagDBType in ParseDSN(driverName, dsn, parse).value;
    }
  }
}
