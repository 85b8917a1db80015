/** contrib/database/sql/driver.go: `tracedDriver`, the registered driver that
    opens traced connections. */
module SqlDriver {
  import opened Base
  import opened Driver
  import opened SqlOptions
  import opened SqlTrace
  import opened SqlConn
  import Dsn

  /** `tracedDriver{Driver, driverName, options}`. The MySQL parser the data
      source names go through is part of the driver's environment. */
  class TracedDriver {
    const inner: Handle
    const driverName: string
    const options: Options
    const parseMySQL: Dsn.MySQLParser

    constructor (inner: Handle, driverName: string, options: Options, parseMySQL: Dsn.MySQLParser)
      ensures this.inner == inner && this.driverName == driverName
      ensures this.options == options && this.parseMySQL == parseMySQL
    {
      this.inner := inner;
      this.driverName := driverName;
      this.options := options;
      this.parseMySQL := parseMySQL;
    }

    /** `Open` (driver.go:19-37): parses the data source name first, and on an
        error returns it without calling the inner driver; otherwise calls the
        inner `Open` once, returns its error with no connection if it fails, and
        else wraps the connection with the parsed meta tags and the driver's
        options. Opening traces nothing. */
    method Open(rec: Recorder, dsn: string, reply: Reply<InnerConn>) returns (conn: Option<TracedConn>, err: Option<Error>)
      modifies rec
      ensures var meta := Dsn.ParseDSN(driverName, dsn, parseMySQL);
        && (meta.Err? ==> conn.None? && err == Some(meta.error) && rec.events == old(rec.events))
        && (meta.Ok? ==> rec.events == old(rec.events) + [Call(inner, DriverOpen(dsn))])
        && (meta.Ok? && reply.err.Some? ==> conn.None? && err == reply.err)
        && (meta.Ok? && reply.err.None? ==>
              && err.None? && conn.Some? && fresh(conn.value)
              && conn.value.inner == reply.value
              && conn.value.tp == TraceParams(meta.value, options))
    {
      var meta := Dsn.ParseDSN(driverName, dsn, parseMySQL);
      if meta.Err? {
        return None, Some(meta.error);
      }
      rec.Record(Call(inner, DriverOpen(dsn)));
      if reply.err.Some? {
        return None, reply.err;
      }
      var c := new TracedConn(reply.value, TraceParams(meta.value, options));
      return Some(c), None;
    }
  }
}
