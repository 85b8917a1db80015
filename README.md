# Traced database/sql and gocql wrappers

This project models the instrumentation layer of dd-trace-go's
`contrib/database/sql` package and of its `contrib/gocql/gocql` wrapper.

The database/sql side wraps a SQL driver. Every connection, statement, cursor
and result it hands out is a proxy. Each proxy forwards a call to the wrapped
driver resource and reports the call through the one primitive `tryTrace`.
`tryTrace` does nothing for `driver.ErrSkip`. Otherwise it emits one finished
span with a fixed set of tags, and then `doLog` writes one log entry, with
key/value fields in a fixed order, unless no logger is configured or the
operation is `sql-rows-next` or `sql-ping`. A connection that is not an
`ExecerContext` or `QueryerContext`, and a statement that is not a
`StmtExecContext` or `StmtQueryContext`, take a fallback path in a fixed order:
argument conversion, then the check for a done context, then the legacy call.
Without `ConnBeginTx` or `ConnPrepareContext` the wrapper calls the legacy
`Begin` or `Prepare` directly. Without `Pinger` it makes no inner call and
counts the ping as a success. A cursor can keep a row counter in its context.
A transaction keeps a begin mark there, set only when the driver is a
`ConnBeginTx`.

The gocql side wraps a query. When no resource name is configured, it derives
the span resource name from the CQL text. It opens one span per scan. The span of an iterator stays open until
`Close`.

The world outside the wrapper is represented as follows:

- A `Recorder` holds one ordered log of calls into the wrapped driver, span
  emissions and log entries. Contracts can then say what was called, what was
  emitted, and in which order.
- Driver answers are parameters (`reply`).
- Clock readings are integer parameters (`start`, `now`).
- A context is a value with a done flag, its error, the parent span, the begin
  mark and an optional pointer to a `Counter` object.
- The MySQL parser and `strconv.Unquote` are function parameters.
- For gocql, a `CqlTracer` holds the spans, updated in place while open, and one
  ordered log of span starts, gocql calls and span finishes.

Modules follow the source files: `Base` and `Context` (shared building blocks),
`Driver`, `SqlOptions`, `SqlTrace`, `SqlResult`, `SqlRows`, `SqlStmt`,
`SqlConn`, `Dsn`, `SqlDriver` and `Gocql`.

Behaviour of the code worth knowing, reproduced as written:

- A named argument on a fallback path fails before any driver call and emits
  no span (stmt.go:36-39, conn.go:67-70).
- `RowsAffected` calls itself instead of delegating (result.go:26). See
  Findings below.
- The row counter is also incremented on the EOF call (rows.go:32). After five
  rows and the EOF call, the EOF span is tagged 5 and a later `Close` span is
  tagged 6.
- `doLog` writes the arguments even when `OmitArgs` is set (trace.go:90-92).

## Model

| member | source | states |
|---|---|---|
| Base.NatToString | contrib/database/sql/trace.go:144 | the `%d` rendering of a natural number is non-empty and made of decimal digits only |
| Base.Itoa | contrib/gocql/gocql/gocql.go:126 | the `strconv.Itoa` rendering is non-empty and starts with '-' exactly for negative numbers |
| Base.JoinSnoc | contrib/database/sql/trace.go:137 | joining one more part adds exactly one separator before it |
| SqlOptions.OptionsCell.constructor | contrib/database/sql/option.go:3-7 | a fresh `options` record is the zero value: no logger, args included, rows not traced |
| SqlOptions.OptionsCell.Apply | contrib/database/sql/option.go:13-48 | running an option's closure updates the record in place to `Applied(old value, option)` |
| SqlOptions.Applied | contrib/database/sql/option.go:13-48 | each option's closure sets exactly the field it names, to the value it names, and leaves the other two unchanged |
| SqlOptions.AppliedIdempotent | contrib/database/sql/option.go:13-48 | applying an option twice equals applying it once |
| SqlOptions.DefaultsIncludeArgs | contrib/database/sql/option.go:3-7 | the zero value has OmitArgs false, TraceRowsOp false and no logger |
| SqlOptions.ApplyAllSnoc | contrib/database/sql/option.go:13-48 | applying a list of options and then one more is applying the extended list in order |
| SqlOptions.OmitArgsLastWins | contrib/database/sql/option.go:20-32 | the last of WithOmitArgs/WithIncludeArgs decides OmitArgs; with neither, the starting value stays |
| SqlOptions.TraceRowsLastWins | contrib/database/sql/option.go:36-48 | the last of WithTraceRowsOp/WithNoTraceRowsOp decides TraceRowsOp; with neither, it stays |
| SqlOptions.LoggerLastWins | contrib/database/sql/option.go:13-17 | the last WithLogger decides the logger; with none, it stays |
| SqlTrace.FormatArgs | contrib/database/sql/trace.go:126-138 | the loop-built string equals "<unknown>" for a non-slice, else "{" + the element renderings joined by ", " + "}" |
| SqlTrace.FormattedArgsShape | contrib/database/sql/trace.go:128-137 | a non-slice renders as "<unknown>"; a slice is braced, "{}" when empty, "{x}" for one element |
| SqlTrace.FormattedArgsSnoc | contrib/database/sql/trace.go:132-137 | one more element adds ", " and its rendering inside the braces |
| SqlTrace.FormatArg | contrib/database/sql/trace.go:140-158 | every single-argument rendering, named values included, is one item starting with '[' and ending with ']' |
| SqlTrace.FormatArgHidesBytes | contrib/database/sql/trace.go:143-144 | two arguments that differ only in byte contents (same lengths) render identically, so byte contents never reach the output |
| SqlTrace.UnnamedFormatsAsValue | contrib/database/sql/trace.go:147-152 | an unnamed NamedValue renders exactly like its value |
| SqlTrace.PositionalFormatsAsNamed | contrib/database/sql/trace.go:147-152 | with no named argument, the named-argument slice and the converted value slice render identically |
| SqlTrace.TracedEmitsOneSpan | contrib/database/sql/trace.go:23-75 | ErrSkip adds nothing; otherwise exactly one finished span starting at `start`, plus one log entry iff the operation is logged |
| SqlTrace.TracedSpanUnique | contrib/database/sql/trace.go:32-64 | the span specification fixes every field and tag: two spans meeting it are equal |
| SqlTrace.StartSpan | contrib/database/sql/trace.go:32-58 | the span has op, parent and start time; component always set; db.statement iff the query is non-empty; args iff not OmitArgs and args non-nil; error iff err; rows.len iff a rows op; no other tag |
| SqlTrace.SetMetaTags | contrib/database/sql/trace.go:60-62 | after the map range, every metadata key holds its value and every other tag is as it was |
| SqlTrace.BuildSpan | contrib/database/sql/trace.go:32-64 | the finished span meets the span specification: own tags by their conditions, metadata tags on top, nothing else |
| SqlTrace.OrderedPairwise | contrib/database/sql/trace.go:86-109 | in an ordered field list, every later field ranks strictly above every earlier one |
| SqlTrace.UptoMeetsSpec | contrib/database/sql/trace.go:86-109 | the reference list built key by key meets the log-field specification |
| SqlTrace.BuildLogFields | contrib/database/sql/trace.go:86-109 | fields in the order query, args, error, tx_cost, cost: query iff non-empty, args iff non-nil (regardless of OmitArgs), error iff err, tx_cost iff commit/rollback with a begin mark, cost always and last |
| SqlTrace.DoLog | contrib/database/sql/trace.go:77-111 | no entry without a logger or for sql-rows-next/sql-ping; otherwise one entry for the logger, context and op, with fields as specified |
| SqlTrace.TryTrace | contrib/database/sql/trace.go:23-75 | ErrSkip: nothing emitted and the context returned unchanged; otherwise one span meeting the specification, then the doLog entry, and a context carrying the new span |
| SqlTrace.TracedDriverName | contrib/database/sql/trace.go:114 | the alias is the driver name followed by ".traced" |
| SqlTrace.TracedDriverNameInjective | contrib/database/sql/trace.go:114 | distinct driver names give distinct aliases |
| SqlTrace.DriverExists | contrib/database/sql/trace.go:117-124 | true iff the name occurs among the registered driver names |
| SqlResult.TracedResult.LastInsertId | contrib/database/sql/result.go:17-22 | one inner call; the id and error come back unchanged; one sql-res-lastInsertId trace with no query, nil args and a nil error even when the inner call failed |
| SqlResult.TracedResult.RowsAffected | contrib/database/sql/result.go:24-29 | the self-call recurses until the stack is exhausted and leaves the event log unchanged: no inner call and no trace |
| SqlResult.TracedResult.RowsAffectedIntended | contrib/database/sql/result.go:24-29 | delegating version: one inner RowsAffected call, count and error unchanged, one sql-res-rowsAffected trace with a nil error |
| SqlRows.TracedRows.constructor | contrib/database/sql/rows.go:12-16 | the wrapper keeps the cursor, params and context; the counter invariant holds with no Next calls yet |
| SqlRows.TracedRows.Next | contrib/database/sql/rows.go:18-35 | inner error returned; tracing off: no span, counter and context untouched; tracing on: span only on EOF, tagged with the count before this call; counter made on first use and incremented on every call, so it equals the calls made |
| SqlRows.TracedRows.Close | contrib/database/sql/rows.go:37-44 | one inner Close, error unchanged; one sql-rows-close trace with the current count iff TraceRowsOp |
| SqlStmt.NamedValueToValue | contrib/database/sql/stmt.go:73-82 | error iff some argument has a name; on success same length and dargs[i] == named[i].Value |
| SqlStmt.TracedStmt.Close | contrib/database/sql/stmt.go:21-26 | one inner Close, then one sql-stmt-close trace with the statement's query; inner error returned |
| SqlStmt.TracedStmt.ExecContext | contrib/database/sql/stmt.go:29-48 | capability path traced with the named args; else named arg gives the conversion error, done context gives ctx error, neither calling nor tracing; else inner Exec on converted values, traced with those values |
| SqlStmt.TracedStmt.QueryContext | contrib/database/sql/stmt.go:51-70 | same order as ExecContext, but the fallback trace carries the original named args; a fresh cursor with the counter invariant |
| SqlConn.TracedConn.BeginTx | contrib/database/sql/conn.go:16-33 | ConnBeginTx when available, else Begin; one sql-tx-begin trace either way; error gives no tx; begin mark stored only on the ConnBeginTx path |
| SqlConn.TracedConn.PrepareContext | contrib/database/sql/conn.go:35-51 | PrepareContext when available, else Prepare; one sql-prepare trace with the query; on success a statement bound to that query and context |
| SqlConn.TracedConn.Exec | contrib/database/sql/conn.go:53-58 | delegates untraced iff Execer; otherwise ErrSkip with no call |
| SqlConn.TracedConn.ExecContext | contrib/database/sql/conn.go:60-79 | capability path returns the wrapped result with the inner error unchanged; fallback order conversion, done check, legacy Exec; ErrSkip from a missing Execer leaves no trace |
| SqlConn.TracedConn.Ping | contrib/database/sql/conn.go:82-89 | inner Ping only for a Pinger, absence is success; the outcome goes through `tryTrace`: one sql-ping span, or nothing when the Pinger answers ErrSkip |
| SqlConn.TracedConn.Query | contrib/database/sql/conn.go:91-96 | delegates untraced iff Queryer; otherwise ErrSkip with no call |
| SqlConn.TracedConn.QueryContext | contrib/database/sql/conn.go:98-117 | as ExecContext, with QueryerContext/Queryer and a wrapped cursor |
| Dsn.ParseMySQLDSN | contrib/database/sql/internal/dsn.go:26-37 | fails iff the parser fails, with its error; else exactly db.instance = addr/dbname, db.user, db.type = "mysql" |
| Dsn.ParseDSN | contrib/database/sql/internal/dsn.go:11-23 | any driver name but "mysql" gives an empty map and no error; "mysql" gives the MySQL result |
| Dsn.ParseDSNFailsOnlyForMySQL | contrib/database/sql/internal/dsn.go:11-23 | parsing fails iff the driver is "mysql" and its parser fails |
| Dsn.ParseDSNTags | contrib/database/sql/internal/dsn.go:11-37 | a successful parse gives no tags or exactly the three MySQL tags, the latter iff the driver is "mysql" |
| SqlDriver.TracedDriver.Open | contrib/database/sql/driver.go:19-37 | a DSN error is returned with no inner call; an inner Open error gives no connection and that error; success gives a connection with the parsed meta tags, the driver's options and a nil error |
| Gocql.ConfiguredAppend | contrib/gocql/gocql/gocql.go:47-51 | applying two option lists in turn is applying their concatenation |
| Gocql.ApplyWrapOptions | contrib/gocql/gocql/gocql.go:47-51 | the loop yields the defaults with every option applied, first to last |
| Gocql.IndexOfQuote | contrib/gocql/gocql/gocql.go:53 | defined iff the text has a quote; then it is the position of the first one |
| Gocql.QuotedSection | contrib/gocql/gocql/gocql.go:53 | `SplitN(s, "\"", 3)[1]`: undefined (panic) iff the text has no quote; otherwise quote-free text starting right after the first quote and ending at the next quote or the end |
| Gocql.QuotedSectionBetween | contrib/gocql/gocql/gocql.go:53 | with two quotes, the split's second part is exactly the text between the first two |
| Gocql.QuotedSectionSingle | contrib/gocql/gocql/gocql.go:53 | with one quote, the second part is everything after it |
| Gocql.ResourceName | contrib/gocql/gocql/gocql.go:52-61 | a configured name is kept; otherwise undefined (panic) iff the text has no quote, else the unquoted quoted section, or "_" when unquoting fails |
| Gocql.ResourceNameFromQuotes | contrib/gocql/gocql/gocql.go:52-61 | with no configured name, the resource is the unquoted text between the first two quotes |
| Gocql.ChildSpanTags | contrib/gocql/gocql/gocql.go:81-91 | a child span is an open cassandra.query span of the configured service and resource, tagged only with paginated ("true"/"false") and keyspace |
| Gocql.IterSpanTags | contrib/gocql/gocql/gocql.go:123-140 | the iterator span is open with no error tag; row count and consistency set; paginated kept; keyspace from the first column iff columns exist; out.host, out.port and cassandra.cluster each present iff a host exists, with its ID, port and data centre; no other tag |
| Gocql.ClosedErrorTag | contrib/gocql/gocql/gocql.go:143-150 | closing finishes the span and adds the error tag iff there is an error, changing nothing else |
| Gocql.FinishWithError | contrib/gocql/gocql/gocql.go:102 | the span is finished with the given error, and the finish is logged |
| Gocql.Query.constructor | contrib/gocql/gocql/gocql.go:62 | a wrapped query is not paginated, has an empty keyspace and a background context |
| Gocql.Query.WithContext | contrib/gocql/gocql/gocql.go:67-71 | replaces the trace context, tells the inner query, keeps paginated, returns the same wrapper |
| Gocql.Query.PageState | contrib/gocql/gocql/gocql.go:74-78 | sets paginated, replaces the inner query by gocql's, returns the same wrapper; no other method sets paginated |
| Gocql.Query.NewChildSpan | contrib/gocql/gocql/gocql.go:81-91 | starts the child span under the given context |
| Gocql.Query.MapScan | contrib/gocql/gocql/gocql.go:99-104 | span started before the inner call, finished with its error; error returned unchanged |
| Gocql.Query.Scan | contrib/gocql/gocql/gocql.go:107-112 | as MapScan |
| Gocql.Query.ScanCAS | contrib/gocql/gocql/gocql.go:115-120 | as MapScan, also returning `applied` unchanged |
| Gocql.Query.Iter | contrib/gocql/gocql/gocql.go:123-140 | starts the iterator span and leaves it open, handing its index to a fresh traced Iter |
| Gocql.Query.Exec | contrib/gocql/gocql/gocql.go:94-96 | exactly one span, opened and finished; the inner Close error is returned |
| Gocql.Iter.Close | contrib/gocql/gocql/gocql.go:143-150 | one inner Close; error tag iff error; span finished; error returned |
| Gocql.WrapQuery | contrib/gocql/gocql/gocql.go:46-64 | options applied over the defaults; resource name as derived; none (panic) for unquoted text without a configured name; not paginated, background context |

## Left out

- Tracer, logger and clock backends are abstract records in an event log. This covers opentracing, the dd tracer, `Logger.Log`, `time.Now` and `Duration.String`. Durations are integer differences, and the two `time.Now` readings of `doLog` are one `now`.
- `fmt`, `reflect` and `%T`, `%v` and `%q` rendering: a string argument carries its `%q` text, and any other value carries its type name and `%v` text. The `%t` of the gocql paginated tag is written out inline as "true"/"false".
- `mysql.ParseDSN`, `strconv.Unquote`, `gocql.Query.String`, `GetConsistency().String()`, `NumRows`, `Columns` and `Host` are parameters.
- The gocql `queryConfig`, its `defaults` and the option constructors are not part of this model. The defaults are a parameter, and an option is any function on the configuration.
- Concurrency and real cancellation. A context is a done flag plus its error.
- `tracedTx` with Commit and Rollback is not part of this model. Only the begin mark that `BeginTx` stores, and `doLog`'s `tx_cost` branch, are modelled.
- Driver registration (`Register`) and the global `sql.Drivers()` list. `DriverExists` scans an explicit list.
- constants.go: only its names are transcribed, as constants.
- The `dest` buffers of `Next`, `Scan` and `MapScan` are not modelled. Row values never reach a span.
- Inner driver handles are never nil. A wrapper holding Go's nil result or rows is `inner == None`, and calling through it panics in Go, so its methods require `inner.Some?`.
- The begin mark 0 stands for Go's zero `time.Time`. A transaction begun at clock reading 0 therefore reads as having no mark.
- Base.Itoa, Base.NatToString: their contracts state the shape of the rendering (non-empty, sign, decimal digits), not its numeric value.
- SqlResult.TracedResult.RowsAffected: the unbounded self-recursion is modelled as a finite `depth` of stack. The stack overflow is the only way the call ends.
- Gocql.Query.WithContext: the inner query's `WithContext` is recorded as a call. The copy it may return is discarded, as in the source.

## Findings

| source | as written | input that shows it | evidently intended | confidence | as-written member | corrected member |
|---|---|---|---|---|---|---|
| contrib/database/sql/result.go:26 | `RowsAffected` calls the wrapper's own `RowsAffected` | any call to `RowsAffected` on a traced result | call the inner result's `RowsAffected` once and trace it, as `LastInsertId` does | high (not executed) | SqlResult.TracedResult.RowsAffected | SqlResult.TracedResult.RowsAffectedIntended |
