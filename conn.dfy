/** contrib/database/sql/conn.go: `tracedConn`, the connection handed back by
    the traced driver's `Open`. Each method probes the inner connection for an
    optional interface and falls back to an older one when it is missing. */
module SqlConn {
  import opened Base
  import opened Context
  import opened Driver
  import opened SqlTrace
  import opened SqlResult
  import opened SqlRows
  import opened SqlStmt

  /** `tracedTx{Tx, traceParams, ctx}`. Its `Commit` and `Rollback` are not part
      of this model; what matters here is the context it keeps, which holds the
      begin mark that `doLog` turns into `tx_cost`. */
  class TracedTx {
    const inner: Handle
    const tp: TraceParams
    const ctx: Ctx

    constructor (inner: Handle, tp: TraceParams, ctx: Ctx)
      ensures this.inner == inner && this.tp == tp && this.ctx == ctx
    {
      this.inner := inner;
      this.tp := tp;
      this.ctx := ctx;
    }
  }

  /** `tracedConn{Conn, traceParams}`. */
  class TracedConn {
    const inner: InnerConn
    const tp: TraceParams

    constructor (inner: InnerConn, tp: TraceParams)
      ensures this.inner == inner && this.tp == tp
    {
      this.inner := inner;
      this.tp := tp;
    }

    /** `BeginTx` (conn.go:16-33): `ConnBeginTx.BeginTx` when the connection has
        it, else the legacy `Begin`; either way one `sql-tx-begin` trace. An error
        gives a nil transaction and that error. Only the `ConnBeginTx` path stores
        the start time in the transaction's context as its begin mark. */
    method BeginTx(rec: Recorder, ctx: Ctx, opts: TxOptions, start: int, now: int, reply: Reply<Handle>)
      returns (tx: Option<TracedTx>, err: Option<Error>)
      modifies rec
      ensures err == reply.err
      ensures tx.Some? <==> err.None?
      ensures tx.Some? ==>
        && fresh(tx.value) && tx.value.inner == reply.value && tx.value.tp == tp
        && tx.value.ctx == if inner.caps.beginTx then ctx.(txBegin := start) else ctx
      ensures Traced(old(rec.events) + [Call(inner.id, if inner.caps.beginTx then ConnBeginTx(ctx, opts) else ConnBegin)],
                     rec.events, tp, ctx, OpSQLTxBegin, "", NilArgs, start, now, reply.err, RowsLen(ctx))
    {
      if inner.caps.beginTx {
        rec.Record(Call(inner.id, ConnBeginTx(ctx, opts)));
        var _ := TryTrace(tp, rec, ctx, OpSQLTxBegin, "", NilArgs, start, now, reply.err);
        if reply.err.Some? {
          return None, reply.err;
        }
        var txCtx := ctx.(txBegin := start);
        var t := new TracedTx(reply.value, tp, txCtx);
        return Some(t), None;
      }
      rec.Record(Call(inner.id, ConnBegin));
      var _ := TryTrace(tp, rec, ctx, OpSQLTxBegin, "", NilArgs, start, now, reply.err);
      if reply.err.Some? {
        return None, reply.err;
      }
      var t := new TracedTx(reply.value, tp, ctx);
      return Some(t), None;
    }

    /** `PrepareContext` (conn.go:35-51): `ConnPrepareContext.PrepareContext` when
        available, else the legacy `Prepare`; one `sql-prepare` trace carrying the
        query. On success the statement is bound to the same query and context. */
    method PrepareContext(rec: Recorder, ctx: Ctx, query: string, start: int, now: int, reply: Reply<InnerStmt>)
      returns (stmt: Option<TracedStmt>, err: Option<Error>)
      modifies rec
      ensures err == reply.err
      ensures stmt.Some? <==> err.None?
      ensures stmt.Some? ==>
        && fresh(stmt.value) && stmt.value.inner == reply.value && stmt.value.tp == tp
        && stmt.value.ctx == ctx && stmt.value.query == query
      ensures Traced(old(rec.events) + [Call(inner.id, if inner.caps.prepareContext then ConnPrepareContext(ctx, query) else ConnPrepare(query))],
                     rec.events, tp, ctx, OpSQLPrepare, query, NilArgs, start, now, reply.err, RowsLen(ctx))
    {
      if inner.caps.prepareContext {
        rec.Record(Call(inner.id, ConnPrepareContext(ctx, query)));
      } else {
        rec.Record(Call(inner.id, ConnPrepare(query)));
      }
      var _ := TryTrace(tp, rec, ctx, OpSQLPrepare, query, NilArgs, start, now, reply.err);
      if reply.err.Some? {
        return None, reply.err;
      }
      var s := new TracedStmt(reply.value, tp, ctx, query);
      return Some(s), None;
    }

    /** `Exec` (conn.go:53-58): delegates, untraced, iff the connection is an
        `Execer`; otherwise `driver.ErrSkip` with no call at all. */
    method Exec(rec: Recorder, query: string, args: seq<Value>, reply: Reply<Handle>)
      returns (res: Option<Handle>, err: Option<Error>)
      modifies rec
      ensures inner.caps.execer ==>
        res == Some(reply.value) && err == reply.err
        && rec.events == old(rec.events) + [Call(inner.id, ConnExec(query, args))]
      ensures !inner.caps.execer ==>
        res.None? && err == Some(ErrSkip) && rec.events == old(rec.events)
    {
      if inner.caps.execer {
        rec.Record(Call(inner.id, ConnExec(query, args)));
        return Some(reply.value), reply.err;
      }
      return None, Some(ErrSkip);
    }

    /** `ExecContext` (conn.go:60-79). With `ExecerContext` the call is delegated
        and traced with the named arguments, and the wrapped result comes back
        with the inner error, whatever it is. Otherwise: a named argument ends the
        call with the conversion error, then a done context with `ctx.Err()`,
        neither calling the driver nor tracing; then the connection's own `Exec`
        runs on the converted values, which are traced — so when the connection
        is not an `Execer` either, the `driver.ErrSkip` it returns leaves no trace. */
    method ExecContext(rec: Recorder, ctx: Ctx, query: string, args: seq<NamedValue>, start: int, now: int,
                       reply: Reply<Handle>)
      returns (res: Option<TracedResult>, err: Option<Error>)
      modifies rec
      ensures inner.caps.execerContext ==>
        && err == reply.err
        && res.Some? && fresh(res.value)
        && res.value.inner == Some(reply.value) && res.value.tp == tp && res.value.ctx == ctx
        && Traced(old(rec.events) + [Call(inner.id, ConnExecContext(ctx, query, args))], rec.events, tp, ctx,
                  OpSQLConnExec, query, NamedArgs(args), start, now, reply.err, RowsLen(ctx))
      ensures !inner.caps.execerContext && HasNamed(args) ==>
        res.None? && err == Some(NamedParameters) && rec.events == old(rec.events)
      ensures !inner.caps.execerContext && !HasNamed(args) && ctx.done ==>
        res.None? && err == Some(ctx.doneErr) && rec.events == old(rec.events)
      ensures !inner.caps.execerContext && !HasNamed(args) && !ctx.done && inner.caps.execer ==>
        && err == reply.err
        && res.Some? && fresh(res.value)
        && res.value.inner == Some(reply.value) && res.value.tp == tp && res.value.ctx == ctx
        && Traced(old(rec.events) + [Call(inner.id, ConnExec(query, ValuesOf(args)))], rec.events, tp, ctx,
                  OpSQLConnExec, query, Slice(ValuesOf(args)), start, now, reply.err, RowsLen(ctx))
      ensures !inner.caps.execerContext && !HasNamed(args) && !ctx.done && !inner.caps.execer ==>
        && err == Some(ErrSkip)
        && res.Some? && fresh(res.value) && res.value.inner.None?
        && rec.events == old(rec.events)
    {
      if inner.caps.execerContext {
        rec.Record(Call(inner.id, ConnExecContext(ctx, query, args)));
        var _ := TryTrace(tp, rec, ctx, OpSQLConnExec, query, NamedArgs(args), start, now, reply.err);
        var r := new TracedResult(Some(reply.value), tp, ctx);
        return Some(r), reply.err;
      }
      var dargs, cerr := NamedValueToValue(args);
      if cerr.Some? {
        return None, cerr;
      }
      if ctx.done {
        return None, Some(ctx.doneErr);
      }
      var innerRes;
      innerRes, err := Exec(rec, query, dargs, reply);
      var _ := TryTrace(tp, rec, ctx, OpSQLConnExec, query, Slice(dargs), start, now, err);
      var r := new TracedResult(innerRes, tp, ctx);
      res := Some(r);
    }

    /** `Ping` (conn.go:82-89): the inner `Ping` only when the connection is a
        `Pinger` (absence counts as success), then one `sql-ping` trace unless
        the answer is `driver.ErrSkip`. */
    method Ping(rec: Recorder, ctx: Ctx, start: int, now: int, reply: Option<Error>) returns (err: Option<Error>)
      modifies rec
      ensures err == if inner.caps.pinger then reply else None
      ensures Traced(old(rec.events) + (if inner.caps.pinger then [Call(inner.id, ConnPing(ctx))] else []),
                     rec.events, tp, ctx, OpSQLPing, "", NilArgs, start, now, err, RowsLen(ctx))
    {
      err := None;
      if inner.caps.pinger {
        rec.Record(Call(inner.id, ConnPing(ctx)));
        err := reply;
      } else {
        assert old(rec.events) + [] == rec.events;
      }
      var _ := TryTrace(tp, rec, ctx, OpSQLPing, "", NilArgs, start, now, err);
    }

    /** `Query` (conn.go:91-96): delegates, untraced, iff the connection is a
        `Queryer`; otherwise `driver.ErrSkip` with no call at all. */
    method Query(rec: Recorder, query: string, args: seq<Value>, reply: Reply<Handle>)
      returns (rows: Option<Handle>, err: Option<Error>)
      modifies rec
      ensures inner.caps.queryer ==>
        rows == Some(reply.value) && err == reply.err
        && rec.events == old(rec.events) + [Call(inner.id, ConnQuery(query, args))]
      ensures !inner.caps.queryer ==>
        rows.None? && err == Some(ErrSkip) && rec.events == old(rec.events)
    {
      if inner.caps.queryer {
        rec.Record(Call(inner.id, ConnQuery(query, args)));
        return Some(reply.value), reply.err;
      }
      return None, Some(ErrSkip);
    }

    /** `QueryContext` (conn.go:98-117): the same order as `ExecContext`, with
        `QueryerContext`, `Queryer` and a wrapped cursor. */
    method QueryContext(rec: Recorder, ctx: Ctx, query: string, args: seq<NamedValue>, start: int, now: int,
                        reply: Reply<Handle>)
      returns (rows: Option<TracedRows>, err: Option<Error>)
      modifies rec
      ensures inner.caps.queryerContext ==>
        && err == reply.err
        && rows.Some? && fresh(rows.value)
        && rows.value.inner == Some(reply.value) && rows.value.tp == tp && rows.value.ctx == ctx
        && rows.value.Valid() && rows.value.nexts == 0
        && Traced(old(rec.events) + [Call(inner.id, ConnQueryContext(ctx, query, args))], rec.events, tp, ctx,
                  OpSQLConnQuery, query, NamedArgs(args), start, now, reply.err, RowsLen(ctx))
      ensures !inner.caps.queryerContext && HasNamed(args) ==>
        rows.None? && err == Some(NamedParameters) && rec.events == old(rec.events)
      ensures !inner.caps.queryerContext && !HasNamed(args) && ctx.done ==>
        rows.None? && err == Some(ctx.doneErr) && rec.events == old(rec.events)
      ensures !inner.caps.queryerContext && !HasNamed(args) && !ctx.done && inner.caps.queryer ==>
        && err == reply.err
        && rows.Some? && fresh(rows.value)
        && rows.value.inner == Some(reply.value) && rows.value.tp == tp && rows.value.ctx == ctx
        && rows.value.Valid() && rows.value.nexts == 0
        && Traced(old(rec.events) + [Call(inner.id, ConnQuery(query, ValuesOf(args)))], rec.events, tp, ctx,
                  OpSQLConnQuery, query, Slice(ValuesOf(args)), start, now, reply.err, RowsLen(ctx))
      ensures !inner.caps.queryerContext && !HasNamed(args) && !ctx.done && !inner.caps.queryer ==>
        && err == Some(ErrSkip)
        && rows.Some? && fresh(rows.value) && rows.value.inner.None?
        && rec.events == old(rec.events)
    {
      if inner.caps.queryerContext {
        rec.Record(Call(inner.id, ConnQueryContext(ctx, query, args)));
        var _ := TryTrace(tp, rec, ctx, OpSQLConnQuery, query, NamedArgs(args), start, now, reply.err);
        var r := new TracedRows(Some(reply.value), tp, ctx);
        return Some(r), reply.err;
      }
      var dargs, cerr := NamedValueToValue(args);
      if cerr.Some? {
        return None, cerr;
      }
      if ctx.done {
        return None, Some(ctx.doneErr);
      }
      var innerRows;
      innerRows, err := Query(rec, query, dargs, reply);
      var _ := TryTrace(tp, rec, ctx, OpSQLConnQuery, query, Slice(dargs), start, now, err);
      var r := new TracedRows(innerRows, tp, ctx);
      rows := Some(r);
    }
  }
}
