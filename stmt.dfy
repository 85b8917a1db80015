/** contrib/database/sql/stmt.go: `tracedStmt`, the prepared statement handed
    back by `PrepareContext`, and the argument conversion `namedValueToValue`
    that the fallback paths of statements and connections share. */
module SqlStmt {
  import opened Base
  import opened Context
  import opened Driver
  import opened SqlTrace
  import opened SqlResult
  import opened SqlRows

  /** `namedValueToValue` (stmt.go:73-82): fills `dargs` position by position and
      gives up with the named-parameters error at the first argument that has
      a name. */
  method NamedValueToValue(named: seq<NamedValue>) returns (dargs: seq<Value>, err: Option<Error>)
    ensures err.Some? <==> HasNamed(named)
    ensures err.Some? ==> err == Some(NamedParameters) && dargs == []
    ensures err.None? ==> dargs == ValuesOf(named)
  {
    var a := new Value[|named|];
    var n := 0;
    while n < |named|
      invariant 0 <= n <= |named|
      invariant forall i :: 0 <= i < n ==> named[i].name == "" && a[i] == named[i].value
    {
      if |named[n].name| > 0 {
        return [], Some(NamedParameters);
      }
      a[n] := named[n].value;
      n := n + 1;
    }
    dargs, err := a[..], None;
  }

  /** `tracedStmt{Stmt, traceParams, ctx, query}`: every trace it makes carries
      the query it was prepared with. */
  class TracedStmt {
    const inner: InnerStmt
    const tp: TraceParams
    const ctx: Ctx
    const query: string

    constructor (inner: InnerStmt, tp: TraceParams, ctx: Ctx, query: string)
      ensures this.inner == inner && this.tp == tp && this.ctx == ctx && this.query == query
    {
      this.inner := inner;
      this.tp := tp;
      this.ctx := ctx;
      this.query := query;
    }

    /** `Close` (stmt.go:21-26): calls the inner `Close` once, traces
        `sql-stmt-close` with the statement's query under the preparing
        context, and returns the inner error. */
    method Close(rec: Recorder, start: int, now: int, reply: Option<Error>) returns (err: Option<Error>)
      modifies rec
      ensures err == reply
      ensures Traced(old(rec.events) + [Call(inner.id, StmtClose)], rec.events, tp, this.ctx,
                     OpSQLStmtClose, query, NilArgs, start, now, reply, RowsLen(this.ctx))
    {
      rec.Record(Call(inner.id, StmtClose));
      err := reply;
      var _ := TryTrace(tp, rec, this.ctx, OpSQLStmtClose, query, NilArgs, start, now, err);
    }

    /** `ExecContext` (stmt.go:29-48). With `StmtExecContext` the call goes to the
        inner statement and is traced with the named arguments. Otherwise the
        arguments are converted first (a named one ends the call with that error),
        then a done context ends it with `ctx.Err()` — in both cases with no
        driver call and no trace — and only then the inner `Exec` runs on the
        converted values, which are what is traced. The result is wrapped
        whenever the driver was called, even with an error. */
    method ExecContext(rec: Recorder, ctx: Ctx, args: seq<NamedValue>, start: int, now: int,
                       reply: Reply<Handle>)
      returns (res: Option<TracedResult>, err: Option<Error>)
      modifies rec
      ensures inner.caps.execContext ==>
        && err == reply.err
        && res.Some? && fresh(res.value)
        && res.value.inner == Some(reply.value) && res.value.tp == tp && res.value.ctx == ctx
        && Traced(old(rec.events) + [Call(inner.id, StmtExecContext(ctx, args))], rec.events, tp, ctx,
                  OpSQLStmtExec, query, NamedArgs(args), start, now, reply.err, RowsLen(ctx))
      ensures !inner.caps.execContext && HasNamed(args) ==>
        res.None? && err == Some(NamedParameters) && rec.events == old(rec.events)
      ensures !inner.caps.execContext && !HasNamed(args) && ctx.done ==>
        res.None? && err == Some(ctx.doneErr) && rec.events == old(rec.events)
      ensures !inner.caps.execContext && !HasNamed(args) && !ctx.done ==>
        && err == reply.err
        && res.Some? && fresh(res.value)
        && res.value.inner == Some(reply.value) && res.value.tp == tp && res.value.ctx == ctx
        && Traced(old(rec.events) + [Call(inner.id, StmtExec(ValuesOf(args)))], rec.events, tp, ctx,
                  OpSQLStmtExec, query, Slice(ValuesOf(args)), start, now, reply.err, RowsLen(ctx))
    {
      if inner.caps.execContext {
        rec.Record(Call(inner.id, StmtExecContext(ctx, args)));
        var _ := TryTrace(tp, rec, ctx, OpSQLStmtExec, query, NamedArgs(args), start, now, reply.err);
        var r := new TracedResult(Some(reply.value), tp, ctx);
        return Some(r), reply.err;
      }
      var dargs, cerr := NamedValueToValue(args);
      if cerr.Some? {
        return None, cerr;
      }
      if ctx.done {
        return None, Some(ctx.doneErr);
      }
      rec.Record(Call(inner.id, StmtExec(dargs)));
      err := reply.err;
      var _ := TryTrace(tp, rec, ctx, OpSQLStmtExec, query, Slice(dargs), start, now, err);
      var r := new TracedResult(Some(reply.value), tp, ctx);
      res := Some(r);
    }

    /** `QueryContext` (stmt.go:51-70): the same order as `ExecContext`, except
        that the fallback path traces the original named arguments, not the
        converted values it passed to the inner `Query`. */
    method QueryContext(rec: Recorder, ctx: Ctx, args: seq<NamedValue>, start: int, now: int,
                        reply: Reply<Handle>)
      returns (rows: Option<TracedRows>, err: Option<Error>)
      modifies rec
      ensures inner.caps.queryContext ==>
        && err == reply.err
        && rows.Some? && fresh(rows.value)
        && rows.value.inner == Some(reply.value) && rows.value.tp == tp && rows.value.ctx == ctx
        && rows.value.Valid() && rows.value.nexts == 0
        && Traced(old(rec.events) + [Call(inner.id, StmtQueryContext(ctx, args))], rec.events, tp, ctx,
                  OpSQLStmtQuery, query, NamedArgs(args), start, now, reply.err, RowsLen(ctx))
      ensures !inner.caps.queryContext && HasNamed(args) ==>
        rows.None? && err == Some(NamedParameters) && rec.events == old(rec.events)
      ensures !inner.caps.queryContext && !HasNamed(args) && ctx.done ==>
        rows.None? && err == Some(ctx.doneErr) && rec.events == old(rec.events)
      ensures !inner.caps.queryContext && !HasNamed(args) && !ctx.done ==>
        && err == reply.err
        && rows.Some? && fresh(rows.value)
        && rows.value.inner == Some(reply.value) && rows.value.tp == tp && rows.value.ctx == ctx
        && rows.value.Valid() && rows.value.nexts == 0
        && Traced(old(rec.events) + [Call(inner.id, StmtQuery(ValuesOf(args)))], rec.events, tp, ctx,
                  OpSQLStmtQuery, query, NamedArgs(args), start, now, reply.err, RowsLen(ctx))
    {
      if inner.caps.queryContext {
        rec.Record(Call(inner.id, StmtQueryContext(ctx, args)));
        var _ := TryTrace(tp, rec, ctx, OpSQLStmtQuery, query, NamedArgs(args), start, now, reply.err);
        var r := new TracedRows(Some(reply.value), tp, ctx);
        return Some(r), reply.err;
      }
      var dargs, cerr := NamedValueToValue(args);
      if cerr.Some? {
        return None, cerr;
      }
      if ctx.done {
        return None, Some(ctx.doneErr);
      }
      rec.Record(Call(inner.id, StmtQuery(dargs)));
      err := reply.err;
      var _ := TryTrace(tp, rec, ctx, OpSQLStmtQuery, query, NamedArgs(args), start, now, err);
      var r := new TracedRows(Some(reply.value), tp, ctx);
      rows := Some(r);
    }
  }
}
