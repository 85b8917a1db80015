/** contrib/database/sql/result.go: `tracedResult`, the `driver.Result` handed
    back by the traced Exec paths. */
module SqlResult {
  import opened Base
  import opened Context
  import opened Driver
  import opened SqlTrace

  /** `tracedResult{Result, traceParams, ctx}`. `inner` is `None` when a fallback
      path wrapped the nil result of a call that failed. */
  class TracedResult {
    const inner: Option<Handle>
    const tp: TraceParams
    const ctx: Ctx

    constructor (inner: Option<Handle>, tp: TraceParams, ctx: Ctx)
      ensures this.inner == inner && this.tp == tp && this.ctx == ctx
    {
      this.inner := inner;
      this.tp := tp;
      this.ctx := ctx;
    }

    /** Calls the inner `LastInsertId` once, then traces `sql-res-lastInsertId`
        with no query, no arguments and a nil error — whatever the inner call
        returned — and hands back the inner id and error unchanged
        (result.go:17-22). Calling through a nil inner result panics in Go,
        hence the precondition. */
    method LastInsertId(rec: Recorder, start: int, now: int, reply: Reply<int>)
      returns (id: int, err: Option<Error>)
      requires inner.Some?
      modifies rec
      ensures id == reply.value && err == reply.err
      ensures Traced(old(rec.events) + [Call(inner.value, ResultLastInsertId)], rec.events,
                     tp, ctx, OpSQLResLastInsertID, "", NilArgs, start, now, None, RowsLen(ctx))
    {
      rec.Record(Call(inner.value, ResultLastInsertId));
      var _ := TryTrace(tp, rec, ctx, OpSQLResLastInsertID, "", NilArgs, start, now, None);
      id, err := reply.value, reply.err;
    }

    /** `RowsAffected` calls the wrapper's own `RowsAffected` (result.go:26), not
        the inner result's, so each call starts another one before anything else
        happens. `depth` is the stack space left: the call never gets past its
        first statement, so it never calls the inner result and never reaches the
        trace of result.go:27 — the event log is exactly as it was — and it ends
        only when the stack is exhausted. */
    method RowsAffected(rec: Recorder, depth: nat) returns (stackExhausted: bool)
      modifies rec
      ensures stackExhausted && rec.events == old(rec.events)
      decreases depth
    {
      if depth == 0 {
        return true;
      }
      stackExhausted := RowsAffected(rec, depth - 1);
    }

    /** What `RowsAffected` evidently means to do, by analogy with
        `LastInsertId`: call the inner result's `RowsAffected` once, trace
        `sql-res-rowsAffected` with a nil error, and hand back the inner count
        and error unchanged. */
    method RowsAffectedIntended(rec: Recorder, start: int, now: int, reply: Reply<int>)
      returns (num: int, err: Option<Error>)
      requires inner.Some?
      modifies rec
      ensures num == reply.value && err == reply.err
      ensures Traced(old(rec.events) + [Call(inner.value, ResultRowsAffected)], rec.events,
                     tp, ctx, OpSQLResRowsAffected, "", NilArgs, start, now, None, RowsLen(ctx))
    {
      rec.Record(Call(inner.value, ResultRowsAffected));
      var _ := TryTrace(tp, rec, ctx, OpSQLResRowsAffected, "", NilArgs, start, now, None);
      num, err := reply.value, reply.err;
    }
  }
}
