/** contrib/database/sql/rows.go: `tracedRows`, the cursor handed back by the
    traced Query paths, with the row counter it keeps in its own context. */
module SqlRows {
  import opened Base
  import opened Context
  import opened Driver
  import opened SqlTrace

  /** `tracedRows{Rows, traceParams, ctx}`. `Next` replaces `ctx` the first time
      it needs the counter. `base` (the counter value found when the cursor was
      wrapped; 0 for a context without one) and `nexts` (the `Next` calls
      counted so far) exist only for the specification. */
  class TracedRows {
    const inner: Option<Handle>
    const tp: TraceParams
    var ctx: Ctx
    ghost const base: int
    ghost var nexts: nat

    /** With row tracing on, the counter in the context is `base` plus the
        number of `Next` calls so far. */
    ghost predicate Valid()
      reads this, Footprint(ctx)
    {
      tp.options.traceRowsOp ==> RowsLen(ctx) == base + nexts
    }

    constructor (inner: Option<Handle>, tp: TraceParams, ctx: Ctx)
      ensures this.inner == inner && this.tp == tp && this.ctx == ctx
      ensures base == RowsLen(ctx) && nexts == 0
      ensures Valid()
    {
      this.inner := inner;
      this.tp := tp;
      this.ctx := ctx;
      base := RowsLen(ctx);
      nexts := 0;
    }

    /** `Next` (rows.go:18-35): calls the inner `Next` once and returns its error.
        With row tracing off nothing else happens. With it on, the call is
        traced only when the inner cursor reports `io.EOF`, and the trace sees
        the counter before this call's increment; then the counter is created
        (at 0, in a new context) if the context has none, and incremented —
        on the EOF call too. */
    method Next(rec: Recorder, start: int, now: int, reply: Option<Error>) returns (err: Option<Error>)
      requires inner.Some? && Valid()
      modifies this, rec, Footprint(ctx)
      ensures err == reply
      ensures Valid()
      ensures nexts == old(nexts) + (if tp.options.traceRowsOp then 1 else 0)
      ensures !tp.options.traceRowsOp ==> ctx == old(ctx) && unchanged(Footprint(ctx))
      ensures tp.options.traceRowsOp ==>
        && ctx.rows.Some?
        && (old(ctx.rows).Some? ==> ctx == old(ctx))
        && (old(ctx.rows).None? ==> fresh(ctx.rows.value) && ctx == old(ctx).(rows := ctx.rows))
        && ctx.rows.value.n == old(RowsLen(ctx)) + 1
      ensures if tp.options.traceRowsOp && reply == Some(EOF) then
          Traced(old(rec.events) + [Call(inner.value, RowsNext)], rec.events, tp, old(ctx),
                 OpSQLRowsNext, "", NilArgs, start, now, reply, base + old(nexts))
        else rec.events == old(rec.events) + [Call(inner.value, RowsNext)]
    {
      rec.Record(Call(inner.value, RowsNext));
      err := reply;
      if tp.options.traceRowsOp {
        if err == Some(EOF) {
          var _ := TryTrace(tp, rec, ctx, OpSQLRowsNext, "", NilArgs, start, now, err);
        }
        if ctx.rows.None? {
          var counter := new Counter();
          ctx := ctx.(rows := Some(counter));
        }
        ctx.rows.value.n := ctx.rows.value.n + 1;
        nexts := nexts + 1;
      }
    }

    /** `Close` (rows.go:37-44): calls the inner `Close` once and returns its
        error; traces `sql-rows-close`, tagged with the counter, only when row
        tracing is on. */
    method Close(rec: Recorder, start: int, now: int, reply: Option<Error>) returns (err: Option<Error>)
      requires inner.Some? && Valid()
      modifies rec
      ensures err == reply
      ensures if tp.options.traceRowsOp then
          Traced(old(rec.events) + [Call(inner.value, RowsClose)], rec.events, tp, ctx,
                 OpSQLRowsClose, "", NilArgs, start, now, reply, base + nexts)
        else rec.events == old(rec.events) + [Call(inner.value, RowsClose)]
    {
      rec.Record(Call(inner.value, RowsClose));
      err := reply;
      if tp.options.traceRowsOp {
        var _ := TryTrace(tp, rec, ctx, OpSQLRowsClose, "", NilArgs, start, now, err);
      }
    }
  }
}
