/** Go's `context.Context`, reduced to what the wrapper reads from it:
    whether it is already done (and the error `ctx.Err()` then returns),
    the span it carries as the parent of new spans, and the two values the
    wrapper stores in it under its private keys — the transaction begin mark
    (`ctxTxBeginKey`) and the pointer to a cursor's row counter (`ctxRowsKey`). */
module Context {
  import opened Base

  /** The `*int` row counter a cursor keeps in its context; it is updated in place. */
  class Counter {
    var n: int

    constructor ()
      ensures n == 0
    {
      n := 0;
    }
  }

  /** `txBegin` is the stored begin timestamp; 0 stands for Go's zero `time.Time`
      (the value `ctx.Value` yields when nothing was stored). */
  datatype Ctx = Ctx(
    done: bool,
    doneErr: Error,
    active: Option<nat>,
    txBegin: int,
    rows: Option<Counter>)

  /** `context.Background()`: never done, no span, no stored values. */
  const Background: Ctx := Ctx(false, Cancelled("context canceled"), None, 0, None)

  /** The objects a context lets its holder reach: the row counter, if any. */
  function Footprint(ctx: Ctx): set<object>
  {
    if ctx.rows.Some? then {ctx.rows.value} else {}
  }

  /** The row count trace.go tags a span with: the counter's value, or 0 when
      the context holds no counter. */
  function RowsLen(ctx: Ctx): int
    reads Footprint(ctx)
  {
    if ctx.rows.Some? then ctx.rows.value.n else 0
  }
}
