/** contrib/database/sql/trace.go (with the names of constants.go): the
    instrumentation primitive `tryTrace`, the log emitter `doLog`, argument
    formatting, and the driver-name helpers.

    What the tracer and the logger receive is recorded, together with every
    call made on a wrapped driver resource, in one ordered event log (the
    `Recorder`), so that contracts can say what was called, what was emitted,
    and in which order. */
module SqlTrace {
  import opened Base
  import opened Context
  import opened Driver
  import opened SqlOptions

  // Operation names (constants.go).
  const OpSQLPrepare := "sql-prepare"
  const OpSQLConnExec := "sql-conn-exec"
  const OpSQLConnQuery := "sql-conn-query"
  const OpSQLStmtExec := "sql-stmt-exec"
  const OpSQLStmtQuery := "sql-stmt-query"
  const OpSQLStmtClose := "sql-stmt-close"
  const OpSQLTxBegin := "sql-tx-begin"
  const OpSQLTxCommit := "sql-tx-commit"
  const OpSQLTxRollback := "sql-tx-rollback"
  const OpSQLResLastInsertID := "sql-res-lastInsertId"
  const OpSQLResRowsAffected := "sql-res-rowsAffected"
  const OpSQLRowsNext := "sql-rows-next"
  const OpSQLRowsClose := "sql-rows-close"
  const OpSQLPing := "sql-ping"

  // Span tag keys: `tagRowsLen` (constants.go), "args", and the OpenTracing
  // standard tags `ext.Component`, `ext.DBStatement` and `ext.Error`.
  const TagRowsLen := "rows.len"
  const TagArgs := "args"
  const TagComponent := "component"
  const TagDBStatement := "db.statement"
  const TagError := "error"

  const ComponentName := "database/sql"

  /** The tags `tryTrace` sets itself (metadata tags come on top). */
  const OwnTagKeys: set<string> := {TagComponent, TagDBStatement, TagArgs, TagError, TagRowsLen}

  /** `traceParams`: connection metadata tags plus a copy of the options. */
  datatype TraceParams = TraceParams(metaTags: map<string, string>, options: Options)

  /** The `args interface{}` handed to `tryTrace`: an untyped nil, a slice
      (`[]driver.NamedValue` or `[]driver.Value`, never nil as an interface even
      when the slice itself is nil), or a non-slice value. */
  datatype Args = NilArgs | Slice(elems: seq<Value>) | NonSlice(typeName: string, repr: string)

  /** A `[]driver.NamedValue` passed as `args`: each element is a `driver.NamedValue`. */
  function NamedArgs(named: seq<NamedValue>): (a: Args)
    ensures a.Slice? && |a.elems| == |named|
    ensures forall i :: 0 <= i < |named| ==> a.elems[i] == Named(named[i])
  {
    Slice(seq(|named|, i requires 0 <= i < |named| => Named(named[i])))
  }

  predicate IsRowsOp(op: string)
  {
    op == OpSQLRowsNext || op == OpSQLRowsClose
  }

  predicate IsTxEnd(op: string)
  {
    op == OpSQLTxCommit || op == OpSQLTxRollback
  }

  // ---------------------------------------------------------------------------
  // Argument formatting (formatArgs / formatArg)

  /** `%T` of a value. */
  function TypeName(v: Value): string
  {
    match v
    case Bytes(_) => "[]uint8"
    case Str(_) => "string"
    case Named(_) => "driver.NamedValue"
    case Other(t, _) => t
  }

  /** `formatArg`: byte slices show only their type and length, strings their
      quoted text, named values `name=value` (or just the value when unnamed),
      everything else its type and `%v` rendering. Every rendering is one
      bracketed item. */
  function FormatArg(v: Value): (r: string)
    ensures |r| >= 2 && r[0] == '[' && r[|r| - 1] == ']'
    decreases v
  {
    match v
    case Bytes(data) => "[" + TypeName(v) + " len:" + Itoa(|data|) + "]"
    case Str(q) => "[" + TypeName(v) + " " + q + "]"
    case Named(nv) =>
      if nv.name != "" then "[" + TypeName(nv.value) + " " + nv.name + "=" + FormatArg(nv.value) + "]"
      else FormatArg(nv.value)
    case Other(t, r) => "[" + t + " " + r + "]"
  }

  /** `formatArg` applied to each element, in order. */
  function FormatEach(elems: seq<Value>): (r: seq<string>)
    ensures |r| == |elems|
    ensures forall i :: 0 <= i < |elems| ==> r[i] == FormatArg(elems[i])
  {
    seq(|elems|, i requires 0 <= i < |elems| => FormatArg(elems[i]))
  }

  /** The string `formatArgs` produces. */
  function FormattedArgs(args: Args): string
  {
    if args.Slice? then "{" + Join(FormatEach(args.elems), ", ") + "}" else "<unknown>"
  }

  /** `formatArgs`: builds the element renderings one by one, then joins them. */
  method FormatArgs(args: Args) returns (s: string)
    ensures s == FormattedArgs(args)
  {
    if !args.Slice? {
      return "<unknown>";
    }
    var strArgs: seq<string> := [];
    var i := 0;
    while i < |args.elems|
      invariant 0 <= i <= |args.elems|
      invariant |strArgs| == i
      invariant forall j :: 0 <= j < i ==> strArgs[j] == FormatArg(args.elems[j])
    {
      strArgs := strArgs + [FormatArg(args.elems[i])];
      i := i + 1;
    }
    assert strArgs == FormatEach(args.elems);
    s := "{" + Join(strArgs, ", ") + "}";
  }

  /** `formatArgs` of a non-slice is "<unknown>"; a slice is braced, "{}" when
      empty, and each further element comes after one ", " separator. */
  lemma FormattedArgsShape(args: Args)
    ensures !args.Slice? ==> FormattedArgs(args) == "<unknown>"
    ensures args.Slice? ==> var s := FormattedArgs(args); |s| >= 2 && s[0] == '{' && s[|s| - 1] == '}'
    ensures args == Slice([]) ==> FormattedArgs(args) == "{}"
    ensures args.Slice? && |args.elems| == 1 ==> FormattedArgs(args) == "{" + FormatArg(args.elems[0]) + "}"
  {
  }

  lemma FormatEachSnoc(elems: seq<Value>, v: Value)
    ensures FormatEach(elems + [v]) == FormatEach(elems) + [FormatArg(v)]
  {
    var all := FormatEach(elems + [v]);
    forall i | 0 <= i < |elems|
      ensures all[i] == FormatEach(elems)[i]
    {
      assert (elems + [v])[i] == elems[i];
    }
  }

  /** Appending an argument to a non-empty slice appends ", " and its rendering
      inside the braces. */
  lemma FormattedArgsSnoc(elems: seq<Value>, v: Value)
    requires elems != []
    ensures FormattedArgs(Slice(elems + [v]))
         == "{" + Join(FormatEach(elems), ", ") + ", " + FormatArg(v) + "}"
  {
    var parts, l := FormatEach(elems), FormatArg(v);
    FormatEachSnoc(elems, v);
    JoinSnoc(parts, l, ", ");
    Braced(Join(parts, ", "), l);
  }

  lemma Braced(j: string, l: string)
    ensures "{" + (j + ", " + l) + "}" == "{" + j + ", " + l + "}"
  {
  }

  /** Two values that differ only in the contents of their byte slices (not their
      lengths). */
  predicate SameShape(v: Value, w: Value)
    decreases v
  {
    match v
    case Bytes(a) => w.Bytes? && |a| == |w.data|
    case Named(nv) => w.Named? && nv.name == w.nv.name && nv.ordinal == w.nv.ordinal && SameShape(nv.value, w.nv.value)
    case _ => v == w
  }

  /** Bytes are never rendered: the rendering depends only on their length. */
  lemma {:induction false} FormatArgHidesBytes(v: Value, w: Value)
    requires SameShape(v, w)
    ensures FormatArg(v) == FormatArg(w)
    decreases v
  {
    match v
    case Named(nv) =>
      FormatArgHidesBytes(nv.value, w.nv.value);
      assert TypeName(nv.value) == TypeName(w.nv.value);
    case _ =>
  }

  /** An unnamed `driver.NamedValue` formats exactly like its value. */
  lemma UnnamedFormatsAsValue(nv: NamedValue)
    requires nv.name == ""
    ensures FormatArg(Named(nv)) == FormatArg(nv.value)
  {
  }

  /** When no argument is named, the named arguments and the positional values
      `namedValueToValue` converts them to are formatted identically, so the
      "args" tag does not depend on which of the two a trace was given. */
  lemma PositionalFormatsAsNamed(named: seq<NamedValue>)
    requires !HasNamed(named)
    ensures FormattedArgs(NamedArgs(named)) == FormattedArgs(Slice(ValuesOf(named)))
  {
    var a := FormatEach(NamedArgs(named).elems);
    var b := FormatEach(ValuesOf(named));
    forall i | 0 <= i < |named|
      ensures a[i] == b[i]
    {
      assert named[i].name == "";
      UnnamedFormatsAsValue(named[i]);
    }
    assert a == b;
  }

  // ---------------------------------------------------------------------------
  // What the tracer and the logger receive

  datatype TagValue = TStr(s: string) | TBool(b: bool) | TInt(i: int)

  /** A span as handed to the tracer: operation name, parent span (the one the
      context carries), start time, tags, the error logged on it, finished. */
  datatype Span = Span(
    operation: string,
    parent: Option<nat>,
    startTime: int,
    tags: map<string, TagValue>,
    errorLog: Option<Error>,
    finished: bool)

  /** `cost` and `tx_cost` are durations; their `String()` rendering is not modelled. */
  datatype FieldValue = FStr(s: string) | FErr(e: Error) | FDuration(nanos: int)

  /** The keys `doLog` uses, in the order it appends them. */
  datatype LogKey = KQuery | KArgs | KError | KTxCost | KCost

  /** The key string written into the log entry. */
  function KeyName(k: LogKey): string
  {
    match k
    case KQuery => "query"
    case KArgs => "args"
    case KError => "error"
    case KTxCost => "tx_cost"
    case KCost => "cost"
  }

  datatype Field = Field(key: LogKey, value: FieldValue)

  /** One `Logger.Log(ctx, opName, kvs)` call. */
  datatype LogEntry = LogEntry(logger: Logger, ctx: Ctx, op: string, fields: seq<Field>)

  datatype Event =
    | Call(target: Handle, call: Method)
    | Emit(span: Span)
    | Log(entry: LogEntry)

  /** The tracer, the logger and the wrapped driver, as seen from outside: an
      ordered log of their calls. */
  class Recorder {
    var events: seq<Event>

    constructor ()
      ensures events == []
    {
      events := [];
    }

    method Record(e: Event)
      modifies this
      ensures events == old(events) + [e]
    {
      events := events + [e];
    }
  }

  /** Tag `key` as `tryTrace` sets it: present exactly when `present`, with value
      `v` — unless a metadata tag with the same key (set last) replaces it. */
  ghost predicate OwnTag(s: Span, meta: map<string, string>, key: string, present: bool, v: TagValue)
  {
    key !in meta ==> (key in s.tags <==> present) && (present ==> s.tags[key] == v)
  }

  /** The span `tryTrace` emits (trace.go:32-64). `rows` is the counter value
      found in the context, 0 when it holds none. */
  ghost predicate TracedSpan(s: Span, tp: TraceParams, ctx: Ctx, op: string, query: string,
                             args: Args, start: int, err: Option<Error>, rows: int)
  {
    && s.operation == op
    && s.parent == ctx.active
    && s.startTime == start
    && s.finished
    && s.errorLog == err
    && OwnTag(s, tp.metaTags, TagComponent, true, TStr(ComponentName))
    && OwnTag(s, tp.metaTags, TagDBStatement, query != "", TStr(query))
    && OwnTag(s, tp.metaTags, TagArgs, !tp.options.omitArgs && args != NilArgs, TStr(FormattedArgs(args)))
    && OwnTag(s, tp.metaTags, TagError, err.Some?, TBool(true))
    && OwnTag(s, tp.metaTags, TagRowsLen, IsRowsOp(op), TInt(rows))
    && (forall k :: k in tp.metaTags ==> k in s.tags && s.tags[k] == TStr(tp.metaTags[k]))
    && (forall k :: k in s.tags ==> k in tp.metaTags || k in OwnTagKeys)
  }

  /** The position of a log field in `doLog`'s fixed order. */
  function Rank(key: LogKey): nat
  {
    match key
    case KQuery => 0
    case KArgs => 1
    case KError => 2
    case KTxCost => 3
    case KCost => 4
  }

  /** Some field of the list carries `key`. */
  ghost predicate HasField(kvs: seq<Field>, key: LogKey)
    decreases |kvs|
  {
    |kvs| > 0 && (kvs[|kvs| - 1].key == key || HasField(kvs[..|kvs| - 1], key))
  }

  /** The value `doLog` gives the field named `f.key`. */
  ghost predicate RightValue(f: Field, ctx: Ctx, query: string, args: Args, start: int, now: int, err: Option<Error>)
  {
    match f.key
    case KQuery => f.value == FStr(query)
    case KArgs => f.value == FStr(FormattedArgs(args))
    case KError => err.Some? && f.value == FErr(err.value)
    case KTxCost => f.value == FDuration(now - ctx.txBegin)
    case KCost => f.value == FDuration(now - start)
  }

  /** Whether `doLog` writes the field `key` at all. */
  predicate Expected(key: LogKey, ctx: Ctx, txEnd: bool, query: string, args: Args, err: Option<Error>)
  {
    match key
    case KQuery => query != ""
    case KArgs => args != NilArgs
    case KError => err.Some?
    case KTxCost => txEnd && ctx.txBegin != 0
    case KCost => true
  }

  /** The key/value fields of the log entry (trace.go:86-109): in the fixed order
      query, args, error, tx_cost, cost; query only if non-empty, args only if
      non-nil (whatever `OmitArgs` says), error only if non-nil, tx_cost only for
      commit/rollback with a begin mark, cost always and last. */
  ghost predicate LogFieldsSpec(kvs: seq<Field>, ctx: Ctx, op: string, query: string, args: Args,
                                start: int, now: int, err: Option<Error>)
  {
    && |kvs| > 0
    && kvs[|kvs| - 1] == Field(KCost, FDuration(now - start))
    && Ordered(kvs)
    && AllRight(kvs, ctx, query, args, start, now, err)
    && (forall k :: HasField(kvs, k) <==> Expected(k, ctx, IsTxEnd(op), query, args, err))
  }

  /** `doLog` writes an entry: a logger is set and the operation is not one of the
      two too frequent to log. */
  predicate LogsOp(tp: TraceParams, op: string)
  {
    tp.options.logger.Some? && op != OpSQLRowsNext && op != OpSQLPing
  }

  /** The events `doLog` appends. */
  ghost predicate Logged(evs: seq<Event>, tp: TraceParams, ctx: Ctx, op: string, query: string,
                         args: Args, start: int, now: int, err: Option<Error>)
  {
    if !LogsOp(tp, op) then evs == []
    else
      && |evs| == 1
      && evs[0].Log?
      && evs[0].entry.logger == tp.options.logger.value
      && evs[0].entry.ctx == ctx
      && evs[0].entry.op == op
      && LogFieldsSpec(evs[0].entry.fields, ctx, op, query, args, start, now, err)
  }

  /** `tryTrace` took the event log from `before` to `after`: nothing at all for
      `driver.ErrSkip`; otherwise exactly one finished span, then what `doLog` writes. */
  ghost predicate Traced(before: seq<Event>, after: seq<Event>, tp: TraceParams, ctx: Ctx, op: string,
                         query: string, args: Args, start: int, now: int, err: Option<Error>, rows: int)
  {
    if err == Some(ErrSkip) then after == before
    else
      && |after| > |before|
      && after[..|before|] == before
      && after[|before|].Emit?
      && TracedSpan(after[|before|].span, tp, ctx, op, query, args, start, err, rows)
      && Logged(after[|before| + 1..], tp, ctx, op, query, args, start, now, err)
  }

  /** A traced call adds at most one span and at most one log entry, and every span
      it adds starts at the supplied start time and is finished. */
  lemma TracedEmitsOneSpan(before: seq<Event>, after: seq<Event>, tp: TraceParams, ctx: Ctx, op: string,
                           query: string, args: Args, start: int, now: int, err: Option<Error>, rows: int)
    requires Traced(before, after, tp, ctx, op, query, args, start, now, err, rows)
    ensures err == Some(ErrSkip) ==> after == before
    ensures err != Some(ErrSkip) ==>
      && |before| + 1 <= |after| <= |before| + 2
      && after[|before|] == Emit(after[|before|].span)
      && after[|before|].span.startTime == start && after[|before|].span.finished
      && (|after| == |before| + 2 <==> LogsOp(tp, op))
  {
  }

  /** Two spans meeting `TracedSpan` for the same call are the same span: the
      specification fixes every tag. */
  lemma TracedSpanUnique(s1: Span, s2: Span, tp: TraceParams, ctx: Ctx, op: string, query: string,
                         args: Args, start: int, err: Option<Error>, rows: int)
    requires TracedSpan(s1, tp, ctx, op, query, args, start, err, rows)
    requires TracedSpan(s2, tp, ctx, op, query, args, start, err, rows)
    ensures s1 == s2
  {
    forall k | k in s1.tags
      ensures k in s2.tags && s1.tags[k] == s2.tags[k]
    {
      if k !in tp.metaTags {
        assert k in OwnTagKeys;
      }
    }
    forall k | k in s2.tags
      ensures k in s1.tags
    {
      if k !in tp.metaTags {
        assert k in OwnTagKeys;
      }
    }
    assert s1.tags == s2.tags;
  }

  // ---------------------------------------------------------------------------
  // tryTrace and doLog

  function SetTag(s: Span, key: string, v: TagValue): (r: Span)
    ensures r.tags == s.tags[key := v]
    ensures r == s.(tags := r.tags)
  {
    s.(tags := s.tags[key := v])
  }

  /** The tags `tryTrace` sets itself (trace.go:36-58), before the metadata tags:
      each present exactly when its condition holds, and no others. */
  ghost predicate OwnTags(s: Span, tp: TraceParams, op: string, query: string, args: Args,
                          err: Option<Error>, rows: int)
  {
    && OwnTag(s, map[], TagComponent, true, TStr(ComponentName))
    && OwnTag(s, map[], TagDBStatement, query != "", TStr(query))
    && OwnTag(s, map[], TagArgs, !tp.options.omitArgs && args != NilArgs, TStr(FormattedArgs(args)))
    && OwnTag(s, map[], TagError, err.Some?, TBool(true))
    && OwnTag(s, map[], TagRowsLen, IsRowsOp(op), TInt(rows))
    && s.tags.Keys <= OwnTagKeys
  }

  /** Starts the span at `start` under the context's span and sets the wrapper's
      own tags one by one (trace.go:32-58). */
  method StartSpan(tp: TraceParams, ctx: Ctx, op: string, query: string, args: Args,
                   start: int, err: Option<Error>, rows: int) returns (span: Span)
    ensures span.operation == op && span.parent == ctx.active && span.startTime == start
    ensures span.errorLog == err && !span.finished
    ensures OwnTags(span, tp, op, query, args, err, rows)
  {
    span := Span(op, ctx.active, start, map[], None, false);
    span := SetTag(span, TagComponent, TStr(ComponentName));
    if query != "" {
      span := SetTag(span, TagDBStatement, TStr(query));
    }
    if !tp.options.omitArgs && args != NilArgs {
      var formatted := FormatArgs(args);
      span := SetTag(span, TagArgs, TStr(formatted));
    }
    if err.Some? {
      span := SetTag(span, TagError, TBool(true));
      span := span.(errorLog := err);
    }
    if IsRowsOp(op) {
      span := SetTag(span, TagRowsLen, TInt(rows));
    }
  }

  /** Copies every metadata tag onto the span, in the unspecified order of a Go
      map range (trace.go:60-62): afterwards each metadata key holds its metadata
      value, and every other tag is as it was. */
  method SetMetaTags(span: Span, meta: map<string, string>) returns (r: Span)
    ensures r == span.(tags := r.tags)
    ensures forall k :: k in meta ==> k in r.tags && r.tags[k] == TStr(meta[k])
    ensures forall k :: k !in meta ==> (k in r.tags <==> k in span.tags)
    ensures forall k :: k in r.tags && k !in meta ==> r.tags[k] == span.tags[k]
  {
    r := span;
    var pending := meta.Keys;
    while pending != {}
      invariant pending <= meta.Keys
      invariant r == span.(tags := r.tags)
      invariant forall k :: k in meta && k !in pending ==> k in r.tags && r.tags[k] == TStr(meta[k])
      invariant forall k :: (k !in meta || k in pending) ==> (k in r.tags <==> k in span.tags)
      invariant forall k :: k in r.tags && (k !in meta || k in pending) ==> r.tags[k] == span.tags[k]
      decreases pending
    {
      var k :| k in pending;
      r := SetTag(r, k, TStr(meta[k]));
      pending := pending - {k};
    }
  }

  /** The span part of `tryTrace` (trace.go:32-64): the wrapper's own tags, then
      the metadata tags, then finish. */
  method BuildSpan(tp: TraceParams, ctx: Ctx, op: string, query: string, args: Args,
                   start: int, err: Option<Error>, rows: int) returns (span: Span)
    ensures TracedSpan(span, tp, ctx, op, query, args, start, err, rows)
  {
    var own := StartSpan(tp, ctx, op, query, args, start, err, rows);
    span := SetMetaTags(own, tp.metaTags);
    span := span.(finished := true);
  }

  /** Every key of the list ranks below `r`. */
  ghost predicate Below(kvs: seq<Field>, r: nat)
    decreases |kvs|
  {
    |kvs| == 0 || (Rank(kvs[|kvs| - 1].key) < r && Below(kvs[..|kvs| - 1], r))
  }

  /** Keys strictly increase in rank along the list: each field ranks above
      every field before it. */
  ghost predicate Ordered(kvs: seq<Field>)
    decreases |kvs|
  {
    |kvs| == 0 || (Below(kvs[..|kvs| - 1], Rank(kvs[|kvs| - 1].key)) && Ordered(kvs[..|kvs| - 1]))
  }

  /** Every field carries the value `doLog` gives its key. */
  ghost predicate AllRight(kvs: seq<Field>, ctx: Ctx, query: string, args: Args, start: int, now: int,
                           err: Option<Error>)
    decreases |kvs|
  {
    |kvs| == 0 ||
    (RightValue(kvs[|kvs| - 1], ctx, query, args, start, now, err)
     && AllRight(kvs[..|kvs| - 1], ctx, query, args, start, now, err))
  }

  lemma {:induction false} BelowAt(kvs: seq<Field>, r: nat, i: int)
    requires Below(kvs, r) && 0 <= i < |kvs|
    ensures Rank(kvs[i].key) < r
    decreases |kvs|
  {
    if i < |kvs| - 1 {
      BelowAt(kvs[..|kvs| - 1], r, i);
    }
  }

  lemma {:induction false} BelowMono(kvs: seq<Field>, r: nat, r': nat)
    requires Below(kvs, r) && r <= r'
    ensures Below(kvs, r')
    decreases |kvs|
  {
    if |kvs| > 0 {
      BelowMono(kvs[..|kvs| - 1], r, r');
    }
  }

  /** `Ordered` is the pairwise order: of two fields, the later one ranks higher. */
  lemma {:induction false} OrderedPairwise(kvs: seq<Field>, i: int, j: int)
    requires Ordered(kvs) && 0 <= i < j < |kvs|
    ensures Rank(kvs[i].key) < Rank(kvs[j].key)
    decreases |kvs|
  {
    var init := kvs[..|kvs| - 1];
    if j == |kvs| - 1 {
      BelowAt(init, Rank(kvs[j].key), i);
    } else {
      OrderedPairwise(init, i, j);
    }
  }

  /** The fields `doLog` has appended once it has decided every key ranked below `r`. */
  ghost predicate Stage(kvs: seq<Field>, r: nat, ctx: Ctx, txEnd: bool, query: string, args: Args,
                        start: int, now: int, err: Option<Error>)
  {
    && Ordered(kvs)
    && Below(kvs, r)
    && AllRight(kvs, ctx, query, args, start, now, err)
    && (forall k :: HasField(kvs, k) <==> Rank(k) < r && Expected(k, ctx, txEnd, query, args, err))
  }

  /** Deciding the key `f.key`, of rank `r`: appending `f` when `doLog` writes it,
      nothing otherwise, moves to the next stage. */
  lemma Decide(kvs: seq<Field>, next: seq<Field>, r: nat, present: bool, f: Field, ctx: Ctx, txEnd: bool,
               query: string, args: Args, start: int, now: int, err: Option<Error>)
    requires Rank(f.key) == r && Stage(kvs, r, ctx, txEnd, query, args, start, now, err)
    requires present <==> Expected(f.key, ctx, txEnd, query, args, err)
    requires present ==> RightValue(f, ctx, query, args, start, now, err)
    requires next == if present then kvs + [f] else kvs
    ensures Stage(next, r + 1, ctx, txEnd, query, args, start, now, err)
  {
    BelowMono(kvs, r, r + 1);
    if present {
      assert next[..|kvs|] == kvs;
    }
  }

  /** The key of rank `r`. */
  function KeyAt(r: nat): (key: LogKey)
    requires r <= Rank(KCost)
    ensures Rank(key) == r
  {
    if r == 0 then KQuery else if r == 1 then KArgs else if r == 2 then KError
    else if r == 3 then KTxCost else KCost
  }

  /** The value `doLog` gives `key` when it writes it. */
  function ValueFor(key: LogKey, ctx: Ctx, query: string, args: Args, start: int, now: int,
                    err: Option<Error>): FieldValue
  {
    match key
    case KQuery => FStr(query)
    case KArgs => FStr(FormattedArgs(args))
    case KError => FErr(if err.Some? then err.value else ErrSkip)
    case KTxCost => FDuration(now - ctx.txBegin)
    case KCost => FDuration(now - start)
  }

  /** The pairs `doLog` has appended once it has decided the keys of rank below `r`. */
  ghost function Upto(r: nat, ctx: Ctx, txEnd: bool, query: string, args: Args, start: int, now: int,
                      err: Option<Error>): seq<Field>
    requires r <= Rank(KCost) + 1
    decreases r
  {
    if r == 0 then []
    else
      var key := KeyAt(r - 1);
      Upto(r - 1, ctx, txEnd, query, args, start, now, err)
      + if Expected(key, ctx, txEnd, query, args, err)
        then [Field(key, ValueFor(key, ctx, query, args, start, now, err))]
        else []
  }

  /** The field `doLog` writes for `key` carries the right value. */
  lemma ValueForRight(key: LogKey, ctx: Ctx, txEnd: bool, query: string, args: Args,
                      start: int, now: int, err: Option<Error>)
    requires Expected(key, ctx, txEnd, query, args, err)
    ensures RightValue(Field(key, ValueFor(key, ctx, query, args, start, now, err)), ctx, query, args, start, now, err)
  {
  }

  /** Deciding the key of rank `r - 1` takes `Upto(r - 1)` to `Upto(r)`. */
  lemma UptoStep(r: nat, ctx: Ctx, txEnd: bool, query: string, args: Args,
                 start: int, now: int, err: Option<Error>)
    requires 0 < r <= Rank(KCost) + 1
    requires Stage(Upto(r - 1, ctx, txEnd, query, args, start, now, err), r - 1, ctx, txEnd, query, args, start, now, err)
    ensures Stage(Upto(r, ctx, txEnd, query, args, start, now, err), r, ctx, txEnd, query, args, start, now, err)
  {
    var key := KeyAt(r - 1);
    var prev := Upto(r - 1, ctx, txEnd, query, args, start, now, err);
    var present := Expected(key, ctx, txEnd, query, args, err);
    var f := Field(key, ValueFor(key, ctx, query, args, start, now, err));
    if present {
      ValueForRight(key, ctx, txEnd, query, args, start, now, err);
    } else {
      assert prev + [] == prev;
    }
    Decide(prev, Upto(r, ctx, txEnd, query, args, start, now, err), r - 1, present, f,
           ctx, txEnd, query, args, start, now, err);
  }

  /** Each prefix `Upto(r)` is a stage `r` list. */
  lemma {:induction false} UptoStage(r: nat, ctx: Ctx, txEnd: bool, query: string, args: Args,
                                     start: int, now: int, err: Option<Error>)
    requires r <= Rank(KCost) + 1
    ensures Stage(Upto(r, ctx, txEnd, query, args, start, now, err), r, ctx, txEnd, query, args, start, now, err)
    decreases r
  {
    if r > 0 {
      UptoStage(r - 1, ctx, txEnd, query, args, start, now, err);
      UptoStep(r, ctx, txEnd, query, args, start, now, err);
    }
  }

  /** Once every key is decided and cost came last, the list is what `doLog` writes. */
  lemma StageComplete(kvs: seq<Field>, ctx: Ctx, op: string, query: string, args: Args,
                      start: int, now: int, err: Option<Error>)
    requires Stage(kvs, Rank(KCost) + 1, ctx, IsTxEnd(op), query, args, start, now, err)
    requires |kvs| > 0 && kvs[|kvs| - 1] == Field(KCost, FDuration(now - start))
    ensures LogFieldsSpec(kvs, ctx, op, query, args, start, now, err)
  {
  }

  /** `Upto` at the last rank ends with the cost field and is complete. */
  lemma UptoComplete(r: nat, ctx: Ctx, op: string, query: string, args: Args, start: int, now: int,
                     err: Option<Error>)
    requires r == Rank(KCost) + 1
    ensures LogFieldsSpec(Upto(r, ctx, IsTxEnd(op), query, args, start, now, err), ctx, op, query, args, start, now, err)
  {
    var kvs := Upto(r, ctx, IsTxEnd(op), query, args, start, now, err);
    assert kvs == Upto(r - 1, ctx, IsTxEnd(op), query, args, start, now, err) + [Field(KCost, FDuration(now - start))];
    UptoStage(r, ctx, IsTxEnd(op), query, args, start, now, err);
    StageComplete(kvs, ctx, op, query, args, start, now, err);
  }

  /** The list after deciding `key`: `f` appended when `doLog` writes the key. */
  function Appended(kvs: seq<Field>, key: LogKey, ctx: Ctx, txEnd: bool, query: string, args: Args,
                    start: int, now: int, err: Option<Error>): seq<Field>
  {
    if Expected(key, ctx, txEnd, query, args, err)
    then kvs + [Field(key, ValueFor(key, ctx, query, args, start, now, err))]
    else kvs
  }

  /** Deciding `key` extends `Upto(Rank(key))` to `Upto(Rank(key) + 1)`. */
  lemma UptoNext(key: LogKey, ctx: Ctx, txEnd: bool, query: string, args: Args, start: int, now: int,
                 err: Option<Error>, kvs: seq<Field>)
    requires kvs == Upto(Rank(key), ctx, txEnd, query, args, start, now, err)
    ensures Appended(kvs, key, ctx, txEnd, query, args, start, now, err)
            == Upto(Rank(key) + 1, ctx, txEnd, query, args, start, now, err)
  {
    assert KeyAt(Rank(key)) == key;
    assert kvs + [] == kvs;
  }

  /** The five decisions in `doLog`'s order give a list that meets `LogFieldsSpec`. */
  lemma ChainMeetsSpec(s1: seq<Field>, s2: seq<Field>, s3: seq<Field>, s4: seq<Field>, kvs: seq<Field>,
                       ctx: Ctx, op: string, query: string, args: Args, start: int, now: int,
                       err: Option<Error>)
    requires s1 == Appended([], KQuery, ctx, IsTxEnd(op), query, args, start, now, err)
    requires s2 == Appended(s1, KArgs, ctx, IsTxEnd(op), query, args, start, now, err)
    requires s3 == Appended(s2, KError, ctx, IsTxEnd(op), query, args, start, now, err)
    requires s4 == Appended(s3, KTxCost, ctx, IsTxEnd(op), query, args, start, now, err)
    requires kvs == Appended(s4, KCost, ctx, IsTxEnd(op), query, args, start, now, err)
    ensures LogFieldsSpec(kvs, ctx, op, query, args, start, now, err)
  {
    var txEnd := IsTxEnd(op);
    UptoNext(KQuery, ctx, txEnd, query, args, start, now, err, []);
    UptoNext(KArgs, ctx, txEnd, query, args, start, now, err, s1);
    UptoNext(KError, ctx, txEnd, query, args, start, now, err, s2);
    UptoNext(KTxCost, ctx, txEnd, query, args, start, now, err, s3);
    UptoNext(KCost, ctx, txEnd, query, args, start, now, err, s4);
    BuiltMeetsSpec(kvs, ctx, op, query, args, start, now, err);
  }

  /** The complete list `doLog` builds meets `LogFieldsSpec`. */
  lemma UptoMeetsSpec(ctx: Ctx, op: string, query: string, args: Args, start: int, now: int,
                      err: Option<Error>)
    ensures LogFieldsSpec(Upto(5, ctx, IsTxEnd(op), query, args, start, now, err), ctx, op, query, args, start, now, err)
  {
    UptoComplete(5, ctx, op, query, args, start, now, err);
  }

  /** A list equal to the complete `Upto` list meets `LogFieldsSpec`. */
  lemma BuiltMeetsSpec(kvs: seq<Field>, ctx: Ctx, op: string, query: string, args: Args, start: int,
                       now: int, err: Option<Error>)
    requires kvs == Upto(5, ctx, IsTxEnd(op), query, args, start, now, err)
    ensures LogFieldsSpec(kvs, ctx, op, query, args, start, now, err)
  {
    UptoMeetsSpec(ctx, op, query, args, start, now, err);
  }

  /** The key/value list `doLog` builds, appended one pair at a time (trace.go:86-109). */
  method BuildLogFields(ctx: Ctx, op: string, query: string, args: Args, start: int, now: int,
                        err: Option<Error>) returns (kvs: seq<Field>)
    ensures LogFieldsSpec(kvs, ctx, op, query, args, start, now, err)
  {
    ghost var txEnd := IsTxEnd(op);
    kvs := [];
    if query != "" {
      kvs := kvs + [Field(KQuery, FStr(query))];
    }
    ghost var s1 := kvs;
    assert s1 == Appended([], KQuery, ctx, txEnd, query, args, start, now, err);
    if args != NilArgs {
      var formatted := FormatArgs(args);
      kvs := kvs + [Field(KArgs, FStr(formatted))];
    }
    ghost var s2 := kvs;
    assert s2 == Appended(s1, KArgs, ctx, txEnd, query, args, start, now, err);
    if err.Some? {
      kvs := kvs + [Field(KError, FErr(err.value))];
    }
    ghost var s3 := kvs;
    assert s3 == Appended(s2, KError, ctx, txEnd, query, args, start, now, err);
    if IsTxEnd(op) && ctx.txBegin != 0 {
      kvs := kvs + [Field(KTxCost, FDuration(now - ctx.txBegin))];
    }
    ghost var s4 := kvs;
    assert s4 == Appended(s3, KTxCost, ctx, txEnd, query, args, start, now, err);
    kvs := kvs + [Field(KCost, FDuration(now - start))];
    assert kvs == Appended(s4, KCost, ctx, txEnd, query, args, start, now, err);
    ChainMeetsSpec(s1, s2, s3, s4, kvs, ctx, op, query, args, start, now, err);
  }


  /** `doLog`: one entry for the configured logger, unless there is none or the
      operation is `sql-rows-next` or `sql-ping`. `now` is the clock reading taken
      for the durations. */
  method DoLog(tp: TraceParams, rec: Recorder, ctx: Ctx, op: string, query: string, args: Args,
               start: int, now: int, err: Option<Error>)
    modifies rec
    ensures |rec.events| >= |old(rec.events)| && rec.events[..|old(rec.events)|] == old(rec.events)
    ensures Logged(rec.events[|old(rec.events)|..], tp, ctx, op, query, args, start, now, err)
  {
    if tp.options.logger.None? {
      return;
    }
    if op == OpSQLRowsNext || op == OpSQLPing {
      return;
    }
    var kvs := BuildLogFields(ctx, op, query, args, start, now, err);
    rec.Record(Log(LogEntry(tp.options.logger.value, ctx, op, kvs)));
  }

  /** One finished span followed by what `doLog` writes is a traced call. */
  lemma TracedIntro(before: seq<Event>, span: Span, logged: seq<Event>, after: seq<Event>, tp: TraceParams,
                    ctx: Ctx, op: string, query: string, args: Args, start: int, now: int,
                    err: Option<Error>, rows: int)
    requires err != Some(ErrSkip)
    requires after == before + [Emit(span)] + logged
    requires TracedSpan(span, tp, ctx, op, query, args, start, err, rows)
    requires Logged(logged, tp, ctx, op, query, args, start, now, err)
    ensures Traced(before, after, tp, ctx, op, query, args, start, now, err, rows)
  {
    assert after[..|before|] == before;
    assert after[|before| + 1..] == logged;
  }

  /** `tryTrace`: nothing for `driver.ErrSkip` (the context comes back unchanged);
      otherwise one finished span, then `doLog`. The returned context carries the
      new span (its position in the event log). */
  method TryTrace(tp: TraceParams, rec: Recorder, ctx: Ctx, op: string, query: string, args: Args,
                  start: int, now: int, err: Option<Error>) returns (newCtx: Ctx)
    modifies rec
    ensures Traced(old(rec.events), rec.events, tp, ctx, op, query, args, start, now, err, RowsLen(ctx))
    ensures newCtx == if err == Some(ErrSkip) then ctx else ctx.(active := Some(|old(rec.events)|))
  {
    if err == Some(ErrSkip) {
      return ctx;
    }
    var rows := RowsLen(ctx);
    var span := BuildSpan(tp, ctx, op, query, args, start, err, rows);
    var id := |rec.events|;
    rec.Record(Emit(span));
    ghost var mid := rec.events;
    DoLog(tp, rec, ctx, op, query, args, start, now, err);
    ghost var logged := rec.events[|mid|..];
    assert rec.events == old(rec.events) + [Emit(span)] + logged;
    TracedIntro(old(rec.events), span, logged, rec.events, tp, ctx, op, query, args, start, now, err, rows);
    newCtx := ctx.(active := Some(id));
  }

  // ---------------------------------------------------------------------------
  // Driver registration helpers

  /** `tracedDriverName`: the alias a traced driver is registered under. */
  function TracedDriverName(name: string): (r: string)
    ensures |r| == |name| + 7 && r[..|name|] == name && r[|name|..] == ".traced"
  {
    name + ".traced"
  }

  /** Distinct drivers get distinct traced aliases. */
  lemma TracedDriverNameInjective(a: string, b: string)
    requires TracedDriverName(a) == TracedDriverName(b)
    ensures a == b
  {
    assert a == TracedDriverName(a)[..|a|];
  }

  /** `driverExists`: a linear scan of the registered driver names. */
  method DriverExists(name: string, drivers: seq<string>) returns (found: bool)
    ensures found <==> name in drivers
  {
    var i := 0;
    while i < |drivers|
      invariant 0 <= i <= |drivers|
      invariant name !in drivers[..i]
    {
      if name == drivers[i] {
        return true;
      }
      assert drivers[..i + 1] == drivers[..i] + [drivers[i]];
      i := i + 1;
    }
    assert drivers[..i] == drivers;
    return false;
  }
}
