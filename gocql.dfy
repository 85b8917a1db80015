/** contrib/gocql/gocql/gocql.go: the traced gocql `Query` and `Iter`.
    A wrapped query derives a resource name from its CQL text once, at
    `WrapQuery`; afterwards each `MapScan`, `Scan` and `ScanCAS` is one span
    around one inner call, while `Iter` opens a span that only `Iter.Close`
    finishes.

    The tracer is a `CqlTracer`: the spans it has started (updated in place
    while they are open) and one ordered log of span starts, calls into gocql
    and span finishes. */
module Gocql {
  import opened Base
  import opened Context

  // Span names, types and tag keys of the tracer's `ext` package.
  const CassandraQuery := "cassandra.query"
  const SpanTypeCassandra := "cassandra"
  const TagPaginated := "cassandra.paginated"
  const TagKeyspace := "cassandra.keyspace"
  const TagRowCount := "cassandra.row_count"
  const TagConsistency := "cassandra.consistency_level"
  const TagTargetHost := "out.host"
  const TagTargetPort := "out.port"
  const TagCluster := "cassandra.cluster"
  const TagError := "error"

  /** `queryConfig`: the service name and the resource name of the spans. */
  datatype QueryConfig = QueryConfig(serviceName: string, resourceName: string)

  /** A `WrapOption`: a closure that updates the configuration. */
  type WrapOption = QueryConfig -> QueryConfig

  /** Identity of a `*gocql.Query` or `*gocql.Iter` value. */
  type GoHandle = nat

  /** What gocql reports about a host. */
  datatype HostInfo = HostInfo(hostID: string, port: int, dataCenter: string)

  /** What the traced `Iter` reads from a fresh `*gocql.Iter`: `NumRows()`, the
      keyspace of each of `Columns()`, and `Host()` (nil = `None`). */
  datatype InnerIter = InnerIter(id: GoHandle, numRows: int, columnKeyspaces: seq<string>, host: Option<HostInfo>)

  /** Calls made into gocql. */
  datatype GoCall =
    | QueryWithContext(q: GoHandle, ctx: Ctx)
    | QueryPageState(q: GoHandle, state: seq<bv8>)
    | QueryMapScan(q: GoHandle)
    | QueryScan(q: GoHandle)
    | QueryScanCAS(q: GoHandle)
    | QueryIter(q: GoHandle)
    | IterClose(it: GoHandle)

  datatype CqlTag = Text(s: string) | ErrorValue(e: Error)

  /** A span of the tracer: `finishErr` is the error given to `Finish`
      through `WithError`. */
  datatype CqlSpan = CqlSpan(
    name: string,
    spanType: string,
    service: string,
    resource: string,
    parent: Option<nat>,
    tags: map<string, CqlTag>,
    finishErr: Option<Error>,
    finished: bool)

  datatype CqlEvent = Started(span: nat) | Invoked(call: GoCall) | Finished(span: nat)

  class CqlTracer {
    var spans: seq<CqlSpan>
    var events: seq<CqlEvent>

    constructor ()
      ensures spans == [] && events == []
    {
      spans, events := [], [];
    }
  }

  // ---------------------------------------------------------------------------
  // WrapQuery

  /** The configuration after applying `opts`, first to last, to the defaults. */
  function Configured(defaults: QueryConfig, opts: seq<WrapOption>): QueryConfig
    decreases |opts|
  {
    if opts == [] then defaults
    else opts[|opts| - 1](Configured(defaults, opts[..|opts| - 1]))
  }

  /** Options are applied in order: applying `a + b` is applying `a`, then `b`. */
  lemma {:induction false} ConfiguredAppend(d: QueryConfig, a: seq<WrapOption>, b: seq<WrapOption>)
    ensures Configured(d, a + b) == Configured(Configured(d, a), b)
    decreases |b|
  {
    if b == [] {
      assert a + b == a;
    } else {
      var init := b[..|b| - 1];
      assert (a + b)[..|a + b| - 1] == a + init;
      ConfiguredAppend(d, a, init);
    }
  }

  /** The loop of gocql.go:47-51: `defaults(cfg)`, then each option in turn. */
  method ApplyWrapOptions(defaults: QueryConfig, opts: seq<WrapOption>) returns (cfg: QueryConfig)
    ensures cfg == Configured(defaults, opts)
  {
    cfg := defaults;
    var i := 0;
    while i < |opts|
      invariant 0 <= i <= |opts|
      invariant cfg == Configured(defaults, opts[..i])
    {
      assert opts[..i + 1][..i] == opts[..i];
      cfg := opts[i](cfg);
      i := i + 1;
    }
    assert opts[..i] == opts;
  }

  /** The position of the first `"` in `s`, if any. */
  function IndexOfQuote(s: string): (r: Option<nat>)
    ensures r.Some? <==> '"' in s
    ensures r.Some? ==> r.value < |s| && s[r.value] == '"' && '"' !in s[..r.value]
    decreases |s|
  {
    if s == [] then None
    else if s[0] == '"' then Some(0)
    else match IndexOfQuote(s[1..])
      case None => None
      case Some(i) => assert s[..i + 1] == [s[0]] + s[1..][..i]; Some(i + 1)
  }

  /** `strings.SplitN(s, "\"", 3)[1]`: the text after the first `"`, up to the
      second one or, when there is none, to the end. `None` when `s` has no `"`
      at all — the split then has one element and the index panics. */
  function QuotedSection(s: string): (r: Option<string>)
    ensures r.None? <==> '"' !in s
    ensures r.Some? ==> var i := IndexOfQuote(s).value;
      && '"' !in r.value && i + 1 + |r.value| <= |s| && s[i + 1..i + 1 + |r.value|] == r.value
      && (i + 1 + |r.value| == |s| || s[i + 1 + |r.value|] == '"')
  {
    match IndexOfQuote(s)
    case None => None
    case Some(i) =>
      var rest := s[i + 1..];
      match IndexOfQuote(rest)
      case None => Some(rest)
      case Some(j) => Some(rest[..j])
  }

  /** The resource name `WrapQuery` settles on (gocql.go:52-61): a configured one
      as it is; otherwise the quoted section of the query text, put back in
      quotes and unquoted, or "_" when unquoting fails. `None` when nothing is
      configured and the text has no `"` (the panic). */
  function ResourceName(configured: string, rendering: string, unquote: string -> Option<string>): (r: Option<string>)
    ensures configured != "" ==> r == Some(configured)
    ensures configured == "" ==> (r.None? <==> '"' !in rendering)
    ensures configured == "" && r.Some? ==>
      r.value == match unquote("\"" + QuotedSection(rendering).value + "\"") case None => "_" case Some(u) => u
  {
    if configured != "" then Some(configured)
    else match QuotedSection(rendering)
      case None => None
      case Some(sec) =>
        match unquote("\"" + sec + "\"")
        case None => Some("_")
        case Some(u) => Some(u)
  }

  lemma {:induction false} IndexOfQuoteAfter(a: string, b: string)
    requires '"' !in a
    ensures IndexOfQuote(a + "\"" + b) == Some(|a|)
    decreases |a|
  {
    if a != [] {
      assert a[0] in a;
      assert (a + "\"" + b)[1..] == a[1..] + "\"" + b;
      IndexOfQuoteAfter(a[1..], b);
    }
  }

  /** With two quotes, the section is exactly the text between the first two. */
  lemma QuotedSectionBetween(a: string, b: string, c: string)
    requires '"' !in a && '"' !in b
    ensures QuotedSection(a + "\"" + b + "\"" + c) == Some(b)
  {
    var s := a + "\"" + b + "\"" + c;
    assert s == a + "\"" + (b + "\"" + c);
    IndexOfQuoteAfter(a, b + "\"" + c);
    assert s[|a| + 1..] == b + "\"" + c;
    IndexOfQuoteAfter(b, c);
    assert (b + "\"" + c)[..|b|] == b;
  }

  /** With a single quote, the section is everything after it. */
  lemma QuotedSectionSingle(a: string, b: string)
    requires '"' !in a && '"' !in b
    ensures QuotedSection(a + "\"" + b) == Some(b)
  {
    IndexOfQuoteAfter(a, b);
    assert (a + "\"" + b)[|a| + 1..] == b;
  }

  /** A query without a configured resource name is named after its first
      quoted section, as unquoted. */
  lemma ResourceNameFromQuotes(a: string, b: string, c: string, unquote: string -> Option<string>)
    requires '"' !in a && '"' !in b
    requires unquote("\"" + b + "\"").Some?
    ensures ResourceName("", a + "\"" + b + "\"" + c, unquote) == unquote("\"" + b + "\"")
  {
    QuotedSectionBetween(a, b, c);
  }

  // ---------------------------------------------------------------------------
  // Query

  /** The span `newChildSpan` starts (gocql.go:81-91); the paginated flag is
      rendered with `%t`. */
  function ChildSpan(config: QueryConfig, keyspace: string, paginated: bool, ctx: Ctx): CqlSpan
  {
    CqlSpan(CassandraQuery, SpanTypeCassandra, config.serviceName, config.resourceName, ctx.active,
            map[TagPaginated := Text(if paginated then "true" else "false"), TagKeyspace := Text(keyspace)], None, false)
  }

  /** Every child span is an open `cassandra.query` span of the configured
      service and resource, tagged with the paginated flag and the keyspace,
      and nothing else. */
  lemma ChildSpanTags(config: QueryConfig, keyspace: string, paginated: bool, ctx: Ctx)
    ensures var s := ChildSpan(config, keyspace, paginated, ctx);
      && s.name == CassandraQuery && s.spanType == SpanTypeCassandra
      && s.service == config.serviceName && s.resource == config.resourceName
      && s.parent == ctx.active && !s.finished
      && s.tags.Keys == {TagPaginated, TagKeyspace}
      && s.tags[TagPaginated] == Text(if paginated then "true" else "false")
      && s.tags[TagKeyspace] == Text(keyspace)
  {
  }

  /** The span `Iter` leaves open (gocql.go:123-140): the child span plus the row
      count and consistency; the keyspace of the first column when there are
      columns; host, port and data centre when there is a host. */
  function IterSpan(child: CqlSpan, it: InnerIter, consistency: string): CqlSpan
  {
    var t1 := child.tags[TagRowCount := Text(Itoa(it.numRows))][TagConsistency := Text(consistency)];
    var t2 := if |it.columnKeyspaces| > 0 then t1[TagKeyspace := Text(it.columnKeyspaces[0])] else t1;
    var t3 := if it.host.Some?
      then t2[TagTargetHost := Text(it.host.value.hostID)]
             [TagTargetPort := Text(Itoa(it.host.value.port))]
             [TagCluster := Text(it.host.value.dataCenter)]
      else t2;
    child.(tags := t3)
  }

  /** What `Iter.Close` does to the span (gocql.go:143-150): the error tag when
      the inner `Close` failed, then finish. */
  function Closed(s: CqlSpan, err: Option<Error>): CqlSpan
  {
    s.(tags := if err.Some? then s.tags[TagError := ErrorValue(err.value)] else s.tags, finished := true)
  }

  /** The iterator span is still open, has no error tag, carries the row count
      and consistency, takes the first column's keyspace iff there are columns,
      the host, port and cluster tags iff there is a host, and keeps the
      paginated tag; it has no other tag. */
  lemma IterSpanTags(config: QueryConfig, keyspace: string, paginated: bool, ctx: Ctx, it: InnerIter, consistency: string)
    ensures var s := IterSpan(ChildSpan(config, keyspace, paginated, ctx), it, consistency);
      && !s.finished && TagError !in s.tags
      && s.tags[TagRowCount] == Text(Itoa(it.numRows))
      && s.tags[TagConsistency] == Text(consistency)
      && s.tags[TagKeyspace] == Text(if |it.columnKeyspaces| > 0 then it.columnKeyspaces[0] else keyspace)
      && s.tags[TagPaginated] == Text(if paginated then "true" else "false")
      && (TagTargetHost in s.tags <==> it.host.Some?)
      && (TagTargetPort in s.tags <==> it.host.Some?)
      && (TagCluster in s.tags <==> it.host.Some?)
      && (it.host.Some? ==>
            && s.tags[TagTargetHost] == Text(it.host.value.hostID)
            && s.tags[TagTargetPort] == Text(Itoa(it.host.value.port))
            && s.tags[TagCluster] == Text(it.host.value.dataCenter))
      && s.tags.Keys == {TagPaginated, TagKeyspace, TagRowCount, TagConsistency}
           + (if it.host.Some? then {TagTargetHost, TagTargetPort, TagCluster} else {})
  {
  }

  /** Closing finishes the span and adds an error tag exactly when there is an
      error; nothing else changes. */
  lemma ClosedErrorTag(s: CqlSpan, err: Option<Error>)
    requires TagError !in s.tags
    ensures var c := Closed(s, err);
      && c.finished
      && (TagError in c.tags <==> err.Some?)
      && (err.Some? ==> c.tags[TagError] == ErrorValue(err.value))
      && c == s.(tags := c.tags, finished := true)
      && (forall k :: k in s.tags ==> k in c.tags && c.tags[k] == s.tags[k])
  {
  }

  /** Finishes span `idx` with `err`, as `span.Finish(tracer.WithError(err))`. */
  method FinishWithError(tracer: CqlTracer, idx: nat, err: Option<Error>)
    requires idx < |tracer.spans|
    modifies tracer
    ensures tracer.spans == old(tracer.spans)[idx := old(tracer.spans)[idx].(finishErr := err, finished := true)]
    ensures tracer.events == old(tracer.events) + [Finished(idx)]
  {
    tracer.spans := tracer.spans[idx := tracer.spans[idx].(finishErr := err, finished := true)];
    tracer.events := tracer.events + [Finished(idx)];
  }

  /** The traced `Query`: the wrapped gocql query, its `params` (configuration,
      keyspace, paginated flag) and the context spans are started under. */
  class Query {
    var inner: GoHandle
    const config: QueryConfig
    const keyspace: string
    var paginated: bool
    var traceContext: Ctx

    constructor (inner: GoHandle, config: QueryConfig)
      ensures this.inner == inner && this.config == config
      ensures keyspace == "" && !paginated && traceContext == Background
    {
      this.inner := inner;
      this.config := config;
      keyspace := "";
      paginated := false;
      traceContext := Background;
    }

    /** `WithContext` (gocql.go:67-71): spans now start under `ctx`; the inner
        query is told too. Returns the same wrapper. */
    method WithContext(tracer: CqlTracer, ctx: Ctx) returns (r: Query)
      modifies this, tracer
      ensures r == this
      ensures traceContext == ctx && inner == old(inner) && paginated == old(paginated)
      ensures tracer.spans == old(tracer.spans)
      ensures tracer.events == old(tracer.events) + [Invoked(QueryWithContext(inner, ctx))]
    {
      traceContext := ctx;
      tracer.events := tracer.events + [Invoked(QueryWithContext(inner, ctx))];
      r := this;
    }

    /** `PageState` (gocql.go:74-78): marks the query paginated for good and
        replaces the inner query by the one gocql returns (`reply`). Returns the
        same wrapper. */
    method PageState(tracer: CqlTracer, state: seq<bv8>, reply: GoHandle) returns (r: Query)
      modifies this, tracer
      ensures r == this
      ensures paginated && inner == reply && traceContext == old(traceContext)
      ensures tracer.spans == old(tracer.spans)
      ensures tracer.events == old(tracer.events) + [Invoked(QueryPageState(old(inner), state))]
    {
      paginated := true;
      tracer.events := tracer.events + [Invoked(QueryPageState(inner, state))];
      inner := reply;
      r := this;
    }

    /** `newChildSpan` (gocql.go:81-91): starts `ChildSpan` and returns it. */
    method NewChildSpan(tracer: CqlTracer, ctx: Ctx) returns (idx: nat)
      modifies tracer
      ensures idx == |old(tracer.spans)|
      ensures tracer.spans == old(tracer.spans) + [ChildSpan(config, keyspace, paginated, ctx)]
      ensures tracer.events == old(tracer.events) + [Started(idx)]
    {
      idx := |tracer.spans|;
      tracer.spans := tracer.spans + [ChildSpan(config, keyspace, paginated, ctx)];
      tracer.events := tracer.events + [Started(idx)];
    }

    /** `MapScan` (gocql.go:99-104): one child span started before the inner
        call and finished with its error, which is returned unchanged. */
    method MapScan(tracer: CqlTracer, reply: Option<Error>) returns (err: Option<Error>)
      modifies tracer
      ensures err == reply
      ensures tracer.spans == old(tracer.spans)
        + [ChildSpan(config, keyspace, paginated, traceContext).(finishErr := reply, finished := true)]
      ensures tracer.events == old(tracer.events)
        + [Started(|old(tracer.spans)|), Invoked(QueryMapScan(inner)), Finished(|old(tracer.spans)|)]
    {
      var idx := NewChildSpan(tracer, traceContext);
      tracer.events := tracer.events + [Invoked(QueryMapScan(inner))];
      err := reply;
      FinishWithError(tracer, idx, err);
    }

    /** `Scan` (gocql.go:107-112): as `MapScan`. */
    method Scan(tracer: CqlTracer, reply: Option<Error>) returns (err: Option<Error>)
      modifies tracer
      ensures err == reply
      ensures tracer.spans == old(tracer.spans)
        + [ChildSpan(config, keyspace, paginated, traceContext).(finishErr := reply, finished := true)]
      ensures tracer.events == old(tracer.events)
        + [Started(|old(tracer.spans)|), Invoked(QueryScan(inner)), Finished(|old(tracer.spans)|)]
    {
      var idx := NewChildSpan(tracer, traceContext);
      tracer.events := tracer.events + [Invoked(QueryScan(inner))];
      err := reply;
      FinishWithError(tracer, idx, err);
    }

    /** `ScanCAS` (gocql.go:115-120): as `Scan`, also returning `applied`. */
    method ScanCAS(tracer: CqlTracer, replyApplied: bool, replyErr: Option<Error>)
      returns (applied: bool, err: Option<Error>)
      modifies tracer
      ensures applied == replyApplied && err == replyErr
      ensures tracer.spans == old(tracer.spans)
        + [ChildSpan(config, keyspace, paginated, traceContext).(finishErr := replyErr, finished := true)]
      ensures tracer.events == old(tracer.events)
        + [Started(|old(tracer.spans)|), Invoked(QueryScanCAS(inner)), Finished(|old(tracer.spans)|)]
    {
      var idx := NewChildSpan(tracer, traceContext);
      tracer.events := tracer.events + [Invoked(QueryScanCAS(inner))];
      applied, err := replyApplied, replyErr;
      FinishWithError(tracer, idx, err);
    }

    /** `Iter` (gocql.go:123-140): starts a child span, gets the inner iterator
        (`reply`), tags the span from it and from the query's consistency (its
        `String()` rendering), and hands the still open span to the traced `Iter`. */
    method Iter(tracer: CqlTracer, consistency: string, reply: InnerIter) returns (it: Iter)
      modifies tracer
      ensures fresh(it) && it.inner == reply && it.span == |old(tracer.spans)|
      ensures tracer.spans == old(tracer.spans)
        + [IterSpan(ChildSpan(config, keyspace, paginated, traceContext), reply, consistency)]
      ensures tracer.events == old(tracer.events) + [Started(|old(tracer.spans)|), Invoked(QueryIter(inner))]
    {
      var idx := NewChildSpan(tracer, traceContext);
      tracer.events := tracer.events + [Invoked(QueryIter(inner))];
      var s := tracer.spans[idx];
      s := s.(tags := s.tags[TagRowCount := Text(Itoa(reply.numRows))]);
      s := s.(tags := s.tags[TagConsistency := Text(consistency)]);
      if |reply.columnKeyspaces| > 0 {
        s := s.(tags := s.tags[TagKeyspace := Text(reply.columnKeyspaces[0])]);
      }
      if reply.host.Some? {
        s := s.(tags := s.tags[TagTargetHost := Text(reply.host.value.hostID)]);
        s := s.(tags := s.tags[TagTargetPort := Text(Itoa(reply.host.value.port))]);
        s := s.(tags := s.tags[TagCluster := Text(reply.host.value.dataCenter)]);
      }
      tracer.spans := tracer.spans[idx := s];
      it := new Iter(reply, idx);
    }

    /** `Exec` (gocql.go:94-96): `Iter`, then `Close` — exactly one span, opened
        and finished, and the error of the inner `Close`. */
    method Exec(tracer: CqlTracer, consistency: string, iterReply: InnerIter, closeReply: Option<Error>)
      returns (err: Option<Error>)
      modifies tracer
      ensures err == closeReply
      ensures tracer.spans == old(tracer.spans)
        + [Closed(IterSpan(ChildSpan(config, keyspace, paginated, traceContext), iterReply, consistency), closeReply)]
      ensures tracer.events == old(tracer.events)
        + [Started(|old(tracer.spans)|), Invoked(QueryIter(inner)), Invoked(IterClose(iterReply.id)),
           Finished(|old(tracer.spans)|)]
    {
      var it := Iter(tracer, consistency, iterReply);
      err := it.Close(tracer, closeReply);
      ghost var n := |old(tracer.spans)|;
      assert tracer.spans == old(tracer.spans)
        + [Closed(IterSpan(ChildSpan(config, keyspace, paginated, traceContext), iterReply, consistency), closeReply)];
    }
  }

  /** The traced `Iter`: the inner iterator and the span it keeps open. */
  class Iter {
    const inner: InnerIter
    const span: nat

    constructor (inner: InnerIter, span: nat)
      ensures this.inner == inner && this.span == span
    {
      this.inner := inner;
      this.span := span;
    }

    /** `Close` (gocql.go:143-150): closes the inner iterator once, tags the
        span with the error if there is one, finishes it, and returns the error. */
    method Close(tracer: CqlTracer, reply: Option<Error>) returns (err: Option<Error>)
      requires span < |tracer.spans|
      modifies tracer
      ensures err == reply
      ensures tracer.spans == old(tracer.spans)[span := Closed(old(tracer.spans)[span], reply)]
      ensures tracer.events == old(tracer.events) + [Invoked(IterClose(inner.id)), Finished(span)]
    {
      tracer.events := tracer.events + [Invoked(IterClose(inner.id))];
      err := reply;
      var s := tracer.spans[span];
      if err.Some? {
        s := s.(tags := s.tags[TagError := ErrorValue(err.value)]);
      }
      s := s.(finished := true);
      tracer.spans := tracer.spans[span := s];
      tracer.events := tracer.events + [Finished(span)];
    }
  }

  /** `WrapQuery` (gocql.go:46-64): applies the options over the defaults,
      derives the resource name from the query text (`rendering`, the inner
      query's `String()`) when none is configured, and wraps the query with
      the paginated flag off under a background context. `None` is the panic of
      a query text without `"` when no resource name is configured. */
  method WrapQuery(q: GoHandle, opts: seq<WrapOption>, defaults: QueryConfig, rendering: string,
                   unquote: string -> Option<string>) returns (tq: Option<Query>)
    ensures var cfg := Configured(defaults, opts);
      var name := ResourceName(cfg.resourceName, rendering, unquote);
      && (tq.Some? <==> name.Some?)
      && (tq.Some? ==>
        && fresh(tq.value) && tq.value.inner == q
        && tq.value.config == cfg.(resourceName := name.value)
        && tq.value.keyspace == "" && !tq.value.paginated && tq.value.traceContext == Background)
  {
    var cfg := ApplyWrapOptions(defaults, opts);
    if cfg.resourceName == "" {
      var sec := QuotedSection(rendering);
      if sec.None? {
        return None;
      }
      var u := unquote("\"" + sec.value + "\"");
      cfg := cfg.(resourceName := if u.Some? then u.value else "_");
    }
    var t := new Query(q, cfg);
    return Some(t);
  }
}
