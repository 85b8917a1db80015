/** contrib/database/sql/option.go: the wrapper's configuration record and the
    five functional options, each of which assigns one field of `*options`. */
module SqlOptions {
  import opened Base

  /** Identity of a configured `Logger` implementation. */
  type Logger = nat

  /** A copy of the `options` struct; `logger == None` is a nil `Logger`. */
  datatype Options = Options(logger: Option<Logger>, omitArgs: bool, traceRowsOp: bool)

  /** The zero value of `options`. */
  const Defaults: Options := Options(None, false, false)

  /** The closures returned by the option constructors. */
  datatype Opt =
    | WithLogger(l: Option<Logger>)
    | WithOmitArgs
    | WithIncludeArgs
    | WithTraceRowsOp
    | WithNoTraceRowsOp

  /** What running an option's closure does to an `options` value: each
      option sets exactly the field it names (option.go:15, 22, 30, 38, 46). */
  function Applied(o: Options, opt: Opt): (r: Options)
    ensures r.logger == (if opt.WithLogger? then opt.l else o.logger)
    ensures r.omitArgs == (if opt.WithOmitArgs? then true else if opt.WithIncludeArgs? then false else o.omitArgs)
    ensures r.traceRowsOp == (if opt.WithTraceRowsOp? then true else if opt.WithNoTraceRowsOp? then false else o.traceRowsOp)
  {
    match opt
    case WithLogger(l) => o.(logger := l)
    case WithOmitArgs => o.(omitArgs := true)
    case WithIncludeArgs => o.(omitArgs := false)
    case WithTraceRowsOp => o.(traceRowsOp := true)
    case WithNoTraceRowsOp => o.(traceRowsOp := false)
  }

  /** The `*options` a closure receives: a record updated in place. */
  class OptionsCell {
    var logger: Option<Logger>
    var omitArgs: bool
    var traceRowsOp: bool

    function Value(): Options
      reads this
    {
      Options(logger, omitArgs, traceRowsOp)
    }

    constructor ()
      ensures Value() == Defaults
    {
      logger, omitArgs, traceRowsOp := None, false, false;
    }

    /** Runs the closure `opt` on this record. */
    method Apply(opt: Opt)
      modifies this
      ensures Value() == Applied(old(Value()), opt)
    {
      match opt
      case WithLogger(l) => logger := l;
      case WithOmitArgs => omitArgs := true;
      case WithIncludeArgs => omitArgs := false;
      case WithTraceRowsOp => traceRowsOp := true;
      case WithNoTraceRowsOp => traceRowsOp := false;
    }
  }

  /** Applying the options one after another, first to last. */
  function ApplyAll(o: Options, opts: seq<Opt>): Options
    decreases |opts|
  {
    if opts == [] then o else ApplyAll(Applied(o, opts[0]), opts[1..])
  }

  /** The setting of `omitArgs` made by the last of `opts` that sets it, if any. */
  function LastOmit(opts: seq<Opt>): Option<bool>
    decreases |opts|
  {
    if opts == [] then None
    else match opts[|opts| - 1]
      case WithOmitArgs => Some(true)
      case WithIncludeArgs => Some(false)
      case _ => LastOmit(opts[..|opts| - 1])
  }

  /** The setting of `traceRowsOp` made by the last of `opts` that sets it, if any. */
  function LastTraceRows(opts: seq<Opt>): Option<bool>
    decreases |opts|
  {
    if opts == [] then None
    else match opts[|opts| - 1]
      case WithTraceRowsOp => Some(true)
      case WithNoTraceRowsOp => Some(false)
      case _ => LastTraceRows(opts[..|opts| - 1])
  }

  /** The logger set by the last `WithLogger` in `opts`, if any. */
  function LastLogger(opts: seq<Opt>): Option<Option<Logger>>
    decreases |opts|
  {
    if opts == [] then None
    else match opts[|opts| - 1]
      case WithLogger(l) => Some(l)
      case _ => LastLogger(opts[..|opts| - 1])
  }

  /** Applying an option twice is the same as applying it once. */
  lemma AppliedIdempotent(o: Options, opt: Opt)
    ensures Applied(Applied(o, opt), opt) == Applied(o, opt)
  {
  }

  /** The zero value omits nothing and traces no row operations, and has no logger. */
  lemma DefaultsIncludeArgs()
    ensures !Defaults.omitArgs && !Defaults.traceRowsOp && Defaults.logger.None?
  {
  }

  /** Applying `opts ++ [opt]` is applying `opts`, then `opt`. */
  lemma {:induction false} ApplyAllSnoc(o: Options, opts: seq<Opt>, opt: Opt)
    ensures ApplyAll(o, opts + [opt]) == Applied(ApplyAll(o, opts), opt)
    decreases |opts|
  {
    if opts == [] {
      assert [opt][1..] == [];
    } else {
      assert (opts + [opt])[1..] == opts[1..] + [opt];
      ApplyAllSnoc(Applied(o, opts[0]), opts[1..], opt);
    }
  }

  /** Whichever of `WithOmitArgs` / `WithIncludeArgs` is applied last decides
      `omitArgs`; with neither, the starting value stays. */
  lemma {:induction false} OmitArgsLastWins(o: Options, opts: seq<Opt>)
    ensures ApplyAll(o, opts).omitArgs == match LastOmit(opts) case Some(b) => b case None => o.omitArgs
    decreases |opts|
  {
    if opts != [] {
      var init := opts[..|opts| - 1];
      assert opts == init + [opts[|opts| - 1]];
      ApplyAllSnoc(o, init, opts[|opts| - 1]);
      OmitArgsLastWins(o, init);
    }
  }

  /** Whichever of `WithTraceRowsOp` / `WithNoTraceRowsOp` is applied last decides
      `traceRowsOp`; with neither, the starting value stays. */
  lemma {:induction false} TraceRowsLastWins(o: Options, opts: seq<Opt>)
    ensures ApplyAll(o, opts).traceRowsOp == match LastTraceRows(opts) case Some(b) => b case None => o.traceRowsOp
    decreases |opts|
  {
    if opts != [] {
      var init := opts[..|opts| - 1];
      assert opts == init + [opts[|opts| - 1]];
      ApplyAllSnoc(o, init, opts[|opts| - 1]);
      TraceRowsLastWins(o, init);
    }
  }

  /** The last `WithLogger` applied decides the logger; with none, it stays. */
  lemma {:induction false} LoggerLastWins(o: Options, opts: seq<Opt>)
    ensures ApplyAll(o, opts).logger == match LastLogger(opts) case Some(l) => l case None => o.logger
    decreases |opts|
  {
    if opts != [] {
      var init := opts[..|opts| - 1];
      assert opts == init + [opts[|opts| - 1]];
      ApplyAllSnoc(o, init, opts[|opts| - 1]);
      LoggerLastWins(o, init);
    }
  }
}
