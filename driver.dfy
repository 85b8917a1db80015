/** The parts of Go's `database/sql/driver` interfaces that the wrapper consumes.
    A wrapped driver resource is a handle plus the optional interfaces it
    implements (the capability flags the wrapper probes with type assertions);
    every call the wrapper makes on a wrapped resource is recorded as a
    `Method` value, and what the driver answers is supplied as a `Reply`. */
module Driver {
  import opened Base
  import opened Context

  /** Identity of a resource owned by the wrapped driver (connection, statement,
      rows, result, transaction, the driver itself). */
  type Handle = nat

  /** A `driver.Value` as `formatArg` sees it: `[]uint8`, `string`,
      `driver.NamedValue`, or anything else (its `%T` type name and `%v` rendering).
      A string carries its `%q` rendering. */
  datatype Value =
    | Bytes(data: seq<bv8>)
    | Str(quoted: string)
    | Named(nv: NamedValue)
    | Other(typeName: string, repr: string)

  /** `driver.NamedValue`: an empty name means a positional argument. */
  datatype NamedValue = NamedValue(name: string, ordinal: int, value: Value)

  /** Optional interfaces a `driver.Conn` may implement. */
  datatype ConnCaps = ConnCaps(
    execerContext: bool,
    execer: bool,
    queryerContext: bool,
    queryer: bool,
    pinger: bool,
    beginTx: bool,
    prepareContext: bool)

  /** Optional interfaces a `driver.Stmt` may implement. */
  datatype StmtCaps = StmtCaps(execContext: bool, queryContext: bool)

  datatype InnerConn = InnerConn(id: Handle, caps: ConnCaps)

  datatype InnerStmt = InnerStmt(id: Handle, caps: StmtCaps)

  /** `driver.TxOptions`. */
  datatype TxOptions = TxOptions(isolation: int, readOnly: bool)

  /** What a wrapped driver method returns: a value and an error (nil = None). */
  datatype Reply<+T> = Reply(value: T, err: Option<Error>)

  /** A call made on a wrapped driver resource. */
  datatype Method =
    | DriverOpen(dsn: string)
    | ConnBeginTx(ctx: Ctx, opts: TxOptions)
    | ConnBegin
    | ConnPrepareContext(ctx: Ctx, query: string)
    | ConnPrepare(query: string)
    | ConnExecContext(ctx: Ctx, query: string, named: seq<NamedValue>)
    | ConnExec(query: string, values: seq<Value>)
    | ConnQueryContext(ctx: Ctx, query: string, named: seq<NamedValue>)
    | ConnQuery(query: string, values: seq<Value>)
    | ConnPing(ctx: Ctx)
    | StmtClose
    | StmtExecContext(ctx: Ctx, named: seq<NamedValue>)
    | StmtExec(values: seq<Value>)
    | StmtQueryContext(ctx: Ctx, named: seq<NamedValue>)
    | StmtQuery(values: seq<Value>)
    | RowsNext
    | RowsClose
    | ResultLastInsertId
    | ResultRowsAffected

  /** Some argument carries a name (the fallback paths cannot bind it). */
  predicate HasNamed(named: seq<NamedValue>)
  {
    exists i :: 0 <= i < |named| && named[i].name != ""
  }

  /** The values of `named`, in order, without their names and ordinals. */
  function ValuesOf(named: seq<NamedValue>): (r: seq<Value>)
    ensures |r| == |named|
    ensures forall i :: 0 <= i < |named| ==> r[i] == named[i].value
  {
    seq(|named|, i requires 0 <= i < |named| => named[i].value)
  }
}
