/** Small building blocks shared by every module: an optional value (Go's nil),
    a result with an error, the error values the wrapper distinguishes, and the
    two pieces of Go string formatting the wrapper relies on (`strconv.Itoa`
    and `strings.Join`). */
module Base {

  datatype Option<+T> = None | Some(value: T)

  datatype Result<+T, +E> = Ok(value: T) | Err(error: E)

  /** The Go error values the wrapper inspects or produces.
      `ErrSkip` is `driver.ErrSkip` (an optional capability is missing),
      `EOF` is `io.EOF` (the cursor is exhausted), `NamedParameters` is the
      error built by `namedValueToValue`, `Cancelled` is what `ctx.Err()`
      returns once a context is done, and `Failure` is any other error
      coming back from a wrapped driver or parser. */
  datatype Error =
    | ErrSkip
    | EOF
    | NamedParameters
    | Cancelled(reason: string)
    | Failure(message: string)

  /** Decimal rendering of a natural number, as `%d` and `strconv.Itoa` print it. */
  function NatToString(n: nat): (s: string)
    ensures |s| > 0
    ensures forall k :: 0 <= k < |s| ==> '0' <= s[k] <= '9'
    decreases n
  {
    var digit := [(('0' as int) + n % 10) as char];
    if n < 10 then digit else NatToString(n / 10) + digit
  }

  /** `strconv.Itoa`: decimal, with a leading '-' for negative numbers. */
  function Itoa(i: int): (s: string)
    ensures |s| > 0
    ensures (i < 0) == (s[0] == '-')
  {
    if i < 0 then "-" + NatToString(-i) else NatToString(i)
  }

  /** `strings.Join`: the parts in order with `sep` between each adjacent pair. */
  function Join(parts: seq<string>, sep: string): string
    decreases |parts|
  {
    if parts == [] then ""
    else if |parts| == 1 then parts[0]
    else parts[0] + sep + Join(parts[1..], sep)
  }

  /** Joining one more part puts exactly one separator before it. */
  lemma {:induction false} JoinSnoc(parts: seq<string>, p: string, sep: string)
    requires parts != []
    ensures Join(parts + [p], sep) == Join(parts, sep) + sep + p
    decreases |parts|
  {
    if |parts| > 1 {
      assert (parts + [p])[1..] == parts[1..] + [p];
      JoinSnoc(parts[1..], p, sep);
    }
  }
}
