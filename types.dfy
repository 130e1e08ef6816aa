/** The value types shared by the scanner, the decoder and the formatter:
    DateStyle with its Order and Style (pgdatetime.go), ParseError,
    ParseResultType, and the scanner's tokens (parse.go, token.go). */
module Types {
  import opened Decimal

  /** Order is a Go uint8; values other than the three named ones are legal
      and fall into each switch's default branch. */
  newtype Order = x: int | 0 <= x < 256
  const OrderMDY: Order := 0
  const OrderDMY: Order := 1
  const OrderYMD: Order := 2

  /** Style is a Go uint8 as well. */
  newtype Style = x: int | 0 <= x < 256
  const StyleISO: Style := 0
  const StyleSQL: Style := 1
  const StylePostgres: Style := 2
  const StyleGerman: Style := 3

  /** The output style; FixedZonePrefix suppresses zone names that begin with it. */
  datatype DateStyle = DateStyle(order: Order, style: Style, fixedZonePrefix: string)

  /** An error during parsing: a description and the 0-based offset it refers to. */
  datatype ParseError = ParseError(description: string, idx: int) {

    /** The text of the error, "error parsing datetime at index <Idx>: <Description>". */
    function Error(): (msg: string)
      ensures |msg| > |ErrorPrefix| + |description|
      ensures msg[..|ErrorPrefix|] == ErrorPrefix
      ensures msg[|msg| - |description|..] == description
    {
      ErrorPrefix + Itoa(idx) + ": " + description
    }
  }

  const ErrorPrefix: string := "error parsing datetime at index "

  /** The text of an error determines the error: the index ends at the first colon. */
  lemma ErrorInjective(e1: ParseError, e2: ParseError)
    requires e1.Error() == e2.Error()
    ensures e1 == e2
  {
    MessageInjective(e1.idx, e1.description, e2.idx, e2.description);
  }

  lemma MessageInjective(i1: int, d1: string, i2: int, d2: string)
    requires ErrorPrefix + Itoa(i1) + ": " + d1 == ErrorPrefix + Itoa(i2) + ": " + d2
    ensures i1 == i2 && d1 == d2
  {
    var a, b := Itoa(i1), Itoa(i2);
    var x, y := ": " + d1, ": " + d2;
    assert ErrorPrefix + a + ": " + d1 == ErrorPrefix + (a + x);
    assert ErrorPrefix + b + ": " + d2 == ErrorPrefix + (b + y);
    PrefixCancel(ErrorPrefix, a + x, b + y);
    ItoaNoColon(i1);
    ItoaNoColon(i2);
    SplitAtFirstColon(a, x, b, y);
    ItoaInjective(i1, i2);
    PrefixCancel(": ", d1, d2);
  }

  lemma PrefixCancel(p: string, u: string, v: string)
    requires p + u == p + v
    ensures u == v
  {
    assert u == (p + u)[|p|..];
    assert v == (p + v)[|p|..];
  }

  lemma ColonInside(a: string, x: string, b: string, y: string)
    requires |x| > 0 && x[0] == ':' && |a| < |b|
    requires a + x == b + y
    ensures b[|a|] == ':'
  {
    assert (a + x)[|a|] == (b + y)[|a|];
  }

  /** Two ways of writing a string as colon-free text followed by a colon agree. */
  lemma SplitAtFirstColon(a: string, x: string, b: string, y: string)
    requires ':' !in a && ':' !in b
    requires |x| > 0 && x[0] == ':' && |y| > 0 && y[0] == ':'
    requires a + x == b + y
    ensures a == b && x == y
  {
    var m := a + x;
    if |a| == |b| {
      assert a == m[..|a|] == b;
      assert x == m[|a|..] == y;
    } else if |a| < |b| {
      ColonInside(a, x, b, y);
      assert false;
    } else {
      ColonInside(b, y, a, x);
      assert false;
    }
  }

  /** A value or the error that stopped the computation. */
  datatype Result<T> = Ok(value: T) | Err(error: ParseError)

  /** The outcome of a Go method that returns only an error. */
  datatype Outcome = Pass | Fail(error: ParseError)

  /** The result kinds a parse can report; this core only reports AbsoluteTime. */
  datatype ParseResultType = AbsoluteTime | RelativeTime | PosInfinity | NegInfinity

  /** An opaque time zone handle (Go's *time.Location). */
  datatype Location = Location(name: string)

  /** The decoded instant: the fields handed to time.Date, unnormalised, and the zone. */
  datatype RawTime = RawTime(
    year: int, month: int, day: int,
    hour: int, minute: int, second: int, nanos: int,
    loc: Location)

  /** The result of a successful parse. */
  datatype ParseResult = ParseResult(typ: ParseResultType, time: RawTime)

  /** The kinds of token (tokenType in parse.go, dateTokenType in token.go). */
  datatype TokenType = Number | String | Date | Time | TZ | Special

  /** The generated String() of a token type, with its prefix trimmed. */
  function TypeName(t: TokenType): string {
    match t
    case Number => "Number"
    case String => "String"
    case Date => "Date"
    case Time => "Time"
    case TZ => "TZ"
    case Special => "Special"
  }

  /** A token: its kind, its (lower-cased) text and its offset in the input. */
  datatype Token = Token(kind: TokenType, val: string, idx: int)
}
