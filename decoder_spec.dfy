/** What the decoder computes (parse.go:168-381), as functions of the
    decoder's fields: each step returns the new fields and the outcome. The
    fields are returned on failure too, since the Go methods update the
    state before some of their error returns. */
module DecoderSpec {
  import opened Chars
  import opened Decimal
  import opened Types
  import opened Components

  /** The mutable part of `decodeTokenState`. */
  datatype Fields = Fields(
    seen: set<Component>,
    year: int, month: int, day: int,
    hour: int, minute: int, second: int, nanos: int,
    is2DigitYear: bool)

  /** The zero value the decoder starts from. */
  const Initial: Fields := Fields({}, 0, 0, 0, 0, 0, 0, 0, false)

  /** The fields after a step, and whether the step failed. */
  datatype Effect = Effect(fields: Fields, outcome: Outcome)

  datatype Option<T> = None | Some(value: T)

  // ---------------------------------------------------------------------------
  // readDigits

  /** `readDigits(t, &i)` started at `start`: the value of the digit run there,
      or the strconv error reported at offset `idx + end + start`, where `end`
      is where the run stops. The run holds only digits, so strconv.ParseInt
      can fail on it only when it is empty or too large (ReadDigitsIsParseInt). */
  function ReadDigits(val: string, idx: int, start: nat): (r: Result<int>)
    requires start <= |val|
    ensures var j := RunEnd(val, start, Digits);
      && (r.Ok? <==> start < j && Value(val[start..j]) <= MaxInt64)
      && (r.Ok? ==> r.value == Value(val[start..j]))
      && (r.Err? ==> r.error.idx == idx + j + start)
  {
    var j := RunEnd(val, start, Digits);
    var text := val[start..j];
    if j == start then Err(ParseError("error parsing digits: " + NumErrorText(text, ErrSyntax), idx + j + start))
    else if Value(text) > MaxInt64 then Err(ParseError("error parsing digits: " + NumErrorText(text, ErrRange), idx + j + start))
    else Ok(Value(text))
  }

  // ---------------------------------------------------------------------------
  // decodeNumber

  /** Which date field a bare number becomes, given the date fields already
      seen, the configured order and the length of the number's text
      (the switch at parse.go:219-254). None: no field is assigned. The
      argument is always within DateMask, so each case of the switch is one
      pattern of the three memberships. */
  function Resolve(seenDate: set<Component>, order: Order, len: nat): Option<Component> {
    var y, m, d := Year in seenDate, Month in seenDate, Day in seenDate;
    if !y && !m && !d then
      if len >= 3 || order == OrderYMD then Some(Year)
      else if order == OrderDMY then Some(Day)
      else Some(Month)
    else if y && !m && !d then Some(Month)
    else if !y && m && !d then Some(Day)
    else if y && m && !d then Some(Day)
    else if !y && !m && d then Some(Month)
    else if !y && m && d then Some(Year)
    else None
  }

  /** Store `num` in the resolved field and mark it seen; a two-character
      year sets the two-digit-year flag (parse.go:255-261). */
  function Assign(f: Fields, c: Option<Component>, num: int, len: nat): Fields {
    match c
    case Some(Year) => f.(year := num, seen := f.seen + {Year}, is2DigitYear := f.is2DigitYear || len == 2)
    case Some(Month) => f.(month := num, seen := f.seen + {Month})
    case Some(Day) => f.(day := num, seen := f.seen + {Day})
    case _ => f
  }

  /** `decodeNumber`: read the leading digits of the field and resolve them. */
  function NumberStep(f: Fields, order: Order, val: string, idx: int): (r: Effect)
    ensures f.seen <= r.fields.seen
  {
    match ReadDigits(val, idx, 0)
    case Err(e) => Effect(f, Fail(e))
    case Ok(num) => Effect(Assign(f, Resolve(f.seen * DateMask, order, |val|), num, |val|), Pass)
  }

  // ---------------------------------------------------------------------------
  // decodeDate

  /** `strings.IndexAny(val, "/-.")`: the first delimiter, or -1. */
  function DelimiterIndex(val: string, from: nat := 0): (k: int)
    requires from <= |val|
    ensures k == -1 || from <= k < |val|
    ensures k == -1 <==> forall m :: from <= m < |val| ==> !IsDelimiter(val[m])
    ensures k != -1 ==> IsDelimiter(val[k]) && forall m :: from <= m < k ==> !IsDelimiter(val[m])
    decreases |val| - from
  {
    if from == |val| then -1
    else if IsDelimiter(val[from]) then from
    else DelimiterIndex(val, from + 1)
  }

  /** The first occurrence of `c` in `s`. */
  function IndexOf(s: string, c: char): (k: nat)
    requires c in s
    ensures k < |s| && s[k] == c && c !in s[..k]
  {
    if s[0] == c then 0 else IndexOf(s[1..], c) + 1
  }

  /** `strings.Split(s, sep)` for a one-character separator: the pieces
      between the occurrences of `c`. */
  function Split(s: string, c: char): (r: seq<string>)
    ensures |r| >= 1
    ensures forall k :: 0 <= k < |r| ==> c !in r[k]
    decreases |s|
  {
    if c !in s then [s]
    else
      var k := IndexOf(s, c);
      [s[..k]] + Split(s[k + 1..], c)
  }

  /** `strings.Join(parts, sep)` for a one-character separator. */
  function Join(parts: seq<string>, c: char): string
    requires |parts| >= 1
  {
    if |parts| == 1 then parts[0] else parts[0] + [c] + Join(parts[1..], c)
  }

  /** The loop of `decodeDate` over the fields; `off` is the offset of the
      current field, the token's offset plus the lengths of the earlier
      fields and their separators. */
  function FieldsStep(f: Fields, order: Order, fields: seq<string>, off: int): (r: Effect)
    ensures f.seen <= r.fields.seen
    decreases |fields|
  {
    if |fields| == 0 then Effect(f, Pass)
    else
      var r := NumberStep(f, order, fields[0], off);
      if r.outcome.Fail? then r
      else FieldsStep(r.fields, order, fields[1..], off + |fields[0]| + 1)
  }

  /** `decodeDate`. */
  function DateStep(f: Fields, order: Order, val: string, idx: int): (r: Effect)
    ensures f.seen <= r.fields.seen
  {
    if {Month, Day} <= f.seen then Effect(f, Pass)
    else
      var d := DelimiterIndex(val);
      if d == -1 then Effect(f, Fail(ParseError("expected date separator but found none", idx)))
      else FieldsStep(f, order, Split(val, val[d]), idx)
  }

  // ---------------------------------------------------------------------------
  // decodeTime and decodeFractionalSecond

  /** `decodeFractionalSecond`: a '.' and the digits after it, counted as
      microseconds whatever their number, times 1000 in 64-bit arithmetic. */
  function FractionStep(f: Fields, val: string, idx: int): (r: Effect)
    ensures f.seen <= r.fields.seen
  {
    if |val| == 0 then Effect(f, Fail(ParseError("expected fractional second, found empty string", idx)))
    else if val[0] != '.' then Effect(f, Fail(ParseError("expected ., found " + [val[0]], idx)))
    else
      var f1 := f.(seen := f.seen + {Micros});
      match ParseInt(val[1..])
      case NotParsed(e) => Effect(f1, Fail(ParseError("error parsing digits: " + NumErrorText(val[1..], e), idx + 1)))
      case Parsed(micros) => Effect(f1.(nanos := Wrap64(micros * 1000)), Pass)
  }

  /** The index at parse.go:290 is in bounds: the leading digit run of a time
      token is followed by a character, unless reading it fails first (an
      empty run, or one too large for 64 bits). */
  predicate TimeIndexSafe(val: string) {
    var k := RunEnd(val, 0, Digits);
    k < |val| || k == 0 || Value(val[..k]) > MaxInt64
  }

  /** What `decodeTime` reads, in the order it reads it: three runs of
      digits, then possibly the fraction, which it hands to
      `decodeFractionalSecond`. */
  datatype TimeField = HourField | MinuteField | SecondField | FractionField

  /** Store a value read for one of the three digit fields. */
  function SetTimeField(f: Fields, field: TimeField, v: int): Fields {
    match field
    case HourField => f.(hour := v)
    case MinuteField => f.(minute := v)
    case SecondField => f.(second := v)
    case FractionField => f
  }

  /** `decodeTime`: `HH:MM`, then optionally `:SS`, then optionally a fraction
      (which may also follow the minutes directly). The time fields are
      marked seen before anything is read. */
  function TimeStep(f: Fields, val: string, idx: int): (r: Effect)
    requires TimeIndexSafe(val)
    ensures f.seen <= r.fields.seen
    ensures TimeMask <= r.fields.seen
  {
    if TimeMask <= f.seen then Effect(f, Fail(ParseError("duplicate time Component: " + val, idx)))
    else TimeFrom(f.(seen := f.seen + TimeMask), val, idx, HourField, 0)
  }

  /** `decodeTime` from `field`, which starts at `start`. A digit field is
      read (and set to 0 when reading fails), then the character after it
      decides what comes next; the fraction is the rest of the token. */
  function TimeFrom(f: Fields, val: string, idx: int, field: TimeField, start: nat): (r: Effect)
    requires start <= |val|
    requires field == HourField ==> start == 0 && TimeIndexSafe(val)
    ensures f.seen <= r.fields.seen
    decreases |val| - start
  {
    if field == FractionField then FractionStep(f, val[start..], idx + start)
    else
      var i := RunEnd(val, start, Digits);
      match ReadDigits(val, idx, start)
      case Err(e) => Effect(SetTimeField(f, field, 0), Fail(e))
      case Ok(v) =>
        var f1 := SetTimeField(f, field, v);
        if field == HourField then
          if val[i] != ':' then Effect(f1, Fail(ParseError("expected :, got " + [val[i]], idx + i)))
          else TimeFrom(f1, val, idx, MinuteField, i + 1)
        else if i == |val| then Effect(f1, Pass)
        else if field == MinuteField && val[i] == ':' then
          if i + 1 == |val| then Effect(f1, Fail(ParseError("expected digits but none found", idx + i + 1)))
          else TimeFrom(f1, val, idx, SecondField, i + 1)
        else if val[i] == '.' then TimeFrom(f1, val, idx, FractionField, i)
        else if field == MinuteField then Effect(f1, Fail(ParseError("expected : or ., found " + [val[i]], idx + i)))
        else Effect(f1, Fail(ParseError("expected ., found " + [val[i]], idx + i)))
  }

  // ---------------------------------------------------------------------------
  // decodeTokens

  /** The time tokens of a list can be decoded without an out-of-range index. */
  predicate TimeTokensSafe(ts: seq<Token>) {
    forall k :: 0 <= k < |ts| && ts[k].kind == Time ==> TimeIndexSafe(ts[k].val)
  }

  /** One turn of the loop of `decodeTokens`: dates and times are decoded,
      every other kind of token is an error. */
  function TokenStep(f: Fields, order: Order, t: Token): (r: Effect)
    requires t.kind == Time ==> TimeIndexSafe(t.val)
    ensures f.seen <= r.fields.seen
    ensures t.kind == Time ==> TimeMask <= r.fields.seen
  {
    match t.kind
    case Date => DateStep(f, order, t.val, t.idx)
    case Time => TimeStep(f, t.val, t.idx)
    case _ => Effect(f, Fail(ParseError("unknown token type " + TypeName(t.kind), t.idx)))
  }

  /** The loop of `decodeTokens`: the tokens in order, stopping at the first failure. */
  function DecodeAll(f: Fields, order: Order, ts: seq<Token>): (r: Effect)
    requires TimeTokensSafe(ts)
    ensures f.seen <= r.fields.seen
    ensures r.outcome.Pass? ==> forall k :: 0 <= k < |ts| ==> ts[k].kind == Date || ts[k].kind == Time
    decreases |ts|
  {
    if |ts| == 0 then Effect(f, Pass)
    else
      var r := TokenStep(f, order, ts[0]);
      if r.outcome.Fail? then r
      else DecodeAll(r.fields, order, ts[1..])
  }

  /** `decodeTokens`: decode from the zero state in the zone of the
      reference instant; success is always an absolute time. */
  function Decode(style: DateStyle, loc: Location, ts: seq<Token>): (r: Result<ParseResult>)
    requires TimeTokensSafe(ts)
    ensures r.Ok? ==> r.value.typ == AbsoluteTime && r.value.time.loc == loc
    ensures r.Ok? ==> forall k :: 0 <= k < |ts| ==> ts[k].kind == Date || ts[k].kind == Time
  {
    var r := DecodeAll(Initial, style.order, ts);
    match r.outcome
    case Fail(e) => Err(e)
    case Pass =>
      var f := r.fields;
      Ok(ParseResult(AbsoluteTime, RawTime(f.year, f.month, f.day, f.hour, f.minute, f.second, f.nanos, loc)))
  }
}
