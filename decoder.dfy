/** The decoder as the source writes it (parse.go:168-381): a state object
    whose methods update its fields in place, each proved to do what the
    corresponding function of DecoderSpec says. */
module Decoder {
  import opened Chars
  import opened Decimal
  import opened Types
  import opened Components
  import opened DecoderSpec
  import opened DecoderProps
  import opened TimeProps

  /** `decodeTokenState`. The date style, the zone and the result type are
      set once and never changed; `seen` is the set of fields marked so far. */
  class DecodeTokenState {
    var seen: set<Component>
    var year: int
    var month: int
    var day: int
    var hour: int
    var minute: int
    var second: int
    var nanos: int
    var is2DigitYear: bool
    const loc: Location
    const typ: ParseResultType
    const dateStyle: DateStyle

    /** The fields the methods update, as a value. */
    function State(): Fields
      reads this
    {
      Fields(seen, year, month, day, hour, minute, second, nanos, is2DigitYear)
    }

    /** The state `decodeTokens` starts from (parse.go:346-351). */
    constructor (dateStyle: DateStyle, loc: Location)
      ensures State() == Initial
      ensures this.dateStyle == dateStyle && this.loc == loc && typ == AbsoluteTime
    {
      seen := {};
      year, month, day := 0, 0, 0;
      hour, minute, second, nanos := 0, 0, 0, 0;
      is2DigitYear := false;
      this.dateStyle := dateStyle;
      this.loc := loc;
      typ := AbsoluteTime;
    }

    /** `hasSeen`: every field of `c` has been marked. */
    predicate HasSeen(c: set<Component>)
      reads this
      ensures HasSeen(c) <==> forall x :: x in c ==> x in seen
    {
      seen * c == c
    }

    /** `markSeen`: mark the fields of `c`, keeping those already marked. */
    method MarkSeen(c: set<Component>)
      modifies this
      ensures State() == old(State()).(seen := old(seen) + c)
    {
      seen := seen + c;
    }

    /** `readDigits(t, &i)`: advance past the digits from `start`, then parse
        them with strconv.ParseInt; `i` is where the digits end. */
    method ReadDigits(val: string, idx: int, start: nat) returns (r: Result<int>, i: nat)
      requires start <= |val|
      ensures i == RunEnd(val, start, Digits)
      ensures r == DecoderSpec.ReadDigits(val, idx, start)
    {
      i := start;
      while i < |val| && IsDigit(val[i])
        invariant start <= i <= |val|
        invariant RunEnd(val, i, Digits) == RunEnd(val, start, Digits)
        decreases |val| - i
      {
        i := i + 1;
      }
      var text := val[start..i];
      ReadDigitsIsParseInt(val, idx, start);
      match ParseInt(text)
      case NotParsed(e) =>
        r := Err(ParseError("error parsing digits: " + NumErrorText(text, e), idx + i + start));
      case Parsed(v) =>
        r := Ok(v);
    }

    /** `decodeNumber`: read the leading digits and store them in the date
        field the fields already seen and the order select. */
    method DecodeNumber(val: string, idx: int) returns (out: Outcome)
      modifies this
      ensures Effect(State(), out) == NumberStep(old(State()), dateStyle.order, val, idx)
    {
      var r, _ := ReadDigits(val, idx, 0);
      if r.Err? {
        return Fail(r.error);
      }
      var num := r.value;
      ghost var f := State();
      var seenMask: set<Component> := {};
      var seenDate := seen * DateMask;
      ghost var c := Resolve(seenDate, dateStyle.order, |val|);
      assert NumberStep(f, dateStyle.order, val, idx) == Effect(Assign(f, c, num, |val|), Pass);
      SubsetsOfDateMask(seenDate);
      if seenDate == {} {
        if |val| >= 3 || dateStyle.order == OrderYMD {
          seenMask := {Year};
          year := num;
        } else if dateStyle.order == OrderDMY {
          seenMask := {Day};
          day := num;
        } else {
          seenMask := {Month};
          month := num;
        }
      } else if seenDate == {Year} {
        assert c == Some(Month);
        seenMask := {Month};
        month := num;
      } else if seenDate == {Month} {
        assert c == Some(Day);
        seenMask := {Day};
        day := num;
      } else if seenDate == {Year, Month} {
        assert c == Some(Day);
        seenMask := {Day};
        day := num;
      } else if seenDate == {Day} {
        assert c == Some(Month);
        seenMask := {Month};
        month := num;
      } else if seenDate == {Day, Month} {
        assert c == Some(Year);
        seenMask := {Year};
        year := num;
      } else {
        assert c == None;
      }
      assert seenMask == if c.Some? then {c.value} else {};
      if |val| == 2 && seenMask == {Year} {
        is2DigitYear := true;
      }
      seen := seen + seenMask;
      out := Pass;
      assert State() == Assign(f, c, num, |val|) by {
        match c
        case Some(Year) =>
        case Some(Month) =>
        case Some(Day) =>
        case _ =>
      }
    }

    /** `decodeDate`: unless month and day are both seen, split the token at
        its first delimiter and decode each piece as a number, stopping at
        the first error. */
    method DecodeDate(val: string, idx: int) returns (out: Outcome)
      modifies this
      ensures Effect(State(), out) == DateStep(old(State()), dateStyle.order, val, idx)
    {
      if HasSeen({Month, Day}) {
        return Pass;
      }
      var delimiterIdx := DelimiterIndex(val);
      if delimiterIdx == -1 {
        return Fail(ParseError("expected date separator but found none", idx));
      }
      var fields := Split(val, val[delimiterIdx]);
      out := DecodeFields(fields, idx);
    }

    /** The loop of `decodeDate` over the pieces of the token; `currLen` is
        the length of the pieces already decoded, each with its separator. */
    method DecodeFields(fields: seq<string>, idx: int) returns (out: Outcome)
      modifies this
      ensures Effect(State(), out) == FieldsStep(old(State()), dateStyle.order, fields, idx)
    {
      var currLen := 0;
      var k := 0;
      while k < |fields|
        invariant 0 <= k <= |fields|
        invariant FieldsStep(old(State()), dateStyle.order, fields, idx)
          == FieldsStep(State(), dateStyle.order, fields[k..], idx + currLen)
        decreases |fields| - k
      {
        assert fields[k..][1..] == fields[k + 1..];
        out := DecodeNumber(fields[k], idx + currLen);
        if out.Fail? {
          return;
        }
        currLen := currLen + |fields[k]| + 1;
        k := k + 1;
      }
      out := Pass;
    }

    /** `decodeTime`: mark the time fields, read the hour, ':' and the
        minutes; then the end, or ':' and the seconds (then the end or a
        fraction), or a fraction directly. */
    method DecodeTime(val: string, idx: int) returns (out: Outcome)
      requires TimeIndexSafe(val)
      modifies this
      ensures Effect(State(), out) == TimeStep(old(State()), val, idx)
    {
      if HasSeen(TimeMask) {
        TimeDuplicate(State(), val, idx);
        return Fail(ParseError("duplicate time Component: " + val, idx));
      }
      ghost var f := State();
      MarkSeen(TimeMask);
      var r, i := ReadDigits(val, idx, 0);
      hour := if r.Ok? then r.value else 0;
      if r.Err? {
        FieldUnreadable(f.(seen := f.seen + TimeMask), val, idx, HourField, 0);
        return Fail(r.error);
      }
      if val[i] != ':' {
        HourWithoutColon(f, val, idx, i, r.value);
        return Fail(ParseError("expected :, got " + [val[i]], idx + i));
      }
      HourThenColon(f, val, idx, i, r.value);
      i := i + 1;
      out := DecodeMinutes(val, idx, i);
    }

    /** The rest of `decodeTime` from the minutes, which start at `start`. */
    method DecodeMinutes(val: string, idx: int, start: nat) returns (out: Outcome)
      requires start <= |val|
      modifies this
      ensures Effect(State(), out) == TimeFrom(old(State()), val, idx, MinuteField, start)
    {
      ghost var f := State();
      var r, i := ReadDigits(val, idx, start);
      minute := if r.Ok? then r.value else 0;
      if r.Err? {
        FieldUnreadable(f, val, idx, MinuteField, start);
        return Fail(r.error);
      }
      if i == |val| {
        FieldThenEnd(f, val, idx, MinuteField, start, r.value);
        return Pass;
      }
      match val[i] {
        case ':' =>
          i := i + 1;
          if i == |val| {
            MinuteThenTrailingColon(f, val, idx, start, i - 1, r.value);
            return Fail(ParseError("expected digits but none found", idx + i));
          }
          MinuteThenColon(f, val, idx, start, i - 1, r.value);
          out := DecodeSeconds(val, idx, i);
        case '.' =>
          FieldThenDot(f, val, idx, MinuteField, start, i, r.value);
          FractionIsRest(State(), val, idx, i);
          out := DecodeFractionalSecond(val[i..], idx + i);
        case _ =>
          MinuteThenOther(f, val, idx, start, i, r.value);
          out := Fail(ParseError("expected : or ., found " + [val[i]], idx + i));
      }
    }

    /** The rest of `decodeTime` from the seconds, which start at `start`. */
    method DecodeSeconds(val: string, idx: int, start: nat) returns (out: Outcome)
      requires start <= |val|
      modifies this
      ensures Effect(State(), out) == TimeFrom(old(State()), val, idx, SecondField, start)
    {
      ghost var f := State();
      var r, i := ReadDigits(val, idx, start);
      second := if r.Ok? then r.value else 0;
      if r.Err? {
        FieldUnreadable(f, val, idx, SecondField, start);
        return Fail(r.error);
      }
      if i == |val| {
        FieldThenEnd(f, val, idx, SecondField, start, r.value);
        return Pass;
      }
      if val[i] == '.' {
        FieldThenDot(f, val, idx, SecondField, start, i, r.value);
        FractionIsRest(State(), val, idx, i);
        out := DecodeFractionalSecond(val[i..], idx + i);
      } else {
        SecondThenOther(f, val, idx, start, i, r.value);
        out := Fail(ParseError("expected ., found " + [val[i]], idx + i));
      }
    }

    /** `decodeFractionalSecond`: a '.' followed by the microseconds. */
    method DecodeFractionalSecond(val: string, idx: int) returns (out: Outcome)
      modifies this
      ensures Effect(State(), out) == FractionStep(old(State()), val, idx)
    {
      if |val| == 0 {
        return Fail(ParseError("expected fractional second, found empty string", idx));
      }
      if val[0] != '.' {
        return Fail(ParseError("expected ., found " + [val[0]], idx));
      }
      MarkSeen({Micros});
      match ParseInt(val[1..])
      case NotParsed(e) =>
        out := Fail(ParseError("error parsing digits: " + NumErrorText(val[1..], e), idx + 1));
      case Parsed(micros) =>
        nanos := Wrap64(micros * 1000);
        out := Pass;
    }
  }

  /** `decodeTokens`: decode the tokens in order from a fresh state in the
      zone of the reference instant, failing on the first error or on a
      token that is neither a date nor a time. */
  method DecodeTokens(dateStyle: DateStyle, loc: Location, tokens: seq<Token>) returns (r: Result<ParseResult>)
    requires TimeTokensSafe(tokens)
    ensures r == Decode(dateStyle, loc, tokens)
  {
    var s := new DecodeTokenState(dateStyle, loc);
    var k := 0;
    while k < |tokens|
      invariant 0 <= k <= |tokens|
      invariant TimeTokensSafe(tokens[k..])
      invariant s.dateStyle == dateStyle && s.loc == loc && s.typ == AbsoluteTime
      invariant DecodeAll(Initial, dateStyle.order, tokens) == DecodeAll(s.State(), dateStyle.order, tokens[k..])
      decreases |tokens| - k
    {
      var t := tokens[k];
      assert tokens[k..][0] == t && tokens[k..][1..] == tokens[k + 1..];
      var out;
      match t.kind {
        case Date =>
          out := s.DecodeDate(t.val, t.idx);
        case Time =>
          out := s.DecodeTime(t.val, t.idx);
        case _ =>
          out := Fail(ParseError("unknown token type " + TypeName(t.kind), t.idx));
      }
      if out.Fail? {
        return Err(out.error);
      }
      k := k + 1;
    }
    r := Ok(ParseResult(s.typ, RawTime(s.year, s.month, s.day, s.hour, s.minute, s.second, s.nanos, s.loc)));
  }
}
