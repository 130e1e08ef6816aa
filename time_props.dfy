/** Properties of `decodeTime` and `decodeFractionalSecond` (parse.go:277-343):
    one lemma per way a field can be followed, and the whole-token shapes
    built from them. */
module TimeProps {
  import opened Chars
  import opened Decimal
  import opened Types
  import opened Components
  import opened DecoderSpec
  import opened DecoderProps

  // ---------------------------------------------------------------------------
  // One field at a time: `e` is where the field's digits end, `v` their value.

  /** A second time token is refused at its own offset and changes nothing. */
  lemma {:induction false} TimeDuplicate(f: Fields, val: string, idx: int)
    requires TimeMask <= f.seen && TimeIndexSafe(val)
    ensures TimeStep(f, val, idx) == Effect(f, Fail(ParseError("duplicate time Component: " + val, idx)))
  {
  }

  /** The hour, then ':' : the minutes are read next. */
  lemma {:induction false} HourThenColon(f: Fields, val: string, idx: int, e: nat, v: int)
    requires e < |val| && val[e] == ':' && !(TimeMask <= f.seen)
    requires RunEnd(val, 0, Digits) == e && ReadDigits(val, idx, 0) == Ok(v)
    ensures TimeIndexSafe(val)
    ensures TimeStep(f, val, idx) == TimeFrom(f.(seen := f.seen + TimeMask, hour := v), val, idx, MinuteField, e + 1)
  {
  }

  /** The hour, then anything but ':' : an error at that character. */
  lemma {:induction false} HourWithoutColon(f: Fields, val: string, idx: int, e: nat, v: int)
    requires e < |val| && val[e] != ':' && !(TimeMask <= f.seen)
    requires RunEnd(val, 0, Digits) == e && ReadDigits(val, idx, 0) == Ok(v)
    ensures TimeIndexSafe(val)
    ensures TimeStep(f, val, idx)
      == Effect(f.(seen := f.seen + TimeMask, hour := v), Fail(ParseError("expected :, got " + [val[e]], idx + e)))
  {
  }

  /** A field whose digits cannot be read is set to 0 and its error returned. */
  lemma {:induction false} FieldUnreadable(f: Fields, val: string, idx: int, field: TimeField, start: nat)
    requires field != FractionField && start <= |val| && (field == HourField ==> start == 0 && TimeIndexSafe(val))
    requires ReadDigits(val, idx, start).Err?
    ensures TimeFrom(f, val, idx, field, start)
      == Effect(SetTimeField(f, field, 0), Fail(ReadDigits(val, idx, start).error))
  {
  }

  /** The minutes or the seconds at the end of the token: success. */
  lemma {:induction false} FieldThenEnd(f: Fields, val: string, idx: int, field: TimeField, start: nat, v: int)
    requires (field == MinuteField || field == SecondField) && start <= |val|
    requires RunEnd(val, start, Digits) == |val| && ReadDigits(val, idx, start) == Ok(v)
    ensures TimeFrom(f, val, idx, field, start) == Effect(SetTimeField(f, field, v), Pass)
  {
  }

  /** The minutes, then ':' and more: the seconds are read next. */
  lemma {:induction false} MinuteThenColon(f: Fields, val: string, idx: int, start: nat, e: nat, v: int)
    requires start <= e && e + 1 < |val| && val[e] == ':'
    requires RunEnd(val, start, Digits) == e && ReadDigits(val, idx, start) == Ok(v)
    ensures TimeFrom(f, val, idx, MinuteField, start) == TimeFrom(f.(minute := v), val, idx, SecondField, e + 1)
  {
  }

  /** The minutes, then a ':' that ends the token: no digits for the seconds. */
  lemma {:induction false} MinuteThenTrailingColon(f: Fields, val: string, idx: int, start: nat, e: nat, v: int)
    requires start <= e && e + 1 == |val| && val[e] == ':'
    requires RunEnd(val, start, Digits) == e && ReadDigits(val, idx, start) == Ok(v)
    ensures TimeFrom(f, val, idx, MinuteField, start)
      == Effect(f.(minute := v), Fail(ParseError("expected digits but none found", idx + e + 1)))
  {
  }

  /** The minutes, then neither ':' nor '.': an error at that character. */
  lemma {:induction false} MinuteThenOther(f: Fields, val: string, idx: int, start: nat, e: nat, v: int)
    requires start <= e < |val| && val[e] != ':' && val[e] != '.'
    requires RunEnd(val, start, Digits) == e && ReadDigits(val, idx, start) == Ok(v)
    ensures TimeFrom(f, val, idx, MinuteField, start)
      == Effect(f.(minute := v), Fail(ParseError("expected : or ., found " + [val[e]], idx + e)))
  {
  }

  /** The minutes or the seconds, then '.': the rest is the fraction. */
  lemma {:induction false} FieldThenDot(f: Fields, val: string, idx: int, field: TimeField, start: nat, e: nat, v: int)
    requires (field == MinuteField || field == SecondField) && start <= e < |val| && val[e] == '.'
    requires RunEnd(val, start, Digits) == e && ReadDigits(val, idx, start) == Ok(v)
    ensures TimeFrom(f, val, idx, field, start) == TimeFrom(SetTimeField(f, field, v), val, idx, FractionField, e)
  {
  }

  /** The minutes or the seconds, then '.' and digits to the end: the
      fraction is read as microseconds. */
  lemma {:induction false} FieldThenFraction(f: Fields, val: string, idx: int, field: TimeField, start: nat, e: nat, v: int, frac: string)
    requires (field == MinuteField || field == SecondField) && start <= e < |val| && val[e..] == "." + frac
    requires RunEnd(val, start, Digits) == e && ReadDigits(val, idx, start) == Ok(v)
    requires AllDigits(frac) && 0 < |frac| && Value(frac) <= MaxInt64
    ensures TimeFrom(f, val, idx, field, start)
      == Effect(SetTimeField(f, field, v).(seen := f.seen + {Micros}, nanos := Wrap64(Value(frac) * 1000)), Pass)
  {
    assert val[e] == '.' by { assert val[e..][0] == '.'; }
    FieldThenDot(f, val, idx, field, start, e, v);
    FractionIsRest(SetTimeField(f, field, v), val, idx, e);
    FractionRead(SetTimeField(f, field, v), idx + e, frac);
  }

  /** The fraction is `decodeFractionalSecond` on the rest of the token, at its offset. */
  lemma {:induction false} FractionIsRest(f: Fields, val: string, idx: int, e: nat)
    requires e <= |val|
    ensures TimeFrom(f, val, idx, FractionField, e) == FractionStep(f, val[e..], idx + e)
  {
  }

  /** The seconds, then anything but '.': an error at that character. */
  lemma {:induction false} SecondThenOther(f: Fields, val: string, idx: int, start: nat, e: nat, v: int)
    requires start <= e < |val| && val[e] != '.'
    requires RunEnd(val, start, Digits) == e && ReadDigits(val, idx, start) == Ok(v)
    ensures TimeFrom(f, val, idx, SecondField, start)
      == Effect(f.(second := v), Fail(ParseError("expected ., found " + [val[e]], idx + e)))
  {
  }

  /** A fraction of digits within range marks Micros and sets the
      nanoseconds to 1000 times the digits' value, modulo 64 bits. */
  lemma {:induction false} FractionRead(f: Fields, idx: int, frac: string)
    requires AllDigits(frac) && 0 < |frac| && Value(frac) <= MaxInt64
    ensures FractionStep(f, "." + frac, idx)
      == Effect(f.(seen := f.seen + {Micros}, nanos := Wrap64(Value(frac) * 1000)), Pass)
  {
    assert ("." + frac)[1..] == frac;
    ParseIntDigits(frac);
  }

  /** A '.' with nothing after it is a strconv syntax error one past the '.'. */
  lemma {:induction false} FractionEmpty(f: Fields, idx: int)
    ensures FractionStep(f, ".", idx)
      == Effect(f.(seen := f.seen + {Micros}), Fail(ParseError("error parsing digits: " + NumErrorText("", ErrSyntax), idx + 1)))
  {
    assert "."[1..] == "";
  }

  // ---------------------------------------------------------------------------
  // Whole tokens, from digit strings h, m, s and frac

  /** `HH:MM` sets the hour and the minutes and marks the time fields seen. */
  lemma {:induction false} TimeHourMinute(f: Fields, h: string, m: string, idx: int)
    requires AllDigits(h) && 0 < |h| && Value(h) <= MaxInt64
    requires AllDigits(m) && 0 < |m| && Value(m) <= MaxInt64
    requires !(TimeMask <= f.seen)
    ensures TimeIndexSafe(h + ":" + m)
    ensures TimeStep(f, h + ":" + m, idx)
      == Effect(f.(seen := f.seen + TimeMask, hour := Value(h), minute := Value(m)), Pass)
  {
    var w := h + ":" + m;
    var hv, mv := Value(h), Value(m);
    var e0, p1 := |h|, |h| + 1;
    var f1 := f.(seen := f.seen + TimeMask, hour := hv);
    assert TimeIndexSafe(w) && TimeStep(f, w, idx) == TimeFrom(f1, w, idx, MinuteField, p1) by {
      assert w[0..|h|] == h;
      ReadDigitsAt(w, idx, 0, h);
      HourThenColon(f, w, idx, e0, hv);
    }
    assert TimeFrom(f1, w, idx, MinuteField, p1) == Effect(f1.(minute := mv), Pass) by {
      assert w[p1..p1 + |m|] == m;
      ReadDigitsAt(w, idx, p1, m);
      FieldThenEnd(f1, w, idx, MinuteField, p1, mv);
    }
  }

  /** `HH:MM:` fails just past the second ':', with hour and minutes already set. */
  lemma {:induction false} TimeTrailingColon(f: Fields, h: string, m: string, idx: int)
    requires AllDigits(h) && 0 < |h| && Value(h) <= MaxInt64
    requires AllDigits(m) && 0 < |m| && Value(m) <= MaxInt64
    requires !(TimeMask <= f.seen)
    ensures TimeIndexSafe(h + ":" + m + ":")
    ensures TimeStep(f, h + ":" + m + ":", idx)
      == Effect(f.(seen := f.seen + TimeMask, hour := Value(h), minute := Value(m)),
                Fail(ParseError("expected digits but none found", idx + |h| + |m| + 2)))
  {
    var w := h + ":" + m + ":";
    var hv, mv := Value(h), Value(m);
    var e0, p1, e1 := |h|, |h| + 1, |h| + 1 + |m|;
    var f1 := f.(seen := f.seen + TimeMask, hour := hv);
    assert TimeIndexSafe(w) && TimeStep(f, w, idx) == TimeFrom(f1, w, idx, MinuteField, p1) by {
      assert w[0..|h|] == h;
      ReadDigitsAt(w, idx, 0, h);
      HourThenColon(f, w, idx, e0, hv);
    }
    assert TimeFrom(f1, w, idx, MinuteField, p1)
        == Effect(f1.(minute := mv), Fail(ParseError("expected digits but none found", idx + e1 + 1))) by {
      assert w[p1..e1] == m;
      ReadDigitsAt(w, idx, p1, m);
      MinuteThenTrailingColon(f1, w, idx, p1, e1, mv);
    }
  }

  /** `HH:MM:SS.F`: hour, minutes and seconds are set, Micros is marked seen,
      and the fraction's digits are taken as microseconds. */
  lemma {:induction false} TimeWithFraction(f: Fields, h: string, m: string, s: string, frac: string, idx: int)
    requires AllDigits(h) && 0 < |h| && Value(h) <= MaxInt64
    requires AllDigits(m) && 0 < |m| && Value(m) <= MaxInt64
    requires AllDigits(s) && 0 < |s| && Value(s) <= MaxInt64
    requires AllDigits(frac) && 0 < |frac| && Value(frac) <= MaxInt64
    requires !(TimeMask <= f.seen)
    ensures TimeIndexSafe(h + ":" + m + ":" + s + "." + frac)
    ensures TimeStep(f, h + ":" + m + ":" + s + "." + frac, idx)
      == Effect(f.(seen := f.seen + TimeMask + {Micros}, hour := Value(h), minute := Value(m),
                   second := Value(s), nanos := Wrap64(Value(frac) * 1000)), Pass)
  {
    var w := h + ":" + m + ":" + s + "." + frac;
    var e1 := |h| + 1 + |m|;
    var e2 := e1 + 1 + |s|;
    TimeSlices(h, m, s, frac);
    TimeTokenAt(f, w, idx, h, m, s, frac);
  }

  /** `TimeWithFraction` for a token laid out as `HH:MM:SS.F`. */
  lemma {:induction false} TimeTokenAt(f: Fields, w: string, idx: int, h: string, m: string, s: string, frac: string)
    requires AllDigits(h) && 0 < |h| && Value(h) <= MaxInt64
    requires AllDigits(m) && 0 < |m| && Value(m) <= MaxInt64
    requires AllDigits(s) && 0 < |s| && Value(s) <= MaxInt64
    requires AllDigits(frac) && 0 < |frac| && Value(frac) <= MaxInt64
    requires !(TimeMask <= f.seen)
    requires |h| + 1 + |m| + 1 + |s| < |w|
    requires w[0..|h|] == h && w[|h|] == ':'
    requires w[|h| + 1..|h| + 1 + |m|] == m && w[|h| + 1 + |m|] == ':'
    requires w[|h| + 1 + |m| + 1..|h| + 1 + |m| + 1 + |s|] == s && w[|h| + 1 + |m| + 1 + |s|] == '.'
    requires w[|h| + 1 + |m| + 1 + |s|..] == "." + frac
    ensures TimeIndexSafe(w)
    ensures TimeStep(f, w, idx)
      == Effect(f.(seen := f.seen + TimeMask + {Micros}, hour := Value(h), minute := Value(m),
                   second := Value(s), nanos := Wrap64(Value(frac) * 1000)), Pass)
  {
    var e1 := |h| + 1 + |m|;
    var e2 := e1 + 1 + |s|;
    TimeDigitsAt(w, idx, h, m, s);
    TimeFieldsAt(f, w, idx, |h|, e1, e2, Value(h), Value(m), Value(s), frac);
  }

  /** Where the three digit fields of a token laid out as `HH:MM:SS.` end,
      and the values read from them. */
  lemma {:induction false} TimeDigitsAt(w: string, idx: int, h: string, m: string, s: string)
    requires AllDigits(h) && 0 < |h| && Value(h) <= MaxInt64
    requires AllDigits(m) && 0 < |m| && Value(m) <= MaxInt64
    requires AllDigits(s) && 0 < |s| && Value(s) <= MaxInt64
    requires |h| + 1 + |m| + 1 + |s| < |w|
    requires w[0..|h|] == h && w[|h|] == ':'
    requires w[|h| + 1..|h| + 1 + |m|] == m && w[|h| + 1 + |m|] == ':'
    requires w[|h| + 1 + |m| + 1..|h| + 1 + |m| + 1 + |s|] == s && w[|h| + 1 + |m| + 1 + |s|] == '.'
    ensures RunEnd(w, 0, Digits) == |h| && ReadDigits(w, idx, 0) == Ok(Value(h))
    ensures RunEnd(w, |h| + 1, Digits) == |h| + 1 + |m| && ReadDigits(w, idx, |h| + 1) == Ok(Value(m))
    ensures RunEnd(w, |h| + 1 + |m| + 1, Digits) == |h| + 1 + |m| + 1 + |s|
    ensures ReadDigits(w, idx, |h| + 1 + |m| + 1) == Ok(Value(s))
  {
    ReadDigitsAt(w, idx, 0, h);
    ReadDigitsAt(w, idx, |h| + 1, m);
    ReadDigitsAt(w, idx, |h| + 1 + |m| + 1, s);
  }

  /** A token whose hour ends at `e0` with ':', whose minutes end at `e1`
      with ':', and whose seconds end at `e2`, followed by '.' and the
      digits `frac`: every field is set, Micros is marked seen. */
  lemma {:induction false} TimeFieldsAt(f: Fields, w: string, idx: int, e0: nat, e1: nat, e2: nat,
                                        hv: int, mv: int, sv: int, frac: string)
    requires e0 < e1 < e2 < |w| && w[e0] == ':' && w[e1] == ':' && w[e2..] == "." + frac
    requires RunEnd(w, 0, Digits) == e0 && ReadDigits(w, idx, 0) == Ok(hv)
    requires RunEnd(w, e0 + 1, Digits) == e1 && ReadDigits(w, idx, e0 + 1) == Ok(mv)
    requires RunEnd(w, e1 + 1, Digits) == e2 && ReadDigits(w, idx, e1 + 1) == Ok(sv)
    requires AllDigits(frac) && 0 < |frac| && Value(frac) <= MaxInt64
    requires !(TimeMask <= f.seen)
    ensures TimeIndexSafe(w)
    ensures TimeStep(f, w, idx)
      == Effect(f.(seen := f.seen + TimeMask + {Micros}, hour := hv, minute := mv, second := sv,
                   nanos := Wrap64(Value(frac) * 1000)), Pass)
  {
    var f1 := f.(seen := f.seen + TimeMask, hour := hv);
    var n := Wrap64(Value(frac) * 1000);
    assert f1.(minute := mv, second := sv, seen := f1.seen + {Micros}, nanos := n)
        == f.(seen := f.seen + TimeMask + {Micros}, hour := hv, minute := mv, second := sv, nanos := n);
    HourThenColon(f, w, idx, e0, hv);
    MinutesSecondsFraction(f1, w, idx, e0 + 1, e1, e2, mv, sv, frac);
  }

  /** Minutes from `p` to `e1`, ':', seconds to `e2`, then '.' and the
      digits `frac` to the end. */
  lemma {:induction false} MinutesSecondsFraction(f: Fields, w: string, idx: int, p: nat, e1: nat, e2: nat,
                                                  mv: int, sv: int, frac: string)
    requires p <= e1 < e2 < |w| && w[e1] == ':' && w[e2..] == "." + frac
    requires RunEnd(w, p, Digits) == e1 && ReadDigits(w, idx, p) == Ok(mv)
    requires RunEnd(w, e1 + 1, Digits) == e2 && ReadDigits(w, idx, e1 + 1) == Ok(sv)
    requires AllDigits(frac) && 0 < |frac| && Value(frac) <= MaxInt64
    ensures TimeFrom(f, w, idx, MinuteField, p)
      == Effect(f.(minute := mv, second := sv, seen := f.seen + {Micros}, nanos := Wrap64(Value(frac) * 1000)), Pass)
  {
    var f2 := f.(minute := mv);
    MinuteThenColon(f, w, idx, p, e1, mv);
    FieldThenFraction(f2, w, idx, SecondField, e1 + 1, e2, sv, frac);
  }

  /** Where the fields of `HH:MM:SS.F` lie. */
  lemma {:induction false} TimeSlices(h: string, m: string, s: string, frac: string)
    ensures var w := h + ":" + m + ":" + s + "." + frac;
      var e1 := |h| + 1 + |m|;
      var e2 := e1 + 1 + |s|;
      && |w| == |h| + |m| + |s| + |frac| + 3
      && w[0..|h|] == h && w[|h|] == ':'
      && w[|h| + 1..e1] == m && w[e1] == ':'
      && w[e1 + 1..e2] == s && w[e2..] == "." + frac && w[e2] == '.'
  {
  }

  /** As written, `.5` is five microseconds: 12:30:45.5 gets 5000 nanoseconds. */
  lemma {:induction false} HalfSecondAsWritten()
    ensures TimeIndexSafe("12:30:45.5")
    ensures TimeStep(Initial, "12:30:45.5", 0).fields.nanos == 5000
  {
    assert "12:30:45.5" == "12" + ":" + "30" + ":" + "45" + "." + "5";
    assert Value("5") == 5;
    assert !(TimeMask <= Initial.seen) by { assert Hour !in Initial.seen; }
    TimeWithFraction(Initial, "12", "30", "45", "5", 0);
  }
}
