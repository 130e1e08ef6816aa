/** Properties of the decoder functions: the field-resolution table, whole
    date and time tokens, and the token loop. */
module DecoderProps {
  import opened Chars
  import opened Decimal
  import opened Types
  import opened Components
  import opened DecoderSpec

  // ---------------------------------------------------------------------------
  // Field resolution

  /** A number is only ever resolved to a date field not yet seen, and it is
      left unassigned exactly when year and day, or all three, are seen. */
  lemma {:induction false} ResolveFresh(seenDate: set<Component>, order: Order, len: nat)
    requires seenDate <= DateMask
    ensures Resolve(seenDate, order, len).Some? ==>
      Resolve(seenDate, order, len).value in DateMask && Resolve(seenDate, order, len).value !in seenDate
    ensures Resolve(seenDate, order, len).None? <==> seenDate == {Year, Day} || seenDate == DateMask
  {
    var r := Resolve(seenDate, order, len);
    if r.None? {
      SubsetsOfDateMask(seenDate);
    }
  }

  /** The eight subsets of the date fields. */
  lemma {:induction false} SubsetsOfDateMask(s: set<Component>)
    requires s <= DateMask
    ensures s == {} || s == {Year} || s == {Month} || s == {Day} || s == {Year, Month}
      || s == {Year, Day} || s == {Day, Month} || s == DateMask
  {
    var y, m, d := Year in s, Month in s, Day in s;
    if y && m && d { assert s == DateMask; }
    else if y && m { assert s == {Year, Month}; }
    else if y && d { assert s == {Year, Day}; }
    else if m && d { assert s == {Day, Month}; }
    else if y { assert s == {Year}; }
    else if m { assert s == {Month}; }
    else if d { assert s == {Day}; }
    else { assert s == {}; }
  }

  /** A number that is resolved changes its field and marks it seen; one
      that is not leaves the fields as they were (parse.go:252-261). */
  lemma {:induction false} NumberStepEffect(f: Fields, order: Order, val: string, idx: int)
    requires AllDigits(val) && 0 < |val| && Value(val) <= MaxInt64
    ensures var r := NumberStep(f, order, val, idx);
      var c := Resolve(f.seen * DateMask, order, |val|);
      && r.outcome == Pass
      && (c.None? ==> r.fields == f)
      && (c == Some(Year) ==> r.fields == f.(year := Value(val), seen := f.seen + {Year}, is2DigitYear := f.is2DigitYear || |val| == 2))
      && (c == Some(Month) ==> r.fields == f.(month := Value(val), seen := f.seen + {Month}))
      && (c == Some(Day) ==> r.fields == f.(day := Value(val), seen := f.seen + {Day}))
  {
    ReadWholeNumber(val, idx);
  }

  /** readDigits of a whole digit string reads its value. */
  lemma {:induction false} ReadWholeNumber(val: string, idx: int)
    requires AllDigits(val) && 0 < |val| && Value(val) <= MaxInt64
    ensures ReadDigits(val, idx, 0) == Ok(Value(val))
  {
    RunEndUnique(val, 0, Digits, |val|);
    assert val[0..|val|] == val;
  }

  // ---------------------------------------------------------------------------
  // Splitting a date token

  /** Splitting and joining again gives back the text. */
  lemma {:induction false} SplitJoin(s: string, c: char)
    ensures Join(Split(s, c), c) == s
    decreases |s|
  {
    if c in s {
      var k := IndexOf(s, c);
      var rest := s[k + 1..];
      SplitJoin(rest, c);
      var r := Split(s, c);
      assert r == [s[..k]] + Split(rest, c);
      assert r[0] == s[..k] && r[1..] == Split(rest, c);
      assert Join(r, c) == s[..k] + [c] + Join(Split(rest, c), c);
      assert s == s[..k] + [c] + rest;
    }
  }

  /** Text without the separator, the separator, and the rest: the first piece is that text. */
  lemma {:induction false} SplitPrefix(a: string, c: char, rest: string)
    requires c !in a
    ensures Split(a + [c] + rest, c) == [a] + Split(rest, c)
  {
    var s := a + [c] + rest;
    assert s[|a|] == c;
    var k := IndexOf(s, c);
    assert k == |a|;
    assert s[..k] == a;
    assert s[k + 1..] == rest;
  }

  lemma {:induction false} NoDelimiterInDigits(a: string)
    requires AllDigits(a)
    ensures '-' !in a && '/' !in a && '.' !in a
    ensures forall m :: 0 <= m < |a| ==> !IsDelimiter(a[m])
  {
  }

  /** a-b-c splits into its three fields at the first delimiter, which is at |a|. */
  lemma {:induction false} SplitThree(a: string, b: string, c: string, d: char)
    requires AllDigits(a) && AllDigits(b) && AllDigits(c) && IsDelimiter(d)
    ensures DelimiterIndex(a + [d] + b + [d] + c) == |a|
    ensures Split(a + [d] + b + [d] + c, d) == [a, b, c]
  {
    var w := a + [d] + b + [d] + c;
    NoDelimiterInDigits(a);
    NoDelimiterInDigits(b);
    NoDelimiterInDigits(c);
    assert forall m :: 0 <= m < |a| ==> w[m] == a[m];
    assert w[|a|] == d;
    assert w == a + [d] + (b + [d] + c);
    SplitPrefix(a, d, b + [d] + c);
    SplitPrefix(b, d, c);
  }

  /** A digit string of one or two characters. */
  predicate ShortNumber(a: string) {
    AllDigits(a) && 1 <= |a| <= 2
  }

  lemma {:induction false} ShortNumberFits(a: string)
    requires ShortNumber(a)
    ensures Value(a) <= MaxInt64
  {
    ValueBound(a);
  }

  // ---------------------------------------------------------------------------
  // Whole date tokens

  /** One field of a date: a whole digit string is read and resolved, and
      the loop goes on with the rest of the fields after its separator. */
  lemma {:induction false} FieldsStepNumber(f: Fields, order: Order, a: string, rest: seq<string>, off: int)
    requires AllDigits(a) && 0 < |a| && Value(a) <= MaxInt64
    ensures FieldsStep(f, order, [a] + rest, off)
      == FieldsStep(Assign(f, Resolve(f.seen * DateMask, order, |a|), Value(a), |a|), order, rest, off + |a| + 1)
  {
    ReadWholeNumber(a, off);
    assert ([a] + rest)[0] == a;
    assert ([a] + rest)[1..] == rest;
  }

  /** Three whole numbers, read in turn, each resolved against the fields
      seen before it. */
  lemma {:induction false} FieldsThreeNumbers(f: Fields, order: Order, a: string, b: string, c: string, off: int)
    requires AllDigits(a) && 0 < |a| && Value(a) <= MaxInt64
    requires AllDigits(b) && 0 < |b| && Value(b) <= MaxInt64
    requires AllDigits(c) && 0 < |c| && Value(c) <= MaxInt64
    ensures var f1 := Assign(f, Resolve(f.seen * DateMask, order, |a|), Value(a), |a|);
      var f2 := Assign(f1, Resolve(f1.seen * DateMask, order, |b|), Value(b), |b|);
      var f3 := Assign(f2, Resolve(f2.seen * DateMask, order, |c|), Value(c), |c|);
      FieldsStep(f, order, [a, b, c], off) == Effect(f3, Pass)
  {
    var f1 := Assign(f, Resolve(f.seen * DateMask, order, |a|), Value(a), |a|);
    var f2 := Assign(f1, Resolve(f1.seen * DateMask, order, |b|), Value(b), |b|);
    var off1, off2 := off + |a| + 1, off + |a| + 1 + |b| + 1;
    FieldsStepNumber(f, order, a, [b, c], off);
    FieldsStepNumber(f1, order, b, [c], off1);
    FieldsStepNumber(f2, order, c, [], off2);
    assert [a] + [b, c] == [a, b, c];
    assert [b] + [c] == [b, c];
    assert [c] + [] == [c];
  }

  /** A date a-b-c with digit fields is split into its three fields. */
  lemma {:induction false} DateSplitsThree(f: Fields, order: Order, a: string, b: string, c: string, d: char, idx: int)
    requires AllDigits(a) && AllDigits(b) && AllDigits(c)
    requires IsDelimiter(d) && !({Month, Day} <= f.seen)
    ensures DateStep(f, order, a + [d] + b + [d] + c, idx) == FieldsStep(f, order, [a, b, c], idx)
  {
    SplitThree(a, b, c, d);
  }

  /** A date a-b-c decoded as three whole numbers, each resolved against the
      fields seen before it. */
  lemma {:induction false} DateThreeNumbers(f: Fields, order: Order, a: string, b: string, c: string, d: char, idx: int)
    requires AllDigits(a) && 0 < |a| && Value(a) <= MaxInt64
    requires AllDigits(b) && 0 < |b| && Value(b) <= MaxInt64
    requires AllDigits(c) && 0 < |c| && Value(c) <= MaxInt64
    requires IsDelimiter(d) && !({Month, Day} <= f.seen)
    ensures var f1 := Assign(f, Resolve(f.seen * DateMask, order, |a|), Value(a), |a|);
      var f2 := Assign(f1, Resolve(f1.seen * DateMask, order, |b|), Value(b), |b|);
      var f3 := Assign(f2, Resolve(f2.seen * DateMask, order, |c|), Value(c), |c|);
      DateStep(f, order, a + [d] + b + [d] + c, idx) == Effect(f3, Pass)
  {
    DateSplitsThree(f, order, a, b, c, d, idx);
    FieldsThreeNumbers(f, order, a, b, c, idx);
  }

  /** A date a-b-c of short fields, decoded first: YMD reads year, month,
      day; DMY reads day, month, year; MDY and every other order read month,
      day, year. A two-character year sets the two-digit-year flag. */
  lemma {:induction false} DateThreeShortFields(order: Order, a: string, b: string, c: string, d: char, idx: int)
    requires ShortNumber(a) && ShortNumber(b) && ShortNumber(c) && IsDelimiter(d)
    ensures var r := DateStep(Initial, order, a + [d] + b + [d] + c, idx);
      && r.outcome == Pass
      && (order == OrderYMD ==> r.fields == Initial.(seen := DateMask,
            year := Value(a), month := Value(b), day := Value(c), is2DigitYear := |a| == 2))
      && (order == OrderDMY ==> r.fields == Initial.(seen := DateMask,
            day := Value(a), month := Value(b), year := Value(c), is2DigitYear := |c| == 2))
      && (order != OrderYMD && order != OrderDMY ==> r.fields == Initial.(seen := DateMask,
            month := Value(a), day := Value(b), year := Value(c), is2DigitYear := |c| == 2))
  {
    ShortNumberFits(a);
    ShortNumberFits(b);
    ShortNumberFits(c);
    DateThreeNumbers(Initial, order, a, b, c, d, idx);
    if order == OrderYMD {
      ShortYearFirst(a, b, c);
    } else if order == OrderDMY {
      ShortDayFirst(a, b, c);
    } else {
      ShortMonthFirst(order, a, b, c);
    }
  }

  /** Under YMD, three short numbers are the year, the month and the day. */
  lemma {:induction false} ShortYearFirst(a: string, b: string, c: string)
    requires ShortNumber(a) && ShortNumber(b) && ShortNumber(c)
    ensures var f1 := Assign(Initial, Resolve(Initial.seen * DateMask, OrderYMD, |a|), Value(a), |a|);
      var f2 := Assign(f1, Resolve(f1.seen * DateMask, OrderYMD, |b|), Value(b), |b|);
      Assign(f2, Resolve(f2.seen * DateMask, OrderYMD, |c|), Value(c), |c|)
        == Initial.(seen := DateMask, year := Value(a), month := Value(b), day := Value(c), is2DigitYear := |a| == 2)
  {
    assert Initial.seen * DateMask == {};
    assert Resolve(Initial.seen * DateMask, OrderYMD, |a|) == Some(Year);
    var f1 := Assign(Initial, Some(Year), Value(a), |a|);
    assert f1.seen * DateMask == {Year};
    assert Resolve(f1.seen * DateMask, OrderYMD, |b|) == Some(Month);
    var f2 := Assign(f1, Some(Month), Value(b), |b|);
    assert f2.seen * DateMask == {Year, Month};
    assert Resolve(f2.seen * DateMask, OrderYMD, |c|) == Some(Day);
    var f3 := Assign(f2, Some(Day), Value(c), |c|);
    assert f3.seen == DateMask;
  }

  /** Under DMY, three short numbers are the day, the month and the year. */
  lemma {:induction false} ShortDayFirst(a: string, b: string, c: string)
    requires ShortNumber(a) && ShortNumber(b) && ShortNumber(c)
    ensures var f1 := Assign(Initial, Resolve(Initial.seen * DateMask, OrderDMY, |a|), Value(a), |a|);
      var f2 := Assign(f1, Resolve(f1.seen * DateMask, OrderDMY, |b|), Value(b), |b|);
      Assign(f2, Resolve(f2.seen * DateMask, OrderDMY, |c|), Value(c), |c|)
        == Initial.(seen := DateMask, day := Value(a), month := Value(b), year := Value(c), is2DigitYear := |c| == 2)
  {
    assert Initial.seen * DateMask == {};
    assert Resolve(Initial.seen * DateMask, OrderDMY, |a|) == Some(Day);
    var f1 := Assign(Initial, Some(Day), Value(a), |a|);
    assert f1.seen * DateMask == {Day};
    assert Resolve(f1.seen * DateMask, OrderDMY, |b|) == Some(Month);
    var f2 := Assign(f1, Some(Month), Value(b), |b|);
    assert f2.seen * DateMask == {Day, Month};
    assert Resolve(f2.seen * DateMask, OrderDMY, |c|) == Some(Year);
    var f3 := Assign(f2, Some(Year), Value(c), |c|);
    assert f3.seen == DateMask;
  }

  /** Under MDY (and any order other than YMD and DMY), three short numbers
      are the month, the day and the year. */
  lemma {:induction false} ShortMonthFirst(order: Order, a: string, b: string, c: string)
    requires order != OrderYMD && order != OrderDMY
    requires ShortNumber(a) && ShortNumber(b) && ShortNumber(c)
    ensures var f1 := Assign(Initial, Resolve(Initial.seen * DateMask, order, |a|), Value(a), |a|);
      var f2 := Assign(f1, Resolve(f1.seen * DateMask, order, |b|), Value(b), |b|);
      Assign(f2, Resolve(f2.seen * DateMask, order, |c|), Value(c), |c|)
        == Initial.(seen := DateMask, month := Value(a), day := Value(b), year := Value(c), is2DigitYear := |c| == 2)
  {
    assert Initial.seen * DateMask == {};
    assert Resolve(Initial.seen * DateMask, order, |a|) == Some(Month);
    var f1 := Assign(Initial, Some(Month), Value(a), |a|);
    assert f1.seen * DateMask == {Month};
    assert Resolve(f1.seen * DateMask, order, |b|) == Some(Day);
    var f2 := Assign(f1, Some(Day), Value(b), |b|);
    assert f2.seen * DateMask == {Month, Day};
    assert Resolve(f2.seen * DateMask, order, |c|) == Some(Year);
    var f3 := Assign(f2, Some(Year), Value(c), |c|);
    assert f3.seen == DateMask;
  }

  /** A first field of three or more characters is the year, and then month
      and day follow, under every order. */
  lemma {:induction false} DateLongYearFirst(order: Order, a: string, b: string, c: string, d: char, idx: int)
    requires AllDigits(a) && |a| >= 3 && Value(a) <= MaxInt64
    requires AllDigits(b) && |b| >= 1 && Value(b) <= MaxInt64
    requires AllDigits(c) && |c| >= 1 && Value(c) <= MaxInt64
    requires IsDelimiter(d)
    ensures DateStep(Initial, order, a + [d] + b + [d] + c, idx)
      == Effect(Initial.(seen := DateMask, year := Value(a), month := Value(b), day := Value(c)), Pass)
  {
    DateThreeNumbers(Initial, order, a, b, c, d, idx);
    assert Initial.seen * DateMask == {};
    assert {Year} * DateMask == {Year};
    assert ({Year} + {Month}) * DateMask == {Year, Month};
    assert {Year} + {Month} + {Day} == DateMask;
  }

  /** Once month and day are seen, a date token changes nothing (parse.go:189-192). */
  lemma {:induction false} DateAfterMonthAndDay(f: Fields, order: Order, val: string, idx: int)
    requires Month in f.seen && Day in f.seen
    ensures DateStep(f, order, val, idx) == Effect(f, Pass)
  {
  }

  /** A date token without any of / - . fails at its offset (parse.go:194-197). */
  lemma {:induction false} DateWithoutSeparator(f: Fields, order: Order, val: string, idx: int)
    requires !(Month in f.seen && Day in f.seen)
    requires forall m :: 0 <= m < |val| ==> !IsDelimiter(val[m])
    ensures DateStep(f, order, val, idx)
      == Effect(f, Fail(ParseError("expected date separator but found none", idx)))
  {
  }

  // ---------------------------------------------------------------------------
  // Reading digits

  /** readDigits is strconv.ParseInt on the run of digits at `start`, with
      the error turned into a parse error at the run's end plus `start`. */
  lemma {:induction false} ReadDigitsIsParseInt(val: string, idx: int, start: nat)
    requires start <= |val|
    ensures var j := RunEnd(val, start, Digits);
      var text := val[start..j];
      ReadDigits(val, idx, start) == match ParseInt(text)
        case Parsed(v) => Ok(v)
        case NotParsed(e) => Err(ParseError("error parsing digits: " + NumErrorText(text, e), idx + j + start))
  {
    var j := RunEnd(val, start, Digits);
    ParseIntDigits(val[start..j]);
  }

  /** Reading digits where the text holds the digit string `digits`,
      followed by a non-digit or the end. */
  lemma {:induction false} ReadDigitsAt(val: string, idx: int, start: nat, digits: string)
    requires AllDigits(digits) && 0 < |digits| && Value(digits) <= MaxInt64
    requires start + |digits| <= |val| && val[start..start + |digits|] == digits
    requires start + |digits| == |val| || !IsDigit(val[start + |digits|])
    ensures RunEnd(val, start, Digits) == start + |digits|
    ensures ReadDigits(val, idx, start) == Ok(Value(digits))
  {
    assert forall k :: start <= k < start + |digits| ==> val[k] == digits[k - start];
    RunEndUnique(val, start, Digits, start + |digits|);
  }

  // ---------------------------------------------------------------------------
  // The token loop

  /** Once the time fields are seen, any later time token fails. */
  lemma {:induction false} TimeSeenThenTimeFails(f: Fields, order: Order, ts: seq<Token>, j: nat)
    requires TimeTokensSafe(ts) && TimeMask <= f.seen
    requires j < |ts| && ts[j].kind == Time
    ensures DecodeAll(f, order, ts).outcome.Fail?
    decreases |ts|
  {
    var r := TokenStep(f, order, ts[0]);
    if j > 0 && r.outcome.Pass? {
      assert TimeTokensSafe(ts[1..]);
      TimeSeenThenTimeFails(r.fields, order, ts[1..], j - 1);
    }
  }

  /** Two time tokens in one input always fail (a timestamp has one time of day). */
  lemma {:induction false} TwoTimeTokensFail(f: Fields, order: Order, ts: seq<Token>, i: nat, j: nat)
    requires TimeTokensSafe(ts)
    requires i < j < |ts| && ts[i].kind == Time && ts[j].kind == Time
    ensures DecodeAll(f, order, ts).outcome.Fail?
    decreases |ts|
  {
    var r := TokenStep(f, order, ts[0]);
    if r.outcome.Pass? {
      var rest := ts[1..];
      assert DecodeAll(f, order, ts) == DecodeAll(r.fields, order, rest);
      assert TimeTokensSafe(rest);
      assert rest[j - 1] == ts[j];
      if i == 0 {
        TimeSeenThenTimeFails(r.fields, order, rest, j - 1);
      } else {
        assert rest[i - 1] == ts[i];
        TwoTimeTokensFail(r.fields, order, rest, i - 1, j - 1);
      }
    }
  }

  /** The first failure ends decoding: tokens after it are never looked at. */
  lemma {:induction false} FirstErrorAborts(f: Fields, order: Order, ts: seq<Token>, rest: seq<Token>)
    requires TimeTokensSafe(ts + rest)
    requires TimeTokensSafe(ts) && DecodeAll(f, order, ts).outcome.Fail?
    ensures DecodeAll(f, order, ts + rest) == DecodeAll(f, order, ts)
    decreases |ts|
  {
    assert (ts + rest)[0] == ts[0];
    var r := TokenStep(f, order, ts[0]);
    if r.outcome.Pass? {
      assert (ts + rest)[1..] == ts[1..] + rest;
      assert TimeTokensSafe(ts[1..]);
      FirstErrorAborts(r.fields, order, ts[1..], rest);
    }
  }

  /** A token that is neither a date nor a time is refused at its offset. */
  lemma {:induction false} UnknownTokenFails(f: Fields, order: Order, t: Token)
    requires t.kind != Date && t.kind != Time
    ensures TokenStep(f, order, t) == Effect(f, Fail(ParseError("unknown token type " + TypeName(t.kind), t.idx)))
  {
  }
}
