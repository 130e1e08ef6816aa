/** Properties of the DateStyle rendering (pgdatetime.go:104-192). */
module FormatProps {
  import opened Decimal
  import opened Types
  import opened Formatter
  import opened Chars

  // ---------------------------------------------------------------------------
  // The fractional second

  /** A string of zeros denotes zero. */
  lemma ZerosValue(n: nat)
    ensures Value(Zeros(n)) == 0
  {
    ValueZerosPrefix(n, "");
    assert Zeros(n) + "" == Zeros(n);
  }

  /** A digit string whose last digit is not '0' denotes a positive number. */
  lemma LastDigitPositive(s: string)
    requires AllDigits(s) && |s| > 0 && s[|s| - 1] != '0'
    ensures Value(s) > 0
  {
  }

  lemma Pow10Nine()
    ensures Pow10(3) == 1000 && Pow10(9) == 1_000_000_000
  {
    assert Pow10(3) == 1000;
    assert Pow10(6) == 1000 * Pow10(3);
  }

  /** Integer division by a positive divisor recovers the quotient. */
  lemma DivUnique(a: int, b: int, q: int, r: int)
    requires b > 0 && 0 <= r < b && a == q * b + r
    ensures a / b == q
  {
    var d := a / b - q;
    assert d * b == r - a % b;
    if d > 0 {
      MulAtLeast(d, b);
    } else if d < 0 {
      MulAtLeast(-d, b);
    }
  }

  lemma MulAtLeast(d: int, b: int)
    requires d >= 1 && b > 0
    ensures d * b >= b
  {
  }

  /** The six digits after the point are the whole microseconds. */
  lemma MicrosDigits(nanos: int)
    requires 0 < nanos < 1_000_000_000
    ensures var d := AppendInt(nanos, 9);
      |d| == 9 && AllDigits(d[..6]) && Value(d[..6]) == nanos / 1000
  {
    Pow10Nine();
    var d := AppendInt(nanos, 9);
    assert |d| == 9 && AllDigits(d) && Value(d) == nanos;
    var hi, lo := d[..6], d[6..];
    assert d == hi + lo;
    ValueConcat(hi, lo);
    ValueBound(lo);
    DivUnique(nanos, 1000, Value(hi), Value(lo));
  }

  /** Trimming trailing zeros divides the value by a power of ten, and
      leaves nothing exactly when the value is zero. */
  lemma TrimmedValue(six: string)
    requires AllDigits(six)
    ensures var kept := TrimZeros(six);
      AllDigits(kept) && Value(six) == Value(kept) * Pow10(|six| - |kept|)
      && (kept == "" <==> Value(six) == 0)
  {
    var kept := TrimZeros(six);
    var k := |six| - |kept|;
    assert AllDigits(kept) by {
      forall i | 0 <= i < |kept| ensures IsDigit(kept[i]) {
        assert kept[i] == six[i];
      }
    }
    ValueConcat(kept, Zeros(k));
    ZerosValue(k);
    if kept != "" {
      LastDigitPositive(kept);
      MulAtLeast(Value(kept), Pow10(k));
    }
  }

  /** Layout ".999999": the fraction is empty exactly when the instant has no
      whole microseconds; otherwise it is '.' and one to six digits, the last
      of which is not '0', that denote the microseconds scaled to six places
      (truncated, not rounded). */
  lemma FractionIsMicros(nanos: int)
    requires 0 <= nanos < 1_000_000_000
    ensures Fraction(nanos) == "" <==> nanos / 1000 == 0
    ensures nanos / 1000 != 0 ==>
      var f := Fraction(nanos);
      |f| >= 2 && f[0] == '.' && |f| <= 7 && AllDigits(f[1..]) && f[|f| - 1] != '0'
      && Value(f[1..]) * Pow10(7 - |f|) == nanos / 1000
  {
    if nanos != 0 {
      var d := AppendInt(nanos, 9);
      MicrosDigits(nanos);
      var six := d[..6];
      var kept := TrimZeros(six);
      TrimmedValue(six);
      assert Fraction(nanos) == if kept == "" then "" else "." + kept;
      if kept != "" {
        var f := Fraction(nanos);
        assert f[1..] == kept;
      }
    }
  }

  // ---------------------------------------------------------------------------
  // The time of day

  /** Layout " 15:04:05": the hour, minute and second read back from fixed
      positions, followed by the fraction. */
  lemma ClockFields(t: Instant)
    requires ValidInstant(t)
    ensures var c := Clock(t);
      |c| >= 9 && c[0] == ' ' && c[3] == ':' && c[6] == ':'
      && AllDigits(c[1..3]) && Value(c[1..3]) == t.hour
      && AllDigits(c[4..6]) && Value(c[4..6]) == t.minute
      && AllDigits(c[7..9]) && Value(c[7..9]) == t.second
      && c[9..] == Fraction(t.nanos)
  {
    TwoDigits(t.hour);
    TwoDigits(t.minute);
    TwoDigits(t.second);
    ClockPieces(Two(t.hour), Two(t.minute), Two(t.second), Fraction(t.nanos));
  }

  /** The positions of the parts of " 15:04:05" and its fraction. */
  lemma ClockPieces(h: string, m: string, sec: string, frac: string)
    requires |h| == 2 && |m| == 2 && |sec| == 2
    ensures var c := " " + h + ":" + m + ":" + sec + frac;
      |c| >= 9 && c[0] == ' ' && c[3] == ':' && c[6] == ':'
      && c[1..3] == h && c[4..6] == m && c[7..9] == sec && c[9..] == frac
  {
  }

  // ---------------------------------------------------------------------------
  // The date

  /** The three calendar fields a date is written with. */
  datatype DateField = YearField | MonthField | DayField

  /** The order the date fields are written in, for every style but
      Postgres: SQL follows the configured order (month first for any order
      other than YMD and DMY), German is always day-month-year and ISO, or an
      unknown style, year-month-day. Postgres does not write its date in a
      field order (weekday, month name, day, clock, then year); it falls in
      the last branch here, and neither this function nor `YearIndex` is used
      for it. */
  function FieldOrder(ds: DateStyle): (o: seq<DateField>)
    ensures |o| == 3
  {
    if ds.style == StyleSQL then
      if ds.order == OrderYMD then [YearField, MonthField, DayField]
      else if ds.order == OrderDMY then [DayField, MonthField, YearField]
      else [MonthField, DayField, YearField]
    else if ds.style == StyleGerman then [DayField, MonthField, YearField]
    else [YearField, MonthField, DayField]
  }

  /** The character between the date fields. */
  function Separator(ds: DateStyle): char {
    if ds.style == StyleSQL then '/' else if ds.style == StyleGerman then '.' else '-'
  }

  /** The value a field denotes in the output; the year is the display year. */
  function FieldValue(t: Instant, f: DateField): nat {
    match f
    case YearField => DisplayYear(t.year)
    case MonthField => if t.month >= 0 then t.month else 0
    case DayField => if t.day >= 0 then t.day else 0
  }

  /** How a field is written: the year with at least four digits, month and
      day with two. */
  function FieldText(t: Instant, f: DateField): string {
    match f
    case YearField => Four(DisplayYear(t.year))
    case MonthField => Two(t.month)
    case DayField => Two(t.day)
  }

  /** The width of a field whose display year has at most four digits. */
  function Width(f: DateField): nat {
    if f == YearField then 4 else 2
  }

  /** The three date fields in the order of FieldOrder, separated by the
      style's separator. */
  function DatePart(ds: DateStyle, t: Instant): string {
    var o, sep := FieldOrder(ds), Separator(ds);
    FieldText(t, o[0]) + [sep] + FieldText(t, o[1]) + [sep] + FieldText(t, o[2])
  }

  /** Every style but Postgres writes its three date fields, in the order of
      FieldOrder, separated by its separator, then the time of day. */
  lemma DateLayout(ds: DateStyle, t: Instant)
    requires ValidInstant(t) && ds.style != StylePostgres
    ensures DateTime(ds, t) == DatePart(ds, t) + Clock(t)
  {
    var y, m, d, c := Four(DisplayYear(t.year)), Two(t.month), Two(t.day), Clock(t);
    if ds.style == StyleSQL {
      if ds.order == OrderYMD {
        Regroup(y, "/", m, "/", d);
      } else if ds.order == OrderDMY {
        assert (d + "/" + m + "/") + y + c == d + "/" + m + "/" + y + c;
      } else {
        assert (m + "/" + d + "/") + y + c == m + "/" + d + "/" + y + c;
      }
    } else if ds.style == StyleGerman {
      assert (d + "." + m + ".") + y + c == d + "." + m + "." + y + c;
    } else {
      Regroup(y, "-", m, "-", d);
    }
  }

  /** Appending four pieces at once is appending them one by one. */
  lemma Regroup(s: string, a: string, b: string, c: string, d: string)
    ensures s + (a + b + c + d) == s + a + b + c + d
  {
    AppendAssoc(s, a + b + c, d);
    AppendAssoc(s, a + b, c);
    AppendAssoc(s, a, b);
  }

  /** The positions of three fields joined by a separator and followed by a
      string that starts with a space. */
  lemma Pieces(a: string, b: string, c: string, sep: char, rest: string)
    requires |rest| > 0 && rest[0] == ' '
    ensures var s := a + [sep] + b + [sep] + c + rest;
      var i, j := |a| + 1, |a| + |b| + 2;
      s[..|a|] == a && s[|a|] == sep && s[i..i + |b|] == b && s[i + |b|] == sep
      && s[j..j + |c|] == c && s[j + |c|] == ' '
  {
  }

  /** The `w` characters of `s` at `p` are digits that denote `v`. */
  predicate ReadsBack(s: string, p: nat, w: nat, v: nat) {
    p + w <= |s| && AllDigits(s[p..p + w]) && Value(s[p..p + w]) == v
  }

  /** Where the k-th date field starts. */
  function Offset(o: seq<DateField>, k: nat): nat
    requires k <= |o|
  {
    if k == 0 then 0 else Offset(o, k - 1) + Width(o[k - 1]) + 1
  }

  /** A field written in its width reads back as its value. */
  lemma FieldTextWidth(t: Instant, f: DateField)
    requires ValidInstant(t) && DisplayYear(t.year) <= 9999
    ensures |FieldText(t, f)| == Width(f) && AllDigits(FieldText(t, f))
    ensures Value(FieldText(t, f)) == FieldValue(t, f)
  {
    assert Pow10(2) == 100;
    assert Pow10(4) == 10000 by { assert Pow10(2) == 100; }
  }

  /** In every style but Postgres, each date field reads back from its
      position: its digits denote the field's value (the display year for
      the year) and the separator, or the space before the time, follows. */
  lemma DateFieldsReadBack(ds: DateStyle, t: Instant, k: nat)
    requires ValidInstant(t) && ds.style != StylePostgres && DisplayYear(t.year) <= 9999
    requires k < 3
    ensures var s, o := DateTime(ds, t), FieldOrder(ds);
      var p := Offset(o, k);
      ReadsBack(s, p, Width(o[k]), FieldValue(t, o[k]))
      && p + Width(o[k]) < |s| && s[p + Width(o[k])] == (if k < 2 then Separator(ds) else ' ')
  {
    var o, sep := FieldOrder(ds), Separator(ds);
    var a, b, c := FieldText(t, o[0]), FieldText(t, o[1]), FieldText(t, o[2]);
    DateLayout(ds, t);
    assert DatePart(ds, t) == a + [sep] + b + [sep] + c;
    ClockFields(t);
    FieldTextWidth(t, o[k]);
    Pieces(a, b, c, sep, Clock(t));
    if k == 0 {
      assert Offset(o, 0) == 0;
    } else if k == 1 {
      FieldTextWidth(t, o[0]);
      assert Offset(o, 1) == |a| + 1;
    } else {
      FieldTextWidth(t, o[0]);
      FieldTextWidth(t, o[1]);
      assert Offset(o, 2) == |a| + |b| + 2;
    }
  }

  // ---------------------------------------------------------------------------
  // The ISO zone suffix

  /** The text of a numeric zone offset: a sign, two digits of hours, then
      optionally ":" and two digits of minutes, and ":" and two digits of
      seconds after those. */
  predicate OffsetText(s: string) {
    (|s| == 3 || |s| == 6 || |s| == 9) && (s[0] == '+' || s[0] == '-') && AllDigits(s[1..3])
    && (|s| >= 6 ==> s[3] == ':' && AllDigits(s[4..6]))
    && (|s| == 9 ==> s[6] == ':' && AllDigits(s[7..9]))
  }

  /** The offset, in seconds east of UTC, that an offset text denotes. */
  function OffsetValue(s: string): int
    requires OffsetText(s)
  {
    var magnitude := Value(s[1..3]) * 3600
      + (if |s| >= 6 then Value(s[4..6]) * 60 else 0)
      + (if |s| == 9 then Value(s[7..9]) else 0);
    if s[0] == '-' then -magnitude else magnitude
  }

  /** Two digits for a number below 100. */
  lemma TwoDigits(n: int)
    requires 0 <= n < 100
    ensures |Two(n)| == 2 && AllDigits(Two(n)) && Value(Two(n)) == n
  {
    assert Pow10(2) == 100;
  }

  /** An offset of whole minutes west of UTC, or any offset east of it, is
      written with the sign of the offset and the hours, minutes and seconds
      of its magnitude. */
  lemma NumericZoneParts(offset: int, layout: OffsetLayout)
    requires offset >= 0 || offset <= -60
    ensures var a := if offset < 0 then -offset else offset;
      NumericZone(offset, layout)
      == [if offset < 0 then '-' else '+'] + Two(a / 60 / 60)
         + match layout
           case Hours => ""
           case HoursMinutes => ":" + Two(a / 60 % 60)
           case HoursMinutesSeconds => ":" + Two(a / 60 % 60) + ":" + Two(a % 60)
  {
    var a := if offset < 0 then -offset else offset;
    assert GoQuo(offset, 60) < 0 <==> offset < 0;
    if offset < 0 {
      assert GoRem(a, 60) == a % 60;
    } else {
      assert GoRem(offset, 60) == offset % 60;
    }
  }

  /** The remainder is determined by any division with a remainder in range. */
  lemma ModUnique(a: int, b: int, q: int, r: int)
    requires b > 0 && 0 <= r < b && a == q * b + r
    ensures a % b == r
  {
    DivUnique(a, b, q, r);
  }

  /** A number is a multiple of `b` exactly when its negation is. */
  lemma DividesNegated(x: int, b: int)
    requires b > 0
    ensures x % b == 0 <==> (-x) % b == 0
  {
    if x % b == 0 {
      ModUnique(-x, b, -(x / b), 0);
    }
    if (-x) % b == 0 {
      ModUnique(x, b, -((-x) / b), 0);
    }
  }

  /** Hours, minutes and seconds of a non-negative number of seconds. */
  lemma Sexagesimal(a: nat)
    ensures a == a / 60 / 60 * 3600 + a / 60 % 60 * 60 + a % 60
    ensures a % 3600 == 0 ==> a / 60 % 60 == 0 && a % 60 == 0
  {
    var q, r := a / 60, a % 60;
    var h, m := q / 60, q % 60;
    assert a == 60 * q + r;
    assert q == 60 * h + m;
    assert a == 3600 * h + (60 * m + r);
    ModUnique(a, 3600, h, 60 * m + r);
  }

  /** The ISO suffix reads back as the offset, in the shortest of the three
      layouts that is exact: hours alone when the offset is whole hours,
      seconds only when it is not whole minutes. This holds while the hours
      fit in two digits, except for offsets of less than a minute west of
      UTC (see IsoZoneSubMinuteWest). */
  lemma IsoZoneRoundTrip(offset: int)
    requires -360000 < offset < 360000 && (offset >= 0 || offset <= -60)
    ensures var z := IsoZone(offset);
      OffsetText(z) && OffsetValue(z) == offset
      && |z| == (if offset % 3600 == 0 then 3 else if offset % 60 != 0 then 9 else 6)
  {
    if offset % 3600 == 0 {
      IsoHours(offset);
    } else if offset % 60 != 0 {
      IsoSeconds(offset);
    } else {
      IsoMinutes(offset);
    }
  }

  /** The magnitude of an offset and the facts the three layouts use about it. */
  lemma Magnitude(offset: int) returns (a: nat, sign: char)
    requires -360000 < offset < 360000 && (offset >= 0 || offset <= -60)
    ensures a == (if offset < 0 then -offset else offset) && sign == (if offset < 0 then '-' else '+')
    ensures Signed(sign, a) == offset
    ensures a == a / 60 / 60 * 3600 + a / 60 % 60 * 60 + a % 60
    ensures offset % 3600 == 0 ==> a / 60 % 60 == 0 && a % 60 == 0
    ensures offset % 60 == 0 <==> a % 60 == 0
    ensures |Two(a / 60 / 60)| == 2 && AllDigits(Two(a / 60 / 60)) && Value(Two(a / 60 / 60)) == a / 60 / 60
    ensures |Two(a / 60 % 60)| == 2 && AllDigits(Two(a / 60 % 60)) && Value(Two(a / 60 % 60)) == a / 60 % 60
    ensures |Two(a % 60)| == 2 && AllDigits(Two(a % 60)) && Value(Two(a % 60)) == a % 60
  {
    a := if offset < 0 then -offset else offset;
    sign := if offset < 0 then '-' else '+';
    Sexagesimal(a);
    DividesNegated(offset, 3600);
    DividesNegated(offset, 60);
    TwoDigits(a / 60 / 60);
    TwoDigits(a / 60 % 60);
    TwoDigits(a % 60);
  }

  lemma IsoHours(offset: int)
    requires -360000 < offset < 360000 && (offset >= 0 || offset <= -60) && offset % 3600 == 0
    ensures OffsetText(IsoZone(offset)) && OffsetValue(IsoZone(offset)) == offset && |IsoZone(offset)| == 3
  {
    var a, sign := Magnitude(offset);
    var h := Two(a / 60 / 60);
    NumericZoneParts(offset, Hours);
    assert IsoZone(offset) == [sign] + h + "";
    ZonePieces(sign, h, h, h);
    ReadZone([sign] + h, sign, h, "", "");
  }

  lemma IsoMinutes(offset: int)
    requires -360000 < offset < 360000 && (offset >= 0 || offset <= -60)
    requires offset % 3600 != 0 && offset % 60 == 0
    ensures OffsetText(IsoZone(offset)) && OffsetValue(IsoZone(offset)) == offset && |IsoZone(offset)| == 6
  {
    var a, sign := Magnitude(offset);
    var h, m := Two(a / 60 / 60), Two(a / 60 % 60);
    NumericZoneParts(offset, HoursMinutes);
    AppendAssoc([sign] + h, ":", m);
    ZonePieces(sign, h, m, m);
    ReadZone([sign] + h + ":" + m, sign, h, m, "");
  }

  lemma IsoSeconds(offset: int)
    requires -360000 < offset < 360000 && (offset >= 0 || offset <= -60) && offset % 60 != 0
    ensures OffsetText(IsoZone(offset)) && OffsetValue(IsoZone(offset)) == offset && |IsoZone(offset)| == 9
  {
    var a, sign := Magnitude(offset);
    var h, m, sec := Two(a / 60 / 60), Two(a / 60 % 60), Two(a % 60);
    NumericZoneParts(offset, HoursMinutesSeconds);
    Regroup([sign] + h, ":", m, ":", sec);
    ZonePieces(sign, h, m, sec);
    ReadZone([sign] + h + ":" + m + ":" + sec, sign, h, m, sec);
  }

  /** The magnitude with the sign of a zone text. */
  function Signed(sign: char, magnitude: int): int {
    if sign == '-' then -magnitude else magnitude
  }

  /** Reading a zone text from its parts. */
  lemma ReadZone(z: string, sign: char, h: string, m: string, sec: string)
    requires sign == '+' || sign == '-'
    requires |h| == 2 && AllDigits(h) && AllDigits(m) && AllDigits(sec)
    requires |m| == 0 || |m| == 2
    requires |sec| == 0 || (|sec| == 2 && |m| == 2)
    requires |z| == 3 + (if m == "" then 0 else 3) + (if sec == "" then 0 else 3)
    requires z[0] == sign && z[1..3] == h
    requires m != "" ==> z[3] == ':' && z[4..6] == m
    requires sec != "" ==> z[6] == ':' && z[7..9] == sec
    ensures OffsetText(z)
    ensures OffsetValue(z)
      == Signed(sign, Value(h) * 3600 + (if m == "" then 0 else Value(m) * 60) + (if sec == "" then 0 else Value(sec)))
  {
  }

  /** The positions of the parts of a zone text. */
  lemma ZonePieces(sign: char, h: string, m: string, sec: string)
    requires |h| == 2 && |m| == 2 && |sec| == 2
    ensures var z := [sign] + h;
      z[0] == sign && z[1..3] == h
    ensures var z := [sign] + h + ":" + m;
      z[0] == sign && z[1..3] == h && z[3] == ':' && z[4..6] == m
    ensures var z := [sign] + h + ":" + m + ":" + sec;
      z[0] == sign && z[1..3] == h && z[3] == ':' && z[4..6] == m && z[6] == ':' && z[7..9] == sec
  {
  }

  /** Layout "-07:00:00" takes its sign from the offset in whole minutes and
      its seconds from the signed offset: less than a minute west of UTC the
      sign is '+' and the seconds are negative ("+00:00:-30" for 30 seconds
      west), a text that is not an offset text. */
  lemma IsoZoneSubMinuteWest(offset: int)
    requires -60 < offset < 0
    ensures IsoZone(offset) == "+00:00:" + Two(offset)
    ensures Two(offset) == "-" + Two(-offset)
    ensures !OffsetText(IsoZone(offset))
  {
    assert offset % 3600 != 0 && offset % 60 != 0;
    assert IsoZone(offset) == NumericZone(offset, HoursMinutesSeconds);
    NumericZoneSubMinute(offset);
    TwoZero();
    TwoNegative(offset);
    TwoDigits(-offset);
    SubMinuteText(Two(offset));
  }

  /** A negative number is written as '-' and the digits of its magnitude. */
  lemma TwoNegative(x: int)
    requires x < 0
    ensures Two(x) == "-" + Two(-x)
  {
  }

  lemma SubMinuteText(sec: string)
    requires |sec| == 3
    ensures "+" + "00" + (":" + "00" + ":" + sec) == "+00:00:" + sec
    ensures |"+00:00:" + sec| == 10
  {
  }

  /** Less than a minute west of UTC, layout "-07:00:00" writes zero hours
      and minutes and then the signed seconds. */
  lemma NumericZoneSubMinute(offset: int)
    requires -60 < offset < 0
    ensures NumericZone(offset, HoursMinutesSeconds) == "+" + Two(0) + (":" + Two(0) + ":" + Two(offset))
  {
    assert GoQuo(offset, 60) == 0;
    assert GoRem(offset, 60) == offset;
  }

  lemma TwoZero()
    ensures Two(0) == "00"
  {
    assert DigitString(0) == "0";
  }

  /** A zero offset is written "+00". */
  lemma IsoZoneUtc()
    ensures IsoZone(0) == "+00"
  {
    TwoZero();
  }

  // ---------------------------------------------------------------------------
  // The text zone, the zone switch, the order and the era

  /** writeTextTimeZoneToBuffer writes only the space exactly when a
      non-empty fixed-zone prefix starts the zone's name, and the space and
      the abbreviation otherwise. */
  lemma TextZoneSuppressed(ds: DateStyle, t: Instant)
    ensures TextZone(ds, t) == " " <==> ds.fixedZonePrefix != "" && ds.fixedZonePrefix <= t.zoneName
    ensures TextZone(ds, t) != " " ==> TextZone(ds, t) == " " + ZoneAbbrev(t)
  {
    if ds.fixedZonePrefix == "" || !(ds.fixedZonePrefix <= t.zoneName) {
      assert |TextZone(ds, t)| > 1;
    } else {
      assert TextZone(ds, t) == " " + "";
    }
  }

  /** A zone without an abbreviation is written as "+hhmm" or "-hhmm": the
      sign of the offset in whole minutes (truncated toward zero), then the
      hours and the minutes of its magnitude, which read back as that
      offset in minutes. */
  lemma ZoneAbbrevFallback(t: Instant)
    requires t.zoneName == "" && -360000 < t.zoneOffset < 360000
    ensures |ZoneAbbrev(t)| == 5 && ZoneAbbrev(t)[0] in "+-"
    ensures ZoneAbbrev(t)[0] == '-' <==> GoQuo(t.zoneOffset, 60) < 0
    ensures AllDigits(ZoneAbbrev(t)[1..3]) && AllDigits(ZoneAbbrev(t)[3..5]) && Value(ZoneAbbrev(t)[3..5]) < 60
    ensures Signed(ZoneAbbrev(t)[0], Value(ZoneAbbrev(t)[1..3]) * 60 + Value(ZoneAbbrev(t)[3..5]))
      == GoQuo(t.zoneOffset, 60)
  {
    var z, zone := ZoneAbbrev(t), GoQuo(t.zoneOffset, 60);
    MinutesBound(t.zoneOffset);
    assert z == NumericAbbrev(zone);
    NumericAbbrevReadBack(z, zone);
    assert Signed(z[0], Value(z[1..3]) * 60 + Value(z[3..5])) == zone;
  }

  /** "+hhmm" or "-hhmm" reads back as a signed count of minutes below 100 hours. */
  lemma NumericAbbrevReadBack(z: string, zone: int)
    requires -6000 < zone < 6000 && z == NumericAbbrev(zone)
    ensures |z| == 5 && (z[0] == '-' <==> zone < 0) && z[0] in "+-"
      && AllDigits(z[1..3]) && AllDigits(z[3..5]) && Value(z[3..5]) < 60
      && Signed(z[0], Value(z[1..3]) * 60 + Value(z[3..5])) == zone
  {
    var m := if zone < 0 then -zone else zone;
    var sign := if zone < 0 then '-' else '+';
    var h, mm := Two(m / 60), Two(m % 60);
    TwoDigits(m / 60);
    TwoDigits(m % 60);
    assert z == [sign] + h + mm;
    SignAndPairs(z, sign, h, mm);
    assert Value(h) * 60 + Value(mm) == m;
  }

  /** An offset below 100 hours is below 6000 minutes, whichever its sign. */
  lemma MinutesBound(offset: int)
    requires -360000 < offset < 360000
    ensures -6000 < GoQuo(offset, 60) < 6000
    ensures GoQuo(offset, 60) < 0 ==> offset < 0
  {
  }

  /** A sign followed by two pairs of digits. */
  lemma SignAndPairs(z: string, sign: char, h: string, mm: string)
    requires |h| == 2 && |mm| == 2 && z == [sign] + h + mm
    ensures |z| == 5 && z[0] == sign && z[1..3] == h && z[3..5] == mm
  {
  }

  /** Without includeTimeZone no style writes anything about the zone: the
      output does not depend on the zone's name, its offset or the fixed-zone
      prefix. */
  lemma NoZoneWithoutFlag(ds: DateStyle, t: Instant, prefix: string, name: string, offset: int)
    requires ValidInstant(t)
    ensures Formatted(ds, t, false)
      == Formatted(ds.(fixedZonePrefix := prefix), t.(zoneName := name, zoneOffset := offset), false)
  {
    var ds', t' := ds.(fixedZonePrefix := prefix), t.(zoneName := name, zoneOffset := offset);
    DateTimeIgnoresZone(ds, ds', t, t');
    assert Zone(ds', t', false) == "" == Zone(ds, t, false);
  }

  lemma ClockIgnoresZone(t: Instant, t': Instant)
    requires ValidInstant(t)
    requires t'.hour == t.hour && t'.minute == t.minute && t'.second == t.second && t'.nanos == t.nanos
    requires t'.month == t.month && t'.day == t.day && t'.weekday == t.weekday
    ensures ValidInstant(t') && Clock(t') == Clock(t)
  {
  }

  /** The date and time read neither the zone nor the fixed-zone prefix. */
  lemma DateTimeIgnoresZone(ds: DateStyle, ds': DateStyle, t: Instant, t': Instant)
    requires ValidInstant(t) && ds'.style == ds.style && ds'.order == ds.order
    requires t'.year == t.year && t'.month == t.month && t'.day == t.day && t'.weekday == t.weekday
    requires t'.hour == t.hour && t'.minute == t.minute && t'.second == t.second && t'.nanos == t.nanos
    ensures ValidInstant(t') && DateTime(ds', t') == DateTime(ds, t)
  {
    ClockIgnoresZone(t, t');
    if ds.style == StyleSQL {
      assert SqlDateTime(ds.order, t') == SqlDateTime(ds.order, t);
    } else if ds.style == StyleGerman {
      assert GermanDateTime(t') == GermanDateTime(t);
    } else if ds.style == StylePostgres {
      assert PostgresDateTime(t') == PostgresDateTime(t);
    } else {
      assert IsoDateTime(t') == IsoDateTime(t);
    }
  }

  /** Only the SQL style follows the configured field order: German, ISO
      and Postgres write the same text under every order. */
  lemma OrderOnlyForSQL(ds: DateStyle, t: Instant, includeTimeZone: bool, order: Order)
    requires ValidInstant(t) && ds.style != StyleSQL
    ensures Formatted(ds.(order := order), t, includeTimeZone) == Formatted(ds, t, includeTimeZone)
  {
    var ds' := ds.(order := order);
    assert DateTime(ds', t) == DateTime(ds, t);
    assert Zone(ds', t, includeTimeZone) == Zone(ds, t, includeTimeZone);
  }

  /** The position of the year among the date fields of a style other than
      Postgres. */
  function YearIndex(ds: DateStyle): (k: nat)
    ensures k < 3 && FieldOrder(ds)[k] == YearField
  {
    if ds.style == StyleSQL then (if ds.order == OrderYMD then 0 else 2)
    else if ds.style == StyleGerman then 2
    else 0
  }

  /** The time of day ends with a digit: the last digit of the fraction, or
      of the seconds when there is no fraction. */
  lemma ClockEndsInDigit(t: Instant)
    requires ValidInstant(t)
    ensures |Clock(t)| > 0 && IsDigit(Clock(t)[|Clock(t)| - 1])
  {
    var sec, frac := Two(t.second), Fraction(t.nanos);
    var pre := " " + Two(t.hour) + ":" + Two(t.minute) + ":" + sec;
    assert Clock(t) == pre + frac;
    TwoDigits(t.second);
    FractionIsMicros(t.nanos);
    if frac == "" {
      assert (pre + frac)[|pre| - 1] == sec[1];
    } else {
      assert (pre + frac)[|pre + frac| - 1] == frac[|frac| - 1] == frac[1..][|frac| - 2];
    }
  }

  /** Digits read back from a string read back the same from any extension of it. */
  lemma ReadsBackExtended(s: string, rest: string, p: nat, w: nat, v: nat)
    requires ReadsBack(s, p, w, v)
    ensures ReadsBack(s + rest, p, w, v)
  {
    assert (s + rest)[p..p + w] == s[p..p + w];
  }

  /** Every style but Postgres ends its date and time with a digit. */
  lemma DateTimeEndsInDigit(ds: DateStyle, t: Instant)
    requires ValidInstant(t) && ds.style != StylePostgres
    ensures var dt := DateTime(ds, t); |dt| > 0 && IsDigit(dt[|dt| - 1])
  {
    DateLayout(ds, t);
    ClockEndsInDigit(t);
    LastOfAppend(DatePart(ds, t), Clock(t));
  }

  lemma LastOfAppend(a: string, b: string)
    requires |b| > 0
    ensures (a + b)[|a + b| - 1] == b[|b| - 1]
  {
  }

  /** A text ending in a digit, with or without " BC" after it. */
  lemma EraSuffix(dt: string, era: string, p: nat, v: nat)
    requires |dt| > 0 && IsDigit(dt[|dt| - 1]) && ReadsBack(dt, p, 4, v)
    requires era == " BC" || era == ""
    ensures var f := dt + era;
      ((|f| >= 3 && f[|f| - 3..] == " BC") <==> era == " BC") && ReadsBack(f, p, 4, v)
  {
    ReadsBackExtended(dt, era, p, 4, v);
    var f := dt + era;
    if era == "" {
      assert f == dt;
    } else {
      assert f[|f| - 3..] == era;
    }
  }

  /** Years up to 0 are written as 1 - year followed by " BC": without the
      zone, the text ends with " BC" exactly when the year is not positive,
      and with the digits of the year field it gives the year back. */
  lemma EraReadBack(ds: DateStyle, t: Instant)
    requires ValidInstant(t) && ds.style != StylePostgres && DisplayYear(t.year) <= 9999
    ensures var f := Formatted(ds, t, false);
      var bc := |f| >= 3 && f[|f| - 3..] == " BC";
      (bc <==> t.year <= 0)
      && ReadsBack(f, Offset(FieldOrder(ds), YearIndex(ds)), 4, if bc then 1 - t.year else t.year)
  {
    var dt := DateTime(ds, t);
    assert Zone(ds, t, false) == "";
    YearReadsBack(ds, t);
    EraOfYear(Formatted(ds, t, false), dt, "", t.year, Offset(FieldOrder(ds), YearIndex(ds)));
  }

  /** A date and time ending in a digit, an optional zone ending in a digit,
      then the era of the year: " BC" ends the text exactly when the year is
      up to 0, and the year field gives the year back. */
  lemma EraOfYear(f: string, dt: string, z: string, year: int, p: nat)
    requires |dt| > 0 && IsDigit(dt[|dt| - 1]) && ReadsBack(dt, p, 4, DisplayYear(year))
    requires z == "" || IsDigit(z[|z| - 1])
    requires f == dt + z + (if year <= 0 then " BC" else "")
    ensures var bc := |f| >= 3 && f[|f| - 3..] == " BC";
      (bc <==> year <= 0) && ReadsBack(f, p, 4, if bc then 1 - year else year)
  {
    var era := if year <= 0 then " BC" else "";
    if z == "" {
      assert dt + z == dt;
    } else {
      LastOfAppend(dt, z);
    }
    ReadsBackExtended(dt, z, p, 4, DisplayYear(year));
    EraSuffix(dt + z, era, p, DisplayYear(year));
  }

  /** The year field of the date and time, which ends in a digit. */
  lemma YearReadsBack(ds: DateStyle, t: Instant)
    requires ValidInstant(t) && ds.style != StylePostgres && DisplayYear(t.year) <= 9999
    ensures var dt := DateTime(ds, t);
      ReadsBack(dt, Offset(FieldOrder(ds), YearIndex(ds)), 4, DisplayYear(t.year))
      && |dt| > 0 && IsDigit(dt[|dt| - 1])
  {
    DateFieldsReadBack(ds, t, YearIndex(ds));
    DateTimeEndsInDigit(ds, t);
  }

  /** With the zone, a year up to 0 still ends the text with " BC" and the
      year field still reads back. For ISO the converse holds too, since the
      numeric zone ends in a digit; a text zone may itself end in " BC", so
      for SQL and German only the first direction is stated. */
  lemma EraReadBackWithZone(ds: DateStyle, t: Instant)
    requires ValidInstant(t) && ds.style != StylePostgres && DisplayYear(t.year) <= 9999
    ensures var f := Formatted(ds, t, true);
      (t.year <= 0 ==> |f| >= 3 && f[|f| - 3..] == " BC")
      && ReadsBack(f, Offset(FieldOrder(ds), YearIndex(ds)), 4, DisplayYear(t.year))
    ensures var f := Formatted(ds, t, true);
      ds.style != StyleSQL && ds.style != StyleGerman
      ==> ((|f| >= 3 && f[|f| - 3..] == " BC") <==> t.year <= 0)
  {
    YearReadsBack(ds, t);
    NumericZoneEndsInDigit(ds, t);
    EraAfterZone(Formatted(ds, t, true), DateTime(ds, t), Zone(ds, t, true), t.year, Offset(FieldOrder(ds), YearIndex(ds)));
  }

  /** The era after a zone: " BC" ends the text for a year up to 0, and a
      field before the zone still reads back; a zone ending in a digit
      cannot pass for the era. */
  lemma EraAfterZone(f: string, dt: string, z: string, year: int, p: nat)
    requires ReadsBack(dt, p, 4, DisplayYear(year))
    requires f == dt + z + (if year <= 0 then " BC" else "")
    ensures (year <= 0 ==> |f| >= 3 && f[|f| - 3..] == " BC") && ReadsBack(f, p, 4, DisplayYear(year))
    ensures |z| > 0 && IsDigit(z[|z| - 1]) ==> ((|f| >= 3 && f[|f| - 3..] == " BC") <==> year <= 0)
  {
    var era := if year <= 0 then " BC" else "";
    ReadsBackExtended(dt, z, p, 4, DisplayYear(year));
    ReadsBackExtended(dt + z, era, p, 4, DisplayYear(year));
    if year <= 0 {
      assert f[|f| - 3..] == era;
    } else if |z| > 0 && IsDigit(z[|z| - 1]) {
      assert f == dt + z;
      LastOfAppend(dt, z);
    }
  }

  /** For ISO and unknown styles the zone part is the numeric suffix, which
      ends in a digit. */
  lemma NumericZoneEndsInDigit(ds: DateStyle, t: Instant)
    ensures var z := Zone(ds, t, true);
      (ds.style != StyleSQL && ds.style != StyleGerman && ds.style != StylePostgres)
      ==> |z| > 0 && IsDigit(z[|z| - 1])
  {
    if ds.style != StyleSQL && ds.style != StyleGerman && ds.style != StylePostgres {
      IsoZoneEndsInDigit(t.zoneOffset);
    }
  }

  /** The ISO suffix ends in a digit for every offset, sub-minute offsets
      west and offsets of 100 hours or more included. */
  lemma IsoZoneEndsInDigit(offset: int)
    ensures var z := IsoZone(offset); |z| > 0 && IsDigit(z[|z| - 1])
  {
    if offset % 3600 == 0 {
      LayoutEndsInDigit(offset, Hours);
    } else if offset % 60 != 0 {
      LayoutEndsInDigit(offset, HoursMinutesSeconds);
    } else {
      LayoutEndsInDigit(offset, HoursMinutes);
    }
  }

  /** Each numeric zone layout ends with a two-digit piece. */
  lemma LayoutEndsInDigit(offset: int, layout: OffsetLayout)
    ensures var z := NumericZone(offset, layout); |z| > 0 && IsDigit(z[|z| - 1])
  {
    var zone := GoQuo(offset, 60);
    var minutes := if zone < 0 then -zone else zone;
    var absOffset := if zone < 0 then -offset else offset;
    var z := NumericZone(offset, layout);
    var last := match layout
      case Hours => minutes / 60
      case HoursMinutes => minutes % 60
      case HoursMinutesSeconds => GoRem(absOffset, 60);
    assert z == z[..|z| - |Two(last)|] + Two(last);
    TwoEndsInDigit(last);
    LastOfAppend(z[..|z| - |Two(last)|], Two(last));
  }

  /** Go's two-digit layout ends in a digit, a leading '-' for a negative
      value notwithstanding. */
  lemma TwoEndsInDigit(n: int)
    ensures |Two(n)| > 0 && IsDigit(Two(n)[|Two(n)| - 1])
  {
    var d := DigitString(if n < 0 then -n else n);
    var p := ZeroPad(d, 2);
    LastOfAppend(Zeros(|p| - |d|), d);
    assert IsDigit(d[|d| - 1]);
    if n < 0 {
      assert Two(n) == "-" + p;
      LastOfAppend("-", p);
    } else {
      assert Two(n) == p;
    }
  }

  lemma OffsetTextEndsInDigit(z: string)
    requires OffsetText(z)
    ensures IsDigit(z[|z| - 1])
  {
    if |z| == 3 {
      assert z[2] == z[1..3][1];
    } else if |z| == 6 {
      assert z[5] == z[4..6][1];
    } else {
      assert z[8] == z[7..9][1];
    }
  }
}
