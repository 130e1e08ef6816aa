/** Rendering an instant in one of PostgreSQL's DateStyles (pgdatetime.go:104-192).
    A Go time.Time is modelled by the fields the formatter reads; the few Go
    layouts the source uses are written out as the padding and trimming they
    perform. */
module Formatter {
  import opened Decimal
  import opened Types

  /** The parts of a time.Time that the formatter reads: the calendar fields
      in the instant's zone, the weekday (0 is Sunday), and what t.Zone()
      returns, the zone's abbreviation and its offset east of UTC in seconds. */
  datatype Instant = Instant(
    year: int, month: int, day: int,
    hour: int, minute: int, second: int, nanos: int,
    weekday: int, zoneName: string, zoneOffset: int)

  /** The ranges a time.Time keeps its fields in. */
  predicate ValidInstant(t: Instant) {
    1 <= t.month <= 12 && 1 <= t.day <= 31
    && 0 <= t.hour < 24 && 0 <= t.minute < 60 && 0 <= t.second < 60
    && 0 <= t.nanos < 1_000_000_000 && 0 <= t.weekday < 7
  }

  // ---------------------------------------------------------------------------
  // Pieces of Go layouts

  /** Layouts "01", "02", "15", "04", "05": two digits, zero-padded. */
  function Two(n: int): string {
    AppendInt(n, 2)
  }

  /** `fmt.Sprintf("%04d", year)` for the positive display year. */
  function Four(n: nat): string {
    AppendInt(n, 4)
  }

  /** Go's `/` on int, which truncates toward zero: the quotient leaves a
      remainder of the dividend's sign, smaller than the divisor. */
  function GoQuo(a: int, b: int): (q: int)
    requires b > 0
    ensures a >= 0 ==> 0 <= a - q * b < b
    ensures a < 0 ==> -b < a - q * b <= 0
  {
    if a >= 0 then a / b else -((-a) / b)
  }

  /** Go's `%` on int: the remainder takes the sign of the dividend. */
  function GoRem(a: int, b: int): (r: int)
    requires b > 0
    ensures a == GoQuo(a, b) * b + r
    ensures -b < r < b
    ensures a >= 0 ==> r >= 0
    ensures a < 0 ==> r <= 0
  {
    a - GoQuo(a, b) * b
  }

  /** Drop trailing '0' characters. */
  function TrimZeros(s: string): (r: string)
    ensures |r| <= |s| && s == r + Zeros(|s| - |r|)
    ensures r == [] || r[|r| - 1] != '0'
    decreases |s|
  {
    if |s| > 0 && s[|s| - 1] == '0' then
      var r := TrimZeros(s[..|s| - 1]);
      assert Zeros(|s| - 1 - |r|) + "0" == Zeros(|s| - |r|);
      assert s == s[..|s| - 1] + "0";
      r
    else
      assert Zeros(0) == [];
      s
  }

  /** Layout ".999999": nothing when the nanoseconds are zero; otherwise '.'
      and the first six of the nine zero-padded digits with trailing zeros
      removed, and nothing at all if no digit remains. */
  function Fraction(nanos: int): (r: string)
    requires 0 <= nanos < 1_000_000_000
  {
    if nanos == 0 then ""
    else
      var digits := AppendInt(nanos, 9);
      var kept := TrimZeros(if |digits| >= 6 then digits[..6] else digits);
      if kept == "" then "" else "." + kept
  }

  /** Layout " 15:04:05.999999" (writeTimeToBuffer). */
  function Clock(t: Instant): string
    requires ValidInstant(t)
  {
    " " + Two(t.hour) + ":" + Two(t.minute) + ":" + Two(t.second) + Fraction(t.nanos)
  }

  /** Layout "MST": the zone's abbreviation, or "+hhmm"/"-hhmm" when it has none. */
  function ZoneAbbrev(t: Instant): (z: string)
    ensures |z| > 0
    ensures t.zoneName != "" ==> z == t.zoneName
  {
    if t.zoneName != "" then t.zoneName else NumericAbbrev(GoQuo(t.zoneOffset, 60))
  }

  /** Layout "-0700" for an offset in whole minutes: its sign, then the
      hours and the minutes of its magnitude. */
  function NumericAbbrev(zone: int): string {
    if zone < 0 then "-" + Two(-zone / 60) + Two(-zone % 60)
    else "+" + Two(zone / 60) + Two(zone % 60)
  }

  /** writeTextTimeZoneToBuffer: a space, then the zone's abbreviation unless
      a non-empty fixed-zone prefix starts the zone's name. */
  function TextZone(ds: DateStyle, t: Instant): string {
    " " + if ds.fixedZonePrefix == "" || !(ds.fixedZonePrefix <= t.zoneName) then ZoneAbbrev(t) else ""
  }

  /** The numeric zone layouts "-07", "-07:00" and "-07:00:00". */
  datatype OffsetLayout = Hours | HoursMinutes | HoursMinutesSeconds

  /** Go's rendering of a numeric zone: the sign of the offset in whole
      minutes, the hours and minutes of that magnitude, and the seconds as
      the remainder of the signed offset. */
  function NumericZone(offset: int, layout: OffsetLayout): string {
    var zone := GoQuo(offset, 60);
    var sign := if zone < 0 then "-" else "+";
    var minutes := if zone < 0 then -zone else zone;
    var absOffset := if zone < 0 then -offset else offset;
    sign + Two(minutes / 60)
    + match layout
      case Hours => ""
      case HoursMinutes => ":" + Two(minutes % 60)
      case HoursMinutesSeconds => ":" + Two(minutes % 60) + ":" + Two(GoRem(absOffset, 60))
  }

  /** The ISO zone suffix (pgdatetime.go:167-178): hours when the offset is
      whole hours, seconds as well when it is not whole minutes, and hours
      and minutes otherwise. Go's `%` and Dafny's agree on whether the
      remainder is zero. */
  function IsoZone(offset: int): string {
    if offset % 3600 == 0 then NumericZone(offset, Hours)
    else if offset % 60 != 0 then NumericZone(offset, HoursMinutesSeconds)
    else NumericZone(offset, HoursMinutes)
  }

  function MonthAbbrev(m: int): string
    requires 1 <= m <= 12
  {
    ["Jan", "Feb", "Mar", "Apr", "May", "Jun", "Jul", "Aug", "Sep", "Oct", "Nov", "Dec"][m - 1]
  }

  function WeekdayAbbrev(w: int): string
    requires 0 <= w < 7
  {
    ["Sun", "Mon", "Tue", "Wed", "Thu", "Fri", "Sat"][w]
  }

  // ---------------------------------------------------------------------------
  // WriteToBuffer

  /** The year as displayed: years up to 0 are counted backwards from 1 BC. */
  function DisplayYear(year: int): (y: nat)
    ensures y >= 1
  {
    if year <= 0 then -year + 1 else year
  }

  /** The date and time part of each style, before the zone and the era. */
  function DateTime(ds: DateStyle, t: Instant): string
    requires ValidInstant(t)
  {
    if ds.style == StyleSQL then SqlDateTime(ds.order, t)
    else if ds.style == StyleGerman then GermanDateTime(t)
    else if ds.style == StylePostgres then PostgresDateTime(t)
    else IsoDateTime(t)
  }

  /** SQL: the fields in the configured order, separated by '/', and the time. */
  function SqlDateTime(order: Order, t: Instant): string
    requires ValidInstant(t)
  {
    var y := Four(DisplayYear(t.year));
    if order == OrderYMD then y + ("/" + Two(t.month) + "/" + Two(t.day)) + Clock(t)
    else if order == OrderDMY then (Two(t.day) + "/" + Two(t.month) + "/") + y + Clock(t)
    else (Two(t.month) + "/" + Two(t.day) + "/") + y + Clock(t)
  }

  /** German: day.month.year and the time. */
  function GermanDateTime(t: Instant): string
    requires ValidInstant(t)
  {
    (Two(t.day) + "." + Two(t.month) + ".") + Four(DisplayYear(t.year)) + Clock(t)
  }

  /** Postgres: weekday, month name, day, the time, then the year. */
  function PostgresDateTime(t: Instant): string
    requires ValidInstant(t)
  {
    (WeekdayAbbrev(t.weekday) + " " + MonthAbbrev(t.month) + " " + AppendInt(t.day, 0) + Clock(t) + " ")
    + Four(DisplayYear(t.year))
  }

  /** ISO: year-month-day and the time. */
  function IsoDateTime(t: Instant): string
    requires ValidInstant(t)
  {
    Four(DisplayYear(t.year)) + ("-" + Two(t.month) + "-" + Two(t.day)) + Clock(t)
  }

  /** The zone part: the numeric offset for ISO (and unknown styles), the
      text zone otherwise; nothing unless asked for. */
  function Zone(ds: DateStyle, t: Instant, includeTimeZone: bool): string {
    if !includeTimeZone then ""
    else if ds.style == StyleSQL || ds.style == StyleGerman || ds.style == StylePostgres then TextZone(ds, t)
    else IsoZone(t.zoneOffset)
  }

  /** What `Format(ds, t, includeTimeZone)` returns. */
  function Formatted(ds: DateStyle, t: Instant, includeTimeZone: bool): string
    requires ValidInstant(t)
  {
    DateTime(ds, t) + Zone(ds, t, includeTimeZone) + (if t.year <= 0 then " BC" else "")
  }

  /** bytes.Buffer, written to at its end. */
  class Buffer {
    var contents: string

    constructor ()
      ensures contents == ""
    {
      contents := "";
    }

    method WriteString(s: string)
      modifies this
      ensures contents == old(contents) + s
    {
      contents := contents + s;
    }
  }

  /** writeTimeToBuffer. */
  method WriteTimeToBuffer(buf: Buffer, t: Instant)
    requires ValidInstant(t)
    modifies buf
    ensures buf.contents == old(buf.contents) + Clock(t)
  {
    buf.WriteString(Clock(t));
  }

  /** writeTextTimeZoneToBuffer. */
  method WriteTextTimeZoneToBuffer(buf: Buffer, ds: DateStyle, t: Instant)
    modifies buf
    ensures buf.contents == old(buf.contents) + TextZone(ds, t)
  {
    buf.WriteString(" ");
    if ds.fixedZonePrefix == "" || !(ds.fixedZonePrefix <= t.zoneName) {
      buf.WriteString(ZoneAbbrev(t));
    } else {
      assert " " + "" == " ";
    }
  }

  /** Writing `a` and then `b` appends `a + b`. */
  lemma AppendAssoc(s: string, a: string, b: string)
    ensures s + a + b == s + (a + b)
  {
  }

  /** After the date and time, the zone of the output: nothing unless asked for. */
  lemma ZoneStep(start: string, dt: string, ds: DateStyle, t: Instant, includeTimeZone: bool, written: string)
    requires includeTimeZone ==> written == start + dt + Zone(ds, t, includeTimeZone)
    requires !includeTimeZone ==> written == start + dt
    ensures written == start + (dt + Zone(ds, t, includeTimeZone))
  {
    if !includeTimeZone {
      assert dt + Zone(ds, t, includeTimeZone) == dt;
    }
  }

  /** The SQL case of WriteToBuffer: the date in the configured field order
      with '/' between the fields, the time, the text zone. */
  method WriteSQL(buf: Buffer, ds: DateStyle, t: Instant, year: nat, includeTimeZone: bool)
    requires ValidInstant(t) && year == DisplayYear(t.year) && ds.style == StyleSQL
    modifies buf
    ensures buf.contents == old(buf.contents) + (DateTime(ds, t) + Zone(ds, t, includeTimeZone))
  {
    ghost var start := buf.contents;
    ghost var y, c := Four(year), Clock(t);
    ghost var d;
    if ds.order == OrderYMD {
      ghost var md := "/" + Two(t.month) + "/" + Two(t.day);
      buf.WriteString(Four(year));
      buf.WriteString("/" + Two(t.month) + "/" + Two(t.day));
      AppendAssoc(start, y, md);
      d := y + md;
    } else if ds.order == OrderDMY {
      ghost var dm := Two(t.day) + "/" + Two(t.month) + "/";
      buf.WriteString(Two(t.day) + "/" + Two(t.month) + "/");
      buf.WriteString(Four(year));
      AppendAssoc(start, dm, y);
      d := dm + y;
    } else {
      ghost var md := Two(t.month) + "/" + Two(t.day) + "/";
      buf.WriteString(Two(t.month) + "/" + Two(t.day) + "/");
      buf.WriteString(Four(year));
      AppendAssoc(start, md, y);
      d := md + y;
    }
    assert DateTime(ds, t) == d + c;
    WriteTimeToBuffer(buf, t);
    AppendAssoc(start, d, c);
    if includeTimeZone {
      WriteTextTimeZoneToBuffer(buf, ds, t);
    }
    ZoneStep(start, d + c, ds, t, includeTimeZone, buf.contents);
  }

  /** The German case of WriteToBuffer: day.month.year, the time, the text zone. */
  method WriteGerman(buf: Buffer, ds: DateStyle, t: Instant, year: nat, includeTimeZone: bool)
    requires ValidInstant(t) && year == DisplayYear(t.year) && ds.style == StyleGerman
    modifies buf
    ensures buf.contents == old(buf.contents) + (DateTime(ds, t) + Zone(ds, t, includeTimeZone))
  {
    ghost var start := buf.contents;
    ghost var y, c := Four(year), Clock(t);
    ghost var dm := Two(t.day) + "." + Two(t.month) + ".";
    buf.WriteString(Two(t.day) + "." + Two(t.month) + ".");
    buf.WriteString(Four(year));
    AppendAssoc(start, dm, y);
    assert DateTime(ds, t) == dm + y + c;
    WriteTimeToBuffer(buf, t);
    AppendAssoc(start, dm + y, c);
    if includeTimeZone {
      WriteTextTimeZoneToBuffer(buf, ds, t);
    }
    ZoneStep(start, dm + y + c, ds, t, includeTimeZone, buf.contents);
  }

  /** The Postgres case of WriteToBuffer: weekday, month name, day, the time,
      the year, the text zone. */
  method WritePostgres(buf: Buffer, ds: DateStyle, t: Instant, year: nat, includeTimeZone: bool)
    requires ValidInstant(t) && year == DisplayYear(t.year) && ds.style == StylePostgres
    modifies buf
    ensures buf.contents == old(buf.contents) + (DateTime(ds, t) + Zone(ds, t, includeTimeZone))
  {
    ghost var start := buf.contents;
    var p := WeekdayAbbrev(t.weekday) + " " + MonthAbbrev(t.month) + " " + AppendInt(t.day, 0) + Clock(t) + " ";
    var y := Four(year);
    buf.WriteString(p);
    buf.WriteString(y);
    AppendAssoc(start, p, y);
    PostgresParts(ds, t, p, y);
    if includeTimeZone {
      WriteTextTimeZoneToBuffer(buf, ds, t);
    }
    ZoneStep(start, p + y, ds, t, includeTimeZone, buf.contents);
  }
  /** The Postgres layout is the text up to the year, then the year. */
  lemma PostgresParts(ds: DateStyle, t: Instant, p: string, y: string)
    requires ValidInstant(t) && ds.style == StylePostgres
    requires p == WeekdayAbbrev(t.weekday) + " " + MonthAbbrev(t.month) + " " + AppendInt(t.day, 0) + Clock(t) + " "
    requires y == Four(DisplayYear(t.year))
    ensures DateTime(ds, t) == p + y
  {
  }


  /** The ISO case of WriteToBuffer (also taken for a style it does not
      know): year-month-day, the time, the numeric zone. */
  method WriteISO(buf: Buffer, ds: DateStyle, t: Instant, year: nat, includeTimeZone: bool)
    requires ValidInstant(t) && year == DisplayYear(t.year)
    requires ds.style != StyleSQL && ds.style != StyleGerman && ds.style != StylePostgres
    modifies buf
    ensures buf.contents == old(buf.contents) + (DateTime(ds, t) + Zone(ds, t, includeTimeZone))
  {
    ghost var start := buf.contents;
    ghost var y, c := Four(year), Clock(t);
    ghost var md := "-" + Two(t.month) + "-" + Two(t.day);
    buf.WriteString(Four(year));
    buf.WriteString("-" + Two(t.month) + "-" + Two(t.day));
    AppendAssoc(start, y, md);
    assert DateTime(ds, t) == y + md + c;
    WriteTimeToBuffer(buf, t);
    AppendAssoc(start, y + md, c);
    if includeTimeZone {
      buf.WriteString(IsoZone(t.zoneOffset));
    }
    ZoneStep(start, y + md + c, ds, t, includeTimeZone, buf.contents);
  }

  /** WriteToBuffer: the year is converted to its display form first, then
      each style writes its pieces in turn and " BC" ends the output. */
  method WriteToBuffer(buf: Buffer, ds: DateStyle, t: Instant, includeTimeZone: bool)
    requires ValidInstant(t)
    modifies buf
    ensures buf.contents == old(buf.contents) + Formatted(ds, t, includeTimeZone)
  {
    var isBC := false;
    var year := t.year;
    if year <= 0 {
      year := -year + 1;
      isBC := true;
    }
    ghost var start := buf.contents;
    if ds.style == StyleSQL {
      WriteSQL(buf, ds, t, year, includeTimeZone);
    } else if ds.style == StyleGerman {
      WriteGerman(buf, ds, t, year, includeTimeZone);
    } else if ds.style == StylePostgres {
      WritePostgres(buf, ds, t, year, includeTimeZone);
    } else {
      WriteISO(buf, ds, t, year, includeTimeZone);
    }
    ghost var dtz := DateTime(ds, t) + Zone(ds, t, includeTimeZone);
    ghost var era := if t.year <= 0 then " BC" else "";
    if isBC {
      buf.WriteString(" BC");
    } else {
      assert buf.contents == start + dtz + era;
    }
    AppendAssoc(start, dtz, era);
  }

  /** Format: WriteToBuffer into a fresh buffer. */
  method Format(ds: DateStyle, t: Instant, includeTimeZone: bool) returns (s: string)
    requires ValidInstant(t)
    ensures s == Formatted(ds, t, includeTimeZone)
  {
    var b := new Buffer();
    WriteToBuffer(b, ds, t, includeTimeZone);
    s := b.contents;
  }
}
