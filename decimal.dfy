/** Decimal digits: the value of a digit string, Go's integer rendering
    (fmt `%d`, time's appendInt) and strconv.ParseInt in base 10 for 64 bits. */
module Decimal {
  import opened Chars

  const MaxInt64: int := 0x7FFF_FFFF_FFFF_FFFF
  const MaxUint64: int := 0xFFFF_FFFF_FFFF_FFFF

  /** Two's-complement wrap-around of a Go `int` (64 bits). */
  function Wrap64(x: int): (r: int)
    ensures -MaxInt64 - 1 <= r <= MaxInt64
    ensures (r - x) % (MaxUint64 + 1) == 0
    ensures -MaxInt64 - 1 <= x <= MaxInt64 ==> r == x
  {
    (x + MaxInt64 + 1) % (MaxUint64 + 1) - (MaxInt64 + 1)
  }

  function DigitValue(c: char): (d: nat)
    requires IsDigit(c)
    ensures d < 10
  {
    c as int - '0' as int
  }

  function DigitChar(d: nat): (c: char)
    requires d < 10
    ensures IsDigit(c) && DigitValue(c) == d
  {
    ('0' as int + d) as char
  }

  predicate AllDigits(s: string) {
    forall k :: 0 <= k < |s| ==> IsDigit(s[k])
  }

  /** The number a string of decimal digits denotes (0 for the empty string). */
  function Value(s: string): nat
    requires AllDigits(s)
    decreases |s|
  {
    if |s| == 0 then 0 else Value(s[..|s| - 1]) * 10 + DigitValue(s[|s| - 1])
  }

  /** Leading zeros do not change the value. */
  lemma {:induction false} ValueLeadingZero(s: string)
    requires AllDigits(s)
    ensures AllDigits("0" + s) && Value("0" + s) == Value(s)
  {
    if |s| > 0 {
      var t := "0" + s;
      assert t[..|t| - 1] == "0" + s[..|s| - 1];
      ValueLeadingZero(s[..|s| - 1]);
    }
  }

  /** The value of a concatenation: the left part is shifted by the right part's length. */
  lemma {:induction false} ValueConcat(a: string, b: string)
    requires AllDigits(a) && AllDigits(b)
    ensures AllDigits(a + b)
    ensures Value(a + b) == Value(a) * Pow10(|b|) + Value(b)
    decreases |b|
  {
    if |b| > 0 {
      var ab, b' := a + b, b[..|b| - 1];
      var d := DigitValue(b[|b| - 1]);
      assert ab[..|ab| - 1] == a + b';
      ValueConcat(a, b');
      calc {
        Value(ab);
        Value(a + b') * 10 + d;
        (Value(a) * Pow10(|b'|) + Value(b')) * 10 + d;
        { assert (Value(a) * Pow10(|b'|)) * 10 == Value(a) * (Pow10(|b'|) * 10); }
        Value(a) * Pow10(|b|) + Value(b);
      }
    } else {
      assert a + b == a;
    }
  }

  function Pow10(n: nat): (r: nat)
    ensures r >= 1
  {
    if n == 0 then 1 else 10 * Pow10(n - 1)
  }

  /** A digit string of length n denotes less than 10^n. */
  lemma {:induction false} ValueBound(s: string)
    requires AllDigits(s)
    ensures Value(s) < Pow10(|s|)
    decreases |s|
  {
    if |s| > 0 {
      ValueBound(s[..|s| - 1]);
    }
  }

  /** The shortest decimal rendering of n (strconv.Itoa / fmt `%d` of a non-negative value). */
  function DigitString(n: nat): (s: string)
    ensures 1 <= |s| && AllDigits(s)
    ensures Value(s) == n
    ensures |s| > 1 ==> s[0] != '0'
    decreases n
  {
    if n < 10 then [DigitChar(n)]
    else
      var t := DigitString(n / 10);
      assert (t + [DigitChar(n % 10)])[..|t|] == t;
      t + [DigitChar(n % 10)]
  }

  /** Two digit strings without a leading zero and of the same value are equal. */
  lemma {:induction false} CanonicalDigitsUnique(s: string, t: string)
    requires AllDigits(s) && AllDigits(t) && 1 <= |s| && 1 <= |t|
    requires |s| > 1 ==> s[0] != '0'
    requires |t| > 1 ==> t[0] != '0'
    requires Value(s) == Value(t)
    ensures s == t
    decreases |s|
  {
    var s', t' := s[..|s| - 1], t[..|t| - 1];
    assert DigitValue(s[|s| - 1]) == Value(s) % 10 == DigitValue(t[|t| - 1]);
    assert Value(s') == Value(s) / 10 == Value(t');
    if |s| == 1 && |t| == 1 {
    } else if |s| == 1 {
      LeadingDigitPositive(t);
      ValueBound(s);
      ValueTwoDigitsAtLeastTen(t);
    } else if |t| == 1 {
      ValueTwoDigitsAtLeastTen(s);
      ValueBound(t);
    } else {
      LeadingDigitPositive(s);
      LeadingDigitPositive(t);
      CanonicalDigitsUnique(s', t');
    }
  }

  lemma LeadingDigitPositive(s: string)
    requires AllDigits(s) && |s| > 1 && s[0] != '0'
    ensures s[..|s| - 1][0] != '0'
  {
  }

  /** A digit string of two or more characters without a leading zero denotes at least 10. */
  lemma {:induction false} ValueTwoDigitsAtLeastTen(s: string)
    requires AllDigits(s) && |s| > 1 && s[0] != '0'
    ensures Value(s) >= 10
    decreases |s|
  {
    var s' := s[..|s| - 1];
    if |s'| == 1 {
      assert Value(s') == DigitValue(s[0]) >= 1;
    } else {
      ValueTwoDigitsAtLeastTen(s');
    }
  }

  /** fmt `%d` of any integer. */
  function Itoa(n: int): (s: string)
    ensures 1 <= |s|
    ensures n >= 0 <==> IsDigit(s[0])
  {
    if n < 0 then "-" + DigitString(-n) else DigitString(n)
  }

  /** The rendering determines the number. */
  lemma ItoaInjective(a: int, b: int)
    requires Itoa(a) == Itoa(b)
    ensures a == b
  {
    if a < 0 && b < 0 {
      assert Itoa(a)[1..] == DigitString(-a);
      assert Itoa(b)[1..] == DigitString(-b);
    }
  }

  /** Rendering of a number never contains a colon. */
  lemma ItoaNoColon(n: int)
    ensures ':' !in Itoa(n)
  {
    var s := Itoa(n);
    if n >= 0 {
      assert forall k :: 0 <= k < |s| ==> IsDigit(s[k]);
    } else {
      assert forall k :: 1 <= k < |s| ==> s[k] == DigitString(-n)[k - 1];
    }
  }

  function Zeros(n: nat): (z: string)
    ensures |z| == n && AllDigits(z)
    ensures forall k :: 0 <= k < n ==> z[k] == '0'
  {
    if n == 0 then "" else "0" + Zeros(n - 1)
  }

  /** Zero padding to a minimum width, as fmt `%0Nd` and time's appendInt do. */
  function ZeroPad(s: string, width: nat): (r: string)
    ensures |r| == if |s| < width then width else |s|
    ensures r == Zeros(|r| - |s|) + s
  {
    if |s| < width then Zeros(width - |s|) + s else Zeros(0) + s
  }

  lemma {:induction false} ValueZerosPrefix(n: nat, s: string)
    requires AllDigits(s)
    ensures AllDigits(Zeros(n) + s) && Value(Zeros(n) + s) == Value(s)
  {
    if n > 0 {
      ValueZerosPrefix(n - 1, s);
      assert Zeros(n) + s == "0" + (Zeros(n - 1) + s);
      ValueLeadingZero(Zeros(n - 1) + s);
    } else {
      assert Zeros(n) + s == s;
    }
  }

  /** time's appendInt(x, width): an optional '-', then |x| zero-padded to width digits. */
  function AppendInt(x: int, width: nat): (r: string)
    ensures x >= 0 ==> AllDigits(r) && Value(r) == x && |r| >= width
    ensures x >= 0 && x < Pow10(width) && width >= 1 ==> |r| == width
  {
    if x < 0 then "-" + ZeroPad(DigitString(-x), width)
    else
      var r := ZeroPad(DigitString(x), width);
      ValueZerosPrefix(|r| - |DigitString(x)|, DigitString(x));
      if x < Pow10(width) then DigitsLength(x, width); r else r
  }

  /** A number below 10^w has at most w digits. */
  lemma DigitsLength(x: nat, w: nat)
    requires x < Pow10(w)
    ensures |DigitString(x)| <= w || (x == 0 && w == 0)
  {
    var s := DigitString(x);
    if |s| > w && |s| > 1 {
      ValueTwoDigitsAtLeastTen(s);
      PrefixValueBound(s, w);
    }
  }

  /** A canonical digit string longer than w denotes at least 10^w. */
  lemma {:induction false} PrefixValueBound(s: string, w: nat)
    requires AllDigits(s) && |s| > w && s[0] != '0'
    ensures Value(s) >= Pow10(w)
    decreases |s|
  {
    if w > 0 {
      var s' := s[..|s| - 1];
      PrefixValueBound(s', w - 1);
    } else {
      if |s| == 1 {
      } else {
        var s' := s[..|s| - 1];
        PrefixValueBound(s', 0);
      }
    }
  }

  /** The outcome of strconv.ParseInt(s, 10, 64). */
  datatype NumError = ErrSyntax | ErrRange
  datatype IntResult = Parsed(value: int) | NotParsed(err: NumError)

  /** strconv.ParseInt(s, 10, 64): an optional sign, then decimal digits.
      An empty body or a non-digit is a syntax error, except that a digit
      prefix already too large for 64 unsigned bits is reported as out of
      range first (ParseUint stops at the first overflow). */
  function ParseInt(s: string): (r: IntResult)
    ensures r.Parsed? ==> -MaxInt64 - 1 <= r.value <= MaxInt64
  {
    if |s| == 0 then NotParsed(ErrSyntax)
    else
      var neg := s[0] == '-';
      var body := if s[0] == '+' || s[0] == '-' then s[1..] else s;
      if |body| == 0 then NotParsed(ErrSyntax)
      else
        var k := RunEnd(body, 0, Digits);
        var u := Value(body[..k]);
        if u > MaxUint64 then NotParsed(ErrRange)
        else if k < |body| then NotParsed(ErrSyntax)
        else if !neg && u > MaxInt64 then NotParsed(ErrRange)
        else if neg && u > MaxInt64 + 1 then NotParsed(ErrRange)
        else
          var v: int := u;
          Parsed(if neg then -v else v)
  }

  /** ParseInt on a plain digit string: its value, a syntax error when empty,
      a range error when too large. */
  lemma ParseIntDigits(s: string)
    requires AllDigits(s)
    ensures |s| == 0 ==> ParseInt(s) == NotParsed(ErrSyntax)
    ensures |s| > 0 && Value(s) <= MaxInt64 ==> ParseInt(s) == Parsed(Value(s))
    ensures |s| > 0 && Value(s) > MaxInt64 ==> ParseInt(s) == NotParsed(ErrRange)
  {
    if |s| > 0 {
      RunEndUnique(s, 0, Digits, |s|);
      assert s[..|s|] == s;
    }
  }

  /** ParseInt inverts the decimal rendering of every non-negative int64. */
  lemma ParseIntItoa(n: nat)
    requires n <= MaxInt64
    ensures ParseInt(Itoa(n)) == Parsed(n)
  {
    ParseIntDigits(DigitString(n));
  }

  /** strconv.Quote, for strings of printable ASCII without quotes or
      backslashes (the only strings the scanner lets reach ParseInt). */
  function Quote(s: string): string {
    "\"" + s + "\""
  }

  /** The text of the *strconv.NumError that ParseInt returns. */
  function NumErrorText(s: string, e: NumError): string {
    "strconv.ParseInt: parsing " + Quote(s) + ": "
    + (match e case ErrSyntax => "invalid syntax" case ErrRange => "value out of range")
  }
}
