/** The scanner `tokenizeDateTime`. parse.go holds the current revision;
    token.go an earlier one that differs only in skipping whitespace one
    character per loop turn (and in the argument order of its error
    constructor, which builds the same error). Both are modelled by one
    scan, parameterised by the revision, and proved to agree. */
module Tokenizer {
  import opened Chars
  import opened Types

  datatype Revision = Current | Earlier

  const SignError: string := "expected letters or characters after + or -"

  /** A character no branch of the scanner accepts. */
  predicate IsOther(c: char) {
    !IsSpace(c) && !IsDigit(c) && c != '.' && !IsLetter(c) && c != '+' && c != '-' && !IsPunct(c)
  }

  /** What one turn of the scanning loop does from offset i: skip to `next`,
      emit a token spanning [i, next), or stop with an error. */
  datatype Step = Skip(next: nat) | Emit(kind: TokenType, next: nat) | Stop(error: ParseError)

  /** A run starting with a digit (parse.go:71-117). */
  function ScanDigits(s: string, i: nat): (st: Step)
    requires i < |s| && IsDigit(s[i])
    ensures st.Emit? && i < st.next <= |s|
  {
    var e := RunEnd(s, i, Digits);
    if e >= |s| then Emit(Number, e)
    else if s[e] == ':' then Emit(Time, RunEnd(s, e, TimeChars))
    else if IsDelimiter(s[e]) then ScanDelimited(s, e)
    else Emit(Number, e)
  }

  /** After a digit run, at a delimiter (parse.go:87-114): digits after it
      make a date, or a number when the delimiter is '.' and does not recur;
      otherwise a date with text follows. */
  function ScanDelimited(s: string, e: nat): (st: Step)
    requires e < |s| && IsDelimiter(s[e])
    ensures st.Emit? && e < st.next <= |s|
  {
    var d := s[e];
    if e + 1 < |s| && IsDigit(s[e + 1]) then
      var k := RunEnd(s, e + 1, Digits);
      if k < |s| && s[k] == d then Emit(Date, RunEnd(s, k, DigitsOr(d)))
      else Emit(if d == '.' then Number else Date, k)
    else Emit(Date, RunEnd(s, e + 1, AlnumOr(d)))
  }

  /** A run starting with a letter (parse.go:123-136). */
  function ScanLetters(s: string, i: nat): (st: Step)
    requires i < |s| && IsLetter(s[i])
    ensures st.Emit? && i < st.next <= |s|
  {
    var e := RunEnd(s, i, Letters);
    if e < |s| && IsDelimiter(s[e]) then Emit(Date, RunEnd(s, e, DigitsOr(s[e])))
    else Emit(String, e)
  }

  /** A run starting with a sign (parse.go:137-157). */
  function ScanSign(s: string, i: nat): (st: Step)
    requires i < |s| && (s[i] == '+' || s[i] == '-')
    ensures st.Emit? ==> i < st.next <= |s|
  {
    var e := RunEnd(s, i + 1, Spaces);
    if e == |s| then Stop(ParseError(SignError, i))
    else if IsDigit(s[e]) then Emit(TZ, RunEnd(s, e, TimeChars))
    else if IsLetter(s[e]) then Emit(Special, RunEnd(s, e, Letters))
    else Stop(ParseError(SignError, i))
  }

  /** One turn of the loop over the lower-cased input (parse.go:61-163, token.go:47-163). */
  function ScanAt(s: string, i: nat, rev: Revision): (st: Step)
    requires i < |s|
    ensures (st.Skip? || st.Emit?) ==> i < st.next <= |s|
  {
    var c := s[i];
    if IsSpace(c) then Skip(if rev == Current then RunEnd(s, i, Spaces) else i + 1)
    else if IsDigit(c) then ScanDigits(s, i)
    else if c == '.' then Emit(Number, RunEnd(s, i + 1, Digits))
    else if IsLetter(c) then ScanLetters(s, i)
    else if c == '+' || c == '-' then ScanSign(s, i)
    else if IsPunct(c) then Skip(i + 1)
    else Stop(ParseError("unexpected character: " + [c], i))
  }

  /** The tokens of the lower-cased input from offset i on. */
  function TokensFrom(s: string, i: nat, rev: Revision): Result<seq<Token>>
    requires i <= |s|
    decreases |s| - i
  {
    if i == |s| then Ok([])
    else
      match ScanAt(s, i, rev)
      case Skip(n) => TokensFrom(s, n, rev)
      case Emit(kind, n) => Prepend([Token(kind, s[i..n], i)], TokensFrom(s, n, rev))
      case Stop(e) => Err(e)
  }

  function Prepend(ts: seq<Token>, r: Result<seq<Token>>): Result<seq<Token>> {
    match r
    case Ok(rest) => Ok(ts + rest)
    case Err(e) => Err(e)
  }

  lemma PrependPrepend(a: seq<Token>, b: seq<Token>, r: Result<seq<Token>>)
    ensures Prepend(a, Prepend(b, r)) == Prepend(a + b, r)
  {
    if r.Ok? {
      assert a + (b + r.value) == (a + b) + r.value;
    }
  }

  lemma PrependNil(r: Result<seq<Token>>)
    ensures Prepend([], r) == r
  {
    if r.Ok? {
      assert [] + r.value == r.value;
    }
  }

  /** The result of `tokenizeDateTime(s)`. */
  function Tokenize(s: string, rev: Revision): Result<seq<Token>> {
    TokensFrom(ToLower(s), 0, rev)
  }

  // ---------------------------------------------------------------------------
  // The kind of a token is a function of its own text.

  /** The classification the scanner applies, read back from a token's text alone:
      a digit run followed by ':' is a Time; digits, '.', digits (nothing more)
      and lone digit runs are Numbers; other digit-initial runs are Dates; a
      leading '.' is a Number; letters alone are a String, letters with a
      delimiter a Date; a sign followed by digits a TZ, otherwise a Special. */
  function KindOfText(val: string): TokenType
    requires |val| > 0
  {
    var c := val[0];
    if IsDigit(c) then
      var k := RunEnd(val, 0, Digits);
      if k == |val| then Number
      else if val[k] == ':' then Time
      else if val[k] == '.' && k + 1 < |val| && RunEnd(val, k + 1, Digits) == |val| then Number
      else Date
    else if c == '.' then Number
    else if IsLetter(c) then (if RunEnd(val, 0, Letters) == |val| then String else Date)
    else
      var k := RunEnd(val, 1, Spaces);
      if k < |val| && IsDigit(val[k]) then TZ else Special
  }

  /** The characters each kind of token can hold. */
  predicate TokenShape(kind: TokenType, val: string) {
    match kind
    case Time =>
      (forall k :: 0 <= k < |val| ==> InClass(val[k], TimeChars))
      && 0 < RunEnd(val, 0, Digits) < |val| && val[RunEnd(val, 0, Digits)] == ':'
    case Number => forall k :: 0 <= k < |val| ==> IsDigit(val[k]) || val[k] == '.'
    case Date =>
      (exists k :: 0 <= k < |val| && IsDelimiter(val[k]))
      && forall k :: 0 <= k < |val| ==> IsLetter(val[k]) || IsDigit(val[k]) || IsDelimiter(val[k])
    case String => forall k :: 0 <= k < |val| ==> IsLetter(val[k])
    case TZ => |val| > 0 && (val[0] == '+' || val[0] == '-')
    case Special => |val| > 0 && (val[0] == '+' || val[0] == '-')
  }

  /** A token is the non-empty slice of the (lower-cased) input at its offset,
      of the kind its text determines and of that kind's shape. */
  predicate ValidToken(s: string, t: Token) {
    0 <= t.idx && 0 < |t.val| && t.idx + |t.val| <= |s|
    && t.val == s[t.idx..t.idx + |t.val|]
    && t.kind == KindOfText(t.val)
    && TokenShape(t.kind, t.val)
  }

  /** Valid tokens at offsets from `from` on, in strictly increasing, non-overlapping order. */
  predicate ValidTokens(s: string, ts: seq<Token>, from: nat) {
    (forall k :: 0 <= k < |ts| ==> ValidToken(s, ts[k]) && from <= ts[k].idx)
    && (forall k, m :: 0 <= k < m < |ts| ==> ts[k].idx + |ts[k].val| <= ts[m].idx)
  }

  /** A digit run alone: at the end of input or before a character that is
      neither ':' nor a delimiter. */
  lemma DigitRunToken(s: string, i: nat)
    requires i < |s| && IsDigit(s[i])
    ensures ValidToken(s, Token(Number, s[i..RunEnd(s, i, Digits)], i))
  {
    var j := RunEnd(s, i, Digits);
    var w := s[i..j];
    assert forall k :: 0 <= k < |w| ==> IsDigit(w[k]);
    NumberWord(w);
    SliceToken(s, i, j, Number);
  }

  lemma NumberWord(w: string)
    requires |w| > 0 && forall k :: 0 <= k < |w| ==> IsDigit(w[k])
    ensures KindOfText(w) == Number && TokenShape(Number, w)
  {
    RunEndUnique(w, 0, Digits, |w|);
  }

  lemma SliceToken(s: string, i: nat, j: nat, kind: TokenType)
    requires i < j <= |s|
    requires KindOfText(s[i..j]) == kind && TokenShape(kind, s[i..j])
    ensures ValidToken(s, Token(kind, s[i..j], i))
  {
  }

  lemma DigitTimeToken(s: string, i: nat)
    requires i < |s| && IsDigit(s[i])
    requires RunEnd(s, i, Digits) < |s| && s[RunEnd(s, i, Digits)] == ':'
    ensures ValidToken(s, Token(Time, s[i..RunEnd(s, RunEnd(s, i, Digits), TimeChars)], i))
  {
    var e := RunEnd(s, i, Digits);
    var j := RunEnd(s, e, TimeChars);
    var w := s[i..j];
    RunEndSlice(s, i, j, i, Digits);
    assert w[e - i] == s[e];
    TimeRunChars(s, i, e, j);
    TimeWord(w, e - i);
    SliceToken(s, i, j, Time);
  }

  /** A word of time characters whose leading digit run ends at a ':'. */
  lemma TimeWord(w: string, e: nat)
    requires 0 < e < |w| && RunEnd(w, 0, Digits) == e && w[e] == ':'
    requires forall k :: 0 <= k < |w| ==> InClass(w[k], TimeChars)
    ensures KindOfText(w) == Time && TokenShape(Time, w)
  {
  }

  /** A digit run and the time characters after it are all time characters. */
  lemma TimeRunChars(s: string, i: nat, e: nat, j: nat)
    requires i <= e <= j <= |s|
    requires forall k :: i <= k < e ==> IsDigit(s[k])
    requires forall k :: e <= k < j ==> InClass(s[k], TimeChars)
    ensures forall k :: 0 <= k < j - i ==> InClass(s[i..j][k], TimeChars)
  {
    forall k | 0 <= k < j - i ensures InClass(s[i..j][k], TimeChars) {
      assert s[i..j][k] == s[i + k];
    }
  }

  /** digits, delimiter, digits, and possibly more digits and delimiters. */
  lemma DigitDelimDigitsToken(s: string, i: nat)
    requires i < |s| && IsDigit(s[i])
    requires RunEnd(s, i, Digits) + 1 < |s| && IsDelimiter(s[RunEnd(s, i, Digits)])
    requires IsDigit(s[RunEnd(s, i, Digits) + 1])
    ensures ScanDigits(s, i).Emit?
    ensures ValidToken(s, Token(ScanDigits(s, i).kind, s[i..ScanDigits(s, i).next], i))
  {
    var e := RunEnd(s, i, Digits);
    var d := s[e];
    var k := RunEnd(s, e + 1, Digits);
    var st := ScanDelimited(s, e);
    assert ScanDigits(s, i) == st;
    var j := st.next;
    var w := s[i..j];
    assert k <= j;
    SliceRun(s, i, j, i, e, Digits);
    assert w[e - i] == d;
    SliceRun(s, i, j, e + 1, k, Digits);
    assert k - i == |w| || w[k - i] == d;
    SliceRun(s, i, j, k, j, DigitsOr(d));
    DelimWord(w, e - i, k - i, d);
    SliceToken(s, i, j, st.kind);
  }

  lemma DelimWord(w: string, a: nat, b: nat, d: char)
    requires 0 < a && a + 1 < b <= |w| && IsDelimiter(d)
    requires forall m :: 0 <= m < a ==> IsDigit(w[m])
    requires w[a] == d
    requires forall m :: a + 1 <= m < b ==> IsDigit(w[m])
    requires b == |w| || w[b] == d
    requires forall m :: b <= m < |w| ==> IsDigit(w[m]) || w[m] == d
    ensures var kind := if b == |w| && d == '.' then Number else Date;
      KindOfText(w) == kind && TokenShape(kind, w)
  {
    RunEndUnique(w, 0, Digits, a);
    RunEndUnique(w, a + 1, Digits, b);
  }

  /** digits, a delimiter, then no digit: a date with text such as 13/feb/2021. */
  lemma DigitDelimTextToken(s: string, i: nat)
    requires i < |s| && IsDigit(s[i])
    requires RunEnd(s, i, Digits) < |s| && IsDelimiter(s[RunEnd(s, i, Digits)])
    requires !(RunEnd(s, i, Digits) + 1 < |s| && IsDigit(s[RunEnd(s, i, Digits) + 1]))
    ensures ValidToken(s, Token(Date, s[i..RunEnd(s, RunEnd(s, i, Digits) + 1, AlnumOr(s[RunEnd(s, i, Digits)]))], i))
  {
    var e := RunEnd(s, i, Digits);
    var d := s[e];
    var j := RunEnd(s, e + 1, AlnumOr(d));
    var w := s[i..j];
    SliceRun(s, i, j, i, e, Digits);
    SliceRun(s, i, j, e + 1, j, AlnumOr(d));
    assert w[e - i] == d;
    assert e + 1 < j ==> !IsDigit(w[e + 1 - i]);
    DelimTextWord(w, e - i, d);
    SliceToken(s, i, j, Date);
  }

  /** Digits, a delimiter not followed by a digit, then letters, digits and
      that delimiter: a Date. */
  lemma DelimTextWord(w: string, a: nat, d: char)
    requires 0 < a < |w| && IsDelimiter(d) && w[a] == d
    requires forall m :: 0 <= m < a ==> InClass(w[m], Digits)
    requires a + 1 < |w| ==> !IsDigit(w[a + 1])
    requires forall m :: a + 1 <= m < |w| ==> InClass(w[m], AlnumOr(d))
    ensures KindOfText(w) == Date && TokenShape(Date, w)
  {
    RunEndUnique(w, 0, Digits, a);
  }

  /** A run of a class in `s` is a run of that class in a slice around it. */
  lemma SliceRun(s: string, i: nat, j: nat, lo: nat, hi: nat, cls: CharClass)
    requires i <= lo <= hi <= j <= |s|
    requires forall m :: lo <= m < hi ==> InClass(s[m], cls)
    ensures forall m :: lo - i <= m < hi - i ==> InClass(s[i..j][m], cls)
  {
    forall m | lo - i <= m < hi - i ensures InClass(s[i..j][m], cls) {
      assert s[i..j][m] == s[m + i];
    }
  }

  lemma DigitsStepValid(s: string, i: nat)
    requires i < |s| && IsDigit(s[i])
    ensures ValidToken(s, Token(ScanDigits(s, i).kind, s[i..ScanDigits(s, i).next], i))
  {
    var e := RunEnd(s, i, Digits);
    if e >= |s| {
      DigitRunToken(s, i);
    } else if s[e] == ':' {
      DigitTimeToken(s, i);
    } else if IsDelimiter(s[e]) {
      if e + 1 < |s| && IsDigit(s[e + 1]) {
        DigitDelimDigitsToken(s, i);
      } else {
        DigitDelimTextToken(s, i);
      }
    } else {
      DigitRunToken(s, i);
    }
  }

  lemma LettersStepValid(s: string, i: nat)
    requires i < |s| && IsLetter(s[i])
    ensures ValidToken(s, Token(ScanLetters(s, i).kind, s[i..ScanLetters(s, i).next], i))
  {
    var j := ScanLetters(s, i).next;
    var w := s[i..j];
    var e := RunEnd(s, i, Letters);
    if e < |s| && IsDelimiter(s[e]) {
      RunEndSlice(s, i, j, i, Letters);
      assert w[e - i] == s[e];
    } else {
      RunEndSliceFull(s, i, j, i, Letters);
    }
  }

  lemma SignStepValid(s: string, i: nat)
    requires i < |s| && (s[i] == '+' || s[i] == '-')
    ensures ScanSign(s, i).Emit? ==>
      ValidToken(s, Token(ScanSign(s, i).kind, s[i..ScanSign(s, i).next], i))
  {
    var st := ScanSign(s, i);
    if st.Emit? {
      var j := st.next;
      var w := s[i..j];
      var e := RunEnd(s, i + 1, Spaces);
      RunEndSlice(s, i, j, i + 1, Spaces);
      assert w[e - i] == s[e];
    }
  }

  /** No character of s[i..j] is one the scanner rejects. */
  predicate Accepted(s: string, i: nat, j: nat)
    requires i <= j <= |s|
  {
    forall k :: i <= k < j ==> !IsOther(s[k])
  }

  /** A run of a class whose delimiter (if any) is accepted holds only accepted characters. */
  lemma RunAccepted(s: string, i: nat, cls: CharClass)
    requires i <= |s|
    requires (cls.DigitsOr? || cls.AlnumOr?) ==> IsDelimiter(cls.d)
    ensures Accepted(s, i, RunEnd(s, i, cls))
  {
  }

  lemma DigitsAccepted(s: string, i: nat)
    requires i < |s| && IsDigit(s[i])
    ensures Accepted(s, i, ScanDigits(s, i).next)
  {
    var e := RunEnd(s, i, Digits);
    RunAccepted(s, i, Digits);
    if e < |s| {
      if s[e] == ':' {
        RunAccepted(s, e, TimeChars);
      } else if IsDelimiter(s[e]) {
        var d := s[e];
        if e + 1 < |s| && IsDigit(s[e + 1]) {
          var k := RunEnd(s, e + 1, Digits);
          RunAccepted(s, e + 1, Digits);
          if k < |s| && s[k] == d {
            RunAccepted(s, k, DigitsOr(d));
          }
        } else {
          RunAccepted(s, e + 1, AlnumOr(d));
        }
      }
    }
  }

  lemma LettersAccepted(s: string, i: nat)
    requires i < |s| && IsLetter(s[i])
    ensures Accepted(s, i, ScanLetters(s, i).next)
  {
    var e := RunEnd(s, i, Letters);
    RunAccepted(s, i, Letters);
    if e < |s| && IsDelimiter(s[e]) {
      RunAccepted(s, e, DigitsOr(s[e]));
    }
  }

  lemma SignAccepted(s: string, i: nat)
    requires i < |s| && (s[i] == '+' || s[i] == '-')
    ensures ScanSign(s, i).Emit? ==> Accepted(s, i, ScanSign(s, i).next)
  {
    var e := RunEnd(s, i + 1, Spaces);
    RunAccepted(s, i + 1, Spaces);
    if e < |s| {
      if IsDigit(s[e]) {
        RunAccepted(s, e, TimeChars);
      } else if IsLetter(s[e]) {
        RunAccepted(s, e, Letters);
      }
    }
  }

  /** Every character a turn of the loop consumes belongs to a class the scanner accepts. */
  lemma StepNoOther(s: string, i: nat, rev: Revision)
    requires i < |s|
    ensures !ScanAt(s, i, rev).Stop? ==> Accepted(s, i, ScanAt(s, i, rev).next)
  {
    var c := s[i];
    if IsSpace(c) {
      RunAccepted(s, i, Spaces);
    } else if IsDigit(c) {
      DigitsAccepted(s, i);
    } else if c == '.' {
      RunAccepted(s, i + 1, Digits);
    } else if IsLetter(c) {
      LettersAccepted(s, i);
    } else if c == '+' || c == '-' {
      SignAccepted(s, i);
    }
  }

  /** What one turn of the loop guarantees about what it consumes. */
  lemma StepFacts(s: string, i: nat, rev: Revision)
    requires i < |s|
    ensures ScanAt(s, i, rev).Emit? ==>
      ValidToken(s, Token(ScanAt(s, i, rev).kind, s[i..ScanAt(s, i, rev).next], i))
  {
    var c := s[i];
    if IsSpace(c) {
    } else if IsDigit(c) {
      DigitsStepValid(s, i);
    } else if c == '.' {
      var j := ScanAt(s, i, rev).next;
      RunEndSliceFull(s, i, j, i + 1, Digits);
    } else if IsLetter(c) {
      LettersStepValid(s, i);
    } else if c == '+' || c == '-' {
      SignStepValid(s, i);
    }
  }

  /** Every token is valid, and tokens come in increasing, non-overlapping order. */
  lemma {:induction false} TokensFromValid(s: string, i: nat, rev: Revision)
    requires i <= |s|
    ensures TokensFrom(s, i, rev).Ok? ==> ValidTokens(s, TokensFrom(s, i, rev).value, i)
    decreases |s| - i
  {
    if i < |s| {
      StepFacts(s, i, rev);
      match ScanAt(s, i, rev)
      case Skip(n) =>
        TokensFromValid(s, n, rev);
      case Emit(kind, n) =>
        TokensFromValid(s, n, rev);
      case Stop(_) =>
    }
  }

  /** Every token the scanner emits is a non-empty slice of the lower-cased
      input at its offset, of the kind its text determines, and the tokens
      come in strictly increasing, non-overlapping order. */
  lemma TokenizeValid(input: string, rev: Revision)
    ensures Tokenize(input, rev).Ok? ==> ValidTokens(ToLower(input), Tokenize(input, rev).value, 0)
  {
    TokensFromValid(ToLower(input), 0, rev);
  }

  // ---------------------------------------------------------------------------
  // Nothing but spaces and stray punctuation is dropped.

  /** The characters the scanner passes over without a token: whitespace and
      punctuation other than '.' and '-', which start tokens. */
  predicate Skippable(c: char) {
    IsSpace(c) || (IsPunct(c) && c != '.' && c != '-')
  }

  /** Offset p lies inside some token's text. */
  predicate Covered(ts: seq<Token>, p: int) {
    exists k :: 0 <= k < |ts| && ts[k].idx <= p < ts[k].idx + |ts[k].val|
  }

  /** A skip step passes over skippable characters only. */
  lemma SkipStepSkippable(s: string, i: nat, rev: Revision)
    requires i < |s| && ScanAt(s, i, rev).Skip?
    ensures forall p :: i <= p < ScanAt(s, i, rev).next ==> Skippable(s[p])
  {
  }

  /** Every offset from i on that no token spans holds a skippable character. */
  predicate DropsOnlySkippable(s: string, ts: seq<Token>, i: nat) {
    forall p :: i <= p < |s| && !Covered(ts, p) ==> Skippable(s[p])
  }

  /** A token spanning [i, n) in front of tokens that leave only skippable
      characters from n on leaves only skippable characters from i on. */
  lemma CoverageCons(s: string, t: Token, rest: seq<Token>, i: nat, n: nat)
    requires i <= n <= |s| && t.idx == i && |t.val| == n - i
    requires DropsOnlySkippable(s, rest, n)
    ensures DropsOnlySkippable(s, [t] + rest, i)
  {
    var ts := [t] + rest;
    forall p | i <= p < n
      ensures Covered(ts, p)
    {
      assert ts[0].idx <= p < ts[0].idx + |ts[0].val|;
    }
    forall p | n <= p < |s| && Covered(rest, p)
      ensures Covered(ts, p)
    {
      var k :| 0 <= k < |rest| && rest[k].idx <= p < rest[k].idx + |rest[k].val|;
      assert ts[k + 1] == rest[k];
    }
  }

  lemma {:induction false} TokensFromCoverage(s: string, i: nat, rev: Revision)
    requires i <= |s|
    ensures TokensFrom(s, i, rev).Ok? ==> DropsOnlySkippable(s, TokensFrom(s, i, rev).value, i)
    decreases |s| - i
  {
    if i < |s| {
      match ScanAt(s, i, rev)
      case Skip(n) =>
        SkipStepSkippable(s, i, rev);
        TokensFromCoverage(s, n, rev);
      case Emit(kind, n) =>
        TokensFromCoverage(s, n, rev);
        if TokensFrom(s, n, rev).Ok? {
          CoverageCons(s, Token(kind, s[i..n], i), TokensFrom(s, n, rev).value, i, n);
        }
      case Stop(_) =>
    }
  }

  /** Every character of the lower-cased input that no token spans is
      whitespace or punctuation other than '.' and '-': the scanner drops
      nothing else. */
  lemma TokenizeCoverage(input: string, rev: Revision)
    ensures var s := ToLower(input);
      Tokenize(input, rev).Ok? ==>
        forall p :: 0 <= p < |s| && !Covered(Tokenize(input, rev).value, p) ==> Skippable(s[p])
  {
    TokensFromCoverage(ToLower(input), 0, rev);
  }

  // ---------------------------------------------------------------------------
  // The two revisions agree.

  /** The earlier revision skips a run of spaces one character per turn. */
  lemma {:induction false} EarlierSkipsSpaces(s: string, m: nat, e: nat)
    requires m <= e <= |s| && forall k :: m <= k < e ==> IsSpace(s[k])
    ensures TokensFrom(s, m, Earlier) == TokensFrom(s, e, Earlier)
    decreases e - m
  {
    if m < e {
      assert ScanAt(s, m, Earlier) == Skip(m + 1);
      EarlierSkipsSpaces(s, m + 1, e);
    }
  }

  lemma {:induction false} RevisionsAgreeFrom(s: string, i: nat)
    requires i <= |s|
    ensures TokensFrom(s, i, Current) == TokensFrom(s, i, Earlier)
    decreases |s| - i
  {
    if i < |s| {
      if IsSpace(s[i]) {
        var e := RunEnd(s, i, Spaces);
        RevisionsAgreeFrom(s, e);
        EarlierSkipsSpaces(s, i + 1, e);
      } else {
        assert ScanAt(s, i, Current) == ScanAt(s, i, Earlier);
        match ScanAt(s, i, Current)
        case Skip(n) => RevisionsAgreeFrom(s, n);
        case Emit(_, n) => RevisionsAgreeFrom(s, n);
        case Stop(_) =>
      }
    }
  }

  /** parse.go and token.go scan every input to the same tokens or the same error. */
  lemma RevisionsAgree(input: string)
    ensures Tokenize(input, Current) == Tokenize(input, Earlier)
  {
    RevisionsAgreeFrom(ToLower(input), 0);
  }

  // ---------------------------------------------------------------------------
  // When the scanner fails.

  /** The errors the scanner reports: at a sign that is followed (after
      spaces) by neither a digit nor a letter, or at a character no branch
      accepts, named in the message. */
  predicate ScanError(s: string, e: ParseError) {
    0 <= e.idx < |s|
    && (
      (IsOther(s[e.idx]) && e.description == "unexpected character: " + [s[e.idx]])
      || ((s[e.idx] == '+' || s[e.idx] == '-') && e.description == SignError
          && var k := RunEnd(s, e.idx + 1, Spaces);
             k == |s| || !(IsDigit(s[k]) || IsLetter(s[k]))))
  }

  lemma {:induction false} TokensFromError(s: string, i: nat, rev: Revision)
    requires i <= |s|
    ensures TokensFrom(s, i, rev).Err? ==>
      ScanError(s, TokensFrom(s, i, rev).error) && i <= TokensFrom(s, i, rev).error.idx
    decreases |s| - i
  {
    if i < |s| {
      match ScanAt(s, i, rev)
      case Skip(n) => TokensFromError(s, n, rev);
      case Emit(_, n) => TokensFromError(s, n, rev);
      case Stop(_) =>
    }
  }

  /** Every error names a position of the lower-cased input and one of the two failures. */
  lemma TokenizeError(input: string, rev: Revision)
    ensures Tokenize(input, rev).Err? ==> ScanError(ToLower(input), Tokenize(input, rev).error)
  {
    TokensFromError(ToLower(input), 0, rev);
  }

  lemma {:induction false} OtherStops(s: string, i: nat, p: nat, rev: Revision)
    requires i <= p < |s| && IsOther(s[p])
    ensures TokensFrom(s, i, rev).Err? && TokensFrom(s, i, rev).error.idx <= p
    decreases |s| - i
  {
    StepNoOther(s, i, rev);
    match ScanAt(s, i, rev)
    case Skip(n) => OtherStops(s, n, p, rev);
    case Emit(_, n) => OtherStops(s, n, p, rev);
    case Stop(_) =>
  }

  /** A character the scanner accepts nowhere makes the scan fail, at that
      character or earlier; so a successful scan saw no such character. */
  lemma OtherCharFails(input: string, p: nat, rev: Revision)
    requires p < |input| && IsOther(input[p])
    ensures Tokenize(input, rev).Err? && Tokenize(input, rev).error.idx <= p
  {
    OtherStops(ToLower(input), 0, p, rev);
  }

  /** A sign followed only by spaces and punctuation: the scan fails at the sign. */
  lemma SignWithoutOperand(rev: Revision)
    ensures Tokenize("  +/", rev) == Err(ParseError(SignError, 2))
  {
    var s := ToLower("  +/");
    assert s == "  +/";
    assert RunEnd(s, 3, Spaces) == 3;
    assert ScanAt(s, 2, rev) == Stop(ParseError(SignError, 2));
    if rev == Current {
      assert RunEnd(s, 0, Spaces) == 2;
    } else {
      assert TokensFrom(s, 1, rev) == TokensFrom(s, 2, rev);
    }
  }

  // ---------------------------------------------------------------------------
  // The scanning loop.

  /** `advanceWhen(f)`: move past the characters of the class. */
  method AdvanceWhen(s: string, i: nat, cls: CharClass) returns (j: nat)
    requires i <= |s|
    ensures j == RunEnd(s, i, cls)
  {
    j := i;
    while j < |s| && InClass(s[j], cls)
      invariant i <= j <= |s|
      invariant RunEnd(s, j, cls) == RunEnd(s, i, cls)
      decreases |s| - j
    {
      j := j + 1;
    }
  }

  /** The digit-initial branch of the loop (parse.go:71-117, token.go:64-111). */
  method ScanDigitsRun(s: string, start: nat) returns (kind: TokenType, i: nat)
    requires start < |s| && IsDigit(s[start])
    ensures Emit(kind, i) == ScanDigits(s, start)
  {
    i := AdvanceWhen(s, start, Digits);
    if i >= |s| {
      kind := Number;
    } else if s[i] == ':' {
      i := AdvanceWhen(s, i, TimeChars);
      kind := Time;
    } else if s[i] == '-' || s[i] == '/' || s[i] == '.' {
      kind, i := ScanDelimitedRun(s, i);
    } else {
      kind := Number;
    }
  }

  /** The delimiter branch of the digit-initial case (parse.go:87-114). */
  method ScanDelimitedRun(s: string, e: nat) returns (kind: TokenType, i: nat)
    requires e < |s| && IsDelimiter(s[e])
    ensures Emit(kind, i) == ScanDelimited(s, e)
  {
    var delimiter := s[e];
    i := e + 1;
    if i < |s| && IsDigit(s[i]) {
      i := AdvanceWhen(s, i, Digits);
      kind := Date;
      if delimiter == '.' {
        kind := Number;
      }
      if i < |s| && s[i] == delimiter {
        kind := Date;
        i := AdvanceWhen(s, i, DigitsOr(delimiter));
      }
      return;
    }
    i := AdvanceWhen(s, i, AlnumOr(delimiter));
    kind := Date;
  }

  /** The letter-initial branch of the loop (parse.go:123-136). */
  method ScanLettersRun(s: string, start: nat) returns (kind: TokenType, i: nat)
    requires start < |s| && IsLetter(s[start])
    ensures Emit(kind, i) == ScanLetters(s, start)
  {
    i := AdvanceWhen(s, start, Letters);
    kind := String;
    if i < |s| && (s[i] == '-' || s[i] == '/' || s[i] == '.') {
      var delimiter := s[i];
      i := AdvanceWhen(s, i, DigitsOr(delimiter));
      kind := Date;
    }
  }

  /** The sign-initial branch of the loop (parse.go:137-157). */
  method ScanSignRun(s: string, start: nat) returns (st: Step)
    requires start < |s| && (s[start] == '+' || s[start] == '-')
    ensures st == ScanSign(s, start)
  {
    var i := AdvanceWhen(s, start + 1, Spaces);
    if i == |s| {
      return Stop(ParseError(SignError, start));
    }
    if IsDigit(s[i]) {
      i := AdvanceWhen(s, i, TimeChars);
      st := Emit(TZ, i);
    } else if IsLetter(s[i]) {
      i := AdvanceWhen(s, i, Letters);
      st := Emit(Special, i);
    } else {
      st := Stop(ParseError(SignError, start));
    }
  }

  /** One turn of the loop: dispatch on the character at `i`. */
  method ScanStep(s: string, i: nat, rev: Revision) returns (st: Step)
    requires i < |s|
    ensures st == ScanAt(s, i, rev)
  {
    var c := s[i];
    if IsSpace(c) {
      if rev == Current {
        var j := AdvanceWhen(s, i, Spaces);
        st := Skip(j);
      } else {
        st := Skip(i + 1);
      }
    } else if IsDigit(c) {
      var kind, j := ScanDigitsRun(s, i);
      st := Emit(kind, j);
    } else if c == '.' {
      var j := AdvanceWhen(s, i + 1, Digits);
      st := Emit(Number, j);
    } else if IsLetter(c) {
      var kind, j := ScanLettersRun(s, i);
      st := Emit(kind, j);
    } else if c == '+' || c == '-' {
      st := ScanSignRun(s, i);
    } else if IsPunct(c) {
      st := Skip(i + 1);
    } else {
      st := Stop(ParseError("unexpected character: " + [c], i));
    }
  }

  /** `tokenizeDateTime`: lower-case the input, then scan it left to right,
      appending a token per run and stopping at the first error. */
  method TokenizeDateTime(input: string, rev: Revision) returns (r: Result<seq<Token>>)
    ensures r == Tokenize(input, rev)
  {
    var s := ToLower(input);
    var i := 0;
    var ret: seq<Token> := [];
    PrependNil(TokensFrom(s, 0, rev));
    while i < |s|
      invariant i <= |s|
      invariant TokensFrom(s, 0, rev) == Prepend(ret, TokensFrom(s, i, rev))
      decreases |s| - i
    {
      var st := ScanStep(s, i, rev);
      match st
      case Skip(n) =>
        i := n;
      case Emit(kind, n) =>
        var t := Token(kind, s[i..n], i);
        PrependPrepend(ret, [t], TokensFrom(s, n, rev));
        ret := ret + [t];
        i := n;
      case Stop(e) =>
        return Err(e);
    }
    r := Ok(ret);
    assert ret + [] == ret;
  }
}
