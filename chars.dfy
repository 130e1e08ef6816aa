/** Character classes the scanner and the decoder use, restricted to ASCII.
    Go applies unicode.IsSpace/IsDigit/IsLetter/IsPunct to each byte; for
    ASCII bytes these are the classes below. */
module Chars {

  predicate IsDigit(c: char) { '0' <= c <= '9' }

  predicate IsLetter(c: char) { 'a' <= c <= 'z' || 'A' <= c <= 'Z' }

  /** unicode.IsSpace on ASCII: tab, newline, vertical tab, form feed, carriage return, space. */
  predicate IsSpace(c: char) { 9 <= c as int <= 13 || c == ' ' }

  /** unicode.IsPunct on ASCII: the characters of Unicode category P.
      `$ + < = > ^ ` | ~` are symbols (category S), not punctuation. */
  predicate IsPunct(c: char) {
    c in "!\"#%&'()*,-./:;?@[\\]_{}"
  }

  /** A date delimiter, the set `strings.IndexAny(t.val, "/-.")` searches. */
  predicate IsDelimiter(c: char) { c == '-' || c == '/' || c == '.' }

  function LowerChar(c: char): (r: char)
    ensures 'A' <= c <= 'Z' ==> r as int == c as int + 32
    ensures !('A' <= c <= 'Z') ==> r == c
  {
    if 'A' <= c <= 'Z' then (c as int + 32) as char else c
  }

  /** strings.ToLower restricted to ASCII case mapping. */
  function ToLower(s: string): (r: string)
    ensures |r| == |s|
    ensures forall k :: 0 <= k < |s| ==> r[k] == LowerChar(s[k])
  {
    seq(|s|, k requires 0 <= k < |s| => LowerChar(s[k]))
  }

  /** The predicates handed to `advanceWhen` in the scanner. */
  datatype CharClass =
    | Spaces                 // unicode.IsSpace
    | Digits                 // isDigit
    | Letters                // isLetter
    | TimeChars              // isDigit(b) || b == ':' || b == '.'
    | DigitsOr(d: char)      // isDigit(b) || b == delimiter
    | AlnumOr(d: char)       // isLetterOrDigit(b) || b == delimiter

  predicate InClass(c: char, cls: CharClass) {
    match cls
    case Spaces => IsSpace(c)
    case Digits => IsDigit(c)
    case Letters => IsLetter(c)
    case TimeChars => IsDigit(c) || c == ':' || c == '.'
    case DigitsOr(d) => IsDigit(c) || c == d
    case AlnumOr(d) => IsLetter(c) || IsDigit(c) || c == d
  }

  /** Where `advanceWhen(cls)` stops when started at `i`: the end of the
      longest run of characters of the class. */
  function RunEnd(s: string, i: nat, cls: CharClass): (j: nat)
    requires i <= |s|
    ensures i <= j <= |s|
    ensures forall k :: i <= k < j ==> InClass(s[k], cls)
    ensures j == |s| || !InClass(s[j], cls)
    decreases |s| - i
  {
    if i == |s| || !InClass(s[i], cls) then i else RunEnd(s, i + 1, cls)
  }

  /** The two properties of RunEnd determine it. */
  lemma RunEndUnique(s: string, i: nat, cls: CharClass, j: nat)
    requires i <= j <= |s|
    requires forall k :: i <= k < j ==> InClass(s[k], cls)
    requires j == |s| || !InClass(s[j], cls)
    ensures RunEnd(s, i, cls) == j
  {
  }

  /** Starting inside a run does not move its end. */
  lemma RunEndFromInside(s: string, i: nat, m: nat, cls: CharClass)
    requires i <= |s| && i <= m <= RunEnd(s, i, cls)
    ensures RunEnd(s, m, cls) == RunEnd(s, i, cls)
  {
    RunEndUnique(s, m, cls, RunEnd(s, i, cls));
  }

  /** A run measured in a window `s[a..b]` that contains the run's end. */
  lemma RunEndSlice(s: string, a: nat, b: nat, i: nat, cls: CharClass)
    requires a <= i <= b <= |s|
    requires RunEnd(s, i, cls) <= b
    ensures RunEnd(s[a..b], i - a, cls) == RunEnd(s, i, cls) - a
  {
    var e := RunEnd(s, i, cls);
    var w := s[a..b];
    assert forall k :: i - a <= k < e - a ==> w[k] == s[k + a];
    RunEndUnique(w, i - a, cls, e - a);
  }

  /** A run that reaches the end of a window `s[a..b]` and continues past it. */
  lemma RunEndSliceFull(s: string, a: nat, b: nat, i: nat, cls: CharClass)
    requires a <= i <= b <= |s|
    requires b <= RunEnd(s, i, cls)
    ensures RunEnd(s[a..b], i - a, cls) == b - a
  {
    var w := s[a..b];
    assert forall k :: i - a <= k < b - a ==> w[k] == s[k + a];
    RunEndUnique(w, i - a, cls, b - a);
  }
}
