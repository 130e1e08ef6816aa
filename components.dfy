/** The fields the decoder records as seen (component.go, parse.go:180-186).
    The decoder's `seen` value is modelled as a set of fields. component.go
    numbers the fields with consecutive integers, which does not make them
    distinct bits; both encodings are written out below and compared.

    A `Component` is a `uint64`; an unsigned integer is modelled here by the
    set of the positions of its one bits, so that `|` is union, `&` is
    intersection and `hasSeen` (`seen & c == c`) is `seen * c == c`. */
module Components {

  /** The fields of component.go that the decoder marks. */
  datatype Component = Second | Minute | Hour | Day | Month | Year | Micros

  /** ComponentTimeMask: the time-of-day fields. */
  const TimeMask: set<Component> := {Hour, Minute, Second}

  /** ComponentDateMask: the calendar-date fields. */
  const DateMask: set<Component> := {Day, Month, Year}

  /** The bits of an unsigned integer: the positions of its one bits. */
  type Bits = set<nat>

  /** The binary expansion of `n`. */
  function BitsOf(n: nat): Bits
    decreases n
  {
    if n == 0 then {} else (if n % 2 == 1 then {0} else {}) + set k | k in BitsOf(n / 2) :: k + 1
  }

  /** The position of each field in component.go's `iota` list. */
  function IotaCode(c: Component): nat {
    match c
    case Second => 16
    case Minute => 17
    case Hour => 18
    case Day => 19
    case Month => 21
    case Year => 23
    case Micros => 28
  }

  /** Different fields have different positions. */
  lemma IotaCodeInjective(x: Component, y: Component)
    ensures IotaCode(x) == IotaCode(y) <==> x == y
  {
  }

  /** The two encodings of a field as an integer: as written in component.go
      (the position in the `iota` list) and as evidently intended (one bit per
      field, `1 << iota`). */
  datatype Encoding = Iota | OneBit

  /** The bits of a field's code. */
  function Code(enc: Encoding, c: Component): Bits {
    match enc
    case Iota => IotaBits(c)
    case OneBit => {IotaCode(c)}
  }

  /** The binary expansion of each field's position in the `iota` list
      (proved to be `BitsOf(IotaCode(c))` by IotaBitsAreBinary). */
  function IotaBits(c: Component): Bits {
    match c
    case Second => {4}
    case Minute => {0, 4}
    case Hour => {1, 4}
    case Day => {0, 1, 4}
    case Month => {0, 2, 4}
    case Year => {0, 1, 2, 4}
    case Micros => {2, 3, 4}
  }

  /** A field's contribution to the encoding of a set. */
  function Term(enc: Encoding, s: set<Component>, x: Component): Bits {
    if x in s then Code(enc, x) else {}
  }

  /** A set of fields as the bitwise or of its fields' codes. */
  function Encode(enc: Encoding, s: set<Component>): Bits {
    Term(enc, s, Second) + Term(enc, s, Minute) + Term(enc, s, Hour) + Term(enc, s, Day)
    + Term(enc, s, Month) + Term(enc, s, Year) + Term(enc, s, Micros)
  }

  /** `hasSeen`: every bit of `c` is set in `seen`. */
  predicate BitsHasSeen(seen: Bits, c: Bits) {
    seen * c == c
  }

  // ---------------------------------------------------------------------------
  // The codes as written

  /** The binary expansions of the time fields' positions. */
  lemma TimeBits()
    ensures BitsOf(16) == {4} && BitsOf(17) == {0, 4} && BitsOf(18) == {1, 4} && BitsOf(19) == {0, 1, 4}
  {
    assert BitsOf(1) == {0};
    assert BitsOf(2) == {1};
    assert BitsOf(4) == {2};
    assert BitsOf(8) == {3};
    assert BitsOf(9) == {0, 3};
  }

  /** The binary expansions of Month's and Year's positions. */
  lemma YearMonthBits()
    ensures BitsOf(21) == {0, 2, 4} && BitsOf(23) == {0, 1, 2, 4}
  {
    assert BitsOf(1) == {0};
    assert BitsOf(2) == {1};
    assert BitsOf(5) == {0, 2};
    assert BitsOf(10) == {1, 3};
    assert BitsOf(11) == {0, 1, 3};
  }

  /** The binary expansion of Micros' position. */
  lemma MicrosBits()
    ensures BitsOf(28) == {2, 3, 4}
  {
    assert BitsOf(1) == {0};
    assert BitsOf(3) == {0, 1};
    assert BitsOf(7) == {0, 1, 2};
    assert BitsOf(14) == {1, 2, 3};
  }

  /** The explicit expansions are the binary expansions of the positions. */
  lemma IotaBitsAreBinary(c: Component)
    ensures BitsOf(IotaCode(c)) == IotaBits(c)
  {
    match c
    case Second => TimeBits();
    case Minute => TimeBits();
    case Hour => TimeBits();
    case Day => TimeBits();
    case Month => YearMonthBits();
    case Year => YearMonthBits();
    case Micros => MicrosBits();
  }

  /** With the codes as written, the time mask is the code of Day and
      Year|Month is the code of Year: a decoder that has marked only the time
      fields already "has seen" the day; and Year|Month, Day|Month and
      Day|Month|Year are all the code of Year, so four case labels of the
      switch at parse.go:219-257 are the same value. */
  lemma IotaMasksCollide()
    ensures Encode(Iota, TimeMask) == Code(Iota, Day)
    ensures BitsHasSeen(Encode(Iota, TimeMask), Code(Iota, Day)) && Day !in TimeMask
    ensures Encode(Iota, {Year, Month}) == Code(Iota, Year)
    ensures Encode(Iota, {Day, Month}) == Code(Iota, Year)
    ensures Encode(Iota, DateMask) == Code(Iota, Year)
  {
    var t, ym, dm, ymd := TimeMask, {Year, Month}, {Day, Month}, DateMask;
    assert Encode(Iota, t) == {4} + {0, 4} + {1, 4};
    assert Encode(Iota, ym) == {0, 2, 4} + {0, 1, 2, 4};
    assert Encode(Iota, dm) == {0, 1, 4} + {0, 2, 4};
    assert Encode(Iota, ymd) == {0, 1, 4} + {0, 2, 4} + {0, 1, 2, 4};
  }

  // ---------------------------------------------------------------------------
  // One bit per field

  /** `markSeen` (a bitwise or) is set union, whatever the codes. */
  lemma MarkSeenIsUnion(enc: Encoding, seen: set<Component>, c: set<Component>)
    ensures Encode(enc, seen + c) == Encode(enc, seen) + Encode(enc, c)
  {
  }

  /** With one bit per field, the bit of a field is set exactly when the
      field is in the set. */
  lemma OneBitSelects(s: set<Component>, x: Component)
    ensures IotaCode(x) in Encode(OneBit, s) <==> x in s
  {
  }

  /** With one bit per field, the bitmask test `hasSeen` is set inclusion. */
  lemma OneBitHasSeenIsSubset(seen: set<Component>, c: set<Component>)
    ensures BitsHasSeen(Encode(OneBit, seen), Encode(OneBit, c)) <==> c <= seen
  {
    if c <= seen {
      assert seen + c == seen;
      MarkSeenIsUnion(OneBit, seen, c);
    } else {
      var x :| x in c && x !in seen;
      OneBitSelects(seen, x);
      OneBitSelects(c, x);
      assert IotaCode(x) in Encode(OneBit, c);
    }
  }
}
