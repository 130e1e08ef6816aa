/** The entry point that parses a timestamp with a time zone
    (pgdatetime.go:95-102): tokenize, then decode. */
module PgDateTime {
  import opened Chars
  import opened Types
  import opened Tokenizer
  import opened DecoderSpec
  import opened Decoder

  /** Every Time token the tokenizer emits starts with a run of digits that
      is followed by ':', which is what decodeTime reads the hour from. */
  lemma TokenizedTimesSafe(s: string, rev: Revision)
    ensures Tokenize(s, rev).Ok? ==> TimeTokensSafe(Tokenize(s, rev).value)
  {
    TokenizeValid(s, rev);
    if Tokenize(s, rev).Ok? {
      var ts := Tokenize(s, rev).value;
      forall k | 0 <= k < |ts| && ts[k].kind == Time
        ensures TimeIndexSafe(ts[k].val)
      {
        assert ValidToken(ToLower(s), ts[k]);
        assert TokenShape(Time, ts[k].val);
      }
    }
  }

  /** What ParseTimestampTZ returns: the tokenizer's error unchanged, or the
      decoder's result for the tokens. */
  function ParseTimestamp(ds: DateStyle, loc: Location, s: string): (r: Result<ParseResult>)
    ensures Tokenize(s, Current).Err? ==> r == Err(Tokenize(s, Current).error)
    ensures r.Ok? ==> r.value.typ == AbsoluteTime && r.value.time.loc == loc
  {
    TokenizedTimesSafe(s, Current);
    match Tokenize(s, Current)
    case Err(e) => Err(e)
    case Ok(ts) => Decode(ds, loc, ts)
  }

  /** A timestamp parses only when the tokenizer succeeds and every token
      it finds is a date or a time: a number, a word, a zone or a special
      token alone makes the parse fail. */
  lemma ParsedOnlyDatesAndTimes(ds: DateStyle, loc: Location, s: string)
    requires ParseTimestamp(ds, loc, s).Ok?
    ensures Tokenize(s, Current).Ok?
    ensures var ts := Tokenize(s, Current).value;
      forall k :: 0 <= k < |ts| ==> ts[k].kind == Date || ts[k].kind == Time
  {
  }

  /** ParseTimestampTZ. The instant `now` is not read on the path modelled
      here; the location the result is in is passed as `loc`. */
  method ParseTimestampTZ(ds: DateStyle, loc: Location, s: string) returns (r: Result<ParseResult>)
    ensures r == ParseTimestamp(ds, loc, s)
  {
    var tokens := TokenizeDateTime(s, Current);
    if tokens.Err? {
      return Err(tokens.error);
    }
    TokenizedTimesSafe(s, Current);
    r := DecodeTokens(ds, loc, tokens.value);
  }
}
