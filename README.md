# pgdatetime in Dafny

A model of the core of pgdatetime, a Go re-implementation of PostgreSQL's
timestamp-literal handling, with proofs about it. The core has three stages.

- **Scanner** (`tokenizeDateTime`, parse.go, and its earlier revision in
  token.go). It lower-cases the input and cuts it into tokens (Number,
  String, Date, Time, TZ, Special), each with its text and offset. It skips
  whitespace and stray punctuation, and drops nothing else. It fails on a
  dangling sign or on a character no branch accepts.
- **Decoder** (`decodeTokenState` and `decodeTokens`, parse.go). A state
  object records which date and time fields it has seen. It resolves each
  bare number of a date to year, month or day from that set, the configured
  Order and the number's length. It reads `HH:MM[:SS][.f]` from time tokens
  and refuses every other kind of token.
- **Formatter** (`WriteToBuffer`/`Format`, pgdatetime.go). It writes an
  instant in one of the four DateStyles (ISO, SQL, Postgres, German)
  crossed with three field orders. The output covers BC years, the ISO
  zone offset at hour, minute or second granularity, and the text zone
  suppressed by a fixed prefix.

`ParseTimestampTZ` joins the first two stages.

Modules, in dependency order:

| file | module | contents |
|---|---|---|
| chars.dfy | Chars | ASCII character classes, `strings.ToLower`, the end of an `advanceWhen` run |
| decimal.dfy | Decimal | digit strings and their values, `%d`/`appendInt`, `strconv.ParseInt`, 64-bit wrap-around |
| types.dfy | Types | `DateStyle`, `Order`, `Style`, `ParseError`, tokens, results |
| components.dfy | Components | the `Component` fields, the set used for `seen`, and the bit encodings of component.go |
| tokenizer.dfy | Tokenizer | the scan as functions (both revisions), its properties, and the imperative scanner proved equal to it |
| decoder_spec.dfy | DecoderSpec | each decoder step as a function of the decoder's fields |
| decoder_props.dfy, time_props.dfy | DecoderProps, TimeProps | the resolution table, whole date and time tokens, the token loop |
| decoder.dfy | Decoder | class `DecodeTokenState`, whose methods update its fields in place and are proved equal to DecoderSpec; `DecodeTokens` |
| format.dfy | Formatter | the instant record, the Go layouts written out, class `Buffer`, `WriteToBuffer` and `Format` proved to write `Formatted` |
| format_props.dfy | FormatProps | what the formatted text says: field positions and values, the fraction, the zone suffix, the era |
| pgdatetime.dfy | PgDateTime | `ParseTimestampTZ` |

The scanner and the decoder are imperative in Go. They are modelled twice:
- as functions, about which the lemmas are proved;
- as methods with loops over the same state, each with an `ensures` that
  ties its result or new state to the function.

A `time.Time` is modelled by the fields the formatter reads. Those are the
calendar fields, the weekday, the zone's abbreviation and its offset in
seconds.

Three points where the code's behaviour is easy to misread; the model
follows the code in each:
- With year and day seen but not month, no case of the switch at
  parse.go:219-257 matches, so nothing is assigned (`Resolve` returns
  `None`). No sequence of tokens reaches that combination.
- `.5` is read as 5 microseconds (5000 ns), not half a second. The scanner
  marks a '.' followed by digits as fractional seconds (parse.go:118), and
  `decodeFractionalSecond` (parse.go:329-343) parses the digits after the
  point as one integer count of microseconds, whatever their number
  (`TimeProps.HalfSecondAsWritten`).
- `Format`'s output does not always parse back. The ISO zone suffix, such
  as the "+00" of "2015-12-25 15:30:45+00", is scanned as a TZ token, and
  `decodeTokens` rejects it with "unknown token type" (parse.go:364-365);
  `PgDateTime.ParsedOnlyDatesAndTimes` states that a successful parse holds
  only Date and Time tokens. A fraction of fewer than six digits also comes
  back changed: ".5" is read as 5 µs, which formats as ".000005"
  (`TimeProps.HalfSecondAsWritten`, `FormatProps.FractionIsMicros`).

## Model

| member | source | states |
|---|---|---|
| Chars.ToLower | parse.go:37 | the lower-cased input has the input's length and maps each character through the ASCII case mapping |
| Chars.RunEnd | parse.go:49-53 | `advanceWhen` stops at the first character outside the class, or at the end; every character it passes is in the class |
| Decimal.Wrap64 | parse.go:341 | the product is reduced to the 64-bit range, agrees with the exact value modulo 2^64, and equals it when it fits |
| Decimal.DigitString | pgdatetime.go:87 | `%d` of a non-negative number: canonical digits (no leading zero) that denote the number |
| Decimal.Itoa | pgdatetime.go:87 | `%d` of any integer: never empty, and starts with a digit exactly when the integer is not negative |
| Decimal.NumErrorText | parse.go:270-273 | the text of strconv's error: the function, the quoted input and the reason (syntax or range); used by DecoderProps.ReadDigitsIsParseInt and TimeProps.FractionEmpty |
| Decimal.ItoaInjective | pgdatetime.go:86-90 | different integers are written differently by `%d` |
| Decimal.AppendInt | pgdatetime.go:127 | `%04d` and the two-digit layouts: digits of the value, at least the width long, exactly the width when the value fits |
| Decimal.ParseInt | parse.go:270 | `strconv.ParseInt(s, 10, 64)` only returns values in the int64 range |
| Decimal.ParseIntDigits | parse.go:270 | on a digit string: a syntax error when empty, its value when in range, a range error when too large |
| Decimal.ParseIntItoa | parse.go:270 | ParseInt inverts `%d` on every non-negative int64 |
| Types.ParseError.Error | pgdatetime.go:84-91 | the message is "error parsing datetime at index ", the index, ": " and the description, which ends it |
| Types.ErrorInjective | pgdatetime.go:84-91 | two errors with the same message have the same index and description |
| Components.IotaCodeInjective | component.go:8-41 | the `iota` codes of the fields the decoder marks are distinct |
| Components.IotaBitsAreBinary | component.go:28-40 | the bits used for each field are the binary expansion of its `iota` code |
| Components.IotaMasksCollide | component.go:50 | with the codes as written, the time mask equals the code of Day, so hasSeen(Day) holds after a time token; Year\|Month, Day\|Month and Day\|Month\|Year all equal the code of Year (Findings) |
| Components.MarkSeenIsUnion | parse.go:184-186 | `markSeen`, a bitwise or, encodes the union of the field sets under either encoding |
| Components.OneBitHasSeenIsSubset | parse.go:180-182 | with one bit per field, `hasSeen(c)` holds exactly when every field of c has been seen |
| Tokenizer.ScanDigits | parse.go:71-117 | a digit-initial run always yields a token that consumes at least one character and stays in the input |
| Tokenizer.ScanDelimited | parse.go:87-114 | after a digit run and a delimiter, the branch yields a token past the delimiter |
| Tokenizer.ScanLetters | parse.go:123-136 | a letter-initial run always yields a token that consumes at least one character |
| Tokenizer.ScanSign | parse.go:137-157 | a sign either fails or yields a token past the sign |
| Tokenizer.ScanAt | parse.go:61-163 | every loop turn that does not fail moves the index forward and stays in the input |
| Tokenizer.TokensFrom | parse.go:54-165 | the loop from an offset on: a skip moves on, a token is appended before the rest, a failure ends the scan (characterised by TokensFromValid, TokensFromCoverage and TokensFromError) |
| Tokenizer.Tokenize | parse.go:36-166 | the result of `tokenizeDateTime`, the loop over the lower-cased input from offset 0 (characterised by TokenizeValid, TokenizeCoverage and TokenizeError) |
| Tokenizer.KindOfText | parse.go:71-157 | the token type each branch assigns, recovered from the token's text alone (TokenizeValid proves every token has this kind) |
| Tokenizer.DigitRunToken | parse.go:71-78 | a digit run alone is a valid Number token |
| Tokenizer.DigitTimeToken | parse.go:80-86 | digits then ':' give a Time token of digits, ':' and '.', whose leading digits are followed by ':' |
| Tokenizer.DigitDelimDigitsToken | parse.go:87-109 | digits, a delimiter and digits give a Date, or a Number for two '.'-separated fields, and the token is valid |
| Tokenizer.DigitDelimTextToken | parse.go:110-114 | a delimiter followed by a non-digit gives a Date of letters, digits and that delimiter |
| Tokenizer.DigitsStepValid | parse.go:71-117 | every token of the digit-initial branch is valid |
| Tokenizer.LettersStepValid | parse.go:123-136 | a letter run is a String, or a Date when a delimiter follows, and the token is valid |
| Tokenizer.SignStepValid | parse.go:137-157 | a sign followed by digits is a TZ token, by letters a Special token, and the token is valid |
| Tokenizer.StepNoOther | parse.go:61-163 | a loop turn that does not fail consumes only characters some branch accepts |
| Tokenizer.StepFacts | parse.go:54-59 | every token a loop turn appends is valid |
| Tokenizer.TokensFromValid | parse.go:61-165 | the tokens from an offset on are valid, at or after it, and strictly increasing and non-overlapping |
| Tokenizer.TokenizeValid | parse.go:36-166 | each token is the non-empty lower-cased slice at its offset, its kind is a function of its text, and the tokens are ordered and disjoint |
| Tokenizer.TokensFromCoverage | parse.go:61-165 | from an offset on, every character that no token spans is whitespace or punctuation other than '.' and '-' |
| Tokenizer.TokenizeCoverage | parse.go:36-166 | with the tokens valid and ordered, the scanner drops only whitespace and punctuation other than '.' and '-': every other character of the lower-cased input lies in some token |
| Tokenizer.EarlierSkipsSpaces | token.go:60-62 | the earlier revision passes a run of spaces one character per turn to the same result |
| Tokenizer.RevisionsAgreeFrom | token.go:55-165 | from any offset both revisions give the same tokens or the same error |
| Tokenizer.RevisionsAgree | token.go:35-167 | parse.go's and token.go's scanners agree on every input |
| Tokenizer.TokensFromError | parse.go:143-162 | an error from an offset on is at or after it and is one of the two scanner failures |
| Tokenizer.TokenizeError | parse.go:137-162 | every scanner error is at a sign followed (after spaces) by neither digit nor letter, or at a character no branch accepts, named in the message |
| Tokenizer.OtherStops | parse.go:161-162 | from an offset before an unacceptable character, the scan fails at or before it |
| Tokenizer.OtherCharFails | parse.go:161-162 | an input with a character no branch accepts fails at or before that character |
| Tokenizer.SignWithoutOperand | parse.go:143-156 | `"  +/"` fails at index 2 with "expected letters or characters after + or -" in both revisions |
| Tokenizer.AdvanceWhen | parse.go:49-53 | the loop stops where the run of the class ends |
| Tokenizer.ScanDigitsRun | parse.go:71-117 | the digit-initial branch emits the kind and end that ScanDigits gives |
| Tokenizer.ScanDelimitedRun | parse.go:87-114 | the delimiter branch emits the kind and end that ScanDelimited gives |
| Tokenizer.ScanLettersRun | parse.go:123-136 | the letter branch emits the kind and end that ScanLetters gives |
| Tokenizer.ScanSignRun | parse.go:137-157 | the sign branch does what ScanSign gives |
| Tokenizer.ScanStep | parse.go:62-163 | one turn of the loop does what ScanAt gives, in either revision |
| Tokenizer.TokenizeDateTime | parse.go:36-166 | the scanner returns `Tokenize(input)`, so every property above holds of its result |
| DecoderSpec.ReadDigits | parse.go:265-275 | reading succeeds exactly when the digit run is non-empty and fits int64, with its value; a failure is reported at `idx + end + start` |
| DecoderSpec.Resolve | parse.go:219-254 | the switch on the date fields seen: which field a number is assigned to, from the fields seen, the order and the text's length (characterised by DecoderProps.ResolveFresh and DecoderProps.DateThreeShortFields) |
| DecoderSpec.Assign | parse.go:220-261 | stores the number in the resolved field, marks it seen, and sets is2DigitYear for a two-character year (characterised by DecoderProps.NumberStepEffect) |
| DecoderSpec.NumberStep | parse.go:210-263 | `decodeNumber` never unmarks a field |
| DecoderSpec.DelimiterIndex | parse.go:194 | `strings.IndexAny(val, "/-.")`: -1 exactly when there is no delimiter, otherwise the first one |
| DecoderSpec.IndexOf | parse.go:198 | the first occurrence of the separator |
| DecoderSpec.Split | parse.go:198 | `strings.Split` gives at least one piece and no piece holds the separator |
| DecoderSpec.FieldsStep | parse.go:200-206 | the loop of `decodeDate` never unmarks a field |
| DecoderSpec.DateStep | parse.go:188-208 | `decodeDate` never unmarks a field |
| DecoderSpec.FractionStep | parse.go:329-343 | `decodeFractionalSecond` never unmarks a field |
| DecoderSpec.TimeStep | parse.go:277-327 | `decodeTime` never unmarks a field and leaves the time fields marked, even when it fails |
| DecoderSpec.TimeFrom | parse.go:283-326 | reading the fields of a time never unmarks a field |
| DecoderSpec.TokenStep | parse.go:354-366 | a token never unmarks a field; a time token leaves the time fields marked |
| DecoderSpec.DecodeAll | parse.go:353-367 | `seen` only grows; success means every token was a date or a time |
| DecoderSpec.Decode | parse.go:345-381 | success is always an absolute time in the zone of the reference instant, and every token was a date or a time |
| DecoderProps.ResolveFresh | parse.go:219-257 | a number is only assigned to a date field not yet seen, and is left unassigned exactly when year and day, or all three, are seen |
| DecoderProps.SubsetsOfDateMask | parse.go:219-257 | the switch's cases cover the eight combinations of seen date fields |
| DecoderProps.NumberStepEffect | parse.go:210-263 | a resolved number sets its field and marks it, and a two-character year sets is2DigitYear; an unresolved one changes nothing |
| DecoderProps.ReadWholeNumber | parse.go:265-275 | a whole digit string reads as its value |
| DecoderProps.SplitJoin | parse.go:198 | joining the pieces of a split with the separator gives the token back |
| DecoderProps.SplitThree | parse.go:194-198 | `a-b-c` of digits splits at its first delimiter into a, b and c |
| DecoderProps.FieldsThreeNumbers | parse.go:200-206 | three digit fields are read in turn, each resolved against the fields seen before it |
| DecoderProps.DateThreeNumbers | parse.go:188-208 | a date `a-b-c` of digits is decoded as three numbers in turn |
| DecoderProps.DateThreeShortFields | parse.go:198-206 | with nothing seen and fields under 3 characters: YMD gives year, month, day; DMY gives day, month, year; any other order gives month, day, year; a 2-character year sets is2DigitYear |
| DecoderProps.DateLongYearFirst | parse.go:222-225 | a first field of 3 or more characters gives year, month, day under every order |
| DecoderProps.DateAfterMonthAndDay | parse.go:189-192 | once month and day are seen, a date token changes nothing |
| DecoderProps.DateWithoutSeparator | parse.go:194-197 | a date token without / - . fails at its offset with "expected date separator but found none" |
| DecoderProps.ReadDigitsIsParseInt | parse.go:265-275 | readDigits is strconv.ParseInt on the digit run, with its error reported at `idx + end + start` |
| DecoderProps.ReadDigitsAt | parse.go:265-275 | digits at a position, followed by a non-digit or the end, read as their value and end there |
| DecoderProps.TimeSeenThenTimeFails | parse.go:279-281 | once the time fields are seen, any later time token makes decoding fail |
| DecoderProps.TwoTimeTokensFail | parse.go:279-281 | a token list with two time tokens never decodes |
| DecoderProps.FirstErrorAborts | parse.go:353-363 | after the first failure, the tokens that follow change nothing |
| DecoderProps.UnknownTokenFails | parse.go:364-365 | a token that is neither a date nor a time fails with "unknown token type" at its offset and changes nothing |
| TimeProps.TimeDuplicate | parse.go:279-281 | a time token when the time fields are seen fails with "duplicate time Component" at its offset and changes nothing |
| TimeProps.HourWithoutColon | parse.go:289-292 | an hour not followed by ':' fails at that character |
| TimeProps.FieldUnreadable | parse.go:285-298 | a field whose digits cannot be read is set to 0 and the read error is returned |
| TimeProps.FieldThenEnd | parse.go:300-318 | minutes or seconds that end the token succeed, with the field set |
| TimeProps.MinuteThenTrailingColon | parse.go:307-311 | minutes then a final ':' fail with "expected digits but none found" one past the ':' |
| TimeProps.MinuteThenOther | parse.go:326 | minutes then neither ':' nor '.' fail at that character |
| TimeProps.FieldThenFraction | parse.go:319-324 | minutes or seconds then '.' and digits: Micros is marked and nanos is 1000 times the digits' value |
| TimeProps.SecondThenOther | parse.go:322 | seconds then anything but '.' fail at that character |
| TimeProps.FractionRead | parse.go:336-342 | '.' and digits mark Micros and set nanos to 1000 times their value, modulo 64 bits |
| TimeProps.FractionEmpty | parse.go:337-340 | '.' alone marks Micros and fails one past the '.' with strconv's syntax error |
| TimeProps.TimeHourMinute | parse.go:277-303 | `HH:MM` sets hour and minute, leaves second and nanos as they were, and marks the time fields |
| TimeProps.TimeTrailingColon | parse.go:307-311 | `HH:MM:` fails with "expected digits but none found", hour and minute already set |
| TimeProps.TimeWithFraction | parse.go:277-343 | `HH:MM:SS.F` sets hour, minute, second and nanos = 1000 × F, and marks the time fields and Micros |
| TimeProps.HalfSecondAsWritten | parse.go:337-341 | `12:30:45.5` gives 5000 nanoseconds |
| Decoder.DecodeTokenState.constructor | parse.go:346-351 | the state starts with nothing seen, all fields zero, an absolute-time result, the given style and zone |
| Decoder.DecodeTokenState.HasSeen | parse.go:180-182 | `hasSeen(c)` holds exactly when every field of c is in `seen` |
| Decoder.DecodeTokenState.MarkSeen | parse.go:184-186 | `markSeen` adds the fields to `seen` and changes nothing else |
| Decoder.DecodeTokenState.ReadDigits | parse.go:265-275 | the loop stops at the end of the digit run and the result is DecoderSpec.ReadDigits |
| Decoder.DecodeTokenState.DecodeNumber | parse.go:210-263 | the new fields and the outcome are NumberStep's |
| Decoder.DecodeTokenState.DecodeDate | parse.go:188-208 | the new fields and the outcome are DateStep's |
| Decoder.DecodeTokenState.DecodeFields | parse.go:200-207 | the loop over the pieces, with the offset of each, gives FieldsStep's fields and outcome |
| Decoder.DecodeTokenState.DecodeTime | parse.go:277-298 | the new fields and the outcome are TimeStep's |
| Decoder.DecodeTokenState.DecodeMinutes | parse.go:295-326 | from the minutes on, the fields and outcome are TimeFrom's |
| Decoder.DecodeTokenState.DecodeSeconds | parse.go:312-322 | from the seconds on, the fields and outcome are TimeFrom's |
| Decoder.DecodeTokenState.DecodeFractionalSecond | parse.go:329-343 | the new fields and the outcome are FractionStep's |
| Decoder.DecodeTokens | parse.go:345-381 | the loop returns Decode's result: the first error, or the decoded fields as an absolute time |
| Formatter.GoQuo | pgdatetime.go:169-173 | Go's `/` truncates toward zero: the remainder it leaves lies in [0, b) for a non-negative dividend and in (-b, 0] for a negative one |
| Formatter.GoRem | pgdatetime.go:169-173 | Go's `%`: quotient times divisor plus remainder gives the dividend back, the remainder is smaller than the divisor in magnitude and never has the opposite sign to the dividend |
| Formatter.TrimZeros | pgdatetime.go:105 | trimming leaves a prefix that does not end in '0', followed in the original only by zeros |
| Formatter.Fraction | pgdatetime.go:105 | layout ".999999" (characterised by FormatProps.FractionIsMicros) |
| Formatter.Clock | pgdatetime.go:104-106 | layout " 15:04:05.999999" (characterised by FormatProps.ClockFields and FormatProps.ClockEndsInDigit) |
| Formatter.ZoneAbbrev | pgdatetime.go:113 | layout "MST" is never empty, and is the zone's name whenever it has one |
| Formatter.NumericAbbrev | pgdatetime.go:113 | layout "MST" for a zone without a name: the sign of the offset in whole minutes, then hours and minutes of its magnitude (see FormatProps.NumericAbbrevReadBack) |
| Formatter.TextZone | pgdatetime.go:108-115 | a space, then the abbreviation unless the fixed prefix starts the zone name (characterised by FormatProps.TextZoneSuppressed) |
| Formatter.NumericZone | pgdatetime.go:169-176 | layouts "-07", "-07:00", "-07:00:00" (characterised by FormatProps.NumericZoneParts and FormatProps.IsoZoneSubMinuteWest) |
| Formatter.IsoZone | pgdatetime.go:167-178 | the choice among the three numeric layouts (characterised by FormatProps.IsoZoneRoundTrip) |
| Formatter.MonthAbbrev | pgdatetime.go:156 | layout "Jan": Go's three-letter month names, January first |
| Formatter.WeekdayAbbrev | pgdatetime.go:156 | layout "Mon": Go's three-letter weekday names, Sunday first |
| Formatter.DateTime | pgdatetime.go:129-166 | the date and time of each style (characterised by FormatProps.DateLayout, FormatProps.DateFieldsReadBack and FormatProps.OrderOnlyForSQL) |
| Formatter.SqlDateTime | pgdatetime.go:130-143 | the SQL date in the configured order (characterised by FormatProps.DateLayout) |
| Formatter.GermanDateTime | pgdatetime.go:147-151 | day.month.year and the time (characterised by FormatProps.DateLayout) |
| Formatter.PostgresDateTime | pgdatetime.go:155-157 | weekday, month, day, the time, then the year |
| Formatter.IsoDateTime | pgdatetime.go:161-165 | year-month-day and the time (characterised by FormatProps.DateLayout) |
| Formatter.Zone | pgdatetime.go:144-178 | the zone part: nothing without includeTimeZone, the text zone for SQL, German and Postgres, the numeric suffix otherwise (characterised by FormatProps.NoZoneWithoutFlag, FormatProps.TextZoneSuppressed and FormatProps.IsoZoneRoundTrip) |
| Formatter.Formatted | pgdatetime.go:117-185 | date and time, zone, then " BC" for a year up to 0 (characterised by FormatProps.EraReadBack, FormatProps.EraReadBackWithZone and FormatProps.DateFieldsReadBack) |
| Formatter.DisplayYear | pgdatetime.go:120-125 | the displayed year is always at least 1 |
| Formatter.Buffer.constructor | pgdatetime.go:189 | a new buffer is empty |
| Formatter.Buffer.WriteString | pgdatetime.go:105 | writing appends to the buffer |
| Formatter.WriteTimeToBuffer | pgdatetime.go:104-106 | appends the clock text " HH:MM:SS" and the fraction |
| Formatter.WriteTextTimeZoneToBuffer | pgdatetime.go:108-115 | appends a space and, unless the fixed prefix suppresses it, the zone abbreviation |
| Formatter.WriteSQL | pgdatetime.go:130-146 | appends the SQL date and time and the zone when asked for |
| Formatter.WriteGerman | pgdatetime.go:147-154 | appends the German date and time and the zone when asked for |
| Formatter.WritePostgres | pgdatetime.go:155-160 | appends the Postgres date, time and year and the zone when asked for |
| Formatter.WriteISO | pgdatetime.go:161-179 | appends the ISO date and time and the numeric zone when asked for |
| Formatter.WriteToBuffer | pgdatetime.go:117-185 | appends exactly `Formatted(ds, t, includeTimeZone)`: date and time, zone, then " BC" for a year up to 0 |
| Formatter.Format | pgdatetime.go:187-192 | returns `Formatted(ds, t, includeTimeZone)` |
| FormatProps.FractionIsMicros | pgdatetime.go:105 | the fraction is empty exactly when there are no whole microseconds; otherwise it is '.' and 1-6 digits not ending in '0' that denote the microseconds, truncated |
| FormatProps.ClockFields | pgdatetime.go:104-106 | hour, minute and second read back from fixed positions of the clock text, followed by the fraction |
| FormatProps.DateLayout | pgdatetime.go:129-164 | every style but Postgres writes its three date fields in its order with its separator, then the clock |
| FormatProps.DateFieldsReadBack | pgdatetime.go:126-164 | each date field reads back as its value (the display year for the year) from its position, followed by the separator or the space before the time |
| FormatProps.NumericZoneParts | pgdatetime.go:170-176 | for whole minutes west or any offset east, the "-07", "-07:00" and "-07:00:00" layouts are a sign and two-digit parts of the magnitude |
| FormatProps.IsoZoneRoundTrip | pgdatetime.go:167-178 | the ISO suffix reads back as the offset and uses hours alone for whole hours, hours and minutes for whole minutes, and seconds otherwise |
| FormatProps.IsoZoneSubMinuteWest | pgdatetime.go:173-174 | less than a minute west of UTC the suffix is "+00:00:-ss", which does not read as an offset |
| FormatProps.IsoZoneUtc | pgdatetime.go:169-170 | a zero offset is written "+00" |
| FormatProps.IsoZoneEndsInDigit | pgdatetime.go:167-178 | the ISO zone suffix ends in a digit for every offset, sub-minute offsets west and offsets of 100 hours or more included |
| FormatProps.LayoutEndsInDigit | pgdatetime.go:170-177 | each of Go's "-07", "-07:00" and "-07:00:00" zone layouts ends in a digit for every offset |
| FormatProps.TextZoneSuppressed | pgdatetime.go:108-115 | only the space is written exactly when a non-empty fixed prefix starts the zone name; otherwise the space and the abbreviation |
| FormatProps.ZoneAbbrevFallback | pgdatetime.go:113 | a zone without a name (and an offset under 100 hours) is written as five characters: '-' exactly when the offset in whole minutes, truncated toward zero, is negative, then two-digit hours and minutes (under 60) that read back as that offset in minutes |
| FormatProps.NumericAbbrevReadBack | pgdatetime.go:113 | "+hhmm"/"-hhmm" of a signed minute count under 100 hours reads back as that count |
| FormatProps.NoZoneWithoutFlag | pgdatetime.go:144-167 | without includeTimeZone the output does not depend on the zone name, the offset or the fixed prefix |
| FormatProps.DateTimeIgnoresZone | pgdatetime.go:129-166 | the date and the time read neither the zone nor the fixed prefix |
| FormatProps.OrderOnlyForSQL | pgdatetime.go:147-164 | German, Postgres and ISO write the same text under every order |
| FormatProps.YearIndex | pgdatetime.go:129-164 | the date of every style but Postgres has a year field, at that position of its field order |
| FormatProps.ClockEndsInDigit | pgdatetime.go:104-106 | the clock text ends in a digit |
| FormatProps.DateTimeEndsInDigit | pgdatetime.go:129-166 | every style but Postgres ends its date and time with a digit |
| FormatProps.EraReadBack | pgdatetime.go:119-128 | without the zone, the output ends with " BC" exactly when the year is up to 0, and its year field reads back as the year (1 − year for BC) |
| FormatProps.EraReadBackWithZone | pgdatetime.go:119-185 | with the zone, a year up to 0 still ends the output with " BC" and the year field still reads back as the display year; for ISO (and unknown styles) " BC" ends the output exactly when the year is up to 0 |
| FormatProps.EraAfterZone | pgdatetime.go:181-183 | " BC" written after any zone ends the text, a field before the zone reads back unchanged, and a zone ending in a digit cannot be mistaken for the era |
| PgDateTime.TokenizedTimesSafe | parse.go:80-86 | every Time token the scanner emits has ':' after its leading digits, so the index at parse.go:290 is in range |
| PgDateTime.ParseTimestamp | pgdatetime.go:96-102 | a scanner error is returned unchanged; a success is an absolute time in the given zone |
| PgDateTime.ParsedOnlyDatesAndTimes | parse.go:364-365 | a timestamp parses only if scanning succeeds and every token is a date or a time |
| PgDateTime.ParseTimestampTZ | pgdatetime.go:95-102 | scanning then decoding returns ParseTimestamp's result |

## Left out

- Unicode: `unicode.IsDigit/IsLetter/IsSpace/IsPunct` and `strings.ToLower` are modelled on ASCII. A character outside ASCII is one no branch accepts.
- `time.Date` and its calendar normalisation (parse.go:370-379) are a library call. The decoder's result is the raw field record and the zone.
- The reference instant `now`: only its location is read. `ParseTimestampTZ`, `DecodeTokens` and `Decode` take that location as a parameter.
- Go's layout engine (`t.Format`) is not modelled. The layouts used are written out as the padding and trimming they do. These are `Two`, `Four`, `Fraction`, `ZoneAbbrev`, `NumericZone`, and the month and weekday name tables.
- `t.Zone()`, the weekday and the calendar fields are fields of the instant record, not computed from a moment in time.
- Formatter.WriteToBuffer: the year is an unbounded integer, so the `int64(year)` conversion cannot overflow.
- DecoderSpec.Decode, Decoder.DecodeTokens: they require `TimeTokensSafe`. A Time token's leading digits must be followed by a character, which the scanner guarantees (`PgDateTime.TokenizedTimesSafe`). Go would panic at parse.go:290 otherwise.
- Decoder.DecodeTokenState.DecodeTime: it requires `TimeIndexSafe`, for the same reason.
- `Components`: the fields' bit codes are modelled as sets of bit positions, not as `uint64` arithmetic. The decoder's `seen` is a set of fields.
- `ComponentDateMask` (parse.go:219) is not defined in component.go. It is modelled as the set {Day, Month, Year}.
- `strconv.Quote` in ParseInt's error text is modelled as plain double quotes. That is exact for the strings that reach it, which hold only digits, ':' and '.'.
- `NewParseError` and `NewParseErrorf` are the `ParseError` constructor; each `Sprintf` message is written out where the error is built.
- Tokenizer.RevisionsAgree: token.go:136-139, 151-154 and 160-163 call `NewParseError(description, start)`, the reverse of the `(idx, description)` order declared at pgdatetime.go:75, so token.go would not compile against that declaration. The model reads both revisions' errors as `ParseError(idx, description)`, and the agreement of the two revisions rests on that reading.
- Decimal.Wrap64, DecoderSpec.ReadDigits: Go's `int` is taken to be 64 bits wide. The `int(ret)` conversion at parse.go:274 and the product `micros*1000` at parse.go:341 are modelled with that width; on a 32-bit platform both would differ.
- Some Go functions are split into helper methods so that each proof stays small:
  - `tokenizeDateTime` into `ScanStep`, `ScanDigitsRun`, `ScanDelimitedRun`, `ScanLettersRun`, `ScanSignRun` and `AdvanceWhen`;
  - `decodeDate` into `DecodeDate` and `DecodeFields`;
  - `decodeTime` into `DecodeTime`, `DecodeMinutes` and `DecodeSeconds`;
  - `WriteToBuffer` into `WriteSQL`, `WriteGerman`, `WritePostgres` and `WriteISO`.
- FormatProps.IsoZoneRoundTrip: it holds only for offsets under 100 hours, where the hours fit the two-digit layout.
- FormatProps.ZoneAbbrevFallback: it is stated only for offsets under 100 hours, where the hours fit the two-digit layout.
- The end-to-end example `"12-25-2015 15:30:45.123456"` (MDY, UTC), formatted as ISO `"2015-12-25 15:30:45.123456+00"`, is not proved as one concrete instance. `DecoderProps.DateThreeNumbers`, `TimeProps.TimeWithFraction`, `FormatProps.DateFieldsReadBack`, `FormatProps.FractionIsMicros` and `FormatProps.IsoZoneUtc` cover its parts for all inputs.
- The generated `String()` methods are modelled only for token types (`Types.TypeName`). The relative and infinite result kinds are never produced by this core.
- FormatProps.DateFieldsReadBack, FormatProps.EraReadBack, FormatProps.EraReadBackWithZone: they are stated for display years of at most four digits and for every style but Postgres. Postgres places the year after the time and the day without padding.
- FormatProps.EraReadBackWithZone: for SQL and German with the zone it states only one direction: a year up to 0 makes the text end in " BC". The converse does not hold, because a zone name may itself end in " BC". For ISO the converse is stated for every offset.

## Findings

| source | as written | input that shows it | evidently intended | confidence | as-written member | corrected member |
|---|---|---|---|---|---|---|
| component.go:8-50 | `Component` values are consecutive `iota` numbers (Second 16, Minute 17, Hour 18, Day 19, Month 21, Year 23), and `ComponentTimeMask` is 16\|17\|18 = 19 | after one time token `seen` is 19, so `hasSeen(ComponentDay)` (19 & 19 == 19) holds with no day read; Year\|Month, Day\|Month and Day\|Month\|Year are all 23, the same as `ComponentYear`, so four case labels of the switch at parse.go:219-257 coincide | one bit per field (`1 << iota`), so that `\|` is set union and `hasSeen` is set inclusion | high (not executed) | Components.IotaMasksCollide | Components.OneBitHasSeenIsSubset |

With one bit per field, `hasSeen`/`markSeen` are set inclusion and union
(`Components.OneBitHasSeenIsSubset`, `Components.MarkSeenIsUnion`). The
decoder in this model keeps `seen` as a set of fields, which is that
intended reading.
