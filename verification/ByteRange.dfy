/** Single byte ranges of a media request (section 14.1.2 of RFC 9110) and the loop that streams the selected bytes. */
module ByteRange {
  import opened Options
  import opened Sequences
  import opened Text

  // Python refuses to convert longer digit strings to integers.
  const MAX_INT_DIGITS := 4300
  const CHUNK_SIZE := 65536

  // ---- what the standard says ----

  datatype RangeSpec = IntRange(first: nat, last: Option<nat>) | SuffixRange(length: nat)

  datatype Selection = Selection(start: nat, end: nat)

  function Min(a: nat, b: nat): nat { if a <= b then a else b }

  /** Byte `n` of a representation of `size` bytes is one that a range asks for. */
  predicate Asks(range: RangeSpec, size: nat, n: nat) {
    match range
    case IntRange(first, last) => first <= n < size && (last.Some? ==> n <= last.value)
    case SuffixRange(length) => size - length <= n < size
  }

  /** The bytes a range selects from a representation of `size` bytes, if there are any: exactly those it asks for. */
  function Select(range: RangeSpec, size: nat): (r: Option<Selection>)
    ensures r.None? ==> forall n: nat :: !Asks(range, size, n)
    ensures r.Some? ==> r.value.start <= r.value.end < size && Asks(range, size, r.value.start)
    ensures r.Some? ==> forall n: nat :: r.value.start <= n <= r.value.end <==> Asks(range, size, n)
  {
    match range
    case IntRange(first, None) => if first < size then Some(Selection(first, size - 1)) else None
    case IntRange(first, Some(last)) =>
      if first <= last && first < size then Some(Selection(first, Min(last, size - 1))) else None
    case SuffixRange(length) =>
      if length > 0 && size > 0 then Some(Selection(if length < size then size - length else 0, size - 1)) else None
  }

  predicate AllDigits(s: string) {
    forall i :: 0 <= i < |s| ==> '0' <= s[i] <= '9'
  }

  predicate TokenChar(c: char) {
    'a' <= c <= 'z' || 'A' <= c <= 'Z' || '0' <= c <= '9' || c in "!#$%&'*+.^_`|~-"
  }

  function LowerChar(c: char): char {
    if 'A' <= c <= 'Z' then ((c as int) - ('A' as int) + ('a' as int)) as char else c
  }

  function Lower(s: string): (r: string)
    ensures |r| == |s| && forall i :: 0 <= i < |s| ==> r[i] == LowerChar(s[i])
  {
    if s == "" then "" else [LowerChar(s[0])] + Lower(s[1..])
  }

  predicate BytesUnit(unit: string) {
    Lower(unit) == "bytes"
  }

  // ---- the handler's parser ----

  /** The longest prefix of characters that satisfy a class. */
  function Prefix(s: string, inClass: char -> bool): (n: nat)
    ensures n <= |s| && (forall i :: 0 <= i < n ==> inClass(s[i])) && (n < |s| ==> !inClass(s[n]))
  {
    if s == "" || !inClass(s[0]) then 0 else Prefix(s[1..], inClass) + 1
  }

  /** The range unit before the equals sign, if the header has one. */
  function Unit(header: string): Option<string> {
    var n := Prefix(header, TokenChar);
    if n > 0 && n < |header| && header[n] == '=' then Some(header[..n]) else None
  }

  const DIGIT := (c: char) => '0' <= c <= '9'

  datatype RangeText = StartEnd(start: string, end: string) | Suffix(digits: string)

  function MatchRange(value: string): (r: Option<RangeText>)
    ensures r.Some? && r.value.StartEnd? ==> AllDigits(r.value.start) && AllDigits(r.value.end) && r.value.start != ""
    ensures r.Some? && r.value.Suffix? ==> AllDigits(r.value.digits) && r.value.digits != ""
  {
    var n := Prefix(value, DIGIT);
    if n > 0 && n < |value| && value[n] == '-' && AllDigits(value[n + 1..]) then Some(StartEnd(value[..n], value[n + 1..]))
    else if |value| > 1 && value[0] == '-' && AllDigits(value[1..]) then Some(Suffix(value[1..]))
    else None
  }

  function ToInt(digits: string): Option<nat>
    requires AllDigits(digits)
  {
    if |digits| <= MAX_INT_DIGITS then Some(Number(digits)) else None
  }

  function ParseByteRange(header: string, size: nat): Option<Selection> {
    var unit := Unit(header);
    if unit == None || !BytesUnit(unit.value) then None else
      var range := MatchRange(header[|unit.value| + 1..]);
      if range == None then None
      else if range.value.Suffix? then SuffixSelection(ToInt(range.value.digits), size)
      else StartEndSelection(ToInt(range.value.start), range.value.end, size)
  }

  function SuffixSelection(suffix: Option<nat>, size: nat): Option<Selection> {
    if suffix == None || suffix.value <= 0 || size <= 0 then None
    else Some(Selection(if size - suffix.value > 0 then size - suffix.value else 0, size - 1))
  }

  function StartEndSelection(start: Option<nat>, end: string, size: nat): Option<Selection>
    requires AllDigits(end)
  {
    if start == None || start.value >= size then None
    else if end == "" then Some(Selection(start.value, size - 1))
    else if ToInt(end) == None then None
    else
      var last := Min(ToInt(end).value, size - 1);
      if last < start.value then None else Some(Selection(start.value, last))
  }

  /** A range in another unit is ignored. */
  predicate UnsupportedUnit(header: string) {
    Unit(header).Some? && !BytesUnit(Unit(header).value)
  }

  // ---- the parser against the standard ----

  lemma {:induction false} PrefixIs(s: string, n: nat, inClass: char -> bool)
    requires n <= |s| && (forall i :: 0 <= i < n ==> inClass(s[i])) && (n < |s| ==> !inClass(s[n]))
    ensures Prefix(s, inClass) == n
  {
    if n > 0 {
      PrefixIs(s[1..], n - 1, inClass);
    }
  }

  lemma UnitFound(unit: string, rest: string)
    requires BytesUnit(unit)
    ensures Unit(unit + "=" + rest) == Some(unit) && (unit + "=" + rest)[|unit| + 1..] == rest
  {
    var header := unit + "=" + rest;
    assert |unit| == |Lower(unit)| == 5;
    forall i | 0 <= i < |unit| ensures TokenChar(header[i]) {
      assert header[i] == unit[i] && Lower(unit)[i] == LowerChar(unit[i]) == "bytes"[i];
    }
    PrefixIs(header, |unit|, TokenChar);
    assert header[..|unit|] == unit;
  }

  lemma StartEndFound(start: string, end: string)
    requires AllDigits(start) && AllDigits(end) && start != ""
    ensures MatchRange(start + "-" + end) == Some(StartEnd(start, end))
  {
    var value := start + "-" + end;
    PrefixIs(value, |start|, DIGIT);
    assert value[..|start|] == start && value[|start| + 1..] == end;
  }

  lemma SuffixFound(digits: string)
    requires AllDigits(digits) && digits != ""
    ensures MatchRange("-" + digits) == Some(Suffix(digits))
  {
    var value := "-" + digits;
    PrefixIs(value, 0, DIGIT);
    assert value[1..] == digits;
  }

  function RangeOf(start: string, end: string): RangeSpec
    requires AllDigits(start) && AllDigits(end)
  {
    IntRange(Number(start), if end == "" then None else Some(Number(end)))
  }

  lemma StartEndSelects(start: string, end: string, size: nat)
    requires AllDigits(start) && AllDigits(end)
    ensures
      var selected := StartEndSelection(ToInt(start), end, size);
      var meant := Select(RangeOf(start, end), size);
      && (selected == meant <==> meant == None || (|start| <= MAX_INT_DIGITS && |end| <= MAX_INT_DIGITS))
      && (selected.Some? ==> selected == meant)
  {
    hide Number;
  }

  lemma SuffixSelects(digits: string, size: nat)
    requires AllDigits(digits)
    ensures
      var selected, meant := SuffixSelection(ToInt(digits), size), Select(SuffixRange(Number(digits)), size);
      && (selected == meant <==> meant == None || |digits| <= MAX_INT_DIGITS)
      && (selected.Some? ==> selected == meant)
  {
    hide Number;
  }

  lemma ParsesStartEnd(unit: string, start: string, end: string, size: nat)
    requires BytesUnit(unit) && AllDigits(start) && start != "" && AllDigits(end)
    ensures ParseByteRange(unit + "=" + (start + "-" + end), size) == StartEndSelection(ToInt(start), end, size)
  {
    hide Unit, MatchRange, Lower, Number;
    UnitFound(unit, start + "-" + end);
    StartEndFound(start, end);
  }

  lemma ParsesSuffix(unit: string, digits: string, size: nat)
    requires BytesUnit(unit) && AllDigits(digits) && digits != ""
    ensures ParseByteRange(unit + "=" + ("-" + digits), size) == SuffixSelection(ToInt(digits), size)
  {
    hide Unit, MatchRange, Lower, Number;
    UnitFound(unit, "-" + digits);
    SuffixFound(digits);
  }

  /**
   A range from a start to an optional end selects what the standard says exactly when it selects nothing or its numbers are
   short enough to be converted; a satisfiable range with a longer number is refused instead.
   */
  lemma StartEndAgreesIff(unit: string, start: string, end: string, size: nat)
    requires BytesUnit(unit) && AllDigits(start) && start != "" && AllDigits(end)
    ensures
      var parsed := ParseByteRange(unit + "=" + (start + "-" + end), size);
      var meant := Select(RangeOf(start, end), size);
      && (parsed == meant <==> meant == None || (|start| <= MAX_INT_DIGITS && |end| <= MAX_INT_DIGITS))
      && (parsed.Some? ==> parsed == meant)
  {
    hide ParseByteRange, StartEndSelection, Select, Number, Lower;
    ParsesStartEnd(unit, start, end, size);
    StartEndSelects(start, end, size);
  }

  function Zeros(n: nat): (s: string)
    ensures |s| == n && AllDigits(s)
  {
    if n == 0 then "" else Zeros(n - 1) + "0"
  }

  lemma {:induction false} ZerosAreZero(n: nat)
    ensures Number(Zeros(n)) == 0
  {
    if n > 0 {
      ZerosAreZero(n - 1);
      assert Zeros(n)[..n - 1] == Zeros(n - 1);
    }
  }

  /** A header that asks for everything from byte zero, written with too many zeros, is refused although it is satisfiable. */
  lemma LongZeroIsRefused() returns (header: string)
    ensures header == "bytes=" + (Zeros(MAX_INT_DIGITS + 1) + "-" + "")
    ensures Select(RangeOf(Zeros(MAX_INT_DIGITS + 1), ""), 1) == Some(Selection(0, 0))
    ensures ParseByteRange(header, 1) == None
  {
    hide ParseByteRange, Number, Zeros;
    header := "bytes=" + (Zeros(MAX_INT_DIGITS + 1) + "-" + "");
    assert header == "bytes" + "=" + (Zeros(MAX_INT_DIGITS + 1) + "-" + "");
    ZerosAreZero(MAX_INT_DIGITS + 1);
    assert BytesUnit("bytes") by { BytesIsBytes(); }
    StartEndAgreesIff("bytes", Zeros(MAX_INT_DIGITS + 1), "", 1);
  }

  lemma BytesIsBytes()
    ensures BytesUnit("bytes")
  {
    var lower := Lower("bytes");
    assert lower == "bytes";
  }

  /** A suffix range selects the last bytes, all of them if it is long enough, under the same limit. */
  lemma SuffixAgreesIff(unit: string, digits: string, size: nat)
    requires BytesUnit(unit) && AllDigits(digits) && digits != ""
    ensures
      var parsed := ParseByteRange(unit + "=" + ("-" + digits), size);
      var meant := Select(SuffixRange(Number(digits)), size);
      && (parsed == meant <==> meant == None || |digits| <= MAX_INT_DIGITS)
      && (parsed.Some? ==> parsed == meant)
  {
    hide ParseByteRange, SuffixSelection, Select, Number, Lower;
    ParsesSuffix(unit, digits, size);
    SuffixSelects(digits, size);
  }

  /** The header is the unit, an equals sign and one range in decimal digits, leading zeros allowed. */
  ghost predicate Spells(header: string, unit: string, text: RangeText) {
    match text
    case Suffix(digits) => AllDigits(digits) && digits != "" && header == unit + "=" + ("-" + digits)
    case StartEnd(start, end) =>
      AllDigits(start) && start != "" && AllDigits(end) && header == unit + "=" + (start + "-" + end)
  }

  lemma Decomposed(header: string) returns (unit: string, text: RangeText)
    requires Unit(header).Some? && BytesUnit(Unit(header).value)
    requires MatchRange(header[|Unit(header).value| + 1..]).Some?
    ensures BytesUnit(unit) && Spells(header, unit, text)
  {
    hide Lower;
    unit := Unit(header).value;
    var rest := header[|unit| + 1..];
    assert header == unit + "=" + rest;
    text := MatchRange(rest).value;
    match text {
      case Suffix(digits) => assert rest == "-" + digits;
      case StartEnd(start, end) => assert rest == start + "-" + end;
    }
  }

  function Meaning(text: RangeText): RangeSpec
    requires if text.Suffix? then AllDigits(text.digits) else AllDigits(text.start) && AllDigits(text.end)
  {
    if text.Suffix? then SuffixRange(Number(text.digits)) else RangeOf(text.start, text.end)
  }

  /** Everything the parser accepts is a single byte range, and it selects what the standard says, inside the representation. */
  lemma AcceptedAreRanges(header: string, size: nat) returns (unit: string, text: RangeText)
    requires ParseByteRange(header, size).Some?
    ensures BytesUnit(unit) && Spells(header, unit, text) && Select(Meaning(text), size) == ParseByteRange(header, size)
  {
    unit, text := Decomposed(header);
    match text {
      case Suffix(digits) => SuffixAgreesIff(unit, digits, size);
      case StartEnd(start, end) => StartEndAgreesIff(unit, start, end, size);
    }
  }

  // ---- byte by byte ----

  /** Byte `n` is among those the digits of a range ask for. */
  predicate Asked(text: RangeText, size: nat, n: nat) {
    match text
    case StartEnd(start, end) =>
      AllDigits(start) && AllDigits(end) && Number(start) <= n < size && (end != "" ==> n <= Number(end))
    case Suffix(digits) => AllDigits(digits) && size - Number(digits) <= n < size
  }

  predicate TooLong(text: RangeText) {
    match text
    case StartEnd(start, end) => |start| > MAX_INT_DIGITS || |end| > MAX_INT_DIGITS
    case Suffix(digits) => |digits| > MAX_INT_DIGITS
  }

  lemma StartEndAnswers(start: string, end: string, size: nat)
    requires AllDigits(start) && AllDigits(end)
    ensures
      var text, selected := StartEnd(start, end), StartEndSelection(ToInt(start), end, size);
      && (selected.None? ==> TooLong(text) || forall n: nat :: !Asked(text, size, n))
      && (selected.Some? ==>
            !TooLong(text) && Asked(text, size, selected.value.start)
            && forall n: nat :: selected.value.start <= n <= selected.value.end <==> Asked(text, size, n))
  {
    hide Number;
  }

  lemma SuffixAnswers(digits: string, size: nat)
    requires AllDigits(digits)
    ensures
      var text, selected := Suffix(digits), SuffixSelection(ToInt(digits), size);
      && (selected.None? ==> TooLong(text) || forall n: nat :: !Asked(text, size, n))
      && (selected.Some? ==>
            !TooLong(text) && Asked(text, size, selected.value.start)
            && forall n: nat :: selected.value.start <= n <= selected.value.end <==> Asked(text, size, n))
  {
    hide Number;
  }

  /**
   A range in decimal digits is refused exactly when it asks for no byte of the representation or has a number too long to be
   converted; otherwise the answer has every byte it asks for, and no other.
   */
  lemma AnsweredByteByByte(header: string, unit: string, text: RangeText, size: nat)
    requires BytesUnit(unit) && Spells(header, unit, text)
    ensures
      var parsed := ParseByteRange(header, size);
      && (parsed.None? <==> TooLong(text) || forall n: nat :: !Asked(text, size, n))
      && (parsed.Some? ==> forall n: nat :: parsed.value.start <= n <= parsed.value.end <==> Asked(text, size, n))
  {
    hide ParseByteRange, StartEndSelection, SuffixSelection, Asked, TooLong, Lower;
    match text {
      case StartEnd(start, end) =>
        ParsesStartEnd(unit, start, end, size);
        StartEndAnswers(start, end, size);
      case Suffix(digits) =>
        ParsesSuffix(unit, digits, size);
        SuffixAnswers(digits, size);
    }
  }

  /** Nothing but a range in decimal digits is ever answered with a part. */
  lemma AnsweredIsSpelled(header: string, size: nat)
    requires ParseByteRange(header, size).Some?
    ensures exists unit, text :: BytesUnit(unit) && Spells(header, unit, text)
  {
    hide Spells, Select, Meaning;
    var unit, text := AcceptedAreRanges(header, size);
  }

  predicate Token(unit: string) {
    unit != "" && forall i :: 0 <= i < |unit| ==> TokenChar(unit[i])
  }

  /** A range is ignored exactly when the header names another unit before its first equals sign. */
  lemma IgnoredIff(header: string)
    ensures UnsupportedUnit(header) <==>
      exists unit: string, rest: string :: Token(unit) && !BytesUnit(unit) && header == unit + "=" + rest
  {
    hide BytesUnit, TokenChar;
    if UnsupportedUnit(header) {
      var unit := Unit(header).value;
      assert Token(unit) && header == unit + "=" + header[|unit| + 1..];
    }
    forall unit: string, rest: string | Token(unit) && !BytesUnit(unit) && header == unit + "=" + rest
      ensures UnsupportedUnit(header)
    {
      EqualsIsNoToken();
      assert forall i :: 0 <= i < |unit| ==> header[i] == unit[i];
      PrefixIs(header, |unit|, TokenChar);
      assert header[..|unit|] == unit;
    }
  }

  lemma EqualsIsNoToken()
    ensures !TokenChar('=')
  {
  }

  // ---- streaming ----

  /** The bytes from `start` up to `end` as far as there are any. */
  function Slice<T>(content: seq<T>, start: nat, end: nat): seq<T> {
    if start <= end && start <= |content| then content[start..Min(end, |content|)] else []
  }

  /**
   Yields the bytes from `start` up to `end`, or to the end of the file, in chunks; a read may return fewer bytes than asked
   for, but none only at the end of the file.
   */
  method IterMediaRange<T>(content: seq<T>, start: nat, end: Option<nat>, chunkSize: nat) returns (chunks: seq<seq<T>>)
    requires chunkSize > 0 && (end.Some? ==> start <= end.value)
    ensures Flatten(chunks) == Slice(content, start, if end.Some? then end.value else |content|)
    ensures forall i :: 0 <= i < |chunks| ==> 0 < |chunks[i]| <= chunkSize
  {
    chunks := [];
    var position := start;
    var remaining: Option<nat> := if end.None? then None else Some(end.value - start);
    while remaining.None? || remaining.value > 0
      invariant start <= position && (position > |content| ==> position == start)
      invariant remaining.Some? ==> end.Some? && position + remaining.value == end.value
      invariant remaining.None? ==> end.None?
      invariant Flatten(chunks) == if start <= |content| then content[start..position] else []
      invariant start > |content| ==> chunks == []
      invariant forall i :: 0 <= i < |chunks| ==> 0 < |chunks[i]| <= chunkSize
      decreases |content| - position
    {
      var readSize := if remaining.None? then chunkSize else Min(chunkSize, remaining.value);
      if position >= |content| {
        break;
      }
      var available := Min(readSize, |content| - position);
      var got: nat :| 0 < got <= available;
      var chunk := content[position..position + got];
      assert (chunks + [chunk])[..|chunks|] == chunks;
      assert content[start..position] + chunk == content[start..position + got];
      chunks := chunks + [chunk];
      position := position + got;
      if remaining.Some? {
        remaining := Some(remaining.value - got);
      }
    }
    assert start <= |content| ==> position == Min(if end.Some? then end.value else |content|, |content|);
  }

  // ---- the handler ----

  datatype Response =
    | Full(contentLength: nat)
    | Partial(start: nat, end: nat, size: nat, contentLength: nat)
    | NotSatisfiable(size: nat)

  /** The media response: the whole file without a usable range, one slice of it, or nothing. */
  method Media<T>(range: Option<string>, content: seq<T>) returns (response: Response, body: seq<seq<T>>)
    ensures response.Full? <==> range.None? || UnsupportedUnit(range.value)
    ensures response.Full? ==> Flatten(body) == content && response.contentLength == |content|
    ensures response.NotSatisfiable? <==>
      range.Some? && !UnsupportedUnit(range.value) && ParseByteRange(range.value, |content|) == None
    ensures response.NotSatisfiable? ==> response.size == |content| && body == []
    ensures response.Partial? ==>
      && range.Some? && ParseByteRange(range.value, |content|) == Some(Selection(response.start, response.end))
      && response.start <= response.end < response.size == |content|
      && Flatten(body) == content[response.start..response.end + 1] && response.contentLength == |Flatten(body)|
    ensures range.Some? ==> forall unit, text :: BytesUnit(unit) && Spells(range.value, unit, text) ==>
      && (response.NotSatisfiable? <==> TooLong(text) || forall n: nat :: !Asked(text, |content|, n))
      && (response.Partial? ==> forall n: nat :: response.start <= n <= response.end <==> Asked(text, |content|, n))
    ensures response.Partial? ==> exists unit, text :: BytesUnit(unit) && Spells(range.value, unit, text)
  {
    hide ParseByteRange, UnsupportedUnit, Spells, Asked, BytesUnit, TooLong;
    if range.Some? {
      forall unit, text | BytesUnit(unit) && Spells(range.value, unit, text)
        ensures Explains(range.value, text, |content|) && !UnsupportedUnit(range.value)
      {
        AnsweredByteByByte(range.value, unit, text, |content|);
        SpelledIsSupported(range.value, unit, text);
      }
    }
    if range.None? || UnsupportedUnit(range.value) {
      response := Full(|content|);
      body := IterMediaRange(content, 0, None, CHUNK_SIZE);
      return;
    }
    var selection := ParseByteRange(range.value, |content|);
    if selection.None? {
      return NotSatisfiable(|content|), [];
    }
    SelectionInside(range.value, |content|);
    AnsweredIsSpelled(range.value, |content|);
    var start, end := selection.value.start, selection.value.end;
    response := Partial(start, end, |content|, end - start + 1);
    body := IterMediaRange(content, start, Some(end + 1), CHUNK_SIZE);
  }

  /** What is parsed from a header is what a text asks for. */
  ghost predicate Explains(header: string, text: RangeText, size: nat) {
    var parsed := ParseByteRange(header, size);
    && (parsed.None? <==> TooLong(text) || forall n: nat :: !Asked(text, size, n))
    && (parsed.Some? ==> forall n: nat :: parsed.value.start <= n <= parsed.value.end <==> Asked(text, size, n))
  }

  lemma SpelledIsSupported(header: string, unit: string, text: RangeText)
    requires BytesUnit(unit) && Spells(header, unit, text)
    ensures !UnsupportedUnit(header)
  {
    hide Lower, TokenChar;
    match text {
      case Suffix(digits) => UnitFound(unit, "-" + digits);
      case StartEnd(start, end) => UnitFound(unit, start + "-" + end);
    }
  }

  lemma SelectionInside(header: string, size: nat)
    requires ParseByteRange(header, size).Some?
    ensures var r := ParseByteRange(header, size).value; r.start <= r.end < size
  {
    var unit, text := AcceptedAreRanges(header, size);
  }
}
