/** Splitting a character stream into log entries, whatever pieces the reader delivers it in. */
module LogLines {
  import opened Sequences

  const MAX_ENTRY_CHARS := 8192
  const READ_BUFFER_CHARS := 4096

  predicate Terminator(c: char) {
    c == '\r' || c == '\n'
  }

  predicate Plain(s: string) {
    forall i :: 0 <= i < |s| ==> !Terminator(s[i])
  }

  // ---- the meaning: lines, each cut into pieces ----

  /** The length of the first line, without its terminator. */
  function LineLength(text: string): (n: nat)
    ensures n <= |text| && Plain(text[..n]) && (n < |text| ==> Terminator(text[n]))
  {
    if text == "" || Terminator(text[0]) then 0 else
      var n := LineLength(text[1..]);
      assert text[..n + 1] == [text[0]] + text[1..][..n];
      n + 1
  }

  /** Carriage return and line feed together end one line. */
  function TerminatorLength(text: string, n: nat): (k: nat)
    requires n < |text|
    ensures n + k <= |text| && k > 0
  {
    if text[n] == '\r' && n + 1 < |text| && text[n + 1] == '\n' then 2 else 1
  }

  /** Full pieces, then what is left: always for a line that was ended, only if there is something for the last one. */
  function Pieces(line: string, ended: bool): seq<string> {
    if |line| >= MAX_ENTRY_CHARS then [line[..MAX_ENTRY_CHARS]] + Pieces(line[MAX_ENTRY_CHARS..], ended)
    else if ended || line != "" then [line]
    else []
  }

  function Entries(text: string): seq<string>
    decreases |text|
  {
    var n := LineLength(text);
    if n == |text| then Pieces(text, false)
    else Pieces(text[..n], true) + Entries(text[n + TerminatorLength(text, n)..])
  }

  /** The text without its terminators. */
  function Stripped(text: string): string {
    if text == "" then "" else (if Terminator(text[0]) then "" else [text[0]]) + Stripped(text[1..])
  }

  // ---- what is still to come from a reader in the middle of the stream ----

  /** The entries emitted from here on, given the buffered characters and whether the last one read was a carriage return. */
  function Rest(entry: string, afterReturn: bool, text: string): seq<string>
    decreases |text|
  {
    if text == "" then (if entry == "" then [] else [entry])
    else if text[0] == '\r' then [entry] + Rest("", true, text[1..])
    else if text[0] == '\n' then (if afterReturn then Rest(entry, false, text[1..]) else [entry] + Rest("", false, text[1..]))
    else
      var longer := entry + [text[0]];
      if |longer| >= MAX_ENTRY_CHARS then [longer] + Rest("", false, text[1..]) else Rest(longer, false, text[1..])
  }

  /** The reader's state means: the buffered characters come first, and a line feed right after a return is skipped. */
  function Meant(entry: string, afterReturn: bool, text: string): string {
    entry + if afterReturn && text != "" && text[0] == '\n' then text[1..] else text
  }

  lemma {:induction false} LineLengthAfter(entry: string, text: string)
    requires Plain(entry)
    ensures LineLength(entry + text) == |entry| + LineLength(text)
  {
    if entry == "" {
      assert entry + text == text;
    } else {
      assert (entry + text)[1..] == entry[1..] + text;
      LineLengthAfter(entry[1..], text);
    }
  }

  lemma EntriesOfPlain(entry: string)
    requires Plain(entry)
    ensures Entries(entry) == Pieces(entry, false)
  {
    LineLengthAfter(entry, "");
    assert entry + "" == entry;
  }

  /** The first line of `entry + terminator + text` is `entry`. */
  lemma EntriesOfLine(entry: string, text: string)
    requires Plain(entry) && text != "" && Terminator(text[0])
    ensures Entries(entry + text) == Pieces(entry, true) + Entries(text[TerminatorLength(text, 0)..])
  {
    LineLengthAfter(entry, text);
    var whole := entry + text;
    var n := LineLength(whole);
    assert n == |entry| && whole[..n] == entry;
    assert TerminatorLength(whole, n) == TerminatorLength(text, 0);
    assert whole[n + TerminatorLength(text, 0)..] == text[TerminatorLength(text, 0)..];
  }

  lemma FullPieceFirst(piece: string, line: string, ended: bool)
    requires |piece| == MAX_ENTRY_CHARS
    ensures Pieces(piece + line, ended) == [piece] + Pieces(line, ended)
  {
    assert (piece + line)[..MAX_ENTRY_CHARS] == piece && (piece + line)[MAX_ENTRY_CHARS..] == line;
  }

  /** A full piece is cut off the front of the line. */
  lemma EntriesOfFullPiece(piece: string, text: string)
    requires Plain(piece) && |piece| == MAX_ENTRY_CHARS
    ensures Entries(piece + text) == [piece] + Entries(text)
  {
    hide Pieces, LineLength;
    LineLengthAfter(piece, text);
    var whole, n := piece + text, LineLength(text);
    FullPieceFirst(piece, text[..n], n < |text|);
    assert whole[..|piece| + n] == piece + text[..n];
    if n == |text| {
      assert whole[..|piece| + n] == whole && text[..n] == text;
    } else {
      assert TerminatorLength(whole, |piece| + n) == TerminatorLength(text, n);
      assert whole[|piece| + n + TerminatorLength(text, n)..] == text[n + TerminatorLength(text, n)..];
    }
  }

  /** The entries still to come are the entries of the text that the reader's state stands for. */
  lemma {:induction false} RestMeans(entry: string, afterReturn: bool, text: string)
    requires Plain(entry) && |entry| < MAX_ENTRY_CHARS && (afterReturn ==> entry == "")
    ensures Rest(entry, afterReturn, text) == Entries(Meant(entry, afterReturn, text))
    decreases |text|
  {
    if text == "" {
      assert Meant(entry, afterReturn, text) == entry;
      EntriesOfPlain(entry);
    } else if text[0] == '\r' {
      assert Meant(entry, afterReturn, text) == entry + text;
      RestMeans("", true, text[1..]);
      EntriesOfLine(entry, text);
      assert Meant("", true, text[1..]) == text[TerminatorLength(text, 0)..];
    } else if text[0] == '\n' {
      RestMeans("", false, text[1..]);
      assert Meant("", false, text[1..]) == text[1..];
      if afterReturn {
        assert Meant(entry, afterReturn, text) == text[1..];
      } else {
        assert Meant(entry, afterReturn, text) == entry + text;
        EntriesOfLine(entry, text);
      }
    } else {
      var longer := entry + [text[0]];
      assert Meant(entry, afterReturn, text) == longer + text[1..];
      if |longer| >= MAX_ENTRY_CHARS {
        RestMeans("", false, text[1..]);
        assert Meant("", false, text[1..]) == text[1..];
        EntriesOfFullPiece(longer, text[1..]);
      } else {
        RestMeans(longer, false, text[1..]);
        assert Meant(longer, false, text[1..]) == longer + text[1..];
      }
    }
  }

  // ---- the reading loop ----

  predicate Delivers(buffers: seq<string>) {
    forall i :: 0 <= i < |buffers| ==> 0 < |buffers[i]| <= READ_BUFFER_CHARS
  }

  /** What reading one character emits, and what is still to come afterwards. */
  lemma ReadOne(entries: seq<string>, entry: string, afterReturn: bool, value: char, text: string)
    ensures
      var all, longer := entries + Rest(entry, afterReturn, [value] + text), entry + [value];
      && (value == '\r' ==> all == (entries + [entry]) + Rest("", true, text))
      && (value == '\n' && afterReturn ==> all == entries + Rest(entry, false, text))
      && (value == '\n' && !afterReturn ==> all == (entries + [entry]) + Rest("", false, text))
      && (!Terminator(value) && |longer| >= MAX_ENTRY_CHARS ==> all == (entries + [longer]) + Rest("", false, text))
      && (!Terminator(value) && |longer| < MAX_ENTRY_CHARS ==> all == entries + Rest(longer, false, text))
  {
    assert ([value] + text)[1..] == text;
  }

  lemma ReadAll(entries: seq<string>, entry: string, afterReturn: bool, buffers: seq<string>)
    ensures entries + Rest(entry, afterReturn, Flatten(buffers[|buffers|..]))
      == if entry == "" then entries else entries + [entry]
  {
  }

  lemma RestOfBuffers(buffers: seq<string>, r: nat)
    requires r < |buffers|
    ensures Flatten(buffers[r..]) == buffers[r] + Flatten(buffers[r + 1..])
  {
    FlattenFirst(buffers[r..]);
  }

  /**
   Reads one buffer after the other and emits an entry at every terminator and at every full piece. The result depends on the
   characters only, not on how the stream was cut into buffers.
   */
  method ReadStream(buffers: seq<string>) returns (entries: seq<string>)
    requires Delivers(buffers)
    ensures entries == Entries(Flatten(buffers))
  {
    hide Rest, Entries, LineLength, Pieces, Flatten;
    ghost var text := Flatten(buffers);
    entries := [];
    var entry, previousWasCarriageReturn := "", false;
    RestMeans("", false, text);
    assert Meant("", false, text) == text;
    for r := 0 to |buffers|
      invariant Plain(entry) && |entry| < MAX_ENTRY_CHARS && (previousWasCarriageReturn ==> entry == "")
      invariant entries + Rest(entry, previousWasCarriageReturn, Flatten(buffers[r..])) == Entries(text)
    {
      var buffer := buffers[r];
      RestOfBuffers(buffers, r);
      ghost var later := Flatten(buffers[r + 1..]);
      assert buffer[0..] + later == Flatten(buffers[r..]);
      for index := 0 to |buffer|
        invariant Plain(entry) && |entry| < MAX_ENTRY_CHARS && (previousWasCarriageReturn ==> entry == "")
        invariant entries + Rest(entry, previousWasCarriageReturn, buffer[index..] + later) == Entries(text)
      {
        var value := buffer[index];
        assert buffer[index..] + later == [value] + (buffer[index + 1..] + later);
        ReadOne(entries, entry, previousWasCarriageReturn, value, buffer[index + 1..] + later);
        if value == '\r' {
          entries := entries + [entry];
          entry := "";
          previousWasCarriageReturn := true;
        } else if value == '\n' {
          if !previousWasCarriageReturn {
            entries := entries + [entry];
            entry := "";
          }
          previousWasCarriageReturn := false;
        } else {
          previousWasCarriageReturn := false;
          entry := entry + [value];
          if |entry| >= MAX_ENTRY_CHARS {
            entries := entries + [entry];
            entry := "";
          }
        }
      }
      assert buffer[|buffer|..] + later == later;
    }
    ReadAll(entries, entry, previousWasCarriageReturn, buffers);
    if |entry| > 0 {
      entries := entries + [entry];
    }
  }

  // ---- what the entries are ----

  lemma {:induction false} PiecesAreShortAndPlain(line: string, ended: bool)
    requires Plain(line)
    ensures forall i :: 0 <= i < |Pieces(line, ended)| ==>
      Plain(Pieces(line, ended)[i]) && |Pieces(line, ended)[i]| <= MAX_ENTRY_CHARS
    ensures Flatten(Pieces(line, ended)) == line
    decreases |line|
  {
    if |line| >= MAX_ENTRY_CHARS {
      PiecesAreShortAndPlain(line[MAX_ENTRY_CHARS..], ended);
      FlattenFirst(Pieces(line, ended));
      assert Pieces(line, ended)[1..] == Pieces(line[MAX_ENTRY_CHARS..], ended);
      assert line[..MAX_ENTRY_CHARS] + line[MAX_ENTRY_CHARS..] == line;
    } else if ended || line != "" {
      assert [line][1..] == [];
    }
  }

  lemma {:induction false} StrippedLine(text: string, n: nat)
    requires n <= |text| && Plain(text[..n])
    ensures Stripped(text) == text[..n] + Stripped(text[n..])
  {
    if n == 0 {
      assert text[0..] == text;
    } else {
      assert text[1..][..n - 1] == text[..n][1..];
      StrippedLine(text[1..], n - 1);
      assert text[1..][n - 1..] == text[n..];
      assert !Terminator(text[..n][0]);
      assert text[..n] == [text[0]] + text[1..][..n - 1];
    }
  }

  /** No entry is longer than a piece or holds a terminator, and the entries together are the text without terminators. */
  lemma {:induction false} EntriesKeepTheText(text: string)
    ensures forall i :: 0 <= i < |Entries(text)| ==> Plain(Entries(text)[i]) && |Entries(text)[i]| <= MAX_ENTRY_CHARS
    ensures Flatten(Entries(text)) == Stripped(text)
    decreases |text|
  {
    var n := LineLength(text);
    StrippedLine(text, n);
    PiecesAreShortAndPlain(text[..n], n < |text|);
    if n == |text| {
      assert text[..n] == text;
    } else {
      var k := TerminatorLength(text, n);
      var rest := text[n + k..];
      EntriesKeepTheText(rest);
      FlattenJoin(Pieces(text[..n], true), Entries(rest));
      SkipsTerminator(text[n..], k);
      assert text[n..][k..] == rest;
    }
  }

  lemma SkipsTerminator(text: string, k: nat)
    requires text != "" && Terminator(text[0]) && k == TerminatorLength(text, 0)
    ensures Stripped(text) == Stripped(text[k..])
  {
    if k == 2 {
      assert text[1..][1..] == text[2..];
    }
  }

  // ---- lines written with any terminators are read back ----

  datatype Ending = CR | LF | CRLF

  function Written(e: Ending): string {
    match e
    case CR => "\r"
    case LF => "\n"
    case CRLF => "\r\n"
  }

  function Joined(lines: seq<string>, endings: seq<Ending>): string
    requires |lines| == |endings|
  {
    if lines == [] then "" else lines[0] + Written(endings[0]) + Joined(lines[1..], endings[1..])
  }

  /** An empty line ended by a line feed right after a bare return reads as the second half of that line's terminator. */
  predicate Unambiguous(lines: seq<string>, endings: seq<Ending>)
    requires |lines| == |endings|
  {
    forall i :: 0 <= i < |lines| - 1 ==> !(endings[i] == CR && lines[i + 1] == "" && endings[i + 1] == LF)
  }

  /** The character after a bare return is not the second half of its terminator. */
  lemma NextCharacter(lines: seq<string>, endings: seq<Ending>)
    requires |lines| == |endings| > 1 && Unambiguous(lines, endings) && endings[0] == CR && Plain(lines[1])
    ensures var rest := Joined(lines[1..], endings[1..]); rest != "" && rest[0] != '\n'
  {
    var first := lines[1] + Written(endings[1]);
    assert Joined(lines[1..], endings[1..]) == first + Joined(lines[1..][1..], endings[1..][1..]);
    assert first[0] == if lines[1] == "" then Written(endings[1])[0] else lines[1][0];
  }

  lemma EntriesOfWritten(line: string, ending: Ending, rest: string)
    requires Plain(line) && |line| < MAX_ENTRY_CHARS && (ending == CR && rest != "" ==> rest[0] != '\n')
    ensures Entries(line + Written(ending) + rest) == [line] + Entries(rest)
  {
    var tail := Written(ending) + rest;
    assert line + Written(ending) + rest == line + tail;
    assert TerminatorLength(tail, 0) == |Written(ending)|;
    EntriesOfLine(line, tail);
    assert tail[|Written(ending)|..] == rest;
  }

  lemma {:induction false} LinesAreReadBack(lines: seq<string>, endings: seq<Ending>)
    requires |lines| == |endings| && Unambiguous(lines, endings)
    requires forall i :: 0 <= i < |lines| ==> Plain(lines[i]) && |lines[i]| < MAX_ENTRY_CHARS
    ensures Entries(Joined(lines, endings)) == lines
  {
    if lines == [] {
      EntriesOfPlain("");
    } else {
      hide Entries;
      if endings[0] == CR && |lines| > 1 { NextCharacter(lines, endings); }
      LinesAreReadBack(lines[1..], endings[1..]);
      EntriesOfWritten(lines[0], endings[0], Joined(lines[1..], endings[1..]));
      assert lines == [lines[0]] + lines[1..];
    }
  }
}
