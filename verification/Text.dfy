/** Joining and splitting at a separator, and decimal numbers. */
module Text {
  // ---- joining and splitting ----

  function Join(parts: seq<string>, sep: char): string {
    if parts == [] then ""
    else if |parts| == 1 then parts[0]
    else parts[0] + [sep] + Join(parts[1..], sep)
  }

  function Index(text: string, sep: char): (n: nat)
    ensures n <= |text| && sep !in text[..n] && (n < |text| ==> text[n] == sep)
  {
    if text == "" || text[0] == sep then 0
    else
      var n := Index(text[1..], sep);
      assert text[..n + 1] == [text[0]] + text[1..][..n];
      n + 1
  }

  function Split(text: string, sep: char): seq<string>
    decreases |text|
  {
    var n := Index(text, sep);
    if n == |text| then [text] else [text[..n]] + Split(text[n + 1..], sep)
  }

  lemma {:induction false} IndexAfter(part: string, rest: string, sep: char)
    requires sep !in part && (rest != "" ==> rest[0] == sep)
    ensures Index(part + rest, sep) == |part|
  {
    if part == "" {
      assert part + rest == rest;
    } else {
      assert (part + rest)[1..] == part[1..] + rest;
      IndexAfter(part[1..], rest, sep);
    }
  }

  /** Splitting undoes joining when no part holds the separator. */
  lemma {:induction false} SplitJoin(parts: seq<string>, sep: char)
    requires parts != [] && forall i :: 0 <= i < |parts| ==> sep !in parts[i]
    ensures Split(Join(parts, sep), sep) == parts
  {
    if |parts| == 1 {
      IndexAfter(parts[0], "", sep);
      assert parts[0] + "" == parts[0];
    } else {
      var rest := Join(parts[1..], sep);
      var text := parts[0] + [sep] + rest;
      assert text == parts[0] + ([sep] + rest);
      IndexAfter(parts[0], [sep] + rest, sep);
      assert text[..|parts[0]|] == parts[0] && text[|parts[0]| + 1..] == rest;
      SplitJoin(parts[1..], sep);
    }
  }

  // ---- decimal numbers ----

  predicate Digits(s: string) {
    s != "" && forall i :: 0 <= i < |s| ==> '0' <= s[i] <= '9'
  }

  function Decimal(n: nat): (s: string)
    ensures Digits(s)
  {
    if n < 10 then ['0' + n as char] else Decimal(n / 10) + ['0' + (n % 10) as char]
  }

  function Number(s: string): nat
    requires forall i :: 0 <= i < |s| ==> '0' <= s[i] <= '9'
  {
    if s == "" then 0 else Number(s[..|s| - 1]) * 10 + (s[|s| - 1] as nat - '0' as nat)
  }

  lemma {:induction false} NumberOfDecimal(n: nat)
    ensures Number(Decimal(n)) == n
  {
    if n < 10 {
      assert Decimal(n)[..0] == "";
    } else {
      NumberOfDecimal(n / 10);
      assert Decimal(n)[..|Decimal(n)| - 1] == Decimal(n / 10);
    }
  }

  lemma DecimalInjective(a: nat, b: nat)
    requires Decimal(a) == Decimal(b)
    ensures a == b
  {
    NumberOfDecimal(a);
    NumberOfDecimal(b);
  }
}
