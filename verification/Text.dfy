/** Text as bytes: UTF-8 (RFC 3629), lines, decimal numbers. */
module Text {
  type Byte = b: int | 0 <= b < 256

  const NEWLINE: Byte := 10

  // ---- UTF-8 ---------------------------------------------------------------------------------

  predicate Tail(b: Byte) {
    0x80 <= b <= 0xBF
  }

  /** How many bytes the character at the start of `s` takes; 0 when it is not well formed
      (section 4 of RFC 3629). */
  function CharWidth(s: seq<Byte>): (n: nat)
    ensures n <= |s|
    ensures forall i | 0 < i < n :: Tail(s[i])
    ensures n > 0 ==> !Tail(s[0])
  {
    if |s| >= 1 && s[0] <= 0x7F then 1
    else if |s| >= 2 && 0xC2 <= s[0] <= 0xDF && Tail(s[1]) then 2
    else if |s| >= 3 && SecondOfThree(s[0], s[1]) && Tail(s[2]) then 3
    else if |s| >= 4 && SecondOfFour(s[0], s[1]) && Tail(s[2]) && Tail(s[3]) then 4
    else 0
  }

  predicate SecondOfThree(first: Byte, second: Byte) {
    || (first == 0xE0 && 0xA0 <= second <= 0xBF)
    || (0xE1 <= first <= 0xEC && Tail(second))
    || (first == 0xED && 0x80 <= second <= 0x9F)
    || (0xEE <= first <= 0xEF && Tail(second))
  }

  predicate SecondOfFour(first: Byte, second: Byte) {
    || (first == 0xF0 && 0x90 <= second <= 0xBF)
    || (0xF1 <= first <= 0xF3 && Tail(second))
    || (first == 0xF4 && 0x80 <= second <= 0x8F)
  }

  predicate Utf8(s: seq<Byte>)
    decreases |s|
  {
    s == [] || (CharWidth(s) > 0 && Utf8(s[CharWidth(s)..]))
  }

  /** Where a string may be cut: its ends, and wherever a character starts. */
  predicate IsCharBoundary(s: seq<Byte>, i: nat) {
    i == 0 || i == |s| || (i < |s| && !Tail(s[i]))
  }

  lemma PrefixWidth(s: seq<Byte>, i: nat)
    requires CharWidth(s) <= i <= |s|
    requires CharWidth(s) > 0
    ensures CharWidth(s[..i]) == CharWidth(s)
  {
  }

  /** Cutting well-formed text at a boundary leaves two well-formed texts. */
  lemma {:induction false} BoundaryCuts(s: seq<Byte>, i: nat)
    requires Utf8(s) && IsCharBoundary(s, i)
    ensures i <= |s| && Utf8(s[..i]) && Utf8(s[i..])
    decreases |s|
  {
    if i == 0 || i == |s| {
      assert s[..|s|] == s && s[0..] == s;
    } else {
      var n := CharWidth(s);
      BoundaryCuts(s[n..], i - n);
      PrefixWidth(s, i);
      assert s[..i][n..] == s[n..][..i - n];
      assert s[n..][i - n..] == s[i..];
    }
  }

  /** In well-formed text a character starts within any four bytes. */
  lemma {:induction false} BoundaryIsNear(s: seq<Byte>, i: nat) returns (near: nat)
    requires Utf8(s) && i <= |s|
    ensures i <= near <= i + 3 && near <= |s| && IsCharBoundary(s, near)
    decreases |s|
  {
    if i == 0 {
      near := 0;
    } else {
      var n := CharWidth(s);
      assert n <= 4;
      if i < n {
        near := n;
        if n < |s| {
          assert s[n..][0] == s[n];
          assert CharWidth(s[n..]) > 0;
        }
      } else {
        near := BoundaryIsNear(s[n..], i - n);
        if near > 0 && near < |s[n..]| {
          assert s[n..][near] == s[near + n];
        } else if near == 0 && n < |s| {
          assert s[n..][0] == s[n];
          assert CharWidth(s[n..]) > 0;
        }
        near := near + n;
      }
    }
  }

  lemma {:induction false} Utf8Joins(a: seq<Byte>, b: seq<Byte>)
    requires Utf8(a) && Utf8(b)
    ensures Utf8(a + b)
    decreases |a|
  {
    if a == [] {
      assert a + b == b;
    } else {
      var n := CharWidth(a);
      Utf8Joins(a[n..], b);
      assert (a + b)[..|a|] == a;
      PrefixWidthBack(a + b, |a|);
      assert (a + b)[n..] == a[n..] + b;
    }
  }

  lemma PrefixWidthBack(s: seq<Byte>, i: nat)
    requires i <= |s| && CharWidth(s[..i]) > 0
    ensures CharWidth(s) == CharWidth(s[..i])
  {
  }

  // ---- Lines ---------------------------------------------------------------------------------

  /** Split on newlines; a last line without one counts unless it is empty. */
  function Lines(s: seq<Byte>): seq<seq<Byte>>
    decreases |s|
  {
    var n := LineEnd(s);
    if s == [] then []
    else if n == |s| then [s]
    else [s[..n]] + Lines(s[n + 1..])
  }

  /** The index of the first newline, or the length. */
  function LineEnd(s: seq<Byte>): (n: nat)
    ensures n <= |s|
    ensures NEWLINE !in s[..n]
    ensures n < |s| ==> s[n] == NEWLINE
  {
    if s == [] || s[0] == NEWLINE then 0
    else
      var n := LineEnd(s[1..]);
      assert s[..n + 1] == [s[0]] + s[1..][..n];
      n + 1
  }

  lemma {:induction false} LineEndIs(s: seq<Byte>, n: nat)
    requires n <= |s| && NEWLINE !in s[..n] && (n < |s| ==> s[n] == NEWLINE)
    ensures LineEnd(s) == n
  {
    if n > 0 {
      assert s[..n][0] == s[0];
      assert s[1..][..n - 1] == s[..n][1..];
      LineEndIs(s[1..], n - 1);
    }
  }

  function Newlines(s: seq<Byte>): nat {
    if s == [] then 0 else (if s[0] == NEWLINE then 1 else 0) + Newlines(s[1..])
  }

  lemma {:induction false} NewlinesAdd(a: seq<Byte>, b: seq<Byte>)
    ensures Newlines(a + b) == Newlines(a) + Newlines(b)
  {
    if a == [] {
      assert a + b == b;
    } else {
      NewlinesAdd(a[1..], b);
      assert (a + b)[1..] == a[1..] + b;
    }
  }

  lemma {:induction false} NoNewlines(s: seq<Byte>)
    requires NEWLINE !in s
    ensures Newlines(s) == 0
  {
    if s != [] {
      assert forall b <- s[1..] :: b in s;
      NoNewlines(s[1..]);
    }
  }

  /** `command_output_logical_lines`. */
  function LogicalLines(s: seq<Byte>): nat {
    if s == [] then 0 else Newlines(s) + if s[|s| - 1] == NEWLINE then 0 else 1
  }

  /** Terminated text adds its lines to those of what follows. */
  lemma LogicalLinesAdd(a: seq<Byte>, b: seq<Byte>)
    requires a != [] && a[|a| - 1] == NEWLINE
    ensures LogicalLines(a + b) == LogicalLines(a) + LogicalLines(b)
  {
    NewlinesAdd(a, b);
    if b == [] {
      assert a + b == a;
    } else {
      assert (a + b)[|a + b| - 1] == b[|b| - 1];
    }
  }

  lemma OneNewline()
    ensures Newlines([NEWLINE]) == 1
  {
  }

  lemma FirstLineCounts(s: seq<Byte>, n: nat)
    requires n < |s| && NEWLINE !in s[..n] && s[n] == NEWLINE
    ensures LogicalLines(s) == 1 + LogicalLines(s[n + 1..])
  {
    var first, rest := s[..n + 1], s[n + 1..];
    OneNewline();
    hide Newlines;
    NoNewlines(s[..n]);
    assert first == s[..n] + [NEWLINE];
    NewlinesAdd(s[..n], [NEWLINE]);
    assert s == first + rest;
    LogicalLinesAdd(first, rest);
  }

  lemma LastLineCounts(s: seq<Byte>)
    requires s != [] && NEWLINE !in s
    ensures LogicalLines(s) == 1
  {
    NoNewlines(s);
    assert s[|s| - 1] in s;
  }

  lemma LinesUnfold(s: seq<Byte>)
    requires s != []
    ensures var n := LineEnd(s);
            Lines(s) == if n == |s| then [s] else [s[..n]] + Lines(s[n + 1..])
  {
    hide LineEnd;
  }

  lemma NoLines()
    ensures LogicalLines([]) == |Lines([])|
  {
  }

  /** Counting newlines, with one more for an unterminated end, counts the lines. */
  lemma {:induction false} LogicalLinesCountsLines(s: seq<Byte>)
    ensures LogicalLines(s) == |Lines(s)|
    decreases |s|
  {
    hide LogicalLines, LineEnd, Lines;
    if s == [] {
      NoLines();
    } else {
      LinesUnfold(s);
      var n := LineEnd(s);
      if n < |s| {
        FirstLineCounts(s, n);
        LogicalLinesCountsLines(s[n + 1..]);
      } else {
        assert s[..n] == s;
        LastLineCounts(s);
      }
    }
  }

  // ---- Numbers and words ---------------------------------------------------------------------

  function AsciiByte(c: char): (b: Byte)
    ensures b <= 0x7F
  {
    if c as int <= 0x7F then c as int else 0x3F
  }

  /** The bytes of an ASCII string. */
  function Ascii(s: string): (bytes: seq<Byte>)
    ensures |bytes| == |s| && forall b <- bytes :: b <= 0x7F
  {
    seq(|s|, i requires 0 <= i < |s| => AsciiByte(s[i]))
  }

  lemma AsciiAt(s: string, i: nat)
    requires i < |s|
    ensures Ascii(s)[i] == AsciiByte(s[i])
  {
  }

  lemma AsciiHasNoNewline(s: string)
    requires '\n' !in s
    ensures NEWLINE !in Ascii(s)
  {
    forall i | 0 <= i < |s| ensures Ascii(s)[i] != NEWLINE {
      assert s[i] in s;
    }
  }

  lemma {:induction false} AsciiIsUtf8(s: seq<Byte>)
    requires forall b <- s :: b <= 0x7F
    ensures Utf8(s)
  {
    if s != [] {
      assert s[0] in s && CharWidth(s) == 1;
      assert forall b <- s[1..] :: b in s;
      AsciiIsUtf8(s[1..]);
    }
  }

  function Decimal(n: nat): (s: seq<Byte>)
    ensures s != [] && forall b <- s :: 48 <= b <= 57
  {
    if n < 10 then [48 + n] else Decimal(n / 10) + [48 + n % 10]
  }

  predicate DigitByte(b: Byte) {
    48 <= b <= 57
  }

  /** The number a row of digits stands for. */
  function Value(s: seq<Byte>): nat
    requires forall b <- s :: DigitByte(b)
  {
    if s == [] then 0
    else
      var init, last := s[..|s| - 1], s[|s| - 1];
      assert last in s && DigitByte(last) && forall b <- init :: b in s;
      10 * Value(init) + (last as int - 48)
  }

  /** What is printed reads as the number printed. */
  lemma {:induction false} DecimalIsItsValue(n: nat)
    ensures Value(Decimal(n)) == n
  {
    if n < 10 {
      var one := Decimal(n);
      assert one[..0] == [] && one[0] == 48 + n;
      assert Value(one) == 10 * Value(one[..0]) + n;
    } else {
      var s := Decimal(n);
      assert s[..|s| - 1] == Decimal(n / 10);
      DecimalIsItsValue(n / 10);
    }
  }

  lemma OneMoreDigit(n: nat, d: nat)
    requires n > 0 && d < 10
    ensures Decimal(10 * n + d) == Decimal(n) + [(48 + d) as Byte]
  {
  }

  lemma FiveDigits(a: nat, b: nat, c: nat, d: nat, e: nat) returns (n: nat)
    requires 0 < a < 10 && b < 10 && c < 10 && d < 10 && e < 10
    ensures n == 10 * (10 * (10 * (10 * a + b) + c) + d) + e
    ensures Decimal(n) == [(48 + a) as Byte, (48 + b) as Byte, (48 + c) as Byte, (48 + d) as Byte, (48 + e) as Byte]
  {
    var two, three, four := 10 * a + b, 10 * (10 * a + b) + c, 10 * (10 * (10 * a + b) + c) + d;
    n := 10 * four + e;
    assert Decimal(a) == [(48 + a) as Byte];
    hide Decimal;
    OneMoreDigit(a, b);
    OneMoreDigit(two, c);
    OneMoreDigit(three, d);
    OneMoreDigit(four, e);
  }

  /** Every digit, as it is written. */
  lemma DecimalIsWritten()
    ensures Decimal(12345) == Ascii("12345") && Decimal(67890) == Ascii("67890")
  {
    hide Decimal;
    var low := FiveDigits(1, 2, 3, 4, 5);
    var high := FiveDigits(6, 7, 8, 9, 0);
    assert low == 12345 && high == 67890;
    assert Ascii("12345") == [49, 50, 51, 52, 53];
    assert Ascii("67890") == [54, 55, 56, 57, 48];
  }

  /** The digits a text starts with. */
  function LeadingDigits(s: seq<Byte>): (d: seq<Byte>)
    ensures forall b <- d :: DigitByte(b)
  {
    if s == [] || !DigitByte(s[0]) then [] else [s[0]] + LeadingDigits(s[1..])
  }

  lemma {:induction false} DigitsLead(d: seq<Byte>, rest: seq<Byte>)
    requires (forall b <- d :: DigitByte(b)) && (rest == [] || !DigitByte(rest[0]))
    ensures LeadingDigits(d + rest) == d
  {
    if d == [] {
      assert d + rest == rest;
    } else {
      assert d[0] in d && forall b <- d[1..] :: b in d;
      DigitsLead(d[1..], rest);
      assert (d + rest)[1..] == d[1..] + rest;
    }
  }

  /** A larger number takes no fewer digits. */
  lemma {:induction false} DigitsGrow(m: nat, n: nat)
    requires m <= n
    ensures |Decimal(m)| <= |Decimal(n)|
    decreases n
  {
    if m >= 10 {
      DigitsGrow(m / 10, n / 10);
    }
  }

  /** Past one digit a number is well above how many digits it takes. */
  lemma {:induction false} DigitsAreFew(n: nat)
    ensures n < 10 ==> |Decimal(n)| == 1
    ensures n >= 10 ==> 1 < |Decimal(n)| && |Decimal(n)| + 3 < n
  {
    if n >= 10 {
      DigitsAreFew(n / 10);
      if n >= 100 {
        assert |Decimal(n)| + 3 < n / 10 + 1;
      } else {
        assert |Decimal(n / 10)| == 1;
      }
    }
  }

  function Pow10(k: nat): nat {
    if k == 0 then 1 else 10 * Pow10(k - 1)
  }

  lemma {:induction false} DigitsBounded(n: nat, k: nat)
    requires n < Pow10(k) && k > 0
    ensures |Decimal(n)| <= k
    decreases k
  {
    if n >= 10 {
      DigitsBounded(n / 10, k - 1);
    }
  }
}
