/** Records, fields and counts of git's machine-readable output. */
module GitText {
  import opened Protocol

  const NUL: char := '\0'
  const U32_LIMIT: nat := 0x1_0000_0000

  // ---- Fields --------------------------------------------------------------------------------

  /** The index of the first `c`, or the length. */
  function Find(s: string, c: char): (n: nat)
    ensures n <= |s|
    ensures c !in s[..n]
    ensures n < |s| ==> s[n] == c
  {
    if s == [] || s[0] == c then 0
    else
      var n := Find(s[1..], c);
      assert s[..n + 1] == [s[0]] + s[1..][..n];
      n + 1
  }

  lemma {:induction false} FindIs(a: string, c: char, rest: string)
    requires c !in a
    ensures Find(a + [c] + rest, c) == |a|
  {
    if a != [] {
      assert (a + [c] + rest)[1..] == a[1..] + [c] + rest;
      FindIs(a[1..], c, rest);
    }
  }

  lemma {:induction false} FindNone(a: string, c: char)
    requires c !in a
    ensures Find(a, c) == |a|
  {
    if a != [] {
      FindNone(a[1..], c);
    }
  }

  /** At most `n` fields; the last one is all that is left. */
  function SplitN(s: string, n: nat, c: char): (fields: seq<string>)
    requires n > 0
    ensures 0 < |fields| <= n
    decreases n
  {
    var i := Find(s, c);
    if n == 1 || i == |s| then [s] else [s[..i]] + SplitN(s[i + 1..], n - 1, c)
  }

  lemma SplitFirst(a: string, n: nat, c: char, rest: string)
    requires n > 1 && c !in a
    ensures SplitN(a + [c] + rest, n, c) == [a] + SplitN(rest, n - 1, c)
  {
    FindIs(a, c, rest);
    var s := a + [c] + rest;
    assert s[..|a|] == a && s[|a| + 1..] == rest;
  }

  /** Fields ended each by `c`. */
  function Terminated(fields: seq<string>, c: char): string {
    if fields == [] then [] else fields[0] + [c] + Terminated(fields[1..], c)
  }

  predicate Free(fields: seq<string>, c: char) {
    forall f <- fields :: c !in f
  }

  lemma TerminatedUnfolds(fields: seq<string>, c: char, rest: string)
    requires fields != []
    ensures Terminated(fields, c) + rest == fields[0] + [c] + (Terminated(fields[1..], c) + rest)
  {
  }

  lemma NothingTerminated(fields: seq<string>, c: char, rest: string)
    requires fields == []
    ensures Terminated(fields, c) + rest == rest
  {
  }

  lemma Rejoined(fields: seq<string>, rest: seq<string>)
    requires fields != []
    ensures [fields[0]] + (fields[1..] + rest) == fields + rest
  {
  }

  /** Splitting takes terminated fields off one by one, and then what is left. */
  lemma {:induction false} SplitTerminated(fields: seq<string>, c: char, rest: string, k: nat)
    requires Free(fields, c) && k > 0
    ensures SplitN(Terminated(fields, c) + rest, |fields| + k, c) == fields + SplitN(rest, k, c)
    decreases |fields|
  {
    hide SplitN, Terminated;
    if fields == [] {
      NothingTerminated(fields, c, rest);
      assert fields + SplitN(rest, k, c) == SplitN(rest, k, c);
    } else {
      var tail := fields[1..];
      assert fields[0] in fields && forall f <- tail :: f in fields;
      TerminatedUnfolds(fields, c, rest);
      SplitFirst(fields[0], |fields| + k, c, Terminated(tail, c) + rest);
      SplitTerminated(tail, c, rest, k);
      Rejoined(fields, SplitN(rest, k, c));
    }
  }

  lemma SplitWhole(s: string, n: nat, c: char)
    requires n > 0 && (n == 1 || c !in s)
    ensures SplitN(s, n, c) == [s]
  {
    if c !in s {
      FindNone(s, c);
    }
  }

  lemma {:induction false} TerminatedFree(fields: seq<string>, c: char, d: char)
    requires Free(fields, d) && c != d
    ensures d !in Terminated(fields, c)
  {
    if fields != [] {
      assert forall f <- fields[1..] :: f in fields;
      TerminatedFree(fields[1..], c, d);
    }
  }

  // ---- Records -------------------------------------------------------------------------------

  /** The non-empty records of NUL-separated output. */
  function Records(s: string): seq<string>
    decreases |s|
  {
    var n := Find(s, NUL);
    var first := if n == 0 then [] else [s[..n]];
    if n == |s| then first else first + Records(s[n + 1..])
  }

  predicate Printable(record: string) {
    record != [] && NUL !in record
  }

  predicate AllPrintable(records: seq<string>) {
    forall r <- records :: Printable(r)
  }

  /** Printed records are read back. */
  lemma {:induction false} RecordsRoundTrip(records: seq<string>)
    requires AllPrintable(records)
    ensures Records(Terminated(records, NUL)) == records
    decreases |records|
  {
    if records != [] {
      var first, rest := records[0], records[1..];
      assert first in records && forall r <- rest :: r in records;
      RecordsRoundTrip(rest);
      var s := first + [NUL] + Terminated(rest, NUL);
      FindIs(first, NUL, Terminated(rest, NUL));
      assert s[..|first|] == first && s[|first| + 1..] == Terminated(rest, NUL);
    }
  }

  // ---- Counts --------------------------------------------------------------------------------

  predicate Digit(c: char) {
    '0' <= c <= '9'
  }

  /** The decimal digits of `n`. */
  function Decimal(n: nat): (s: string)
    ensures s != [] && forall c <- s :: Digit(c)
  {
    var last := [('0' as int + n % 10) as char];
    if n < 10 then last else Decimal(n / 10) + last
  }

  function Value(s: string): nat
    requires forall c <- s :: Digit(c)
  {
    if s == [] then 0
    else
      var init := s[..|s| - 1];
      assert forall c <- init :: c in s;
      assert s[|s| - 1] in s && Digit(s[|s| - 1]);
      10 * Value(init) + (s[|s| - 1] as int - '0' as int)
  }

  lemma {:induction false} DecimalIsItsValue(n: nat)
    ensures Value(Decimal(n)) == n
  {
    var last := [('0' as int + n % 10) as char];
    if n < 10 {
      assert last[..0] == [];
      assert Value(last) == 10 * Value(last[..0]) + n;
    } else {
      var s := Decimal(n / 10) + last;
      assert s[..|s| - 1] == Decimal(n / 10);
      DecimalIsItsValue(n / 10);
    }
  }

  /** `str::parse::<u32>`: an optional plus sign, then digits, of a value that fits. */
  function ParseU32(s: string): (n: Option<nat>)
    ensures n.Some? ==> n.value < U32_LIMIT
  {
    var digits := if s != [] && s[0] == '+' then s[1..] else s;
    if digits == [] then None
    else if exists c <- digits :: !Digit(c) then None
    else if Value(digits) >= U32_LIMIT then None
    else Some(Value(digits))
  }

  function Zeros(k: nat): string {
    if k == 0 then "" else Zeros(k - 1) + "0"
  }

  lemma LastDigit(v: nat, c: char)
    requires Digit(c)
    ensures Decimal(10 * v + (c as int - '0' as int)) == if v == 0 then [c] else Decimal(v) + [c]
  {
  }

  lemma ValueSplits(init: string, last: char)
    requires Digit(last) && forall c <- init :: Digit(c)
    ensures forall c <- init + [last] :: Digit(c)
    ensures Value(init + [last]) == 10 * Value(init) + (last as int - '0' as int)
  {
    assert (init + [last])[..|init|] == init;
  }

  lemma OneZeroMore(k: nat, last: char)
    ensures |Decimal(0)| == 1 && Zeros(k) + Decimal(0) + [last] == Zeros(k + 1) + [last]
  {
    assert Decimal(0) == "0";
  }

  /** Digits stand for a number exactly when they are its own digits behind some zeros. */
  lemma {:induction false} DigitsStandFor(s: string)
    requires s != [] && forall c <- s :: Digit(c)
    ensures |Decimal(Value(s))| <= |s| && s == Zeros(|s| - |Decimal(Value(s))|) + Decimal(Value(s))
    decreases |s|
  {
    hide Decimal, Value, Zeros;
    var init, last := s[..|s| - 1], s[|s| - 1];
    assert last in s && Digit(last) && forall c <- init :: c in s;
    assert s == init + [last];
    ValueSplits(init, last);
    var v := Value(init);
    LastDigit(v, last);
    if init == [] {
      NothingStands();
      assert s == Zeros(0) + [last];
    } else {
      DigitsStandFor(init);
      var k := |init| - |Decimal(v)|;
      OneZeroMore(k, last);
      assert v != 0 ==> Zeros(k) + Decimal(v) + [last] == Zeros(k) + (Decimal(v) + [last]);
    }
  }

  lemma NothingStands()
    ensures Value("") == 0 && Zeros(0) == ""
  {
  }

  lemma {:induction false} ZerosChangeNothing(k: nat, n: nat)
    ensures var s := Zeros(k) + Decimal(n); (forall c <- s :: Digit(c)) && Value(s) == n
    decreases n
  {
    ZerosAreDigits(k);
    var s := Zeros(k) + Decimal(n);
    var last := ('0' as int + n % 10) as char;
    if n < 10 {
      assert s[..|s| - 1] == Zeros(k) && s[|s| - 1] == last;
    } else {
      ZerosChangeNothing(k, n / 10);
      assert s[..|s| - 1] == Zeros(k) + Decimal(n / 10) && s[|s| - 1] == last;
    }
  }

  lemma {:induction false} ZerosAreDigits(k: nat)
    ensures |Zeros(k)| == k && (forall c <- Zeros(k) :: Digit(c)) && Value(Zeros(k)) == 0
  {
    if k > 0 {
      ZerosAreDigits(k - 1);
      assert Zeros(k)[..k - 1] == Zeros(k - 1) && Zeros(k)[k - 1] == '0';
    }
  }

  /** A field reads as a number exactly when it is that number's digits, behind any zeros and one plus
      sign at most, and the number fits; any other field reads as none. */
  lemma NumberReadExactly(s: string, n: nat)
    ensures ParseU32(s) == Some(n) <==>
              n < U32_LIMIT && exists k: nat :: s == Zeros(k) + Decimal(n) || s == "+" + (Zeros(k) + Decimal(n))
  {
    var digits := if s != [] && s[0] == '+' then s[1..] else s;
    if ParseU32(s) == Some(n) {
      DigitsStandFor(digits);
      var k := |digits| - |Decimal(n)|;
      assert digits == Zeros(k) + Decimal(n);
      assert s == digits || s == "+" + digits;
    }
    if k: nat :| n < U32_LIMIT && (s == Zeros(k) + Decimal(n) || s == "+" + (Zeros(k) + Decimal(n))) {
      WrittenIsRead(s, k, n);
    }
  }

  lemma WrittenIsRead(s: string, k: nat, n: nat)
    requires n < U32_LIMIT && (s == Zeros(k) + Decimal(n) || s == "+" + (Zeros(k) + Decimal(n)))
    ensures ParseU32(s) == Some(n)
  {
    ZerosChangeNothing(k, n);
    var plain := Zeros(k) + Decimal(n);
    assert plain[0] in plain && plain[0] != '+';
    hide Zeros, Decimal;
    assert (if s != [] && s[0] == '+' then s[1..] else s) == plain;
  }

  /** A numstat count; `-` stands for a binary file. */
  function ParseCount(field: string): (n: Option<nat>)
    ensures n.Some? ==> n.value < U32_LIMIT
  {
    if field == "-" then None else ParseU32(field)
  }

  function PrintCount(count: Option<nat>): string {
    match count
    case None => "-"
    case Some(n) => Decimal(n)
  }

  predicate CountFits(count: Option<nat>) {
    count.Some? ==> count.value < U32_LIMIT
  }

  lemma CountRoundTrip(count: Option<nat>)
    requires CountFits(count)
    ensures ParseCount(PrintCount(count)) == count
    ensures PrintCount(count) != [] && '\t' !in PrintCount(count) && NUL !in PrintCount(count)
    ensures PrintCount(count)[0] == '-' || Digit(PrintCount(count)[0])
  {
    if count.Some? {
      var s := Decimal(count.value);
      DecimalIsItsValue(count.value);
      assert s[0] in s && Digit(s[0]);
    }
  }
}
