/** The bounded tail of a command's output. The preview opens with a marker that prints how many
    bytes it leaves out, and the marker's own length decides how many that is. */
module Preview {
  import opened Text

  const PREVIEW_MAX_BYTES: nat := 8 * 1024

  const ELLIPSIS: seq<Byte> := [0xE2, 0x80, 0xA6]

  const MARKER_TEXT: string := " bytes omitted from command output preview "

  function Marker(omitted: nat): seq<Byte> {
    Ascii("[") + ELLIPSIS + Ascii(" ") + Decimal(omitted)
      + Ascii(MARKER_TEXT) + ELLIPSIS + Ascii("]\n")
  }

  const MARKER_WORDS: nat := 53

  /** What stands before the number in a marker: a bracket, the ellipsis, a space. */
  const MARKER_HEAD: nat := 5

  /** The number a reader finds on the first line of a preview. */
  function ReadCount(preview: seq<Byte>): nat {
    if |preview| < MARKER_HEAD then 0 else Value(LeadingDigits(preview[MARKER_HEAD..]))
  }

  /** What a reader finds below it. */
  function ReadTail(preview: seq<Byte>): seq<Byte> {
    if LineEnd(preview) < |preview| then preview[LineEnd(preview) + 1..] else []
  }

  lemma MarkerHasOneNewline(omitted: nat)
    ensures NEWLINE !in Marker(omitted)[..|Marker(omitted)| - 1]
  {
    MarkerLength(omitted);
    var marker := Marker(omitted);
    assert Ascii("]\n") == [0x5D] + [NEWLINE];
    AsciiHasNoNewline("[");
    AsciiHasNoNewline(" ");
    AsciiHasNoNewline(MARKER_TEXT);
    var head := Ascii("[") + ELLIPSIS + Ascii(" ") + Decimal(omitted)
      + Ascii(MARKER_TEXT) + ELLIPSIS;
    assert marker == (head + [0x5D]) + [NEWLINE];
    assert marker[..|marker| - 1] == head + [0x5D];
  }

  lemma MarkerLength(omitted: nat)
    ensures |Marker(omitted)| == MARKER_WORDS + |Decimal(omitted)|
    ensures Marker(omitted)[|Marker(omitted)| - 1] == NEWLINE
  {
    assert |Ascii(MARKER_TEXT)| == 43;
    assert Ascii("]\n")[1] == NEWLINE;
  }

  /** What stands behind the number in a marker. */
  function MarkerTail(): seq<Byte> {
    Ascii(MARKER_TEXT) + ELLIPSIS + Ascii("]\n")
  }

  lemma MarkerSplits(omitted: nat)
    ensures |Marker(omitted)| > MARKER_HEAD && Marker(omitted)[MARKER_HEAD..] == Decimal(omitted) + MarkerTail()
    ensures MarkerTail() != [] && !DigitByte(MarkerTail()[0])
  {
    hide Decimal;
    var head := Ascii("[") + ELLIPSIS + Ascii(" ");
    assert |head| == MARKER_HEAD;
    assert Marker(omitted) == head + (Decimal(omitted) + MarkerTail());
    AsciiAt(MARKER_TEXT, 0);
    assert MarkerTail()[0] == Ascii(MARKER_TEXT)[0];
  }

  lemma DropsInFront(a: seq<Byte>, b: seq<Byte>, k: nat)
    requires k <= |a|
    ensures (a + b)[k..] == a[k..] + b
  {
  }

  /** The number printed is the number read, and the tail shown is the tail read. */
  lemma MarkerIsRead(omitted: nat, tail: seq<Byte>)
    ensures ReadCount(Marker(omitted) + tail) == omitted && ReadTail(Marker(omitted) + tail) == tail
  {
    var marker := Marker(omitted);
    MarkerLength(omitted);
    MarkerHasOneNewline(omitted);
    DecimalIsItsValue(omitted);
    MarkerSplits(omitted);
    hide Marker, Decimal, Value, LeadingDigits, LineEnd, MarkerTail;
    DropsInFront(marker, tail, MARKER_HEAD);
    assert Decimal(omitted) + MarkerTail() + tail == Decimal(omitted) + (MarkerTail() + tail);
    DigitsLead(Decimal(omitted), MarkerTail() + tail);
    assert (marker + tail)[..|marker| - 1] == marker[..|marker| - 1];
    LineEndIs(marker + tail, |marker| - 1);
    assert (marker + tail)[|marker|..] == tail;
  }

  function Minus(a: nat, b: nat): nat {
    if a >= b then a - b else 0
  }

  /** The first place at or after `start` where the text may be cut. */
  function NextBoundary(text: seq<Byte>, start: nat): (cut: nat)
    requires start <= |text|
    ensures start <= cut <= |text| && IsCharBoundary(text, cut)
    ensures forall i | start <= i < cut :: !IsCharBoundary(text, i)
    decreases |text| - start
  {
    if IsCharBoundary(text, start) then start else NextBoundary(text, start + 1)
  }

  /** Where the kept tail starts when the marker prints `omitted`. */
  function Cut(text: seq<Byte>, max: nat, omitted: nat): (cut: nat)
    ensures cut <= |text| && IsCharBoundary(text, cut)
  {
    NextBoundary(text, Minus(|text|, Minus(max, |Marker(omitted)|)))
  }

  /** How many bytes the tail leaves out when the marker prints `omitted`. */
  function LeftOut(text: seq<Byte>, original: nat, max: nat, omitted: nat): (n: nat)
    ensures n <= original
  {
    Minus(original, |text| - Cut(text, max, omitted))
  }

  /** The marker tells the truth. */
  predicate Truthful(text: seq<Byte>, original: nat, max: nat, omitted: nat) {
    LeftOut(text, original, max, omitted) == omitted
  }

  lemma BoundariesGrow(text: seq<Byte>, a: nat, b: nat)
    requires a <= b <= |text|
    ensures NextBoundary(text, a) <= NextBoundary(text, b)
  {
    var cut := NextBoundary(text, b);
    assert IsCharBoundary(text, cut) && a <= cut;
  }

  /** A marker that prints more leaves out no less. */
  lemma LeftOutGrows(text: seq<Byte>, original: nat, max: nat, m: nat, n: nat)
    requires m <= n
    ensures LeftOut(text, original, max, m) <= LeftOut(text, original, max, n)
  {
    DigitsGrow(m, n);
    MarkerLength(m);
    MarkerLength(n);
    hide Marker, NextBoundary;
    BoundariesGrow(text, Minus(|text|, Minus(max, |Marker(m)|)), Minus(|text|, Minus(max, |Marker(n)|)));
  }

  function Shown(text: seq<Byte>, max: nat, omitted: nat): seq<Byte> {
    Marker(omitted) + text[Cut(text, max, omitted)..]
  }

  /** Whether the text is shown whole. */
  predicate Fits(text: seq<Byte>, original: nat, max: nat) {
    original == |text| && |text| <= max
  }

  /** `command_output_tail_preview`: the marker printed is the largest truthful one, `omitted`. */
  method TailPreview(text: seq<Byte>, original: nat, max: nat)
    returns (preview: seq<Byte>, truncated: bool, omitted: nat)
    ensures truncated <==> !Fits(text, original, max)
    ensures !truncated ==> preview == text
    ensures truncated ==>
              && preview == Shown(text, max, omitted)
              && ReadCount(preview) == omitted && ReadTail(preview) == text[Cut(text, max, omitted)..]
              && Truthful(text, original, max, omitted)
              && forall m: nat | Truthful(text, original, max, m) :: m <= omitted
  {
    omitted := original;
    if original == |text| && |text| <= max {
      return text, false, omitted;
    }
    hide Marker, Decimal, ReadCount, ReadTail;
    while true
      invariant LeftOut(text, original, max, omitted) <= omitted
      invariant forall m: nat | Truthful(text, original, max, m) :: m <= omitted
      decreases omitted
    {
      var prefix := Marker(omitted);
      var budget := Minus(max, |prefix|);
      var start := Minus(|text|, budget);
      while !IsCharBoundary(text, start)
        invariant start <= |text| && NextBoundary(text, start) == Cut(text, max, omitted)
        decreases |text| - start
      {
        start := start + 1;
      }
      var actual := Minus(original, |text| - start);
      if actual == omitted {
        MarkerIsRead(omitted, text[start..]);
        return prefix + text[start..], true, omitted;
      }
      forall m: nat | Truthful(text, original, max, m) ensures m <= actual {
        LeftOutGrows(text, original, max, m, omitted);
      }
      LeftOutGrows(text, original, max, actual, omitted);
      omitted := actual;
    }
  }

  /** How much of the text a preview shows beside a one-digit count. */
  function LongestTail(text: seq<Byte>, max: nat): nat {
    |text| - Cut(text, max, 0)
  }

  lemma TailShrinksSlowly(text: seq<Byte>, max: nat, omitted: nat)
    requires Utf8(text)
    ensures Cut(text, max, 0) <= Cut(text, max, omitted) <= Cut(text, max, 0) + |Decimal(omitted)| + 2
  {
    MarkerLength(0);
    MarkerLength(omitted);
    DigitsGrow(0, omitted);
    DigitsAreFew(0);
    var least := Minus(|text|, Minus(max, |Marker(0)|));
    var start := Minus(|text|, Minus(max, |Marker(omitted)|));
    hide Marker, Utf8, Decimal;
    BoundariesGrow(text, least, start);
    var near := BoundaryIsNear(text, start);
    assert NextBoundary(text, start) <= near;
  }

  /** What a truncated preview says is so: the bytes it names and the bytes it shows are all there
      were. For well-formed text that holds exactly when the original was at least the longest tail
      the limit has room for, so whenever it was at least the text. */
  lemma CountsAddUp(text: seq<Byte>, original: nat, max: nat, omitted: nat)
    requires Utf8(text) && Truthful(text, original, max, omitted)
    ensures omitted + (|text| - Cut(text, max, omitted)) == original <==> LongestTail(text, max) <= original
  {
    TailShrinksSlowly(text, max, omitted);
    DigitsAreFew(omitted);
    if omitted < 10 {
      DigitsAreFew(0);
      OneDigitCutsAlike(text, max, omitted);
    }
    hide Cut, Utf8, Decimal;
  }

  lemma OneDigitCutsAlike(text: seq<Byte>, max: nat, omitted: nat)
    requires |Decimal(omitted)| == |Decimal(0)|
    ensures Cut(text, max, omitted) == Cut(text, max, 0)
  {
    MarkerLength(0);
    MarkerLength(omitted);
    hide Marker, NextBoundary, Decimal;
  }

  /** A text of two bytes said to come from one: the preview names none and shows both. */
  lemma CountsCanDisagree()
    ensures var text := Ascii("ab");
            && !Fits(text, 1, 100)
            && Truthful(text, 1, 100, 0)
            && Shown(text, 100, 0) == Marker(0) + text
            && (forall m: nat | Truthful(text, 1, 100, m) :: m == 0)
            && 0 + |text| != 1
  {
    var text := Ascii("ab");
    MarkerLength(0);
    DigitsAreFew(1);
    OneDigitCutsAlike(text, 100, 1);
    DigitsAreFew(0);
    hide Marker, Decimal;
    assert Cut(text, 100, 0) == 0;
    assert text[0..] == text;
  }

  lemma AllIsNamed(text: seq<Byte>, original: nat, max: nat, omitted: nat)
    requires Truthful(text, original, max, omitted) && |text| <= original
    ensures omitted + (|text| - Cut(text, max, omitted)) == original
  {
    hide Cut;
  }

  /** The preview fits its limit exactly when the marker alone does; it never shows less than it
      could: one character more would not fit. */
  lemma PreviewFits(text: seq<Byte>, max: nat, omitted: nat)
    ensures |Shown(text, max, omitted)| <= max <==> MARKER_WORDS + |Decimal(omitted)| <= max
    ensures forall i: nat | i < Cut(text, max, omitted) && IsCharBoundary(text, i) ::
              |Marker(omitted)| + |text[i..]| > max
  {
    MarkerLength(omitted);
    hide Marker, Decimal;
  }

  lemma EllipsisIsUtf8()
    ensures Utf8(ELLIPSIS)
  {
    assert ELLIPSIS[3..] == [];
    assert CharWidth(ELLIPSIS) == 3;
  }

  lemma MarkerIsUtf8(omitted: nat)
    ensures Utf8(Marker(omitted))
  {
    var words := Ascii(MARKER_TEXT);
    EllipsisIsUtf8();
    AsciiIsUtf8(Ascii("["));
    AsciiIsUtf8(Ascii(" "));
    AsciiIsUtf8(Decimal(omitted));
    AsciiIsUtf8(words);
    AsciiIsUtf8(Ascii("]\n"));
    hide Ascii, Decimal, Utf8;
    Utf8Joins(Ascii("["), ELLIPSIS);
    Utf8Joins(Ascii("[") + ELLIPSIS, Ascii(" "));
    Utf8Joins(Ascii("[") + ELLIPSIS + Ascii(" "), Decimal(omitted));
    var head := Ascii("[") + ELLIPSIS + Ascii(" ") + Decimal(omitted);
    Utf8Joins(head, words);
    Utf8Joins(head + words, ELLIPSIS);
    Utf8Joins(head + words + ELLIPSIS, Ascii("]\n"));
  }

  /** Cut between characters, a preview of well-formed text is well-formed text. */
  lemma PreviewIsUtf8(text: seq<Byte>, max: nat, omitted: nat)
    requires Utf8(text)
    ensures Utf8(Shown(text, max, omitted))
  {
    hide Marker, Utf8;
    MarkerIsUtf8(omitted);
    BoundaryCuts(text, Cut(text, max, omitted));
    Utf8Joins(Marker(omitted), text[Cut(text, max, omitted)..]);
  }

  /** The marker is a line of its own. */
  lemma PreviewLines(text: seq<Byte>, max: nat, omitted: nat)
    ensures LogicalLines(Shown(text, max, omitted)) == 1 + LogicalLines(text[Cut(text, max, omitted)..])
  {
    MarkerLength(omitted);
    MarkerIsOneLine(omitted);
    LogicalLinesAdd(Marker(omitted), text[Cut(text, max, omitted)..]);
  }

  lemma MarkerIsOneLine(omitted: nat)
    ensures LogicalLines(Marker(omitted)) == 1
  {
    MarkerLength(omitted);
    MarkerHasOneNewline(omitted);
    var marker := Marker(omitted);
    hide Marker;
    var n := |marker| - 1;
    FirstLineCounts(marker, n);
    assert marker[n + 1..] == [];
  }

  /** Browser-facing projection of a command's output. */
  datatype Descriptor = Descriptor(
    preview: seq<Byte>,
    previewTruncated: bool,
    durableTruncated: bool,
    originalBytes: nat,
    originalLines: nat,
    durableBytes: nat,
    durableLines: nat,
    previewBytes: nat,
    previewLines: nat,
    outputAvailable: bool)

  const U64_LIMIT: nat := 0x1_0000_0000_0000_0000

  /** `CommandOutputDescriptor::from_durable`: whatever the output, the preview fits 8 KiB and its
      counts are those of what it holds. */
  method FromDurable(output: seq<Byte>, durableTruncated: bool, originalBytes: nat, originalLines: nat,
                     outputAvailable: bool) returns (d: Descriptor)
    requires originalBytes < U64_LIMIT
    ensures |d.preview| <= PREVIEW_MAX_BYTES
    ensures d.previewBytes == |d.preview| && d.previewLines == |Lines(d.preview)|
    ensures d.durableBytes == |output| && d.durableLines == |Lines(output)|
    ensures d.previewTruncated <==> !Fits(output, originalBytes, PREVIEW_MAX_BYTES)
    ensures !d.previewTruncated ==> d.preview == output
    ensures d.previewTruncated ==>
              && (exists cut | 0 <= cut <= |output| && IsCharBoundary(output, cut) ::
                    d.preview == Marker(ReadCount(d.preview)) + output[cut..])
              && (|output| <= originalBytes ==> ReadCount(d.preview) + |ReadTail(d.preview)| == originalBytes)
    ensures Utf8(output) ==> Utf8(d.preview)
    ensures d.originalBytes == originalBytes && d.originalLines == originalLines
    ensures d.durableTruncated == durableTruncated && d.outputAvailable == outputAvailable
  {
    hide Utf8, Lines, LogicalLines, Marker, Decimal, NextBoundary, ReadCount, ReadTail, Cut;
    var preview, truncated, omitted := TailPreview(output, originalBytes, PREVIEW_MAX_BYTES);
    if truncated {
      assert preview == Marker(omitted) + output[Cut(output, PREVIEW_MAX_BYTES, omitted)..];
      if |output| <= originalBytes {
        AllIsNamed(output, originalBytes, PREVIEW_MAX_BYTES, omitted);
      }
      U64Digits(omitted);
      PreviewFits(output, PREVIEW_MAX_BYTES, omitted);
      if Utf8(output) {
        PreviewIsUtf8(output, PREVIEW_MAX_BYTES, omitted);
      }
    }
    LogicalLinesCountsLines(preview);
    LogicalLinesCountsLines(output);
    d := Descriptor(preview, truncated, durableTruncated, originalBytes, originalLines, |output|,
                    LogicalLines(output), |preview|, LogicalLines(preview), outputAvailable);
  }

  lemma U64Digits(n: nat)
    requires n < U64_LIMIT
    ensures |Decimal(n)| <= 20
  {
    assert Pow10(4) == 10_000 && Pow10(8) == 100_000_000 && Pow10(12) == 1_000_000_000_000;
    assert Pow10(16) == 10_000_000_000_000_000 && Pow10(20) == 100_000_000_000_000_000_000;
    DigitsBounded(n, 20);
  }
}
