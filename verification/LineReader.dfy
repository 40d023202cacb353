/** Reading a child's stdout line by line: in chunks of any size, with a read given up at any
    await and taken up by the next call. */
module LineReader {
  import opened Protocol
  import opened Text

  /** The longest stdout line accepted, 64 MiB. */
  const MAX_STDOUT_LINE_BYTES: nat := 64 * 1024 * 1024

  /** The capacity of the buffered reader: no chunk is longer. */
  const BUFFER_BYTES: nat := 8 * 1024

  /** One call's result. `GivenUp` is a call whose caller stopped waiting. */
  datatype Read = Line(bytes: seq<Byte>) | Eof | Overlong(read: nat) | GivenUp

  /** What a call that is not given up comes to, when `ahead` is all that was not yet returned: it
      depends on no chunk. */
  predicate Reads(ahead: seq<Byte>, cap: nat, r: Read, left: seq<Byte>) {
    match r
    case Line(line) =>
      && |line| <= cap
      && NEWLINE !in line
      && (ahead == line + [NEWLINE] + left || (ahead == line && line != [] && left == []))
    case Eof => ahead == [] && left == []
    case Overlong(n) => cap < n <= LineEnd(ahead)
    case GivenUp => left == ahead
  }

  /** Any two calls that come to something from the same place return the same line and leave the
      same rest, or both fail, whatever their chunks: only how much of an overlong line was read by
      then may differ. */
  lemma ReadsIsDetermined(ahead: seq<Byte>, cap: nat, a: Read, left: seq<Byte>, b: Read, right: seq<Byte>)
    requires Reads(ahead, cap, a, left) && Reads(ahead, cap, b, right)
    requires !a.GivenUp? && !b.GivenUp?
    ensures (a == b && (a.Overlong? || left == right)) || (a.Overlong? && b.Overlong?)
  {
    if a.Line? {
      TakenLine(ahead, a.bytes, left);
    }
    if b.Line? {
      TakenLine(ahead, b.bytes, right);
    }
  }

  lemma TakenLine(ahead: seq<Byte>, line: seq<Byte>, left: seq<Byte>)
    requires NEWLINE !in line
    requires ahead == line + [NEWLINE] + left || (ahead == line && line != [] && left == [])
    ensures LineEnd(ahead) == |line| && line == ahead[..|line|] && ahead != []
    ensures left == ahead[if |line| < |ahead| then |line| + 1 else |line|..]
    ensures Lines(ahead) == [line] + Lines(left)
  {
    assert ahead[..|line|] == line;
    if ahead == line + [NEWLINE] + left {
      assert ahead[|line|] == NEWLINE;
      assert ahead[|line| + 1..] == left;
    }
    LineEndIs(ahead, |line|);
  }

  lemma Rejoins(buffer: seq<Byte>, pipe: seq<Byte>, n: nat)
    requires n <= |pipe|
    ensures buffer + pipe == buffer + pipe[..n] + pipe[n..]
    ensures n < |pipe| && pipe[n] == NEWLINE ==> buffer + pipe == buffer + pipe[..n] + [NEWLINE] + pipe[n + 1..]
  {
  }

  /** Moving a chunk up to its first newline into the buffer loses nothing but that newline. */
  lemma ChunkTaken(buffer: seq<Byte>, pipe: seq<Byte>, available: seq<Byte>)
    requires NEWLINE !in buffer && available <= pipe
    ensures var newline := LineEnd(available);
            var now := buffer + available[..newline];
            && NEWLINE !in now
            && buffer + pipe == (if newline < |available| then now + [NEWLINE] + pipe[newline + 1..]
                                 else now + pipe[newline..])
  {
    hide LineEnd;
    var newline := LineEnd(available);
    assert pipe[..newline] == available[..newline];
    Rejoins(buffer, pipe, newline);
  }

  // ---- Chunks --------------------------------------------------------------------------------

  /** What one call makes of the chunks `fill_buf` hands it, one after the other, behind `buffer`; it
      is given up when they run out, and an empty chunk is the end of the output. */
  function Reading(buffer: seq<Byte>, chunks: seq<seq<Byte>>, cap: nat): Read
    decreases |chunks|
  {
    if chunks == [] then GivenUp
    else if chunks[0] == [] then (if buffer == [] then Eof else Line(buffer))
    else
      var newline := LineEnd(chunks[0]);
      var now := buffer + chunks[0][..newline];
      if |now| > cap then Overlong(|now|)
      else if newline < |chunks[0]| then Line(now)
      else Reading(now, chunks[1..], cap)
  }

  /** The chunks one call may be handed from `pipe`: each comes from its front and fits the reader's
      buffer, none is empty before the pipe is, and a chunk is taken up to its newline at most. */
  predicate Chunked(pipe: seq<Byte>, chunks: seq<seq<Byte>>)
    decreases |chunks|
  {
    chunks == [] ||
    (&& chunks[0] <= pipe && |chunks[0]| <= BUFFER_BYTES
     && (chunks[0] == [] <==> pipe == [])
     && (LineEnd(chunks[0]) < |chunks[0]| || chunks[0] == [] ==> |chunks| == 1)
     && Chunked(pipe[LineEnd(chunks[0])..], chunks[1..]))
  }

  /** The chunks so far led here: whatever follows is read from here as it is from the start. */
  ghost predicate SoFar(buffer: seq<Byte>, pipe: seq<Byte>, chunks: seq<seq<Byte>>, now: seq<Byte>, left: seq<Byte>,
                        cap: nat)
  {
    forall next :: Chunked(left, next) ==>
      Chunked(pipe, chunks + next) && Reading(buffer, chunks + next, cap) == Reading(now, next, cap)
  }

  lemma NoneSoFar(buffer: seq<Byte>, pipe: seq<Byte>, cap: nat)
    ensures SoFar(buffer, pipe, [], buffer, pipe, cap)
  {
    forall next: seq<seq<Byte>> ensures [] + next == next {
    }
  }

  lemma SoFarGivenUp(buffer: seq<Byte>, pipe: seq<Byte>, chunks: seq<seq<Byte>>, now: seq<Byte>, left: seq<Byte>,
                     cap: nat)
    requires SoFar(buffer, pipe, chunks, now, left, cap)
    ensures Chunked(pipe, chunks) && Reading(buffer, chunks, cap) == GivenUp
  {
    assert Chunked(left, []);
    assert chunks + [] == chunks;
  }

  lemma ChunkRead(now: seq<Byte>, available: seq<Byte>, next: seq<seq<Byte>>, cap: nat)
    ensures var newline := LineEnd(available);
            var longer := now + available[..newline];
            Reading(now, [available] + next, cap)
              == if available == [] then (if now == [] then Eof else Line(now))
                 else if |longer| > cap then Overlong(|longer|)
                 else if newline < |available| then Line(longer)
                 else Reading(longer, next, cap)
  {
    assert ([available] + next)[1..] == next;
  }

  lemma ChunkedOn(left: seq<Byte>, available: seq<Byte>, next: seq<seq<Byte>>)
    requires available <= left && |available| <= BUFFER_BYTES && (available == [] <==> left == [])
    requires if LineEnd(available) < |available| || available == [] then next == []
             else Chunked(left[LineEnd(available)..], next)
    ensures Chunked(left, [available] + next)
  {
    assert ([available] + next)[1..] == next;
  }

  /** The next chunk ends the call, or leads on. */
  lemma SoFarRead(buffer: seq<Byte>, pipe: seq<Byte>, chunks: seq<seq<Byte>>, now: seq<Byte>, left: seq<Byte>,
                  cap: nat, available: seq<Byte>)
    requires SoFar(buffer, pipe, chunks, now, left, cap)
    requires available <= left && |available| <= BUFFER_BYTES && (available == [] <==> left == [])
    ensures var newline := LineEnd(available);
            var longer := now + available[..newline];
            && (available == [] || |longer| > cap || newline < |available| ==>
                  && Chunked(pipe, chunks + [available])
                  && Reading(buffer, chunks + [available], cap)
                      == (if available == [] then (if now == [] then Eof else Line(now))
                          else if |longer| > cap then Overlong(|longer|)
                          else Line(longer)))
            && (available != [] && |longer| <= cap && newline == |available| ==>
                  SoFar(buffer, pipe, chunks + [available], longer, left[newline..], cap))
  {
    hide LineEnd, Reading, Chunked;
    var newline := LineEnd(available);
    assert [available] + [] == [available];
    ChunkRead(now, available, [], cap);
    if available == [] || newline < |available| {
      ChunkedOn(left, available, []);
    } else {
      NothingChunked(left[newline..]);
      ChunkedOn(left, available, []);
    }
    if available != [] && |now + available[..newline]| <= cap && newline == |available| {
      forall next | Chunked(left[newline..], next)
        ensures Chunked(pipe, chunks + [available] + next)
        ensures Reading(buffer, chunks + [available] + next, cap) == Reading(now + available[..newline], next, cap)
      {
        ChunkedOn(left, available, next);
        ChunkRead(now, available, next, cap);
        assert chunks + [available] + next == chunks + ([available] + next);
      }
    }
  }

  lemma NothingChunked(left: seq<Byte>)
    ensures Chunked(left, [])
  {
  }

  /** Some chunking of the pipe makes a call report an overlong line of `n` bytes. */
  ghost predicate CanReport(pipe: seq<Byte>, cap: nat, n: nat) {
    exists chunks :: Chunked(pipe, chunks) && Reading([], chunks, cap) == Overlong(n)
  }

  lemma {:induction false} ReportIsBounded(buffer: seq<Byte>, pipe: seq<Byte>, chunks: seq<seq<Byte>>, cap: nat)
    requires Chunked(pipe, chunks) && NEWLINE !in buffer && |buffer| <= cap && Reading(buffer, chunks, cap).Overlong?
    ensures cap < Reading(buffer, chunks, cap).read <= Min(LineEnd(buffer + pipe), cap + BUFFER_BYTES)
    decreases |chunks|
  {
    var newline := LineEnd(chunks[0]);
    var now := buffer + chunks[0][..newline];
    assert chunks[0][..newline] == pipe[..newline];
    assert buffer + pipe == now + pipe[newline..];
    LineGoesOn(buffer + pipe, now);
    if |now| <= cap {
      hide LineEnd;
      ReportIsBounded(now, pipe[newline..], chunks[1..], cap);
    }
  }

  lemma LastChunk(buffer: seq<Byte>, pipe: seq<Byte>, cap: nat, k: nat)
    requires |buffer| <= cap < |buffer| + k && k <= LineEnd(pipe) && k <= BUFFER_BYTES
    ensures Chunked(pipe, [pipe[..k]]) && Reading(buffer, [pipe[..k]], cap) == Overlong(|buffer| + k)
  {
    var chunk := pipe[..k];
    StartIsOneLine(pipe, k);
    hide LineEnd, Reading, Chunked;
    assert [chunk] + [] == [chunk] && chunk[..k] == chunk;
    NothingChunked(pipe[k..]);
    ChunkedOn(pipe, chunk, []);
    ChunkRead(buffer, chunk, [], cap);
  }

  lemma StartIsOneLine(pipe: seq<Byte>, k: nat)
    requires k <= LineEnd(pipe)
    ensures LineEnd(pipe[..k]) == k && LineEnd(pipe[k..]) == LineEnd(pipe) - k
  {
    forall i | 0 <= i < LineEnd(pipe) ensures pipe[i] != NEWLINE {
      assert pipe[i] == pipe[..LineEnd(pipe)][i];
    }
    LineEndIs(pipe[..k], k);
    LineEndIs(pipe[k..], LineEnd(pipe) - k);
  }

  /** A line can be read byte by byte until what is left fits one chunk. */
  lemma {:induction false} ChunksReport(buffer: seq<Byte>, pipe: seq<Byte>, cap: nat, k: nat)
      returns (chunks: seq<seq<Byte>>)
    requires |buffer| <= cap < |buffer| + k <= cap + BUFFER_BYTES && k <= LineEnd(pipe)
    ensures Chunked(pipe, chunks) && Reading(buffer, chunks, cap) == Overlong(|buffer| + k)
    decreases k
  {
    if k <= BUFFER_BYTES {
      LastChunk(buffer, pipe, cap, k);
      chunks := [pipe[..k]];
    } else {
      var chunk := pipe[..1];
      StartIsOneLine(pipe, 1);
      hide LineEnd, Reading, Chunked;
      assert chunk[..1] == chunk;
      var rest := ChunksReport(buffer + chunk, pipe[1..], cap, k - 1);
      ChunkedOn(pipe, chunk, rest);
      ChunkRead(buffer, chunk, rest, cap);
      chunks := [chunk] + rest;
    }
  }

  /** The longest size a call can report for an overlong line. */
  function MostReported(pipe: seq<Byte>, cap: nat): nat {
    Min(LineEnd(pipe), cap + BUFFER_BYTES)
  }

  /** The sizes a call can report for an overlong line are all those above the cap up to the line's
      length and one buffer over the cap; so the size depends on no chunk exactly when the line is one
      byte too long. */
  lemma ReportedSizes(pipe: seq<Byte>, cap: nat)
    requires LineEnd(pipe) > cap
    ensures forall n: nat :: CanReport(pipe, cap, n) <==> cap < n <= MostReported(pipe, cap)
    ensures (forall m: nat, n: nat | CanReport(pipe, cap, m) && CanReport(pipe, cap, n) :: m == n)
            <==> LineEnd(pipe) == cap + 1
  {
    forall n: nat ensures CanReport(pipe, cap, n) <==> cap < n <= MostReported(pipe, cap) {
      if CanReport(pipe, cap, n) {
        var chunks :| Chunked(pipe, chunks) && Reading([], chunks, cap) == Overlong(n);
        ReportIsBounded([], pipe, chunks, cap);
        assert [] + pipe == pipe;
      }
      if cap < n <= MostReported(pipe, cap) {
        var chunks := ChunksReport([], pipe, cap, n);
      }
    }
    hide CanReport;
    assert CanReport(pipe, cap, cap + 1) && CanReport(pipe, cap, MostReported(pipe, cap));
  }

  /** One output read in chunks of three bytes or of four: two sizes for one line. */
  lemma ReportedSizesDiffer()
    ensures var pipe := Ascii("abcd");
            && Chunked(pipe, [Ascii("abc")]) && Reading([], [Ascii("abc")], 2) == Overlong(3)
            && Chunked(pipe, [pipe]) && Reading([], [pipe], 2) == Overlong(4)
  {
    var pipe, short := Ascii("abcd"), Ascii("abc");
    AsciiHasNoNewline("abcd");
    AsciiHasNoNewline("abc");
    LineEndIs(pipe, 4);
    LineEndIs(short, 3);
    hide LineEnd;
    assert short == pipe[..3];
    assert pipe[..4] == pipe && short[..3] == short;
    assert [] + pipe == pipe && [] + short == short;
    NothingChunked(pipe[4..]);
    NothingChunked(pipe[3..]);
    ChunkedOn(pipe, pipe, []);
    ChunkedOn(pipe, short, []);
    ChunkRead([], pipe, [], 2);
    ChunkRead([], short, [], 2);
    hide Reading, Chunked;
    assert [pipe] + [] == [pipe] && [short] + [] == [short];
  }

  class LineReader {
    // What the pipe still holds, and the partial line read so far.
    var pipe: seq<Byte>
    var buffer: seq<Byte>

    constructor (input: seq<Byte>)
      ensures Ahead() == input && buffer == []
    {
      pipe, buffer := input, [];
    }

    /** Everything that was not yet returned. */
    function Ahead(): seq<Byte>
      reads this
    {
      buffer + pipe
    }

    predicate Valid(cap: nat)
      reads this
    {
      |buffer| <= cap && NEWLINE !in buffer
    }

    /** `fill_buf`: some bytes from the front of the pipe, none at its end. */
    method FillBuf() returns (available: seq<Byte>)
      ensures available <= pipe && |available| <= BUFFER_BYTES
      ensures available == [] <==> pipe == []
    {
      var n: nat := *;
      var most := Min(|pipe|, BUFFER_BYTES);
      available := pipe[..if 0 < n < most then n else most];
    }

    /** `read_capped_line` and the buffer's hand-over; its caller gives up once it has waited for
        `patience` chunks. */
    method NextLine(cap: nat, patience: nat) returns (r: Read, ghost chunks: seq<seq<Byte>>)
      requires Valid(cap)
      modifies this
      ensures if r.GivenUp? then |chunks| == patience else 0 < |chunks| <= patience
      ensures patience > |old(pipe)| ==> !r.GivenUp?
      ensures Reads(old(Ahead()), cap, r, Ahead())
      ensures !r.Overlong? ==> Valid(cap)
      ensures Chunked(old(pipe), chunks) && r == Reading(old(buffer), chunks, cap)
    {
      hide LineEnd, Reading, Chunked, SoFar;
      ghost var ahead := Ahead();
      chunks := [];
      var waited := 0;
      NoneSoFar(buffer, pipe, cap);
      while true
        invariant Valid(cap) && Ahead() == ahead
        invariant waited == |chunks| <= patience && waited + |pipe| <= |old(pipe)|
        invariant SoFar(old(buffer), old(pipe), chunks, buffer, pipe, cap)
        decreases |pipe|
      {
        if waited == patience {
          SoFarGivenUp(old(buffer), old(pipe), chunks, buffer, pipe, cap);
          return GivenUp, chunks;
        }
        var available := FillBuf();
        SoFarRead(old(buffer), old(pipe), chunks, buffer, pipe, cap, available);
        chunks, waited := chunks + [available], waited + 1;
        if available == [] {
          if buffer == [] {
            return Eof, chunks;
          }
          var line := buffer;
          buffer := [];
          return Line(line), chunks;
        }
        var newline := LineEnd(available);
        var complete := newline < |available|;
        var taken := if complete then newline + 1 else newline;
        ChunkTaken(buffer, pipe, available);
        buffer := buffer + available[..newline];
        pipe := pipe[taken..];
        if |buffer| > cap {
          LineGoesOn(ahead, buffer);
          return Overlong(|buffer|), chunks;
        }
        if complete {
          var line := buffer;
          buffer := [];
          return Line(line), chunks;
        }
      }
    }
  }

  lemma LineGoesOn(ahead: seq<Byte>, start: seq<Byte>)
    requires start <= ahead && NEWLINE !in start
    ensures |start| <= LineEnd(ahead)
  {
    forall i | 0 <= i < |start| ensures ahead[i] != NEWLINE {
      assert start[i] in start;
    }
  }

  // ---- Whole inputs --------------------------------------------------------------------------

  /** What a number of calls came to. */
  datatype Ended = Finished | TooLong | Unfinished

  predicate Short(lines: seq<seq<Byte>>, cap: nat) {
    forall line <- lines :: |line| <= cap
  }

  /** The lines returned are the input's, up to the first one over the cap. */
  predicate ReadsAll(input: seq<Byte>, cap: nat, lines: seq<seq<Byte>>, outcome: Ended) {
    && lines <= Lines(input)
    && Short(lines, cap)
    && (outcome.Finished? ==> lines == Lines(input))
    && (outcome.TooLong? ==> |lines| < |Lines(input)| && |Lines(input)[|lines|]| > cap)
  }

  lemma FirstIsOverlong(ahead: seq<Byte>, cap: nat)
    requires LineEnd(ahead) > cap
    ensures Lines(ahead) != [] && |Lines(ahead)[0]| > cap
  {
  }

  /** What one more call adds to the lines returned so far. */
  lemma CallReads(input: seq<Byte>, cap: nat, lines: seq<seq<Byte>>, ahead: seq<Byte>, r: Read, left: seq<Byte>)
    requires Reads(ahead, cap, r, left) && Lines(input) == lines + Lines(ahead) && Short(lines, cap)
    ensures ReadsAll(input, cap, lines, Unfinished)
    ensures r.Line? ==> Lines(input) == lines + [r.bytes] + Lines(left) && Short(lines + [r.bytes], cap)
    ensures r.Eof? ==> ReadsAll(input, cap, lines, Finished)
    ensures r.Overlong? ==> ReadsAll(input, cap, lines, TooLong)
  {
    match r
    case Line(line) =>
      TakenLine(ahead, line, left);
      hide Lines;
      assert lines + ([line] + Lines(left)) == lines + [line] + Lines(left);
    case Eof =>
    case Overlong(_) =>
      FirstIsOverlong(ahead, cap);
      hide Lines;
    case GivenUp =>
  }

  /** Call after call, however they are chunked and however patient each is: each returns a line, is
      given up, or is the last; none that waits for more chunks than there are bytes is given up. */
  method ReadLines(reader: LineReader, patience: seq<nat>, cap: nat)
      returns (lines: seq<seq<Byte>>, outcome: Ended, givenUp: nat)
    requires reader.Valid(cap)
    modifies reader
    ensures ReadsAll(old(reader.Ahead()), cap, lines, outcome)
    ensures if outcome.Unfinished? then |lines| + givenUp == |patience| else |lines| + givenUp < |patience|
    ensures (forall p <- patience :: p > |old(reader.Ahead())|) ==> givenUp == 0
  {
    hide Lines, LineEnd, Reading, Chunked, Short, ReadsAll;
    ghost var input := reader.Ahead();
    lines, givenUp := [], 0;
    var i := 0;
    NoLinesYet(input, cap);
    while i < |patience|
      invariant i <= |patience| && |reader.Ahead()| <= |input|
      invariant (forall p <- patience :: p > |input|) ==> givenUp == 0
      invariant reader.Valid(cap)
      invariant Lines(input) == lines + Lines(reader.Ahead())
      invariant Short(lines, cap) && ReadsAll(input, cap, lines, Unfinished)
      invariant |lines| + givenUp == i
    {
      ghost var ahead := reader.Ahead();
      assert patience[i] in patience && |reader.pipe| <= |ahead|;
      var r, _ := reader.NextLine(cap, patience[i]);
      i := i + 1;
      LessAhead(ahead, cap, r, reader.Ahead());
      CallReads(input, cap, lines, ahead, r, reader.Ahead());
      match r
      case Line(line) =>
        lines := lines + [line];
        SoManyLines(input, cap, lines, reader.Ahead());
      case Eof => return lines, Finished, givenUp;
      case Overlong(_) => return lines, TooLong, givenUp;
      case GivenUp => givenUp := givenUp + 1;
    }
    outcome := Unfinished;
  }

  lemma LessAhead(ahead: seq<Byte>, cap: nat, r: Read, left: seq<Byte>)
    requires Reads(ahead, cap, r, left)
    ensures r.Line? || r.GivenUp? ==> |left| <= |ahead|
  {
  }

  lemma SoManyLines(input: seq<Byte>, cap: nat, lines: seq<seq<Byte>>, ahead: seq<Byte>)
    requires Lines(input) == lines + Lines(ahead) && Short(lines, cap)
    ensures ReadsAll(input, cap, lines, Unfinished)
  {
    hide Lines;
  }

  lemma NoLinesYet(input: seq<Byte>, cap: nat)
    ensures Lines(input) == [] + Lines(input) && Short([], cap) && ReadsAll(input, cap, [], Unfinished)
  {
    hide Lines;
  }

  /** Two reads of one input that both came to an end agree: on the lines, and on how it ended. */
  lemma OutcomeIsDetermined(input: seq<Byte>, cap: nat, a: seq<seq<Byte>>, how: Ended, b: seq<seq<Byte>>, also: Ended)
    requires ReadsAll(input, cap, a, how) && ReadsAll(input, cap, b, also)
    requires !how.Unfinished? && !also.Unfinished?
    ensures a == b && how == also
    ensures how.Finished? <==> Short(Lines(input), cap)
  {
    ReadLinesAreShort(input, cap, a, how);
    ReadLinesAreShort(input, cap, b, also);
    var all := Lines(input);
    if how.TooLong? {
      assert all[|a|] in all;
    }
    if also.TooLong? {
      assert all[|b|] in all;
    }
  }

  lemma ReadLinesAreShort(input: seq<Byte>, cap: nat, lines: seq<seq<Byte>>, outcome: Ended)
    requires ReadsAll(input, cap, lines, outcome)
    ensures forall i | 0 <= i < |lines| :: lines[i] == Lines(input)[i] && |lines[i]| <= cap
  {
    forall i | 0 <= i < |lines| ensures |lines[i]| <= cap {
      assert lines[i] in lines;
    }
  }

  // ---- The tail of stderr --------------------------------------------------------------------

  const STDERR_TAIL_LINES: nat := 8

  /** The lines that are kept, each as it is kept; a blank line is not. */
  function Kept(lines: seq<seq<Byte>>, keep: seq<Byte> -> Option<seq<Byte>>): seq<seq<Byte>> {
    if lines == [] then []
    else
      var last := keep(lines[|lines| - 1]);
      Kept(lines[..|lines| - 1], keep) + if last.Some? then [last.value] else []
  }

  function LastOf(lines: seq<seq<Byte>>, n: nat): seq<seq<Byte>> {
    if |lines| <= n then lines else lines[|lines| - n..]
  }

  /** `drain_stderr`: the tail is the last eight lines kept. `keep` strips a line, cuts it, and
      answers nothing for a blank one. */
  method DrainStderr(lines: seq<seq<Byte>>, keep: seq<Byte> -> Option<seq<Byte>>) returns (tail: seq<seq<Byte>>)
    ensures tail == LastOf(Kept(lines, keep), STDERR_TAIL_LINES)
  {
    tail := [];
    for i := 0 to |lines|
      invariant tail == LastOf(Kept(lines[..i], keep), STDERR_TAIL_LINES)
    {
      assert lines[..i + 1][..i] == lines[..i];
      var kept := keep(lines[i]);
      if kept.None? {
        continue;
      }
      if |tail| == STDERR_TAIL_LINES {
        tail := tail[1..];
      }
      tail := tail + [kept.value];
    }
    assert lines[..|lines|] == lines;
  }
}
