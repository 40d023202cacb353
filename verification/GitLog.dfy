/** `git log -z --format=... --numstat`: commits, each with its own file count and line sums. */
module GitLog {
  import opened Protocol
  import opened GitText
  import opened GitNumstat

  /** Opens a commit record. */
  const RECORD_MARK: char := '\U{0001}'
  /** Separates the fields of one. */
  const FIELD_MARK: char := '\U{001F}'

  datatype Commit = Commit(sha: string, title: string, isMerge: bool, files: nat, added: nat, deleted: nat)

  // ---- Records -------------------------------------------------------------------------------

  /** A record without the newlines git put before it. */
  function Trim(record: string): (t: string)
    ensures t != [] ==> t[0] != '\n'
  {
    if record != [] && record[0] == '\n' then Trim(record[1..]) else record
  }

  lemma {:induction false} TrimmedAway(record: string)
    ensures Trim(record) == [] <==> forall c <- record :: c == '\n'
  {
    if record != [] {
      TrimmedAway(record[1..]);
      assert record[0] in record;
      assert forall c <- record[1..] :: c in record;
      assert forall c <- record :: c == record[0] || c in record[1..] by {
        assert record == [record[0]] + record[1..];
      }
    }
  }

  function Whole(record: string): seq<string> {
    if Trim(record) == [] then [] else [Trim(record)]
  }

  /** The records of a log, trimmed; an empty one is none. */
  function LogRecords(s: string): seq<string>
    decreases |s|
  {
    var n := Find(s, NUL);
    if n == |s| then Whole(s) else Whole(s[..n]) + LogRecords(s[n + 1..])
  }

  function AllWhole(records: seq<string>): seq<string> {
    if records == [] then [] else Whole(records[0]) + AllWhole(records[1..])
  }

  lemma {:induction false} LogRecordsRead(records: seq<string>)
    requires Free(records, NUL)
    ensures LogRecords(Terminated(records, NUL)) == AllWhole(records)
    decreases |records|
  {
    if records == [] {
      assert Trim("") == "";
    } else {
      var first, rest := records[0], records[1..];
      assert first in records && forall r <- rest :: r in records;
      LogRecordsRead(rest);
      var s := first + [NUL] + Terminated(rest, NUL);
      FindIs(first, NUL, Terminated(rest, NUL));
      assert s[..|first|] == first && s[|first| + 1..] == Terminated(rest, NUL);
    }
  }

  lemma AllWholeUnfolds(records: seq<string>)
    requires records != []
    ensures AllWhole(records) == Whole(records[0]) + AllWhole(records[1..])
  {
  }

  lemma {:induction false} AllWholeJoins(a: seq<string>, b: seq<string>)
    ensures AllWhole(a + b) == AllWhole(a) + AllWhole(b)
  {
    hide Whole;
    if a == [] {
      assert a + b == b;
    } else {
      AllWholeUnfolds(a);
      AllWholeUnfolds(a + b);
      AllWholeJoins(a[1..], b);
      hide AllWhole;
      assert (a + b)[0] == a[0] && (a + b)[1..] == a[1..] + b;
    }
  }

  // ---- Words ---------------------------------------------------------------------------------

  predicate Space(c: char) {
    c == ' ' || '\t' <= c <= '\r'
  }

  /** The words of `s`, when a word is or is not already under way. */
  function WordsFrom(s: string, inWord: bool): nat {
    if s == [] then 0
    else if Space(s[0]) then WordsFrom(s[1..], false)
    else (if inWord then 0 else 1) + WordsFrom(s[1..], true)
  }

  /** `split_whitespace().count()`. */
  function Words(s: string): nat {
    WordsFrom(s, false)
  }

  function Spaced(words: seq<string>): string {
    if words == [] then "" else if |words| == 1 then words[0] else words[0] + " " + Spaced(words[1..])
  }

  predicate Word(w: string) {
    w != [] && forall c <- w :: !Space(c)
  }

  lemma {:induction false} OneWord(w: string, rest: string, inWord: bool)
    requires Word(w)
    ensures WordsFrom(w + rest, inWord) == (if inWord then 0 else 1) + WordsFrom(rest, true)
    decreases |w|
  {
    assert w[0] in w;
    assert (w + rest)[1..] == w[1..] + rest;
    if |w| > 1 {
      assert forall c <- w[1..] :: c in w;
      OneWord(w[1..], rest, true);
    } else {
      assert w[1..] + rest == rest;
    }
  }

  lemma {:induction false} WordsCounted(words: seq<string>)
    requires forall w <- words :: Word(w)
    ensures Words(Spaced(words)) == |words|
  {
    if |words| == 1 {
      assert words[0] in words;
      OneWord(words[0], "", false);
      assert words[0] + "" == words[0];
    } else if words != [] {
      var rest := words[1..];
      assert words[0] in words && forall w <- rest :: w in words;
      WordsCounted(rest);
      OneWord(words[0], " " + Spaced(rest), false);
      assert words[0] + " " + Spaced(rest) == words[0] + (" " + Spaced(rest));
      assert (" " + Spaced(rest))[1..] == Spaced(rest);
    }
  }

  // ---- The parser ----------------------------------------------------------------------------

  /** What a commit record opens; without a title or with an empty sha, nothing. */
  function Opened(record: string): Option<Commit>
    requires record != []
  {
    var fields := SplitN(record[1..], 4, FIELD_MARK);
    if |fields| < 2 || fields[0] == [] then None
    else Some(Commit(fields[0], fields[1], Words(if |fields| > 2 then fields[2] else "") > 1, 0, 0, 0))
  }

  /** 32-bit addition, as it wraps. */
  function Add32(a: nat, b: nat): nat {
    (a + b) % U32_LIMIT
  }

  function Tally(c: Commit, added: Option<nat>, deleted: Option<nat>): Commit {
    c.(files := c.files + 1, added := Add32(c.added, Lines(added)), deleted := Add32(c.deleted, Lines(deleted)))
  }

  /** What the first record does to the commits read so far, and how many records it takes. */
  function Step(records: seq<string>, commits: seq<Commit>): (r: (seq<Commit>, nat))
    requires records != []
    ensures 0 < r.1 <= |records|
  {
    var record := records[0];
    if record == [] then (commits, 1)
    else if record[0] == RECORD_MARK then
      var header := Opened(record);
      (if header.Some? then commits + [header.value] else commits, 1)
    else if commits == [] then (commits, 1)
    else
      var fields := SplitN(record, 3, '\t');
      if |fields| < 3 then (commits, 1)
      else if fields[2] == [] && |records| < 3 then (commits, |records|)
      else
        (commits[|commits| - 1 := Tally(commits[|commits| - 1], ParseCount(fields[0]), ParseCount(fields[1]))],
         if fields[2] == [] then 3 else 1)
  }

  function Fold(records: seq<string>, commits: seq<Commit>): seq<Commit>
    decreases |records|
  {
    if records == [] then commits
    else
      var (now, taken) := Step(records, commits);
      Fold(records[taken..], now)
  }

  /** One turn of the parser's loop. */
  method NextCommits(records: seq<string>, i: nat, commits: seq<Commit>) returns (now: seq<Commit>, next: nat)
    requires i < |records|
    ensures (now, next - i) == Step(records[i..], commits) && i < next <= |records|
  {
    assert records[i..][0] == records[i];
    hide SplitN, ParseCount, Opened, Tally;
    var record := records[i];
    now, next := commits, i + 1;
    if record == [] {
      return;
    }
    if record[0] == RECORD_MARK {
      var header := Opened(record);
      if header.Some? {
        now := commits + [header.value];
      }
      return;
    }
    if commits == [] {
      return;
    }
    var fields := SplitN(record, 3, '\t');
    if |fields| < 3 {
      return;
    }
    if fields[2] == [] {
      // A rename's two paths.
      if |records| - i < 3 {
        next := |records|;
        return;
      }
      next := i + 3;
    }
    var last := |commits| - 1;
    now := commits[last := Tally(commits[last], ParseCount(fields[0]), ParseCount(fields[1]))];
  }

  /** The loop of `parse_git_log_numstat`. */
  method ParseLog(records: seq<string>) returns (commits: seq<Commit>)
    ensures commits == Fold(records, [])
  {
    hide Step;
    commits := [];
    var i := 0;
    assert records[0..] == records;
    while i < |records|
      invariant i <= |records|
      invariant Fold(records[i..], commits) == Fold(records, [])
    {
      var now, next := NextCommits(records, i, commits);
      FoldFrom(records, i, commits);
      hide Fold;
      commits, i := now, next;
    }
  }

  lemma FoldFrom(records: seq<string>, i: nat, commits: seq<Commit>)
    requires i < |records|
    ensures var (now, taken) := Step(records[i..], commits);
            Fold(records[i..], commits) == Fold(records[i + taken..], now)
  {
    hide Step;
    assert records[i..][Step(records[i..], commits).1..] == records[i + Step(records[i..], commits).1..];
  }

  // ---- Printing ------------------------------------------------------------------------------

  datatype Printed = Printed(sha: string, title: string, parents: seq<string>, changes: seq<Change>)

  predicate Field(f: string) {
    FIELD_MARK !in f && NUL !in f
  }

  /** Renamed paths are not all newlines; nothing else is asked of a path. */
  predicate NotAllNewlines(path: string) {
    exists c <- path :: c != '\n'
  }

  predicate PathsKept(c: Change) {
    c.oldPath.Some? ==> NotAllNewlines(c.oldPath.value) && NotAllNewlines(c.path)
  }

  /** What git prints of a commit, whatever its paths. */
  predicate IsPrinted(c: Printed) {
    && c.sha != [] && Field(c.sha) && Field(c.title)
    && (forall p <- c.parents :: Word(p) && Field(p))
    && AllWellFormedChanges(c.changes)
  }

  predicate WellFormedCommit(c: Printed) {
    IsPrinted(c) && forall change <- c.changes :: PathsKept(change)
  }

  function Header(c: Printed): string {
    [RECORD_MARK] + Terminated([c.sha, c.title], FIELD_MARK) + Spaced(c.parents)
  }

  /** The newline after a commit's header lands at the start of its first numstat record. */
  function AfterHeader(records: seq<string>): seq<string> {
    if records == [] then [] else ["\n" + records[0]] + records[1..]
  }

  function PrintCommit(c: Printed): seq<string> {
    [Header(c)] + AfterHeader(PrintChanges(c.changes))
  }

  function PrintLog(commits: seq<Printed>): seq<string> {
    if commits == [] then [] else PrintCommit(commits[0]) + PrintLog(commits[1..])
  }

  function AddedBy(changes: seq<Change>): nat {
    if changes == [] then 0 else Lines(changes[0].added) + AddedBy(changes[1..])
  }

  function DeletedBy(changes: seq<Change>): nat {
    if changes == [] then 0 else Lines(changes[0].deleted) + DeletedBy(changes[1..])
  }

  /** What a commit is reported as: its own files and sums, and none of its neighbours'. */
  function Report(c: Printed): Commit {
    Commit(c.sha, c.title, |c.parents| > 1, |c.changes|, AddedBy(c.changes) % U32_LIMIT,
           DeletedBy(c.changes) % U32_LIMIT)
  }

  function Reports(commits: seq<Printed>): seq<Commit> {
    if commits == [] then [] else [Report(commits[0])] + Reports(commits[1..])
  }

  // ---- Round trip ----------------------------------------------------------------------------

  lemma {:induction false} SpacedIsPlain(words: seq<string>, c: char)
    requires Free(words, c) && c != ' '
    ensures c !in Spaced(words)
  {
    if words != [] {
      assert words[0] in words && forall w <- words[1..] :: w in words;
      SpacedIsPlain(words[1..], c);
    }
  }

  lemma HeaderReads(c: Printed)
    requires IsPrinted(c)
    ensures NUL !in Header(c) && Header(c)[0] == RECORD_MARK && Trim(Header(c)) == Header(c)
    ensures Opened(Header(c)) == Some(Commit(c.sha, c.title, |c.parents| > 1, 0, 0, 0))
  {
    var fields := [c.sha, c.title];
    var parents := Spaced(c.parents);
    SpacedIsPlain(c.parents, FIELD_MARK);
    SpacedIsPlain(c.parents, NUL);
    TerminatedFree(fields, FIELD_MARK, NUL);
    WordsCounted(c.parents);
    hide Spaced, Words, SplitN;
    assert Header(c)[1..] == Terminated(fields, FIELD_MARK) + parents;
    SplitTerminated(fields, FIELD_MARK, parents, 2);
    SplitWhole(parents, 2, FIELD_MARK);
  }

  /** The records of a change once trimmed. */
  function Trimmed(c: Change): seq<string> {
    if c.oldPath.Some? then [Counts(c), Trim(c.oldPath.value), Trim(c.path)] else [Counts(c) + c.path]
  }

  function AllTrimmed(changes: seq<Change>): seq<string> {
    if changes == [] then [] else Trimmed(changes[0]) + AllTrimmed(changes[1..])
  }

  lemma ChangeIsTrimmed(c: Change)
    requires WellFormedChange(c) && PathsKept(c)
    ensures AllWhole(PrintChange(c)) == Trimmed(c)
  {
    CountsRead(c, c.path);
    hide Counts, SplitN;
    TrimmedAway(c.path);
    if c.oldPath.Some? {
      TrimmedAway(c.oldPath.value);
      Whole3(Counts(c), c.oldPath.value, c.path);
    } else {
      Whole1(Counts(c) + c.path);
    }
  }

  lemma Whole1(a: string)
    requires Trim(a) != []
    ensures AllWhole([a]) == [Trim(a)]
  {
  }

  lemma Whole3(a: string, b: string, c: string)
    requires Trim(a) != [] && Trim(b) != [] && Trim(c) != []
    ensures AllWhole([a, b, c]) == [Trim(a), Trim(b), Trim(c)]
  {
    assert [a, b, c] == [a] + ([b] + [c]);
    AllWholeJoins([a], [b] + [c]);
    AllWholeJoins([b], [c]);
  }

  lemma {:induction false} ChangesAreTrimmed(changes: seq<Change>)
    requires AllWellFormedChanges(changes) && forall c <- changes :: PathsKept(c)
    ensures AllWhole(PrintChanges(changes)) == AllTrimmed(changes)
  {
    if changes != [] {
      var first, others := changes[0], changes[1..];
      assert first in changes && forall c <- others :: c in changes;
      ChangesAreTrimmed(others);
      ChangeIsTrimmed(first);
      hide PrintChange, Trimmed, Whole, WellFormedChange, PathsKept;
      AllWholeJoins(PrintChange(first), PrintChanges(others));
    }
  }

  /** The newline git put before the first change is trimmed off again. */
  lemma AfterHeaderIsTrimmed(records: seq<string>)
    ensures AllWhole(AfterHeader(records)) == AllWhole(records)
  {
    if records != [] {
      assert ("\n" + records[0])[1..] == records[0];
      assert Trim("\n" + records[0]) == Trim(records[0]);
      assert AfterHeader(records)[1..] == records[1..];
    }
  }

  // ---- One change, all changes, one commit, all commits ---------------------------------------

  lemma FirstTrimmed(c: Change, rest: seq<string>)
    requires WellFormedChange(c)
    ensures var records := Trimmed(c) + rest;
            && records[|Trimmed(c)|..] == rest
            && records[0] != [] && records[0][0] != RECORD_MARK
            && SplitN(records[0], 3, '\t')
                == [PrintCount(c.added), PrintCount(c.deleted), if c.oldPath.Some? then [] else c.path]
  {
    CountsRead(c, if c.oldPath.Some? then [] else c.path);
    assert Counts(c) + [] == Counts(c);
    hide SplitN, Counts, PrintCount;
  }

  /** A numstat record, told by its fields. */
  lemma CountedStep(records: seq<string>, commits: seq<Commit>, last: Commit, fields: seq<string>)
    requires records != [] && records[0] != [] && records[0][0] != RECORD_MARK
    requires fields == SplitN(records[0], 3, '\t') && |fields| == 3
    ensures Step(records, commits + [last])
         == if fields[2] == [] && |records| < 3 then (commits + [last], |records|)
            else (commits + [Tally(last, ParseCount(fields[0]), ParseCount(fields[1]))],
                  if fields[2] == [] then 3 else 1)
  {
    hide SplitN, ParseCount, Tally, Opened;
    var now := Tally(last, ParseCount(fields[0]), ParseCount(fields[1]));
    assert (commits + [last])[|commits| := now] == commits + [now];
  }

  lemma ChangeTallies(c: Change, rest: seq<string>, commits: seq<Commit>, last: Commit)
    requires WellFormedChange(c)
    ensures var records := Trimmed(c) + rest;
            && Step(records, commits + [last]) == (commits + [Tally(last, c.added, c.deleted)], |Trimmed(c)|)
            && records[|Trimmed(c)|..] == rest
  {
    FirstTrimmed(c, rest);
    CountRoundTrip(c.added);
    CountRoundTrip(c.deleted);
    var records := Trimmed(c) + rest;
    assert |Trimmed(c)| == if c.oldPath.Some? then 3 else 1;
    assert c.oldPath.None? ==> c.path != [] by { CountsRead(c, c.path); }
    hide SplitN, Counts, ParseCount, PrintCount, Tally, Step, WellFormedChange, Trimmed;
    CountedStep(records, commits, last, SplitN(records[0], 3, '\t'));
  }

  lemma RenameRecords(c: Change)
    requires WellFormedChange(c) && c.oldPath.Some?
    ensures AllWhole(PrintChange(c)) == [Counts(c)] + (Whole(c.oldPath.value) + Whole(c.path))
  {
    CountsRead(c, []);
    assert Counts(c) + [] == Counts(c);
    hide Counts, SplitN;
    Whole1(Counts(c));
    assert PrintChange(c) == [Counts(c)] + ([c.oldPath.value] + [c.path]);
    hide AllWhole, PrintChange;
    AllWholeJoins([Counts(c)], [c.oldPath.value] + [c.path]);
    AllWholeJoins([c.oldPath.value], [c.path]);
    WholeAlone(c.oldPath.value);
    WholeAlone(c.path);
  }

  /** A rename whose paths are gone takes the next records for them, or is given up at the end. */
  lemma RenameTakes(c: Change, others: seq<string>, commits: seq<Commit>, last: Commit)
    requires WellFormedChange(c) && c.oldPath.Some?
    ensures Step([Counts(c)] + others, commits + [last])
         == if |others| < 2 then (commits + [last], 1 + |others|)
            else (commits + [Tally(last, c.added, c.deleted)], 3)
  {
    hide Counts, SplitN, PrintCount, Tally, ParseCount, Step;
    RenameFields(c);
    hide WellFormedChange;
    var records := [Counts(c)] + others;
    assert records[0] == Counts(c);
    CountedStep(records, commits, last, [PrintCount(c.added), PrintCount(c.deleted), []]);
  }

  lemma RenameFields(c: Change)
    requires WellFormedChange(c)
    ensures Counts(c) != [] && Counts(c)[0] != RECORD_MARK
    ensures SplitN(Counts(c), 3, '\t') == [PrintCount(c.added), PrintCount(c.deleted), []]
    ensures ParseCount(PrintCount(c.added)) == c.added && ParseCount(PrintCount(c.deleted)) == c.deleted
  {
    hide Counts, SplitN, PrintCount, ParseCount;
    CountsRead(c, []);
    CountRoundTrip(c.added);
    CountRoundTrip(c.deleted);
    assert Counts(c) + [] == Counts(c);
  }

  lemma RenameCount(c: Change)
    requires WellFormedChange(c) && c.oldPath.Some?
    ensures AllWhole(PrintChange(c)) == [Counts(c)] + (Whole(c.oldPath.value) + Whole(c.path))
    ensures |AllWhole(PrintChange(c))| == 3 <==> PathsKept(c)
    ensures 1 <= |AllWhole(PrintChange(c))| <= 3
  {
    RenameRecords(c);
    TrimmedAway(c.path);
    TrimmedAway(c.oldPath.value);
    hide AllWhole, PrintChange, Counts, Trim, WellFormedChange;
  }

  /** Whatever follows it, a rename is counted and takes its own records and no other exactly when both
      its paths survive the trim. When one does not, it takes records of the next file or commit for
      them, or, with too few left, is not counted at all. */
  lemma RenameStaysAligned(c: Change, rest: seq<string>, commits: seq<Commit>, last: Commit)
    requires WellFormedChange(c) && c.oldPath.Some?
    ensures var records, counted := AllWhole(PrintChange(c)), commits + [Tally(last, c.added, c.deleted)];
            && records != []
            && (Step(records + rest, commits + [last]) == (counted, |records|) <==> PathsKept(c))
            && (!PathsKept(c) ==>
                  if |records + rest| < 3
                  then Step(records + rest, commits + [last]) == (commits + [last], |records + rest|)
                  else Step(records + rest, commits + [last]) == (counted, 3) && 3 > |records|)
  {
    RenameCount(c);
    hide AllWhole, PrintChange, Counts, Step, WellFormedChange, Trim, PathsKept, Whole;
    var records := AllWhole(PrintChange(c));
    var others := Whole(c.oldPath.value) + Whole(c.path) + rest;
    assert records + rest == [Counts(c)] + others;
    RenameTakes(c, others, commits, last);
    TallyCounts(last, c.added, c.deleted);
    assert (commits + [Tally(last, c.added, c.deleted)])[|commits|] != (commits + [last])[|commits|];
  }

  lemma TallyCounts(c: Commit, added: Option<nat>, deleted: Option<nat>)
    ensures Tally(c, added, deleted) != c
  {
  }

  lemma WholeAlone(record: string)
    ensures AllWhole([record]) == Whole(record)
  {
  }

  function TallyAll(c: Commit, changes: seq<Change>): Commit
    decreases |changes|
  {
    if changes == [] then c else TallyAll(Tally(c, changes[0].added, changes[0].deleted), changes[1..])
  }

  lemma FoldStep(records: seq<string>, commits: seq<Commit>, now: seq<Commit>, taken: nat)
    requires records != [] && Step(records, commits) == (now, taken)
    ensures Fold(records, commits) == Fold(records[taken..], now)
  {
    hide Step;
  }

  lemma {:induction false} ChangesTally(changes: seq<Change>, rest: seq<string>, commits: seq<Commit>, last: Commit)
    requires AllWellFormedChanges(changes)
    ensures Fold(AllTrimmed(changes) + rest, commits + [last]) == Fold(rest, commits + [TallyAll(last, changes)])
    decreases |changes|
  {
    if changes == [] {
      assert AllTrimmed(changes) + rest == rest;
    } else {
      var first, others := changes[0], changes[1..];
      assert first in changes && forall c <- others :: c in changes;
      var left := AllTrimmed(others) + rest;
      assert AllTrimmed(changes) + rest == Trimmed(first) + left;
      hide Step, Fold, Trimmed, AllTrimmed, Tally, WellFormedChange;
      ChangeTallies(first, left, commits, last);
      var now := Tally(last, first.added, first.deleted);
      FoldStep(Trimmed(first) + left, commits + [last], commits + [now], |Trimmed(first)|);
      ChangesTally(others, rest, commits, now);
    }
  }

  lemma WrapsOnce(a: nat, b: nat, c: nat)
    ensures Add32(Add32(a, b), c) == (a + (b + c)) % U32_LIMIT
  {
  }

  lemma {:induction false} TallyIsTheSum(c: Commit, changes: seq<Change>)
    requires c.added < U32_LIMIT && c.deleted < U32_LIMIT
    ensures TallyAll(c, changes)
         == c.(files := c.files + |changes|, added := (c.added + AddedBy(changes)) % U32_LIMIT,
               deleted := (c.deleted + DeletedBy(changes)) % U32_LIMIT)
    decreases |changes|
  {
    if changes != [] {
      var first, others := changes[0], changes[1..];
      TallyIsTheSum(Tally(c, first.added, first.deleted), others);
      WrapsOnce(c.added, Lines(first.added), AddedBy(others));
      WrapsOnce(c.deleted, Lines(first.deleted), DeletedBy(others));
    }
  }

  lemma CommitIsTrimmed(c: Printed)
    requires WellFormedCommit(c)
    ensures AllWhole(PrintCommit(c)) == [Header(c)] + AllTrimmed(c.changes)
  {
    HeaderReads(c);
    assert forall change <- c.changes :: PathsKept(change);
    hide Header, Opened, PathsKept, WellFormedChange, AfterHeader, Trimmed, PrintChanges;
    ChangesAreTrimmed(c.changes);
    AfterHeaderIsTrimmed(PrintChanges(c.changes));
    AllWholeJoins([Header(c)], AfterHeader(PrintChanges(c.changes)));
    Whole1(Header(c));
  }

  lemma HeaderOpens(c: Printed, left: seq<string>, commits: seq<Commit>)
    requires IsPrinted(c)
    ensures var records := [Header(c)] + left;
            && Step(records, commits) == (commits + [Commit(c.sha, c.title, |c.parents| > 1, 0, 0, 0)], 1)
            && records[1..] == left
  {
    HeaderReads(c);
    hide Header, Opened, Trim;
  }

  lemma CommitTallies(c: Printed)
    requires WellFormedCommit(c)
    ensures TallyAll(Commit(c.sha, c.title, |c.parents| > 1, 0, 0, 0), c.changes) == Report(c)
    ensures IsPrinted(c) && AllWellFormedChanges(c.changes)
  {
    TallyIsTheSum(Commit(c.sha, c.title, |c.parents| > 1, 0, 0, 0), c.changes);
    hide TallyAll;
  }

  lemma CommitReads(c: Printed, rest: seq<string>, commits: seq<Commit>)
    requires WellFormedCommit(c)
    ensures Fold(AllWhole(PrintCommit(c)) + rest, commits) == Fold(rest, commits + [Report(c)])
  {
    hide Header, Step, Fold, TallyAll, Report, AllTrimmed, AllWhole, PrintCommit, WellFormedCommit,
      AllWellFormedChanges, IsPrinted;
    var empty := Commit(c.sha, c.title, |c.parents| > 1, 0, 0, 0);
    CommitTallies(c);
    CommitIsTrimmed(c);
    var left := AllTrimmed(c.changes) + rest;
    HeaderOpens(c, left, commits);
    assert [Header(c)] + AllTrimmed(c.changes) + rest == [Header(c)] + left;
    FoldStep([Header(c)] + left, commits, commits + [empty], 1);
    ChangesTally(c.changes, rest, commits, empty);
  }

  lemma LogUnfolds(log: seq<Printed>, commits: seq<Commit>)
    requires log != []
    ensures AllWhole(PrintLog(log)) == AllWhole(PrintCommit(log[0])) + AllWhole(PrintLog(log[1..]))
    ensures commits + [Report(log[0])] + Reports(log[1..]) == commits + Reports(log)
  {
    hide AllWhole, PrintCommit, Report;
    AllWholeJoins(PrintCommit(log[0]), PrintLog(log[1..]));
  }

  lemma {:induction false} LogReads(log: seq<Printed>, commits: seq<Commit>)
    requires forall c <- log :: WellFormedCommit(c)
    ensures Fold(AllWhole(PrintLog(log)), commits) == commits + Reports(log)
    decreases |log|
  {
    if log == [] {
      assert commits + Reports(log) == commits;
    } else {
      var first, others := log[0], log[1..];
      assert first in log && forall c <- others :: c in log;
      hide Report, PrintCommit, WellFormedCommit, AllWhole, Fold, PrintLog, Reports;
      LogUnfolds(log, commits);
      CommitReads(first, AllWhole(PrintLog(others)), commits);
      LogReads(others, commits + [Report(first)]);
    }
  }

  lemma AfterHeaderIsFree(records: seq<string>)
    requires AllPrintable(records)
    ensures Free(AfterHeader(records), NUL)
  {
    if records != [] {
      assert records[0] in records && forall r <- records[1..] :: r in records;
      assert NUL !in "\n" + records[0];
    }
  }

  lemma PrintedIsFree(c: Printed)
    requires IsPrinted(c)
    ensures Free(PrintCommit(c), NUL)
  {
    HeaderReads(c);
    hide Header, Opened, PrintChanges, Trim, AfterHeader;
    ChangesArePrintable(c.changes);
    AfterHeaderIsFree(PrintChanges(c.changes));
  }

  lemma {:induction false} LogIsFree(log: seq<Printed>)
    requires forall c <- log :: IsPrinted(c)
    ensures Free(PrintLog(log), NUL)
  {
    if log != [] {
      assert log[0] in log && forall c <- log[1..] :: c in log;
      LogIsFree(log[1..]);
      hide IsPrinted, PrintCommit;
      PrintedIsFree(log[0]);
    }
  }

  /** Printing any list of commits and parsing it gives each commit its own file count and its own
      sums, which are the true ones exactly when they fit 32 bits. */
  lemma LogRoundTrip(log: seq<Printed>)
    requires forall c <- log :: WellFormedCommit(c)
    ensures var parsed := Fold(LogRecords(Terminated(PrintLog(log), NUL)), []);
            && parsed == Reports(log)
            && |parsed| == |log|
            && forall i | 0 <= i < |log| ::
                 && parsed[i].files == |log[i].changes|
                 && (parsed[i].added == AddedBy(log[i].changes) <==> AddedBy(log[i].changes) < U32_LIMIT)
                 && (parsed[i].deleted == DeletedBy(log[i].changes) <==> DeletedBy(log[i].changes) < U32_LIMIT)
  {
    assert forall c <- log :: IsPrinted(c);
    LogIsFree(log);
    LogRecordsRead(PrintLog(log));
    hide Fold, LogRecords, Reports, AllWhole, PrintLog, WellFormedCommit, Report, AddedBy, DeletedBy;
    LogReads(log, []);
    assert [] + Reports(log) == Reports(log);
    ReportsEach(log);
    forall i | 0 <= i < |log|
      ensures Report(log[i]).files == |log[i].changes|
      ensures Report(log[i]).added == AddedBy(log[i].changes) <==> AddedBy(log[i].changes) < U32_LIMIT
      ensures Report(log[i]).deleted == DeletedBy(log[i].changes) <==> DeletedBy(log[i].changes) < U32_LIMIT
    {
      SumsAreTrueExactlyWhenTheyFit(log[i]);
    }
  }

  lemma {:induction false} ReportsEach(log: seq<Printed>)
    ensures |Reports(log)| == |log| && forall i | 0 <= i < |log| :: Reports(log)[i] == Report(log[i])
  {
    hide Report;
    if log != [] {
      ReportsEach(log[1..]);
    }
  }

  lemma SumsAreTrueExactlyWhenTheyFit(c: Printed)
    ensures Report(c).added == AddedBy(c.changes) <==> AddedBy(c.changes) < U32_LIMIT
    ensures Report(c).deleted == DeletedBy(c.changes) <==> DeletedBy(c.changes) < U32_LIMIT
    ensures Report(c).files == |c.changes|
  {
  }

  // ---- A rename whose file is lost -----------------------------------------------------------

  lemma OneCommit(c: Printed)
    ensures PrintLog([c]) == PrintCommit(c)
  {
    hide PrintCommit;
    assert PrintLog([c][1..]) == [];
  }

  lemma OneChange(c: Change)
    ensures PrintChanges([c]) == PrintChange(c)
  {
    hide PrintChange;
    assert PrintChanges([c][1..]) == [];
  }

  /** The last change of a log, a rename of which one path is nothing but newlines: its file is not
      counted. */
  lemma LastRenameIsLost(c: Printed, change: Change)
    requires IsPrinted(c) && c.changes == [change] && change.oldPath.Some? && !PathsKept(change)
    ensures Fold(LogRecords(Terminated(PrintLog([c]), NUL)), [])
         == [Commit(c.sha, c.title, |c.parents| > 1, 0, 0, 0)]
  {
    assert change in c.changes;
    OneCommit(c);
    OneChange(change);
    PrintedIsFree(c);
    LogRecordsRead(PrintCommit(c));
    var empty := Commit(c.sha, c.title, |c.parents| > 1, 0, 0, 0);
    var records := AllWhole(PrintChange(change));
    HeaderReads(c);
    RenameCount(change);
    RenameStaysAligned(change, [], [], empty);
    HeaderOpens(c, records, []);
    hide LogRecords, Header, Opened, Trim, IsPrinted, PrintChange, PathsKept, Step, AfterHeader, PrintLog, Terminated;
    AfterHeaderIsTrimmed(PrintChange(change));
    AllWholeJoins([Header(c)], AfterHeader(PrintChange(change)));
    assert PrintCommit(c) == [Header(c)] + AfterHeader(PrintChange(change));
    assert AllWhole([Header(c)]) == [Header(c)] by { HeaderIsWhole(c); }
    hide AllWhole, PrintCommit;
    assert records + [] == records && [] + [empty] == [empty];
    FoldStep([Header(c)] + records, [], [empty], 1);
    FoldStep(records, [empty], [empty], |records|);
    assert Fold([], [empty]) == [empty];
  }

  lemma HeaderIsWhole(c: Printed)
    requires IsPrinted(c)
    ensures AllWhole([Header(c)]) == [Header(c)]
  {
    HeaderReads(c);
    hide Header, Opened, Trim;
    Whole1(Header(c));
  }

  /** One commit of one rename, from a newline to `b`, of one line each way: no file is reported. */
  lemma RenameCanBeLost()
    ensures var change := Change(Some(1), Some(1), Some("\n"), "b");
            var log := [Printed("a", "t", [], [change])];
            && WellFormedChange(change) && !PathsKept(change)
            && Fold(LogRecords(Terminated(PrintLog(log), NUL)), []) == [Commit("a", "t", false, 0, 0, 0)]
  {
    var change := Change(Some(1), Some(1), Some("\n"), "b");
    var c := Printed("a", "t", [], [change]);
    assert forall x <- "\n" :: x == '\n';
    assert WellFormedChange(change);
    LastRenameIsLost(c, change);
  }
}
