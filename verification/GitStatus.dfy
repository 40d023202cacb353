/** `git status --porcelain=v2 -z`: entries, and the line counts applied to them. */
module GitStatus {
  import opened Protocol
  import opened GitText

  /** A changed file; the four counts are staged and unstaged, added and deleted. */
  datatype File = File(
    kind: string,
    path: string,
    oldPath: Option<string>,
    index: string,
    worktree: string,
    stagedAdded: Option<nat>,
    stagedDeleted: Option<nat>,
    unstagedAdded: Option<nat>,
    unstagedDeleted: Option<nat>)

  function Fresh(kind: string, path: string, oldPath: Option<string>, index: string, worktree: string): File {
    File(kind, path, oldPath, index, worktree, None, None, None, None)
  }

  function StatusName(status: char): string {
    match status
    case '.' => "unmodified"
    case ' ' => "unmodified"
    case 'M' => "modified"
    case 'A' => "added"
    case 'D' => "deleted"
    case 'R' => "renamed"
    case 'C' => "copied"
    case 'T' => "typechange"
    case 'U' => "unmerged"
    case '?' => "untracked"
    case '!' => "ignored"
    case _ => "unknown"
  }

  predicate NamesItself(status: char) {
    status == 'R' || status == 'C' || status == 'T'
  }

  function FileKind(index: char, worktree: char): string {
    if NamesItself(index) then StatusName(index)
    else if NamesItself(worktree) then StatusName(worktree)
    else if index == 'D' || worktree == 'D' then "deleted"
    else if index == 'A' || worktree == 'A' then "added"
    else "modified"
  }

  /** The status pair and the path of an entry whose path is its field number `fields`. */
  function EntryFields(text: string, fields: nat): Option<(char, char, string)>
    requires fields > 2
  {
    var parts := SplitN(text, fields, ' ');
    if |parts| < 2 || |parts[1]| < 2 || |parts| != fields || parts[fields - 1] == [] then None
    else Some((parts[1][0], parts[1][1], parts[fields - 1]))
  }

  const ORDINARY_FIELDS: nat := 9
  const RENAME_FIELDS: nat := 10
  const UNMERGED_FIELDS: nat := 11

  function Tracked(kind: string, entry: (char, char, string), oldPath: Option<string>): File {
    Fresh(kind, entry.2, oldPath, StatusName(entry.0), StatusName(entry.1))
  }

  /** What a record that stands alone becomes. */
  function Single(record: string): Option<File> {
    if record == [] then None
    else if record[0] == '1' then
      (match EntryFields(record, ORDINARY_FIELDS)
       case None => None
       case Some(e) => Some(Tracked(FileKind(e.0, e.1), e, None)))
    else if record[0] == 'u' then
      (match EntryFields(record, UNMERGED_FIELDS)
       case None => None
       case Some(e) => Some(Tracked("unmerged", e, None)))
    else if "? " < record then
      Some(Fresh("untracked", record[2..], None, "untracked", "untracked"))
    else None
  }

  /** What a rename or copy becomes with the record that follows it, if any. */
  function Rename(record: string, next: Option<string>): Option<File> {
    match EntryFields(record, RENAME_FIELDS)
    case None => None
    case Some(e) => if next.None? then None else Some(Tracked(FileKind(e.0, e.1), e, next))
  }

  predicate IsHeader(record: string) {
    "# " <= record
  }

  predicate IsRename(record: string) {
    record != [] && record[0] == '2'
  }

  function Listed(file: Option<File>): seq<File> {
    if file.Some? then [file.value] else []
  }

  /** What the first record becomes, and how many records it takes: a rename takes the one after it,
      whatever that looks like and whether or not the rename itself is well formed. */
  function First(records: seq<string>): (r: (Option<File>, nat))
    requires records != []
    ensures 0 < r.1 <= |records|
  {
    if IsHeader(records[0]) then (None, 1)
    else if IsRename(records[0]) then
      if |records| == 1 then (Rename(records[0], None), 1)
      else (Rename(records[0], Some(records[1])), 2)
    else (Single(records[0]), 1)
  }

  /** The files of a record list. */
  function Files(records: seq<string>): seq<File> {
    if records == [] then []
    else
      var (file, taken) := First(records);
      Listed(file) + Files(records[taken..])
  }

  lemma Suffixes(records: seq<string>, i: nat)
    requires i < |records|
    ensures records[i..][0] == records[i] && (i + 1 < |records| ==> records[i..][1] == records[i + 1])
  {
  }

  /** One turn of the entry loop: the record at `i`, and the original path after it. */
  method NextFile(records: seq<string>, i: nat) returns (file: Option<File>, next: nat)
    requires i < |records|
    ensures (file, next - i) == First(records[i..]) && i < next <= |records|
  {
    hide IsHeader, IsRename, Rename, Single;
    Suffixes(records, i);
    var record := records[i];
    next := i + 1;
    file := None;
    if IsHeader(record) {
    } else if IsRename(record) {
      // The original path is the next record, taken even when this entry is malformed.
      var oldPath: Option<string> := None;
      if next < |records| {
        oldPath := Some(records[next]);
        next := next + 1;
      }
      file := Rename(record, oldPath);
    } else {
      file := Single(record);
    }
  }

  /** The entry loop of `parse_git_status`. */
  method ParseFiles(records: seq<string>) returns (files: seq<File>)
    ensures files == Files(records)
  {
    hide First;
    files := [];
    var i := 0;
    assert records[0..] == records;
    while i < |records|
      invariant i <= |records|
      invariant files + Files(records[i..]) == Files(records)
    {
      var file, next := NextFile(records, i);
      FilesFrom(records, i);
      hide Files;
      if file.Some? {
        files := files + [file.value];
      }
      i := next;
    }
  }

  lemma FilesFrom(records: seq<string>, i: nat)
    requires i < |records|
    ensures Files(records[i..]) == Listed(First(records[i..]).0) + Files(records[i + First(records[i..]).1..])
  {
    hide First;
    assert records[i..][First(records[i..]).1..] == records[i + First(records[i..]).1..];
  }

  // ---- Printing ------------------------------------------------------------------------------

  /** What git found on one side of an entry; `Strange` is a letter of no meaning here. */
  datatype Side =
    | Same | Changed | New | Missing | Moved | Duplicate | Retyped | Conflicting | Unknown | Excluded
    | Strange(letter: char)

  const LETTERS: string := ". MADRCTU?!"

  predicate SideOk(side: Side) {
    side.Strange? ==> side.letter !in LETTERS && side.letter != NUL
  }

  /** The letter git prints for it. */
  function Letter(side: Side): char {
    match side
    case Same => '.'
    case Changed => 'M'
    case New => 'A'
    case Missing => 'D'
    case Moved => 'R'
    case Duplicate => 'C'
    case Retyped => 'T'
    case Conflicting => 'U'
    case Unknown => '?'
    case Excluded => '!'
    case Strange(letter) => letter
  }

  /** The word a reader is told. */
  function Told(side: Side): string {
    match side
    case Same => "unmodified"
    case Changed => "modified"
    case New => "added"
    case Missing => "deleted"
    case Moved => "renamed"
    case Duplicate => "copied"
    case Retyped => "typechange"
    case Conflicting => "unmerged"
    case Unknown => "untracked"
    case Excluded => "ignored"
    case Strange(_) => "unknown"
  }

  /** A change that the file is named after, on whichever side it is, the index first. */
  predicate Telling(side: Side) {
    side.Moved? || side.Duplicate? || side.Retyped?
  }

  /** The one word for both sides. */
  function KindTold(index: Side, worktree: Side): string {
    if Telling(index) then Told(index)
    else if Telling(worktree) then Told(worktree)
    else if Missing in {index, worktree} then Told(Missing)
    else if New in {index, worktree} then Told(New)
    else Told(Changed)
  }

  lemma NamesAreTold(index: Side, worktree: Side)
    requires SideOk(index) && SideOk(worktree)
    ensures StatusName(Letter(index)) == Told(index)
    ensures FileKind(Letter(index), Letter(worktree)) == KindTold(index, worktree)
    ensures Letter(index) != ' ' && Letter(index) != NUL
  {
  }

  /** One entry as git knows it; `meta` are the modes, object ids and score it also prints. */
  datatype Entry =
    | Ordinary(index: Side, worktree: Side, meta: seq<string>, path: string)
    | Renamed(index: Side, worktree: Side, meta: seq<string>, path: string, oldPath: string)
    | Unmerged(index: Side, worktree: Side, meta: seq<string>, path: string)
    | Untracked(path: string)

  predicate PlainField(field: string) {
    ' ' !in field && NUL !in field
  }

  predicate WellFormed(e: Entry) {
    && Printable(e.path)
    && (e.Renamed? ==> Printable(e.oldPath))
    && (!e.Untracked? ==>
          && SideOk(e.index) && SideOk(e.worktree)
          && (forall f <- e.meta :: PlainField(f))
          && |e.meta| == (if e.Ordinary? then 6 else if e.Renamed? then 7 else 8))
  }

  function Mark(e: Entry): string {
    match e
    case Ordinary(_, _, _, _) => "1"
    case Renamed(_, _, _, _, _) => "2"
    case Unmerged(_, _, _, _) => "u"
    case Untracked(_) => "?"
  }

  /** The fields before the path. */
  function Head(e: Entry): seq<string> {
    if e.Untracked? then [Mark(e)] else [Mark(e), [Letter(e.index), Letter(e.worktree)]] + e.meta
  }

  function FirstRecord(e: Entry): string {
    Terminated(Head(e), ' ') + e.path
  }

  /** The records git prints for an entry. */
  function Print(e: Entry): seq<string> {
    if e.Renamed? then [FirstRecord(e), e.oldPath] else [FirstRecord(e)]
  }

  function PrintAll(entries: seq<Entry>): seq<string> {
    if entries == [] then [] else Print(entries[0]) + PrintAll(entries[1..])
  }

  /** What the entry is reported as. */
  function Report(e: Entry): File {
    match e
    case Ordinary(x, y, _, path) => Fresh(KindTold(x, y), path, None, Told(x), Told(y))
    case Renamed(x, y, _, path, oldPath) => Fresh(KindTold(x, y), path, Some(oldPath), Told(x), Told(y))
    case Unmerged(x, y, _, path) => Fresh("unmerged", path, None, Told(x), Told(y))
    case Untracked(path) => Fresh("untracked", path, None, "untracked", "untracked")
  }

  function Reports(entries: seq<Entry>): seq<File> {
    if entries == [] then [] else [Report(entries[0])] + Reports(entries[1..])
  }

  predicate AllWellFormed(entries: seq<Entry>) {
    forall e <- entries :: WellFormed(e)
  }

  lemma HeadIsPlain(e: Entry)
    requires WellFormed(e)
    ensures Free(Head(e), ' ') && Free(Head(e), NUL)
  {
    if !e.Untracked? {
      NamesAreTold(e.index, e.worktree);
      NamesAreTold(e.worktree, e.index);
    }
    hide Letter;
  }

  lemma FirstRecordFields(e: Entry)
    requires WellFormed(e)
    ensures Printable(FirstRecord(e)) && FirstRecord(e)[0] == Mark(e)[0]
    ensures !e.Untracked? ==>
              EntryFields(FirstRecord(e), |e.meta| + 3) == Some((Letter(e.index), Letter(e.worktree), e.path))
    ensures e.Untracked? ==> FirstRecord(e) == "? " + e.path
  {
    HeadIsPlain(e);
    hide SplitN, Letter;
    SplitTerminated(Head(e), ' ', e.path, 1);
    SplitWhole(e.path, 1, ' ');
    TerminatedFree(Head(e), ' ', NUL);
  }

  lemma SidesAreTold(e: Entry)
    requires WellFormed(e)
    ensures !e.Untracked? ==>
              && FileKind(Letter(e.index), Letter(e.worktree)) == KindTold(e.index, e.worktree)
              && StatusName(Letter(e.index)) == Told(e.index) && StatusName(Letter(e.worktree)) == Told(e.worktree)
  {
    if !e.Untracked? {
      NamesAreTold(e.index, e.worktree);
      NamesAreTold(e.worktree, e.index);
    }
  }

  lemma RecordKinds(e: Entry)
    requires WellFormed(e)
    ensures !IsHeader(FirstRecord(e)) && (IsRename(FirstRecord(e)) <==> e.Renamed?)
    ensures e.Renamed? ==> Rename(FirstRecord(e), Some(e.oldPath)) == Some(Report(e))
  {
    FirstRecordFields(e);
    SidesAreTold(e);
    hide EntryFields, FirstRecord, StatusName, FileKind, Letter, KindTold, Told;
  }

  lemma RecordReads(e: Entry)
    requires WellFormed(e) && !e.Renamed?
    ensures Single(FirstRecord(e)) == Some(Report(e))
  {
    FirstRecordFields(e);
    SidesAreTold(e);
    hide EntryFields, FirstRecord, StatusName, FileKind, Letter, KindTold, Told;
    if e.Untracked? {
      assert ("? " + e.path)[2..] == e.path;
    }
  }

  /** The parser takes exactly the records of an entry, and reports it. */
  lemma FirstReads(e: Entry, rest: seq<string>)
    requires WellFormed(e)
    ensures var records := Print(e) + rest;
            First(records) == (Some(Report(e)), |Print(e)|) && records[|Print(e)|..] == rest
  {
    RecordKinds(e);
    if !e.Renamed? {
      RecordReads(e);
    }
    hide IsHeader, IsRename, FirstRecord, Report, Single, Rename, WellFormed;
  }

  lemma PrintReads(e: Entry, rest: seq<string>)
    requires WellFormed(e)
    ensures Files(Print(e) + rest) == [Report(e)] + Files(rest)
  {
    FirstReads(e, rest);
    hide First, Report, Print, WellFormed;
  }

  lemma {:induction false} PrintAllIsPrintable(entries: seq<Entry>)
    requires AllWellFormed(entries)
    ensures AllPrintable(PrintAll(entries))
  {
    if entries != [] {
      assert entries[0] in entries && forall e <- entries[1..] :: e in entries;
      PrintAllIsPrintable(entries[1..]);
      FirstRecordFields(entries[0]);
      hide FirstRecord, Printable;
      assert forall r <- Print(entries[0]) :: Printable(r);
    }
  }

  lemma ListUnfolds(entries: seq<Entry>, rest: seq<string>, files: seq<File>)
    requires entries != []
    ensures PrintAll(entries) + rest == Print(entries[0]) + (PrintAll(entries[1..]) + rest)
    ensures Reports(entries) + files == [Report(entries[0])] + (Reports(entries[1..]) + files)
  {
    PrintsFirst(entries);
    ReportsFirst(entries);
    hide Reports, Report, PrintAll, Print;
    Regroups(Print(entries[0]), PrintAll(entries[1..]), rest);
    Regroups([Report(entries[0])], Reports(entries[1..]), files);
  }

  lemma Regroups<T>(a: seq<T>, b: seq<T>, c: seq<T>)
    ensures (a + b) + c == a + (b + c)
  {
  }

  lemma PrintsFirst(entries: seq<Entry>)
    requires entries != []
    ensures PrintAll(entries) == Print(entries[0]) + PrintAll(entries[1..])
  {
    hide Print;
  }

  lemma {:induction false} PrintAllReads(entries: seq<Entry>, rest: seq<string>)
    requires AllWellFormed(entries)
    ensures Files(PrintAll(entries) + rest) == Reports(entries) + Files(rest)
  {
    if entries == [] {
      assert PrintAll(entries) + rest == rest;
    } else {
      var first, others := entries[0], entries[1..];
      assert first in entries && forall e <- others :: e in entries;
      hide Print, Files, Report, WellFormed, PrintAll, Reports;
      PrintAllReads(others, rest);
      PrintReads(first, PrintAll(others) + rest);
      ListUnfolds(entries, rest, Files(rest));
    }
  }

  /** Printing any list of entries and parsing it gives the list back: paths may hold spaces, and an
      old path may look like any record. */
  lemma StatusRoundTrip(entries: seq<Entry>)
    requires AllWellFormed(entries)
    ensures Files(Records(Terminated(PrintAll(entries), NUL))) == Reports(entries)
  {
    PrintAllReads(entries, []);
    PrintAllIsPrintable(entries);
    assert PrintAll(entries) + [] == PrintAll(entries);
    RecordsRoundTrip(PrintAll(entries));
  }

  /** Records that change nothing before the entries after them change nothing between any entries. */
  lemma InertBetween(before: seq<Entry>, odd: seq<string>, after: seq<Entry>)
    requires AllWellFormed(before) && AllWellFormed(after)
    requires forall record <- odd :: Printable(record)
    requires Files(odd + PrintAll(after)) == Files(PrintAll(after))
    ensures Files(Records(Terminated(PrintAll(before) + odd + PrintAll(after), NUL))) == Reports(before + after)
  {
    var tail := odd + PrintAll(after);
    NothingListed();
    hide Files;
    PrintAllReads(before, tail);
    PrintAllReads(after, []);
    PrintAllIsPrintable(before);
    PrintAllIsPrintable(after);
    assert PrintAll(after) + [] == PrintAll(after);
    assert PrintAll(before) + odd + PrintAll(after) == PrintAll(before) + tail;
    RecordsRoundTrip(PrintAll(before) + tail);
    ReportsJoin(before, after);
  }

  /** A malformed rename takes the record after it along: between any entries, the two change
      nothing, whatever the second looks like. */
  lemma MalformedRenameIsInert(before: seq<Entry>, malformed: string, next: string, after: seq<Entry>)
    requires AllWellFormed(before) && AllWellFormed(after)
    requires Printable(malformed) && Printable(next)
    requires IsRename(malformed) && EntryFields(malformed, RENAME_FIELDS).None?
    ensures Files(Records(Terminated(PrintAll(before) + [malformed, next] + PrintAll(after), NUL)))
         == Reports(before + after)
  {
    hide EntryFields;
    var tail := [malformed, next] + PrintAll(after);
    assert tail[2..] == PrintAll(after);
    assert First(tail) == (None, 2);
    MalformedIsSkipped(tail);
    hide Files, First, IsRename, PrintAll, Reports;
    InertBetween(before, [malformed, next], after);
  }

  /** A record of no kind known here, a header or an ignored file say, changes nothing between any
      entries. */
  lemma OtherRecordsAreInert(before: seq<Entry>, other: string, after: seq<Entry>)
    requires AllWellFormed(before) && AllWellFormed(after) && Printable(other)
    requires IsHeader(other) || other[0] !in ['1', '2', 'u', '?']
    ensures Files(Records(Terminated(PrintAll(before) + [other] + PrintAll(after), NUL))) == Reports(before + after)
  {
    var tail := [other] + PrintAll(after);
    assert tail[1..] == PrintAll(after);
    assert First(tail) == (None, 1);
    OtherIsSkipped(tail);
    hide Files, First, PrintAll, Reports;
    InertBetween(before, [other], after);
  }

  lemma OtherIsSkipped(records: seq<string>)
    requires records != [] && First(records) == (None, 1)
    ensures Files(records) == Files(records[1..])
  {
    hide First;
  }

  lemma MalformedIsSkipped(records: seq<string>)
    requires records != [] && First(records) == (None, 2)
    ensures Files(records) == Files(records[2..])
  {
    hide First;
  }

  lemma NothingListed()
    ensures Files([]) == []
  {
  }

  lemma ReportsFirst(entries: seq<Entry>)
    requires entries != []
    ensures Reports(entries) == [Report(entries[0])] + Reports(entries[1..])
  {
    hide Report;
  }

  lemma {:induction false} ReportsJoin(a: seq<Entry>, b: seq<Entry>)
    ensures Reports(a + b) == Reports(a) + Reports(b)
  {
    hide Report;
    if a == [] {
      assert a + b == b;
    } else {
      hide Reports;
      ReportsJoin(a[1..], b);
      ReportsFirst(a);
      ReportsFirst(a + b);
      assert (a + b)[0] == a[0] && (a + b)[1..] == a[1..] + b;
    }
  }
}
