/** `git diff --numstat -z`, and the counts it adds to a status. */
module GitNumstat {
  import opened Protocol
  import opened GitText
  import opened GitStatus

  datatype Numstat = Numstat(path: string, added: Option<nat>, deleted: Option<nat>)

  /** What the first record becomes, and how many records it takes: a rename's counts have an empty
      path, and its old and new paths follow. */
  function First(records: seq<string>): (r: (Option<Numstat>, nat))
    requires records != []
    ensures 0 < r.1 <= |records|
  {
    var fields := SplitN(records[0], 3, '\t');
    if |fields| < 3 then (None, 1)
    else if fields[2] != [] then (Some(Numstat(fields[2], ParseCount(fields[0]), ParseCount(fields[1]))), 1)
    else if |records| < 3 then (None, |records|)
    else (Some(Numstat(records[2], ParseCount(fields[0]), ParseCount(fields[1]))), 3)
  }

  function Entries(records: seq<string>): seq<Numstat> {
    if records == [] then []
    else
      var (entry, taken) := First(records);
      (if entry.Some? then [entry.value] else []) + Entries(records[taken..])
  }

  method NextEntry(records: seq<string>, i: nat) returns (entry: Option<Numstat>, next: nat)
    requires i < |records|
    ensures (entry, next - i) == First(records[i..]) && i < next <= |records|
  {
    Suffixes(records, i);
    assert i + 2 < |records| ==> records[i..][2] == records[i + 2];
    hide SplitN, ParseCount;
    var fields := SplitN(records[i], 3, '\t');
    next := i + 1;
    if |fields| < 3 {
      return None, next;
    }
    var path := fields[2];
    if path == [] {
      // The old path, then the new one.
      if next < |records| {
        next := next + 1;
      }
      if next == |records| {
        return None, next;
      }
      path := records[next];
      next := next + 1;
    }
    entry := Some(Numstat(path, ParseCount(fields[0]), ParseCount(fields[1])));
  }

  /** The loop of `parse_git_numstat`. */
  method ParseNumstat(records: seq<string>) returns (entries: seq<Numstat>)
    ensures entries == Entries(records)
  {
    hide First;
    entries := [];
    var i := 0;
    assert records[0..] == records;
    while i < |records|
      invariant i <= |records|
      invariant entries + Entries(records[i..]) == Entries(records)
    {
      var entry, next := NextEntry(records, i);
      EntriesFrom(records, i);
      hide Entries;
      if entry.Some? {
        entries := entries + [entry.value];
      }
      i := next;
    }
  }

  lemma EntriesFrom(records: seq<string>, i: nat)
    requires i < |records|
    ensures var (entry, taken) := First(records[i..]);
            Entries(records[i..]) == (if entry.Some? then [entry.value] else []) + Entries(records[i + taken..])
  {
    hide First;
    assert records[i..][First(records[i..]).1..] == records[i + First(records[i..]).1..];
  }

  // ---- Printing ------------------------------------------------------------------------------

  /** A changed file as git prints it; a rename also prints where it came from. */
  datatype Change = Change(added: Option<nat>, deleted: Option<nat>, oldPath: Option<string>, path: string)

  predicate WellFormedChange(c: Change) {
    && CountFits(c.added) && CountFits(c.deleted)
    && Printable(c.path)
    && (c.oldPath.Some? ==> Printable(c.oldPath.value))
  }

  function Counts(c: Change): string {
    Terminated([PrintCount(c.added), PrintCount(c.deleted)], '\t')
  }

  function PrintChange(c: Change): seq<string> {
    if c.oldPath.Some? then [Counts(c), c.oldPath.value, c.path] else [Counts(c) + c.path]
  }

  function PrintChanges(changes: seq<Change>): seq<string> {
    if changes == [] then [] else PrintChange(changes[0]) + PrintChanges(changes[1..])
  }

  function Counted(changes: seq<Change>): seq<Numstat> {
    if changes == [] then []
    else [Numstat(changes[0].path, changes[0].added, changes[0].deleted)] + Counted(changes[1..])
  }

  predicate AllWellFormedChanges(changes: seq<Change>) {
    forall c <- changes :: WellFormedChange(c)
  }

  lemma CountsRead(c: Change, path: string)
    requires WellFormedChange(c)
    ensures Counts(c) != [] && NUL !in Counts(c)
    ensures SplitN(Counts(c) + path, 3, '\t') == [PrintCount(c.added), PrintCount(c.deleted), path]
    ensures Counts(c)[0] == '-' || Digit(Counts(c)[0])
  {
    CountRoundTrip(c.added);
    CountRoundTrip(c.deleted);
    hide PrintCount, SplitN, ParseCount;
    var fields := [PrintCount(c.added), PrintCount(c.deleted)];
    SplitTerminated(fields, '\t', path, 1);
    SplitWhole(path, 1, '\t');
    TerminatedFree(fields, '\t', NUL);
    assert Counts(c)[0] == PrintCount(c.added)[0];
  }

  lemma ChangeReads(c: Change, rest: seq<string>)
    requires WellFormedChange(c)
    ensures var records := PrintChange(c) + rest;
            && First(records) == (Some(Numstat(c.path, c.added, c.deleted)), |PrintChange(c)|)
            && records[|PrintChange(c)|..] == rest
  {
    CountsRead(c, if c.oldPath.Some? then [] else c.path);
    CountRoundTrip(c.added);
    CountRoundTrip(c.deleted);
    assert Counts(c) + [] == Counts(c);
    hide SplitN, Counts, ParseCount, PrintCount;
  }

  lemma {:induction false} ChangesArePrintable(changes: seq<Change>)
    requires AllWellFormedChanges(changes)
    ensures AllPrintable(PrintChanges(changes))
  {
    if changes != [] {
      var first := changes[0];
      assert first in changes && forall c <- changes[1..] :: c in changes;
      ChangesArePrintable(changes[1..]);
      CountsRead(first, first.path);
      hide Counts, Printable;
      assert Printable(Counts(first)) && Printable(Counts(first) + first.path) by {
        PrintableCounts(first);
      }
    }
  }

  lemma PrintableCounts(c: Change)
    requires WellFormedChange(c)
    ensures Printable(Counts(c)) && Printable(Counts(c) + c.path)
  {
    CountsRead(c, c.path);
    hide Counts, SplitN;
  }

  lemma ChangesUnfold(changes: seq<Change>)
    requires changes != []
    ensures PrintChanges(changes) == PrintChange(changes[0]) + PrintChanges(changes[1..])
    ensures Counted(changes)
         == [Numstat(changes[0].path, changes[0].added, changes[0].deleted)] + Counted(changes[1..])
  {
  }

  lemma EntriesOf(records: seq<string>, entry: Numstat, taken: nat)
    requires records != [] && First(records) == (Some(entry), taken)
    ensures Entries(records) == [entry] + Entries(records[taken..])
  {
    hide First;
  }

  lemma {:induction false} ChangesRead(changes: seq<Change>)
    requires AllWellFormedChanges(changes)
    ensures Entries(PrintChanges(changes)) == Counted(changes)
  {
    if changes != [] {
      var first, others := changes[0], changes[1..];
      assert first in changes && forall c <- others :: c in changes;
      hide First, Entries, PrintChange, PrintChanges, Counted, WellFormedChange;
      ChangesUnfold(changes);
      ChangesRead(others);
      ChangeReads(first, PrintChanges(others));
      EntriesOf(PrintChanges(changes), Numstat(first.path, first.added, first.deleted), |PrintChange(first)|);
    }
  }

  /** Printed counts are read back, a rename's under its new path. */
  lemma NumstatRoundTrip(changes: seq<Change>)
    requires AllWellFormedChanges(changes)
    ensures Entries(Records(Terminated(PrintChanges(changes), NUL))) == Counted(changes)
  {
    ChangesArePrintable(changes);
    RecordsRoundTrip(PrintChanges(changes));
    hide Entries, Records;
    ChangesRead(changes);
  }

  // ---- Applying the counts -------------------------------------------------------------------

  /** `index_numstat`: the last entry of a path counts. */
  function Index(entries: seq<Numstat>): map<string, Numstat> {
    if entries == [] then map[]
    else
      var last := entries[|entries| - 1];
      Index(entries[..|entries| - 1])[last.path := last]
  }

  /** A path is found exactly when some entry has it, and the entry found is its last. */
  lemma {:induction false} IndexFindsTheLast(entries: seq<Numstat>, path: string)
    ensures path in Index(entries) <==> exists e <- entries :: e.path == path
    ensures forall i | 0 <= i < |entries| && entries[i].path == path
              && (forall j | i < j < |entries| :: entries[j].path != path) :: Index(entries)[path] == entries[i]
  {
    if entries != [] {
      var init := entries[..|entries| - 1];
      IndexFindsTheLast(init, path);
      assert entries == init + [entries[|entries| - 1]];
      forall i | 0 <= i < |entries| && entries[i].path == path
          && (forall j | i < j < |entries| :: entries[j].path != path)
        ensures path in Index(entries) && Index(entries)[path] == entries[i]
      {
        if i < |init| {
          assert init[i] == entries[i] && init[i] in init;
          assert forall j | i < j < |init| :: init[j] == entries[j];
        }
      }
    }
  }

  const U32_MAX: nat := U32_LIMIT - 1

  function SaturatingAdd(a: nat, b: nat): nat {
    Min(a + b, U32_MAX)
  }

  function Lines(count: Option<nat>): nat {
    if count.Some? then count.value else 0
  }

  /** A file with the counts found for its path; a conflict keeps none. */
  function Applied(file: File, staged: map<string, Numstat>, unstaged: map<string, Numstat>): File {
    if file.kind == "unmerged" then file
    else
      var one := if file.path in staged
                 then file.(stagedAdded := staged[file.path].added, stagedDeleted := staged[file.path].deleted)
                 else file;
      if file.path in unstaged
      then one.(unstagedAdded := unstaged[file.path].added, unstagedDeleted := unstaged[file.path].deleted)
      else one
  }

  function Added(file: File): nat {
    if file.kind == "unmerged" then 0 else Lines(file.stagedAdded) + Lines(file.unstagedAdded)
  }

  function Deleted(file: File): nat {
    if file.kind == "unmerged" then 0 else Lines(file.stagedDeleted) + Lines(file.unstagedDeleted)
  }

  function AddedSum(files: seq<File>): nat {
    if files == [] then 0 else AddedSum(files[..|files| - 1]) + Added(files[|files| - 1])
  }

  function DeletedSum(files: seq<File>): nat {
    if files == [] then 0 else DeletedSum(files[..|files| - 1]) + Deleted(files[|files| - 1])
  }

  /** Adding two counts one after the other saturates like adding their sum. */
  lemma SaturatesOnce(sum: nat, a: nat, b: nat)
    ensures SaturatingAdd(SaturatingAdd(Min(sum, U32_MAX), a), b) == Min(sum + (a + b), U32_MAX)
  {
  }

  class Status {
    var files: seq<File>
    var addedTotal: nat
    var deletedTotal: nat

    constructor (listed: seq<File>)
      ensures files == listed && addedTotal == 0 && deletedTotal == 0
    {
      files, addedTotal, deletedTotal := listed, 0, 0;
    }

    /** `apply_numstat_counts`: the totals are the true sums over the files, capped at the width of
        the counts. */
    method ApplyCounts(staged: map<string, Numstat>, unstaged: map<string, Numstat>)
      modifies this
      ensures |files| == |old(files)|
      ensures forall i | 0 <= i < |files| :: files[i] == Applied(old(files)[i], staged, unstaged)
      ensures addedTotal == Min(AddedSum(files), U32_MAX)
      ensures deletedTotal == Min(DeletedSum(files), U32_MAX)
    {
      var was := files;
      var added, deleted := 0, 0;
      var done: seq<File> := [];
      while |done| < |was|
        invariant |done| <= |was|
        invariant forall i | 0 <= i < |done| :: done[i] == Applied(was[i], staged, unstaged)
        invariant added == Min(AddedSum(done), U32_MAX)
        invariant deleted == Min(DeletedSum(done), U32_MAX)
      {
        var file := was[|done|];
        if file.kind != "unmerged" {
          if file.path in staged {
            var entry := staged[file.path];
            file := file.(stagedAdded := entry.added, stagedDeleted := entry.deleted);
          }
          if file.path in unstaged {
            var entry := unstaged[file.path];
            file := file.(unstagedAdded := entry.added, unstagedDeleted := entry.deleted);
          }
          SaturatesOnce(AddedSum(done), Lines(file.stagedAdded), Lines(file.unstagedAdded));
          SaturatesOnce(DeletedSum(done), Lines(file.stagedDeleted), Lines(file.unstagedDeleted));
          added := SaturatingAdd(SaturatingAdd(added, Lines(file.stagedAdded)), Lines(file.unstagedAdded));
          deleted := SaturatingAdd(SaturatingAdd(deleted, Lines(file.stagedDeleted)), Lines(file.unstagedDeleted));
        }
        assert (done + [file])[..|done|] == done;
        done := done + [file];
      }
      files, addedTotal, deletedTotal := done, added, deleted;
    }
  }
}
