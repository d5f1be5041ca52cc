/**
 * The scan itself: `process_file` turns the query matches of one file into
 * flagged records pushed into a shared bucket, and the driver in `main` runs
 * it over every source file and sums the per-file counts.
 *
 * Parsing and querying belong to the parsing library; a file is given here by
 * what that library yields for it: one `Match` per declaration the query
 * pattern recognised, with the name capture (already sliced to its text) and
 * the parameter-list capture (the kinds of its children and its 0-based start
 * row), either of which may be missing.
 */
module Scanner {
  import opened Wrappers
  import Paths
  import opened ParameterCounting
  import opened FunctionRecord

  datatype Params = Params(childKinds: seq<string>, startRow: nat)

  datatype Match = Match(name: Option<string>, params: Option<Params>)

  /** What reading a source file produced: `fs::read_to_string` failed, or the
      text was parsed and queried into these matches. */
  datatype Contents = Unreadable | Parsed(matches: seq<Match>)

  datatype SourceFile = SourceFile(path: Paths.Path, contents: Contents)

  datatype ScanError = ReadFailed(path: Paths.Path)

  /** The result of a completed run: the records left in the bucket, in no
      particular order, and the running total of flagged declarations. */
  datatype Report = Report(records: multiset<FnInfo>, total: nat)

  /** A match that carries both captures; only these are looked at. */
  predicate Complete(m: Match)
  {
    m.name.Some? && m.params.Some?
  }

  /** Every path lies under `base`, as every path the directory walk yields
      lies under the directory it started from. */
  predicate AllUnder(base: Paths.Path, files: seq<SourceFile>)
  {
    forall i :: 0 <= i < |files| ==> base <= files[i].path
  }

  /** What one match contributes to the bucket, for a file whose path
      relative to the scanned directory is `relative`. */
  function Flagged(relative: Paths.Path, m: Match, minArgs: nat): Option<FnInfo>
  {
    if Complete(m) then
      var arity := ParameterCount(m.params.value.childKinds);
      if arity > minArgs
      then Some(FnInfo(relative, m.name.value, arity, m.params.value.startRow + 1))
      else None
    else None
  }

  /** The records `process_file` pushes for these matches, in match order. */
  function Retained(relative: Paths.Path, ms: seq<Match>, minArgs: nat): seq<FnInfo>
  {
    if ms == [] then []
    else
      var init := Retained(relative, ms[..|ms| - 1], minArgs);
      match Flagged(relative, ms[|ms| - 1], minArgs)
      case None => init
      case Some(r) => init + [r]
  }

  /** The records `process_file` pushes for one file (none if it is unreadable). */
  function FileRecords(base: Paths.Path, file: SourceFile, minArgs: nat): seq<FnInfo>
    requires base <= file.path
  {
    if file.contents.Parsed? then Retained(file.path[|base|..], file.contents.matches, minArgs) else []
  }

  /** The records of the first `n` files, file after file. */
  function RecordsBefore(base: Paths.Path, files: seq<SourceFile>, n: nat, minArgs: nat): seq<FnInfo>
    requires n <= |files| && AllUnder(base, files)
  {
    if n == 0 then [] else RecordsBefore(base, files, n - 1, minArgs) + FileRecords(base, files[n - 1], minArgs)
  }

  /** The per-file counts `process_file` returns for the first `n` files, summed. */
  function CountBefore(base: Paths.Path, files: seq<SourceFile>, n: nat, minArgs: nat): nat
    requires n <= |files| && AllUnder(base, files)
  {
    if n == 0 then 0 else CountBefore(base, files, n - 1, minArgs) + |FileRecords(base, files[n - 1], minArgs)|
  }

  /** One more file extends the records and the total by that file's share. */
  lemma NextFile(base: Paths.Path, files: seq<SourceFile>, i: nat, minArgs: nat)
    requires i < |files| && AllUnder(base, files)
    ensures RecordsBefore(base, files, i + 1, minArgs)
      == RecordsBefore(base, files, i, minArgs) + FileRecords(base, files[i], minArgs)
    ensures CountBefore(base, files, i + 1, minArgs)
      == CountBefore(base, files, i, minArgs) + |FileRecords(base, files[i], minArgs)|
  {
  }

  /** File `i` is the first one that could not be read. */
  predicate FirstUnreadable(files: seq<SourceFile>, i: int)
  {
    0 <= i < |files| && files[i].contents.Unreadable?
      && forall k :: 0 <= k < i ==> files[k].contents.Parsed?
  }

  /** One more match extends the pushed records by that match's share. */
  lemma RetainedStep(relative: Paths.Path, ms: seq<Match>, i: nat, minArgs: nat)
    requires i < |ms|
    ensures Retained(relative, ms[..i + 1], minArgs)
      == Retained(relative, ms[..i], minArgs) + (match Flagged(relative, ms[i], minArgs) case None => [] case Some(r) => [r])
  {
    assert ms[..i + 1][..i] == ms[..i];
  }

  /** The `BinaryHeap<FnInfo>` the records are pushed into, as the sequence
      of its pushes. Its heap layout and iteration order are not modelled:
      what leaves the bucket is read as a multiset. */
  class Bucket {
    var elems: seq<FnInfo>

    constructor ()
      ensures elems == []
    {
      elems := [];
    }

    method Push(x: FnInfo)
      modifies this
      ensures elems == old(elems) + [x]
    {
      elems := elems + [x];
    }
  }

  /** `process_file`: pushes one record per complete match whose arity exceeds
      `minArgs` and returns how many it pushed; fails, pushing nothing, when
      the file cannot be read. */
  method ProcessFile(base: Paths.Path, file: SourceFile, minArgs: nat, bucket: Bucket)
    returns (r: Result<nat, ScanError>)
    requires base <= file.path
    modifies bucket
    ensures file.contents.Unreadable? ==> r == Err(ReadFailed(file.path))
    ensures file.contents.Parsed? ==> r == Ok(|FileRecords(base, file, minArgs)|)
    ensures bucket.elems == old(bucket.elems) + FileRecords(base, file, minArgs)
  {
    if file.contents.Unreadable? {
      return Err(ReadFailed(file.path));
    }
    var matches := file.contents.matches;
    var count: nat := 0;
    var i := 0;
    while i < |matches|
      invariant 0 <= i <= |matches|
      invariant bucket.elems == old(bucket.elems) + Retained(file.path[|base|..], matches[..i], minArgs)
      invariant count == |Retained(file.path[|base|..], matches[..i], minArgs)|
    {
      RetainedStep(file.path[|base|..], matches, i, minArgs);
      var m := matches[i];
      if m.name.Some? && m.params.Some? {
        var name := m.name.value;
        var params := m.params.value;
        var arity := CountParameters(params.childKinds);
        var relative := Paths.StripPrefix(file.path, base).value;
        if arity > minArgs {
          var line := params.startRow + 1;
          bucket.Push(FnInfo(relative, name, arity, line));
          count := count + 1;
        }
      }
      i := i + 1;
    }
    assert matches[..|matches|] == matches;
    r := Ok(count);
  }

  /** The driver loop of `main` over the source files found under `directory`:
      the run fails on the first unreadable file; otherwise the bucket holds
      exactly the records of every file and the total is the sum of the
      per-file counts. */
  method Run(directory: Paths.Path, files: seq<SourceFile>, minArgs: nat)
    returns (r: Result<Report, ScanError>)
    requires AllUnder(directory, files)
    ensures r.Ok? <==> forall i :: 0 <= i < |files| ==> files[i].contents.Parsed?
    ensures r.Ok? ==> r.value.records == multiset(RecordsBefore(directory, files, |files|, minArgs))
    ensures r.Ok? ==> r.value.total == CountBefore(directory, files, |files|, minArgs)
    ensures r.Ok? ==> r.value.total == |r.value.records|
    ensures r.Ok? ==> forall x :: x in r.value.records ==> x.arity > minArgs && x.line >= 1
    ensures r.Err? ==> exists i :: FirstUnreadable(files, i) && r.error == ReadFailed(files[i].path)
  {
    var bucket := new Bucket();
    var totalFiles := 0;
    var i := 0;
    while i < |files|
      invariant 0 <= i <= |files|
      invariant forall k :: 0 <= k < i ==> files[k].contents.Parsed?
      invariant bucket.elems == RecordsBefore(directory, files, i, minArgs)
      invariant totalFiles == CountBefore(directory, files, i, minArgs)
    {
      var file := files[i];
      var fileCount := ProcessFile(directory, file, minArgs, bucket);
      if fileCount.Err? {
        assert FirstUnreadable(files, i);
        return Err(fileCount.error);
      }
      assert file.contents.Parsed?;
      totalFiles := totalFiles + fileCount.value;
      NextFile(directory, files, i, minArgs);
      i := i + 1;
    }
    ghost var all := RecordsBefore(directory, files, |files|, minArgs);
    assert bucket.elems == all;
    CountIsRecords(directory, files, |files|, minArgs);
    RecordsBeforeSound(directory, files, |files|, minArgs);
    var records := multiset(bucket.elems);
    assert forall x :: x in records ==> x in all;
    r := Ok(Report(records, totalFiles));
  }

  // ---------------------------------------------------------------------
  // What the pushed records satisfy.

  /** The record a complete match yields when it is flagged. */
  function RecordOf(relative: Paths.Path, m: Match): FnInfo
    requires Complete(m)
  {
    FnInfo(relative, m.name.value, ParameterCount(m.params.value.childKinds), m.params.value.startRow + 1)
  }

  /** Match lists are processed independently: the records of a
      concatenation are the records of each part, in order. */
  lemma {:induction false} RetainedAppend(relative: Paths.Path, a: seq<Match>, b: seq<Match>, minArgs: nat)
    ensures Retained(relative, a + b, minArgs) == Retained(relative, a, minArgs) + Retained(relative, b, minArgs)
    decreases |b|
  {
    if b == [] {
      assert a + b == a;
    } else {
      var init := b[..|b| - 1];
      assert (a + b)[..|a + b| - 1] == a + init;
      assert (a + b)[|a + b| - 1] == b[|b| - 1];
      RetainedAppend(relative, a, init, minArgs);
    }
  }

  /** A match missing a capture, or whose arity does not exceed the
      threshold (one at the threshold included), adds nothing wherever it
      sits among the other matches. */
  lemma RetainedSkips(relative: Paths.Path, a: seq<Match>, m: Match, b: seq<Match>, minArgs: nat)
    requires !Complete(m) || ParameterCount(m.params.value.childKinds) <= minArgs
    ensures Retained(relative, a + [m] + b, minArgs) == Retained(relative, a + b, minArgs)
  {
    RetainedAppend(relative, a + [m], b, minArgs);
    RetainedAppend(relative, a, [m], minArgs);
    RetainedAppend(relative, a, b, minArgs);
    assert [m][..0] == [];
  }

  /** Soundness: every pushed record exceeds the threshold, has a line of at
      least 1, carries the relative path, and is the record of one of the
      matches. At most one record is pushed per match. */
  lemma {:induction false} RetainedSound(relative: Paths.Path, ms: seq<Match>, minArgs: nat)
    ensures |Retained(relative, ms, minArgs)| <= |ms|
    ensures forall x :: x in Retained(relative, ms, minArgs) ==>
      x.arity > minArgs && x.line >= 1 && x.path == relative
      && exists j :: 0 <= j < |ms| && Complete(ms[j]) && x == RecordOf(relative, ms[j])
  {
    if ms != [] {
      var init := ms[..|ms| - 1];
      RetainedSound(relative, init, minArgs);
      forall x | x in Retained(relative, ms, minArgs)
        ensures exists j :: 0 <= j < |ms| && Complete(ms[j]) && x == RecordOf(relative, ms[j])
      {
        if x in Retained(relative, init, minArgs) {
          var j :| 0 <= j < |init| && Complete(init[j]) && x == RecordOf(relative, init[j]);
          assert ms[j] == init[j];
        } else {
          assert Complete(ms[|ms| - 1]) && x == RecordOf(relative, ms[|ms| - 1]);
        }
      }
    }
  }

  /** Completeness: every complete match whose arity exceeds the threshold
      has its record pushed. */
  lemma {:induction false} RetainedComplete(relative: Paths.Path, ms: seq<Match>, j: nat, minArgs: nat)
    requires j < |ms| && Complete(ms[j])
    requires ParameterCount(ms[j].params.value.childKinds) > minArgs
    ensures RecordOf(relative, ms[j]) in Retained(relative, ms, minArgs)
  {
    var init := ms[..|ms| - 1];
    if j < |ms| - 1 {
      assert init[j] == ms[j];
      RetainedComplete(relative, init, j, minArgs);
    }
  }

  /** The records of one file name it by its path relative to `base`. */
  lemma FileRecordsRelative(base: Paths.Path, file: SourceFile, minArgs: nat)
    requires base <= file.path
    ensures forall x :: x in FileRecords(base, file, minArgs) ==>
      base + x.path == file.path && x.arity > minArgs && x.line >= 1
  {
    if file.contents.Parsed? {
      RetainedSound(file.path[|base|..], file.contents.matches, minArgs);
    }
  }

  /** The summed per-file counts equal the number of records collected. */
  lemma {:induction false} CountIsRecords(base: Paths.Path, files: seq<SourceFile>, n: nat, minArgs: nat)
    requires n <= |files| && AllUnder(base, files)
    ensures CountBefore(base, files, n, minArgs) == |RecordsBefore(base, files, n, minArgs)|
  {
    if n > 0 {
      CountIsRecords(base, files, n - 1, minArgs);
    }
  }

  /** Across the whole run the records are exactly those of the files. */
  lemma {:induction false} RecordsBeforeExact(base: Paths.Path, files: seq<SourceFile>, n: nat, minArgs: nat)
    requires n <= |files| && AllUnder(base, files)
    ensures forall x :: x in RecordsBefore(base, files, n, minArgs) <==>
      exists i :: 0 <= i < n && x in FileRecords(base, files[i], minArgs)
  {
    if n > 0 {
      RecordsBeforeExact(base, files, n - 1, minArgs);
    }
  }

  /** Every collected record exceeds the threshold, has a line of at least
      1, and names a scanned file by its path relative to `base`. */
  lemma RecordsBeforeSound(base: Paths.Path, files: seq<SourceFile>, n: nat, minArgs: nat)
    requires n <= |files| && AllUnder(base, files)
    ensures forall x :: x in RecordsBefore(base, files, n, minArgs) ==>
      x.arity > minArgs && x.line >= 1 && exists i :: 0 <= i < n && base + x.path == files[i].path
  {
    RecordsBeforeExact(base, files, n, minArgs);
    forall x | x in RecordsBefore(base, files, n, minArgs)
      ensures x.arity > minArgs && x.line >= 1 && exists i :: 0 <= i < n && base + x.path == files[i].path
    {
      var i :| 0 <= i < n && x in FileRecords(base, files[i], minArgs);
      FileRecordsRelative(base, files[i], minArgs);
    }
  }
}
