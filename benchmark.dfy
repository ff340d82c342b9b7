// The main routine of projekt.py: turning matrix files into records
// (`load_matrices`, projekt.py:95-117), testing every record against the
// preconditioner list (projekt.py:158-161) and printing the two result
// tables (projekt.py:163-179).

module Benchmark {
  import opened Text
  import opened Table
  import opened MatrixName
  import opened Records

  /** No record appears twice: each is its own matrix. */
  predicate Distinct(records: seq<MatrixRecord>)
  {
    forall i, j :: 0 <= i < |records| && 0 <= j < |records| && i != j ==> records[i] != records[j]
  }

  /** The body of the loop of `load_matrices`: one matrix file becomes a fresh record. */
  method LoadMatrix(path: string, rowsOf: string -> nat) returns (record: MatrixRecord)
    ensures fresh(record) && record.Valid()
    ensures record.name == DisplayName(path)
    ensures record.M == MatrixHandle(path, rowsOf(path)) && record.nRows == rowsOf(path)
    ensures record.nIters == [] && record.times == []
  {
    var a := MatrixHandle(path, rowsOf(path));
    var dotIndex := RFind(path, '.');
    var slashIndex := RFind(path, '/');
    var name := PySlice(path, slashIndex + 1, dotIndex);
    record := new MatrixRecord(a, name, a.rows);
  }

  /**
   * `load_matrices`: one fresh record per path, in order, named by the
   * path's stem. `rowsOf` stands for reading and assembling the matrix
   * (`mmread`, `createAIJ`) and gives its row count.
   */
  method LoadMatrices(paths: seq<string>, rowsOf: string -> nat) returns (records: seq<MatrixRecord>)
    ensures |records| == |paths| && Distinct(records)
    ensures forall i :: 0 <= i < |paths| ==>
      fresh(records[i]) && records[i].Valid() &&
      records[i].name == DisplayName(paths[i]) &&
      records[i].M == MatrixHandle(paths[i], rowsOf(paths[i])) &&
      records[i].nRows == rowsOf(paths[i]) &&
      records[i].nIters == [] && records[i].times == []
  {
    records := [];
    for k := 0 to |paths|
      invariant |records| == k && Distinct(records)
      invariant forall i :: 0 <= i < k ==>
        fresh(records[i]) && records[i].Valid() &&
        records[i].name == DisplayName(paths[i]) &&
        records[i].M == MatrixHandle(paths[i], rowsOf(paths[i])) &&
        records[i].nRows == rowsOf(paths[i]) &&
        records[i].nIters == [] && records[i].times == []
    {
      var record := LoadMatrix(paths[k], rowsOf);
      records := records + [record];
    }
  }

  /** The display names of the records, in order. */
  function Names(records: seq<MatrixRecord>): (r: seq<string>)
    ensures |r| == |records|
    ensures forall i :: 0 <= i < |records| ==> r[i] == records[i].name
  {
    seq(|records|, i requires 0 <= i < |records| => records[i].name)
  }

  /** All that the testing loop prints: only the first record's call gets `testing_first_tim`. */
  function RunOutput(solver: Solver, names: seq<string>, precons: seq<string>, verbose: bool): (r: seq<string>)
    ensures |r| <= |names| * (|precons| + 2)
    ensures verbose ==> |r| >= 2 * |names|
  {
    if names == [] then []
    else
      var init := names[..|names| - 1];
      assert |init| * (|precons| + 2) + (|precons| + 2) == |names| * (|precons| + 2);
      RunOutput(solver, init, precons, verbose)
      + TrialOutput(solver, names[|names| - 1], precons, verbose, |names| == 1)
  }

  lemma RunOutputStep(solver: Solver, names: seq<string>, precons: seq<string>, verbose: bool, k: nat)
    requires k < |names|
    ensures RunOutput(solver, names[..k + 1], precons, verbose)
      == RunOutput(solver, names[..k], precons, verbose) + TrialOutput(solver, names[k], precons, verbose, k == 0)
  {
    assert names[..k + 1][..k] == names[..k];
  }

  /**
   * Each rejected identifier is warned about while the first matrix is
   * tested and never again: the run prints a warning for `p` exactly when
   * there is a matrix and the solver rejects `p`, one of the identifiers,
   * and no later record's trials print it.
   */
  lemma {:induction false} WarnedOnFirstRecordOnly(solver: Solver, names: seq<string>, precons: seq<string>,
                                                   verbose: bool, p: string)
    ensures Warning(p) in RunOutput(solver, names, precons, verbose)
      <==> names != [] && p in precons && !solver.accepts(p)
    ensures forall i :: 0 < i < |names| ==> Warning(p) !in TrialOutput(solver, names[i], precons, verbose, false)
  {
    forall i | 0 < i < |names|
      ensures Warning(p) !in TrialOutput(solver, names[i], precons, verbose, false)
    {
      WarnedExactly(solver, names[i], precons, verbose, false, p);
    }
    if names != [] {
      var init := names[..|names| - 1];
      WarnedOnFirstRecordOnly(solver, init, precons, verbose, p);
      WarnedExactly(solver, names[|names| - 1], precons, verbose, |names| == 1, p);
    }
  }

  /** `r` holds the results of testing every identifier after those it held before. */
  predicate Tested(r: MatrixRecord, iters0: seq<Slot<nat>>, times0: seq<Slot<int>>,
                   precons: seq<string>, solver: Solver, elapsed: seq<int>)
    reads r
    requires |elapsed| == |precons|
  {
    r.nIters == iters0 + IterResults(solver, r.M, precons, DefaultMaxIter) &&
    r.times == times0 + TimeResults(solver, precons, elapsed)
  }

  /** `r` is consistent, and has been tested (`done`) or still holds what it held. */
  predicate Progress(r: MatrixRecord, iters0: seq<Slot<nat>>, times0: seq<Slot<int>>, done: bool,
                     precons: seq<string>, solver: Solver, elapsed: seq<int>)
    reads r
    requires |elapsed| == |precons|
  {
    r.Valid() &&
    if done then Tested(r, iters0, times0, precons, solver, elapsed)
    else r.nIters == iters0 && r.times == times0
  }

  /**
   * The testing loop of the main routine: every record is tested against
   * the whole list with the default `max_iter`, the first one with
   * `testing_first_tim` set. `elapsed[i]` holds record `i`'s measured
   * durations.
   */
  method RunTrials(records: seq<MatrixRecord>, precons: seq<string>, solver: Solver,
                   elapsed: seq<seq<int>>, verbose: bool)
    returns (out: seq<string>)
    requires Distinct(records) && |elapsed| == |records|
    requires forall i :: 0 <= i < |records| ==> records[i].Valid() && |elapsed[i]| == |precons|
    modifies set r | r in records
    ensures forall i :: 0 <= i < |records| ==>
      records[i].Valid() &&
      records[i].nIters == old(records[i].nIters) + IterResults(solver, records[i].M, precons, DefaultMaxIter) &&
      records[i].times == old(records[i].times) + TimeResults(solver, precons, elapsed[i])
    ensures out == RunOutput(solver, Names(records), precons, verbose)
  {
    out := [];
    ghost var names := Names(records);
    var first := true;
    for k := 0 to |records|
      invariant first == (k == 0)
      invariant forall i :: 0 <= i < |records| ==>
        Progress(records[i], old(records[i].nIters), old(records[i].times), i < k, precons, solver, elapsed[i])
      invariant out == RunOutput(solver, names[..k], precons, verbose)
    {
      RunOutputStep(solver, names, precons, verbose, k);
      var trial := records[k].TestPreconditioners(precons, solver, elapsed[k], DefaultMaxIter, verbose, first);
      out := out + trial;
      first := false;
    }
    assert names[..|records|] == names;
  }

  // ---- the two result tables ----

  const IterationsTitle: string := "===  NUMER OF ITERATIONS  ==="
  const TimeTitle: string := "===  TIME ELAPSED  ==="

  /** What `print_record(kind)` prints for each record, in order. */
  function RowsOutput(records: seq<MatrixRecord>, kind: Kind, renderTime: int -> string): (out: seq<string>)
    reads set r | r in records
    ensures |out| == 2 * |records|
  {
    if records == [] then []
    else
      RowsOutput(records[..|records| - 1], kind, renderTime)
      + records[|records| - 1].Output(kind, renderTime)
  }

  /** Print calls 2i and 2i+1 of the record loop write record i's line. */
  lemma {:induction false} RowsAt(records: seq<MatrixRecord>, kind: Kind, renderTime: int -> string, i: nat)
    requires i < |records|
    ensures |RowsOutput(records, kind, renderTime)| == 2 * |records|
    ensures RowsOutput(records, kind, renderTime)[2 * i] + RowsOutput(records, kind, renderTime)[2 * i + 1]
      == RecordLine(records[i].name, records[i].nRows, records[i].RowCells(kind, renderTime)) + "\n"
  {
    var init := records[..|records| - 1];
    if i < |records| - 1 {
      RowsAt(init, kind, renderTime, i);
    } else {
      ghost var r := records[i].Output(kind, renderTime);
    }
  }

  /** `print(head_col + '\n' + head_len*"-")` */
  function HeaderOutput(precons: seq<string>): (r: string)
    ensures |r| == 2 * |HeaderLine(precons)| + 2
    ensures r[..|HeaderLine(precons)|] == HeaderLine(precons) && r[|HeaderLine(precons)|] == '\n'
    ensures forall i :: |HeaderLine(precons)| < i < |r| - 1 ==> r[i] == '-'
  {
    HeaderLine(precons) + "\n" + Rule(|HeaderLine(precons)|) + "\n"
  }

  /** Everything printed from projekt.py:164 to the end. */
  function ReportOutput(records: seq<MatrixRecord>, precons: seq<string>, renderTime: int -> string): (out: seq<string>)
    reads set r | r in records
    ensures |out| == 4 * |records| + 6
    ensures out[1] == HeaderOutput(precons) && out[2 * |records| + 4] == HeaderOutput(precons)
    ensures out[2 * |records| + 2] == "\n\n\n" && out[|out| - 1] == "\n"
    ensures out[0] == "\n" + TitleLine(IterationsTitle, |HeaderLine(precons)|) + "\n\n"
    ensures out[2 * |records| + 3] == TitleLine(TimeTitle, |HeaderLine(precons)|) + "\n\n"
  {
    var headLen := |HeaderLine(precons)|;
    var header := HeaderOutput(precons);
    var iterRows := RowsOutput(records, IterationCounts, renderTime);
    var timeRows := RowsOutput(records, Timings, renderTime);
    var iterTitle := "\n" + TitleLine(IterationsTitle, headLen) + "\n\n";
    var timeTitle := TitleLine(TimeTitle, headLen) + "\n\n";
    ReportLayout(iterTitle, header, iterRows, "\n\n\n", timeTitle, timeRows, "\n");
    [iterTitle, header] + iterRows + ["\n\n\n", timeTitle, header] + timeRows + ["\n"]
  }

  /**
   * The two blocks of rows in the report: print calls 2 to 2k+1 are the
   * iteration rows and calls 2k+5 to 4k+4 the time rows, k records each.
   */
  lemma ReportRows(records: seq<MatrixRecord>, precons: seq<string>, renderTime: int -> string)
    ensures |ReportOutput(records, precons, renderTime)| == 4 * |records| + 6
    ensures ReportOutput(records, precons, renderTime)[2..2 * |records| + 2]
      == RowsOutput(records, IterationCounts, renderTime)
    ensures ReportOutput(records, precons, renderTime)[2 * |records| + 5..4 * |records| + 5]
      == RowsOutput(records, Timings, renderTime)
  {
    var headLen := |HeaderLine(precons)|;
    ReportLayout("\n" + TitleLine(IterationsTitle, headLen) + "\n\n", HeaderOutput(precons),
      RowsOutput(records, IterationCounts, renderTime), "\n\n\n",
      TitleLine(TimeTitle, headLen) + "\n\n",
      RowsOutput(records, Timings, renderTime), "\n");
  }

  /** Where the pieces of the report fall in the list of printed texts. */
  lemma ReportLayout<T>(title1: T, header: T, rows1: seq<T>, gap: T, title2: T, rows2: seq<T>, last: T)
    ensures var out := [title1, header] + rows1 + [gap, title2, header] + rows2 + [last];
      |out| == |rows1| + |rows2| + 6 && out[1] == header && out[|rows1| + 2] == gap &&
      out[|rows1| + 4] == header && out[|out| - 1] == last &&
      out[0] == title1 && out[|rows1| + 3] == title2 &&
      out[2..|rows1| + 2] == rows1 && out[|rows1| + 5..|rows1| + 5 + |rows2|] == rows2
  {
    var out := [title1, header] + rows1 + [gap, title2, header] + rows2 + [last];
    assert out[2..|rows1| + 2] == rows1;
    assert out[|rows1| + 5..|rows1| + 5 + |rows2|] == rows2;
  }

  /** Both titles are centred over exactly the header's width, whatever the preconditioners. */
  lemma TitlesSpanHeader(precons: seq<string>)
    ensures |TitleLine(IterationsTitle, |HeaderLine(precons)|)| == |HeaderLine(precons)|
    ensures |TitleLine(TimeTitle, |HeaderLine(precons)|)| == |HeaderLine(precons)|
    ensures TrimRight(TrimLeft(TitleLine(IterationsTitle, |HeaderLine(precons)|))) == IterationsTitle
    ensures TrimRight(TrimLeft(TitleLine(TimeTitle, |HeaderLine(precons)|))) == TimeTitle
  {
    assert |HeaderLine(precons)| >= 31;
    TitleSpansHeader(IterationsTitle, precons);
    TitleSpansHeader(TimeTitle, precons);
  }

  lemma RowsOutputStep(records: seq<MatrixRecord>, k: nat, kind: Kind, renderTime: int -> string)
    requires k < |records|
    ensures RowsOutput(records[..k + 1], kind, renderTime)
      == RowsOutput(records[..k], kind, renderTime) + records[k].Output(kind, renderTime)
  {
    assert records[..k + 1][..k] == records[..k];
  }

  /** One turn of the record loop: `print_record` on record `k`. */
  method PrintNextRow(records: seq<MatrixRecord>, k: nat, kind: Kind, renderTime: int -> string, printed: seq<string>)
    returns (out: seq<string>)
    requires k < |records| && printed == RowsOutput(records[..k], kind, renderTime)
    ensures out == RowsOutput(records[..k + 1], kind, renderTime)
  {
    var line := records[k].PrintRecord(kind, renderTime);
    RowsOutputStep(records, k, kind, renderTime);
    out := printed + line;
  }

  method PrintRows(records: seq<MatrixRecord>, kind: Kind, renderTime: int -> string) returns (out: seq<string>)
    ensures out == RowsOutput(records, kind, renderTime)
  {
    out := [];
    for k := 0 to |records|
      invariant out == RowsOutput(records[..k], kind, renderTime)
    {
      out := PrintNextRow(records, k, kind, renderTime, out);
    }
    assert records[..|records|] == records;
  }

  /** The printing of projekt.py:163-179: both tables, iteration counts first. */
  method PrintReport(records: seq<MatrixRecord>, precons: seq<string>, renderTime: int -> string)
    returns (out: seq<string>)
    ensures out == ReportOutput(records, precons, renderTime)
  {
    var row := FormStrRow(precons);
    var headCol := HeaderPrefix() + row;
    var headLen := |headCol|;
    var rule := Repeat('-', headLen);
    out := ["\n" + Center(IterationsTitle, headLen) + "\n\n", headCol + "\n" + rule + "\n"];
    var rows := PrintRows(records, IterationCounts, renderTime);
    out := out + rows;
    out := out + ["\n\n\n", Center(TimeTitle, headLen) + "\n\n", headCol + "\n" + rule + "\n"];
    rows := PrintRows(records, Timings, renderTime);
    out := out + rows + ["\n"];
  }

  /**
   * The worked example: a 2x2 identity read from `matrices/toy.mtx`,
   * tested with `["none", "bogus"]` by a solver that rejects `bogus` and
   * converges in one iteration, stores `[1, '-']` and a `'-'` time for
   * `bogus`, under the name `toy`.
   */
  const ToySolver: Solver := Solver(p => p != "bogus", (m, p) => 1)
  const Toy: MatrixHandle := MatrixHandle("matrices/toy.mtx", 2)

  lemma ToyIterations()
    ensures IterResults(ToySolver, Toy, ["none", "bogus"], DefaultMaxIter) == [Measured(1), Dash]
  {
    assert ["none", "bogus"][..1] == ["none"] && ["none"][..0] == [];
    assert IterSlot(ToySolver, Toy, "none", DefaultMaxIter) == Measured(1);
    assert "none"[0] != "bogus"[0];
    assert IterSlot(ToySolver, Toy, "bogus", DefaultMaxIter) == Dash;
  }

  lemma ToyTimings(elapsed: seq<int>)
    requires |elapsed| == 2
    ensures TimeResults(ToySolver, ["none", "bogus"], elapsed) == [Measured(elapsed[0]), Dash]
  {
    assert ["none", "bogus"][..1] == ["none"] && ["none"][..0] == [];
    assert elapsed[..1][..0] == [];
    assert "none"[0] != "bogus"[0];
    assert TimeSlot(ToySolver, "none", elapsed[0]) == Measured(elapsed[0]);
    assert TimeSlot(ToySolver, "bogus", elapsed[1]) == Dash;
  }

  lemma ToyExample(elapsed: seq<int>)
    requires |elapsed| == 2
    ensures IterResults(ToySolver, Toy, ["none", "bogus"], DefaultMaxIter) == [Measured(1), Dash]
    ensures TimeResults(ToySolver, ["none", "bogus"], elapsed) == [Measured(elapsed[0]), Dash]
    ensures DisplayName(Toy.source) == "toy"
  {
    ToyIterations();
    ToyTimings(elapsed);
    DisplayNameExamples();
  }

}
