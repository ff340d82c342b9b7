// `MatrixRecord` (projekt.py:22-92): one matrix under test and the results
// of every preconditioner tried on it, with the external solver abstracted
// as an oracle. Console output is modelled as the list of texts the
// program's `print` calls write, each with its line ending.

module Records {
  import opened Text
  import opened Table

  /** One result: the `'-'` sentinel of a rejected preconditioner, or a measurement. */
  datatype Slot<T> = Dash | Measured(value: T)

  /**
   * An assembled PETSc matrix, known here only by the file it was read
   * from and its row count (`A.getSize()[0]`).
   */
  datatype MatrixHandle = MatrixHandle(source: string, rows: nat)

  /**
   * The external solver: whether `PC.setType` accepts an identifier, and
   * how many CG iterations a solve from the zero vector with right-hand
   * side all ones would take on a matrix under that preconditioner if no
   * iteration cap applied.
   */
  datatype Solver = Solver(accepts: string -> bool, iterations: (MatrixHandle, string) -> nat)

  /** `max_iter`'s default in `test_preconditioners`. */
  const DefaultMaxIter: nat := 20000

  /** Which of the two stored result lists a table shows (`kind`). */
  datatype Kind = IterationCounts | Timings

  function Min(a: nat, b: nat): nat
  {
    if a <= b then a else b
  }

  /**
   * What one preconditioner appends to `n_iters`: `'-'` when rejected,
   * else the iteration number KSP reports: CG's uncapped count, cut off
   * at `max_it`, where KSP stops.
   */
  function IterSlot(solver: Solver, m: MatrixHandle, precon: string, maxIter: nat): (r: Slot<nat>)
    ensures r == Dash <==> !solver.accepts(precon)
    ensures r.Measured? ==> r.value <= maxIter && r.value <= solver.iterations(m, precon)
    ensures r.Measured? ==> r.value == maxIter || r.value == solver.iterations(m, precon)
  {
    if solver.accepts(precon) then Measured(Min(solver.iterations(m, precon), maxIter)) else Dash
  }

  /** What one preconditioner appends to `times`: `'-'` when rejected, else its measured duration. */
  function TimeSlot(solver: Solver, precon: string, elapsed: int): (r: Slot<int>)
    ensures r == Dash <==> !solver.accepts(precon)
    ensures r.Measured? ==> r.value == elapsed
  {
    if solver.accepts(precon) then Measured(elapsed) else Dash
  }

  /** The entries `test_preconditioners` appends to `n_iters` for `precons`, in order. */
  function IterResults(solver: Solver, m: MatrixHandle, precons: seq<string>, maxIter: nat): (r: seq<Slot<nat>>)
    ensures |r| == |precons|
  {
    if precons == [] then []
    else
      IterResults(solver, m, precons[..|precons| - 1], maxIter)
      + [IterSlot(solver, m, precons[|precons| - 1], maxIter)]
  }

  /** The entries `test_preconditioners` appends to `times`; `elapsed[i]` is trial `i`'s clock difference. */
  function TimeResults(solver: Solver, precons: seq<string>, elapsed: seq<int>): (r: seq<Slot<int>>)
    requires |elapsed| == |precons|
    ensures |r| == |precons|
  {
    if precons == [] then []
    else
      TimeResults(solver, precons[..|precons| - 1], elapsed[..|elapsed| - 1])
      + [TimeSlot(solver, precons[|precons| - 1], elapsed[|elapsed| - 1])]
  }

  /** Exactly one entry per identifier, and entry `i` belongs to `precons[i]`. */
  lemma {:induction false} ResultsAt(solver: Solver, m: MatrixHandle, precons: seq<string>, maxIter: nat,
                                     elapsed: seq<int>, i: nat)
    requires |elapsed| == |precons| && i < |precons|
    ensures |IterResults(solver, m, precons, maxIter)| == |precons|
    ensures |TimeResults(solver, precons, elapsed)| == |precons|
    ensures IterResults(solver, m, precons, maxIter)[i] == IterSlot(solver, m, precons[i], maxIter)
    ensures TimeResults(solver, precons, elapsed)[i] == TimeSlot(solver, precons[i], elapsed[i])
  {
    var n := |precons|;
    if i < n - 1 {
      ResultsAt(solver, m, precons[..n - 1], maxIter, elapsed[..n - 1], i);
    } else if n > 1 {
      ResultsAt(solver, m, precons[..n - 1], maxIter, elapsed[..n - 1], 0);
    }
  }

  /**
   * The two lists are never partial independently: entry `i` is `'-'` in
   * one exactly when it is `'-'` in the other, exactly when the solver
   * rejected `precons[i]`; otherwise the iteration entry is the solver's
   * count, capped at `max_iter`, and the time entry is the measurement.
   */
  lemma DashesAgree(solver: Solver, m: MatrixHandle, precons: seq<string>, maxIter: nat, elapsed: seq<int>)
    requires |elapsed| == |precons|
    ensures |IterResults(solver, m, precons, maxIter)| == |TimeResults(solver, precons, elapsed)| == |precons|
    ensures forall i :: 0 <= i < |precons| ==>
      (IterResults(solver, m, precons, maxIter)[i] == Dash <==> !solver.accepts(precons[i])) &&
      (TimeResults(solver, precons, elapsed)[i] == Dash <==> !solver.accepts(precons[i]))
    ensures forall i :: 0 <= i < |precons| && solver.accepts(precons[i]) ==>
      IterResults(solver, m, precons, maxIter)[i].value <= maxIter &&
      IterResults(solver, m, precons, maxIter)[i].value == Min(solver.iterations(m, precons[i]), maxIter) &&
      TimeResults(solver, precons, elapsed)[i] == Measured(elapsed[i])
  {
    if precons == [] {
      assert IterResults(solver, m, precons, maxIter) == [];
      assert TimeResults(solver, precons, elapsed) == [];
    } else {
      forall i | 0 <= i < |precons| {
        ResultsAt(solver, m, precons, maxIter, elapsed, i);
      }
    }
  }

  /** Testing one more identifier appends exactly its entries. */
  lemma ResultsStep(solver: Solver, m: MatrixHandle, precons: seq<string>, maxIter: nat, elapsed: seq<int>, i: nat)
    requires |elapsed| == |precons| && i < |precons|
    ensures IterResults(solver, m, precons[..i + 1], maxIter)
      == IterResults(solver, m, precons[..i], maxIter) + [IterSlot(solver, m, precons[i], maxIter)]
    ensures TimeResults(solver, precons[..i + 1], elapsed[..i + 1])
      == TimeResults(solver, precons[..i], elapsed[..i]) + [TimeSlot(solver, precons[i], elapsed[i])]
  {
    assert precons[..i + 1][..i] == precons[..i];
    assert elapsed[..i + 1][..i] == elapsed[..i];
  }

  /** A record's entries are consistent with each other (Valid of the class, on values). */
  predicate Parallel(nIters: seq<Slot<nat>>, times: seq<Slot<int>>)
  {
    |nIters| == |times| && forall i :: 0 <= i < |nIters| ==> (nIters[i] == Dash <==> times[i] == Dash)
  }

  /** Appending a matching pair of entries keeps the lists parallel. */
  lemma ParallelAppend(nIters: seq<Slot<nat>>, times: seq<Slot<int>>, s: Slot<nat>, t: Slot<int>)
    requires Parallel(nIters, times) && (s == Dash <==> t == Dash)
    ensures Parallel(nIters + [s], times + [t])
  {
  }

  /** Appending to a list already split as `a + b` extends its second part. */
  lemma Appended<T>(s: seq<T>, t: seq<T>, a: seq<T>, b: seq<T>)
    requires s == a + b
    ensures s + t == a + (b + t)
  {
  }

  // ---- console output of test_preconditioners ----

  /** `print(f"Testing {self.name}:")` */
  function TestingLine(name: string): (r: string)
    ensures |r| == |name| + 10
  {
    "Testing " + name + ":\n"
  }

  /** `print(f"Unknown preconditioner: '{precon}'.")` */
  function Warning(precon: string): (r: string)
    ensures |r| == |precon| + 28
  {
    "Unknown preconditioner: '" + precon + "'.\n"
  }

  /** `print(f' - {precon} done.')` */
  function DoneLine(precon: string): (r: string)
    ensures |r| == |precon| + 10
  {
    " - " + precon + " done.\n"
  }

  /** `print("Done.\n")` */
  const FinishedLine: string := "Done.\n\n"

  /**
   * What the loop body prints for one identifier: the warning for a
   * rejected one when warning, the progress line for an accepted one when
   * verbose, and nothing otherwise.
   */
  function StepOutput(solver: Solver, precon: string, verbose: bool, first: bool): (r: seq<string>)
    ensures |r| <= 1
    ensures r == [Warning(precon)] <==> first && !solver.accepts(precon)
    ensures r == [DoneLine(precon)] <==> verbose && solver.accepts(precon)
  {
    assert Warning(precon)[0] == 'U' && DoneLine(precon)[0] == ' ';
    if !solver.accepts(precon) then (if first then [Warning(precon)] else [])
    else if verbose then [DoneLine(precon)] else []
  }

  /** What the loop over `precons` prints. */
  function LoopOutput(solver: Solver, precons: seq<string>, verbose: bool, first: bool): (r: seq<string>)
    ensures |r| <= |precons|
    ensures !verbose && !first ==> r == []
  {
    if precons == [] then []
    else
      LoopOutput(solver, precons[..|precons| - 1], verbose, first)
      + StepOutput(solver, precons[|precons| - 1], verbose, first)
  }

  lemma LoopOutputStep(solver: Solver, precons: seq<string>, verbose: bool, first: bool, i: nat)
    requires i < |precons|
    ensures LoopOutput(solver, precons[..i + 1], verbose, first)
      == LoopOutput(solver, precons[..i], verbose, first) + StepOutput(solver, precons[i], verbose, first)
  {
    assert precons[..i + 1][..i] == precons[..i];
  }

  /** Everything one call of `test_preconditioners` prints. */
  function TrialOutput(solver: Solver, name: string, precons: seq<string>, verbose: bool, first: bool): (r: seq<string>)
    ensures |r| <= |precons| + 2
    ensures verbose ==> |r| >= 2 && r[0] == TestingLine(name) && r[|r| - 1] == FinishedLine
    ensures !verbose && !first ==> r == []
  {
    (if verbose then [TestingLine(name)] else [])
      + LoopOutput(solver, precons, verbose, first)
      + (if verbose then [FinishedLine] else [])
  }

  const WarningHead: string := "Unknown preconditioner: '"

  /** Each progress line names the matrix or identifier it is about and ends the line. */
  lemma LinesName(name: string, precon: string)
    ensures TestingLine(name)[8..|name| + 8] == name && TestingLine(name)[|name| + 9] == '\n'
    ensures Warning(precon)[25..|precon| + 25] == precon && Warning(precon)[|precon| + 27] == '\n'
    ensures DoneLine(precon)[3..|precon| + 3] == precon && DoneLine(precon)[|precon| + 9] == '\n'
  {
    assert TestingLine(name) == "Testing " + name + ":\n";
    assert Warning(precon) == WarningHead + precon + "'.\n";
    assert DoneLine(precon) == " - " + precon + " done.\n";
  }

  /** A warning names its identifier: no two identifiers share a warning. */
  lemma WarningInjective(p: string, q: string)
    requires Warning(p) == Warning(q)
    ensures p == q
  {
    assert |WarningHead| == 25;
    assert Warning(p) == WarningHead + p + "'.\n";
    assert Warning(q) == WarningHead + q + "'.\n";
    assert p == Warning(p)[25..25 + |p|];
  }

  lemma {:induction false} WarningInLoop(solver: Solver, precons: seq<string>, verbose: bool, first: bool, p: string)
    ensures Warning(p) in LoopOutput(solver, precons, verbose, first)
      <==> first && p in precons && !solver.accepts(p)
  {
    if precons != [] {
      var init, last := precons[..|precons| - 1], precons[|precons| - 1];
      WarningInLoop(solver, init, verbose, first, p);
      assert precons == init + [last];
      assert Warning(p)[0] == 'U' && DoneLine(last)[0] == ' ';
      if Warning(p) == Warning(last) {
        WarningInjective(p, last);
      }
    }
  }

  /** A progress line names its identifier: no two identifiers share one. */
  lemma DoneInjective(p: string, q: string)
    requires DoneLine(p) == DoneLine(q)
    ensures p == q
  {
    assert DoneLine(p) == " - " + p + " done.\n";
    assert DoneLine(q) == " - " + q + " done.\n";
    assert p == DoneLine(p)[3..3 + |p|];
  }

  lemma {:induction false} DoneInLoop(solver: Solver, precons: seq<string>, verbose: bool, first: bool, p: string)
    ensures DoneLine(p) in LoopOutput(solver, precons, verbose, first)
      <==> verbose && p in precons && solver.accepts(p)
  {
    if precons != [] {
      var init, last := precons[..|precons| - 1], precons[|precons| - 1];
      DoneInLoop(solver, init, verbose, first, p);
      assert precons == init + [last];
      assert DoneLine(p)[0] == ' ' && Warning(last)[0] == 'U';
      if DoneLine(p) == DoneLine(last) {
        DoneInjective(p, last);
      }
    }
  }

  /**
   * During one record's trials, ` - {p} done.` is printed exactly when the
   * call is verbose and the solver accepted `p`, one of the identifiers tried.
   */
  lemma DoneExactly(solver: Solver, name: string, precons: seq<string>, verbose: bool, first: bool, p: string)
    ensures DoneLine(p) in TrialOutput(solver, name, precons, verbose, first)
      <==> verbose && p in precons && solver.accepts(p)
  {
    DoneInLoop(solver, precons, verbose, first, p);
    assert DoneLine(p)[0] == ' ' && TestingLine(name)[0] == 'T' && FinishedLine[0] == 'D';
  }

  /**
   * During one record's trials, the warning for `p` is printed exactly when
   * this is the first record tested and the solver rejected `p`, one of the
   * identifiers tried.
   */
  lemma WarnedExactly(solver: Solver, name: string, precons: seq<string>, verbose: bool, first: bool, p: string)
    ensures Warning(p) in TrialOutput(solver, name, precons, verbose, first)
      <==> first && p in precons && !solver.accepts(p)
  {
    WarningInLoop(solver, precons, verbose, first, p);
    assert Warning(p)[0] == 'U' && TestingLine(name)[0] == 'T' && FinishedLine[0] == 'D';
  }

  // ---- rendering of stored results (print_record) ----

  function RenderIteration(s: Slot<nat>): string
  {
    match s
    case Dash => "-"
    case Measured(n) => NatToString(n)
  }

  /** `renderTime` stands for Python's `str` of the rounded float. */
  function RenderTiming(s: Slot<int>, renderTime: int -> string): string
  {
    match s
    case Dash => "-"
    case Measured(t) => renderTime(t)
  }

  function RenderIterations(slots: seq<Slot<nat>>): (r: seq<string>)
    ensures |r| == |slots|
    ensures forall i :: 0 <= i < |slots| ==> r[i] == RenderIteration(slots[i])
  {
    seq(|slots|, i requires 0 <= i < |slots| => RenderIteration(slots[i]))
  }

  function RenderTimings(slots: seq<Slot<int>>, renderTime: int -> string): (r: seq<string>)
    ensures |r| == |slots|
    ensures forall i :: 0 <= i < |slots| ==> r[i] == RenderTiming(slots[i], renderTime)
  {
    seq(|slots|, i requires 0 <= i < |slots| => RenderTiming(slots[i], renderTime))
  }

  /**
   * With `max_iter` below 10^12 every iteration entry, `'-'` or a count,
   * fits its 12-wide field.
   */
  lemma IterationCellsFit(solver: Solver, m: MatrixHandle, precons: seq<string>, maxIter: nat)
    requires maxIter < Pow10(Width)
    ensures AllFit(RenderIterations(IterResults(solver, m, precons, maxIter)))
  {
    var slots := IterResults(solver, m, precons, maxIter);
    DashesAgree(solver, m, precons, maxIter, seq(|precons|, _ => 0));
    forall i | 0 <= i < |slots|
      ensures |RenderIteration(slots[i])| <= Width
    {
      if slots[i].Measured? {
        DigitCount(slots[i].value, Width);
      }
    }
  }

  /**
   * The iteration table stays aligned under the default `max_iter`: a
   * record row is as long as the header (and so as the rule) whenever the
   * name has at most 12 characters, the matrix fewer than 100000 rows, and
   * each identifier at most 12 characters.
   */
  lemma IterationRowAligned(solver: Solver, m: MatrixHandle, name: string, nRows: nat, precons: seq<string>)
    requires |name| <= Width && nRows < 100000 && AllFit(precons)
    ensures
      var cells := RenderIterations(IterResults(solver, m, precons, DefaultMaxIter));
      |RecordLine(name, nRows, cells)| == |HeaderLine(precons)|
  {
    assert Pow10(Width) > DefaultMaxIter by {
      assert Pow10(5) == 100000;
      DigitCount(DefaultMaxIter, 5);
      DigitCount(DefaultMaxIter, Width);
    }
    IterationCellsFit(solver, m, precons, DefaultMaxIter);
    DashesAgree(solver, m, precons, DefaultMaxIter, seq(|precons|, _ => 0));
    RecordLineMatchesHeader(name, nRows, RenderIterations(IterResults(solver, m, precons, DefaultMaxIter)), precons);
  }

  class MatrixRecord {
    const name: string
    const M: MatrixHandle
    const nRows: nat
    var nIters: seq<Slot<nat>>
    var times: seq<Slot<int>>

    /** The two result lists run in parallel. */
    predicate Valid()
      reads this
    {
      Parallel(nIters, times)
    }

    /** `__init__`: no results yet. */
    constructor (M: MatrixHandle, name: string, nRows: nat)
      ensures this.M == M && this.name == name && this.nRows == nRows
      ensures nIters == [] && times == []
      ensures Valid()
    {
      this.name := name;
      this.M := M;
      this.nRows := nRows;
      nIters := [];
      times := [];
    }

    /** The cells `print_record(kind)` shows: one per stored entry of the chosen list. */
    function RowCells(kind: Kind, renderTime: int -> string): (r: seq<string>)
      reads this
      ensures kind == IterationCounts ==>
        |r| == |nIters| && forall i :: 0 <= i < |r| ==> r[i] == RenderIteration(nIters[i])
      ensures kind == Timings ==>
        |r| == |times| && forall i :: 0 <= i < |r| ==> r[i] == RenderTiming(times[i], renderTime)
    {
      match kind
      case IterationCounts => RenderIterations(nIters)
      case Timings => RenderTimings(times, renderTime)
    }

    /** The two print calls of `print_record`: the prefix (with `end=''`), then the results. */
    function Output(kind: Kind, renderTime: int -> string): (r: seq<string>)
      reads this
      ensures |r| == 2 && r[0] + r[1] == RecordLine(name, nRows, RowCells(kind, renderTime)) + "\n"
    {
      [RecordPrefix(name, nRows), FormRow(RowCells(kind, renderTime)) + "\n"]
    }

    /** `print_record`: one table line for this record. */
    method PrintRecord(kind: Kind, renderTime: int -> string) returns (out: seq<string>)
      ensures out == Output(kind, renderTime)
    {
      var row := FormStrRow(RowCells(kind, renderTime));
      out := [RecordPrefix(name, nRows), row + "\n"];
    }

    /**
     * One turn of the loop of `test_preconditioners`: a rejected identifier
     * appends `'-'` to both lists (with the warning on the first record);
     * an accepted one appends its measured duration and its iteration
     * count (with its progress line when verbose).
     */
    method TestOne(precon: string, solver: Solver, elapsed: int, maxIter: nat, verbose: bool, first: bool)
      returns (printed: seq<string>)
      requires Valid()
      modifies this
      ensures Valid()
      ensures nIters == old(nIters) + [IterSlot(solver, M, precon, maxIter)]
      ensures times == old(times) + [TimeSlot(solver, precon, elapsed)]
      ensures printed == StepOutput(solver, precon, verbose, first)
    {
      printed := [];
      if !solver.accepts(precon) {
        if first {
          printed := [Warning(precon)];
        }
        ParallelAppend(nIters, times, Dash, Dash);
        times := times + [Dash];
        nIters := nIters + [Dash];
        return;
      }
      var iterations := Min(solver.iterations(M, precon), maxIter);
      ParallelAppend(nIters, times, Measured(iterations), Measured(elapsed));
      times := times + [Measured(elapsed)];
      nIters := nIters + [Measured(iterations)];
      if verbose {
        printed := [DoneLine(precon)];
      }
    }

    /**
     * `test_preconditioners`: one trial per identifier, in order. Nothing
     * already stored changes; what is printed is the `Testing` line, the
     * lines of each trial and the closing `Done.` when verbose.
     */
    method TestPreconditioners(precons: seq<string>, solver: Solver, elapsed: seq<int>,
                               maxIter: nat, verbose: bool, first: bool)
      returns (out: seq<string>)
      requires Valid() && |elapsed| == |precons|
      modifies this
      ensures Valid()
      ensures nIters == old(nIters) + IterResults(solver, M, precons, maxIter)
      ensures times == old(times) + TimeResults(solver, precons, elapsed)
      ensures out == TrialOutput(solver, name, precons, verbose, first)
    {
      out := if verbose then [TestingLine(name)] else [];
      ghost var head := out;
      for i := 0 to |precons|
        invariant nIters == old(nIters) + IterResults(solver, M, precons[..i], maxIter)
        invariant times == old(times) + TimeResults(solver, precons[..i], elapsed[..i])
        invariant Valid()
        invariant out == head + LoopOutput(solver, precons[..i], verbose, first)
      {
        ResultsStep(solver, M, precons, maxIter, elapsed, i);
        LoopOutputStep(solver, precons, verbose, first, i);
        ghost var iters, ts, before := nIters, times, out;
        var printed := TestOne(precons[i], solver, elapsed[i], maxIter, verbose, first);
        out := out + printed;
        Appended(iters, [IterSlot(solver, M, precons[i], maxIter)], old(nIters), IterResults(solver, M, precons[..i], maxIter));
        Appended(ts, [TimeSlot(solver, precons[i], elapsed[i])], old(times), TimeResults(solver, precons[..i], elapsed[..i]));
        Appended(before, printed, head, LoopOutput(solver, precons[..i], verbose, first));
      }
      assert precons[..|precons|] == precons && elapsed[..|elapsed|] == elapsed;
      assert out == head + LoopOutput(solver, precons, verbose, first);
      if verbose {
        out := out + [FinishedLine];
      }
    }
  }
}
