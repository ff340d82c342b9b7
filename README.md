# NLA2_Projekt: a verified model of the preconditioner benchmark

`projekt.py` benchmarks preconditioners for the conjugate gradient method.
It reads every Matrix Market file in a folder and builds a `MatrixRecord`
for each one. For each record it tries every preconditioner identifier
given on the command line. An identifier the PETSc `PC` rejects gets the
`'-'` sentinel. An accepted identifier gets a solve from the zero vector,
which stores its iteration count and its wall-clock time. At the end the
program prints two fixed-width tables, one of iteration counts and one of
times.

This project models that program's core in Dafny:

- `text.dfy` (module `Text`) models the Python formatting the tables rely on:
  - `{v:^w}` centring and `{v:<w}` left alignment, without truncation;
  - `n * "-"`;
  - `str` of a non-negative int.

  It proves where a centred value sits, that stripping the padding gives
  the value back, and how many digits a number takes.
- `table.dfy` (module `Table`) models `_form_str_row` as a loop over an
  accumulator, together with the record line, the header line, the rule
  and the titles. It proves:
  - the row length is 15·k + 1;
  - a `|` separator sits every 15 columns;
  - each value is centred in its own 12-wide field;
  - a record line is as long as the header and the rule, and its
    separators line up with the header's, whenever every field fits.
- `names.dfy` (module `MatrixName`) models `str.rfind` and Python slicing,
  negative and clamped bounds included. From them it builds the display
  name cut out of a matrix path, and proves that name's behaviour for a
  usual file name, a path without `/`, a path without `.`, an empty file
  name and a `.` that belongs to a directory.
- `records.dfy` (module `Records`) models `MatrixRecord` as a class whose
  two result lists are updated in place by `TestPreconditioners`. The
  solver is an oracle:
  - `accepts` stands for `PC.setType` succeeding;
  - `iterations` stands for the number of CG iterations a solve would take without the `max_iter` cap.

  The method is proved against the specification functions `IterResults`,
  `TimeResults` and `TrialOutput`. Lemmas about those functions state:
  - one entry per identifier, in order;
  - `'-'` in both lists exactly when the identifier was rejected;
  - counts capped by `max_iter`;
  - the "Unknown preconditioner" warning printed exactly when the method
    was asked to warn and the identifier was rejected.
- `benchmark.dfy` (module `Benchmark`) models the main routine:
  - `load_matrices` turns paths into fresh records;
  - the testing loop warns only while the first record is tested;
  - both tables are printed.

Console output is modelled as a list of strings. Each `print` call
contributes its argument followed by its line ending (`end=''` contributes
nothing). The measured durations come in as parameters, because the clock
is not part of the model.

## Model

| member | source | states |
|---|---|---|
| Text.CenterLayout | projekt.py:17 | `{s:^w}` puts `s` after ⌊(w−len)/2⌋ spaces, with only spaces after it; the right padding equals the left or is one wider; a value as wide as the field or wider is written out whole |
| Text.Center | projekt.py:17 | a centred field is `w` characters long, or as long as the value when the value is wider (no truncation) |
| Text.CenterRoundTrip | projekt.py:17 | stripping spaces from both ends of a centred field gives back any value that neither starts nor ends with a space |
| Text.LeftAlign | projekt.py:37 | `{name:<12}` starts with the name itself, is followed only by spaces, and is 12 characters long or as long as the name |
| Text.LeftAlignRoundTrip | projekt.py:37 | stripping the trailing spaces of a left-aligned field gives back any name that does not end with a space |
| Text.Repeat | projekt.py:168 | `n * "-"` is `n` characters long and each one is `-` |
| Text.NatToString | projekt.py:37 | `str(n)` is a non-empty string of decimal digits with no leading zero |
| Text.NatToStringRoundTrip | projekt.py:37 | reading `str(n)` back as a decimal number gives `n` |
| Text.DigitCount | projekt.py:37 | `str(n)` has at most `k` digits exactly when `n < 10^k` |
| Table.Cell | projekt.py:17 | `f"| {val:^12} "` starts with `"| "`, ends with a space and holds the centred value in between; it is 15 characters long when the value fits in 12 |
| Table.Cells | projekt.py:14-18 | the accumulator after `k` values is exactly 15·k characters when every value fits, and never shorter |
| Table.FormStrRow | projekt.py:10-19 | the loop over the values returns the concatenation of one cell per value followed by `"|"` |
| Table.FormRow | projekt.py:10-19 | a row ends with `|` and is at least 15·k + 1 characters long, exactly 15·k + 1 when every value fits |
| Table.CellsAt | projekt.py:16-17 | the cell of value `i` occupies columns 15·i to 15·i+14 of the accumulator |
| Table.FormRowCellAt | projekt.py:17 | value `i` of a row has a `|` at column 15·i and sits centred at columns 15·i+2 to 15·i+13 |
| Table.FormRowLayout | projekt.py:14-19 | a row of `k` values that fit is 15·k + 1 characters long, starts with `"| "` when `k > 0`, ends with `"|"`, is `"|"` when `k == 0`, has a `|` at every multiple of 15 and each value centred in its own field |
| Table.ShapeFits | projekt.py:37 | the `{n}x{n}` shape fits its 12-wide field exactly when `n < 100000` |
| Table.Shape | projekt.py:37 | `f'{n}x{n}'` is `str(n)`, an `x` and `str(n)` again: both halves read back as `n` |
| Table.RecordPrefix | projekt.py:37 | the name/shape prefix of a record line starts with `"| "`, is never shorter than 31 characters and is exactly 31 when the name and the shape fit |
| Table.RecordPrefixLayout | projekt.py:37 | when the name fits and `n < 100000`, the prefix holds the left-aligned name at columns 2–13, `" || "` at 14–17, the centred shape at 18–29 and a space at 30 |
| Table.RecordLine | projekt.py:37-41 | a record line ends with `|`, and is 31 + 15·k + 1 characters long when the name, the shape and every result fit |
| Table.HeaderPrefix | projekt.py:164 | the header prefix is 31 characters: `"| "`, `MATRIX NAME` centred at columns 2–13, `" || "` at 14–17, `SHAPE` centred at 18–29 and a space |
| Table.HeaderLine | projekt.py:164 | `head_col` ends with `|` and is at least 31 + 15·k + 1 characters long |
| Table.Rule | projekt.py:168 | the rule under the header is `head_len` dashes |
| Table.HeaderLength | projekt.py:164 | `head_col` is 31 + 15·k + 1 characters long for `k` preconditioners that fit |
| Table.RecordLineMatchesHeader | projekt.py:37-41 | a record line is exactly as long as the header and the rule when the name, the shape and every result fit and there is one result per preconditioner |
| Table.PrefixesAlign | projekt.py:37-41 | when the name fits and `n < 100000`, a record line and the header both have `|` at columns 0, 15 and 16, and hold the name and `MATRIX NAME` in columns 2–13 and the shape and `SHAPE` in columns 18–29 |
| Table.SeparatorsAlign | projekt.py:37-41 | when every field fits, the record line and the header have a `|` at the same columns: 0, 15, 16 and 31 + 15·i for every `i` from 0 to k; the name and shape fields sit in the same columns |
| Table.TitleLine | projekt.py:167 | a centred title is as wide as the header, or as wide as the title when the title is wider |
| Table.TitleSpansHeader | projekt.py:167 | a title no wider than the header is centred over exactly the header's width, and stripping it gives the title back |
| Table.DashCell | projekt.py:17 | the `'-'` sentinel is rendered as 5 spaces, `-`, 6 spaces |
| MatrixName.RFind | projekt.py:111-112 | `rfind` returns −1 or an index of `c`, and no `c` comes after it |
| MatrixName.SliceBound | projekt.py:113 | a slice bound in range is kept, a negative bound in range counts from the end, a bound past the end becomes the length and one before −len becomes 0 |
| MatrixName.PySlice | projekt.py:113 | a slice is never longer than the string; with bounds in range it is `s[start..stop]`, with a negative stop in range it ends that many characters before the end, and it is empty when the clamped bounds cross |
| MatrixName.RFindAppend | projekt.py:111-112 | appending text that holds no `c` does not move the last `c` |
| MatrixName.DisplayName | projekt.py:111-113 | the name is never longer than the file-name part after the last `/` |
| MatrixName.DisplayNameBetween | projekt.py:111-113 | when the last `.` comes after the last `/`, the name is exactly the text strictly between them and contains no `/` |
| MatrixName.DisplayNameOfFile | projekt.py:111-113 | the name of `dir/stem.ext` is `stem` when `stem` has no `/` and `ext` has neither `/` nor `.` |
| MatrixName.DisplayNameNoDirectory | projekt.py:111-113 | a path without `/` gives a name that starts at index 0: `stem.ext` gives `stem` |
| MatrixName.DisplayNameNoDot | projekt.py:111-113 | a path without `.` loses the last character of its file name (the −1 of `rfind` is read as a slice bound counted from the end) |
| MatrixName.DisplayNameDotBeforeSlash | projekt.py:111-113 | when the last `.` belongs to a directory, the bounds cross and the name is empty |
| MatrixName.DisplayNameEmptyFileName | projekt.py:111-113 | a path without `.` whose file-name part is empty (`""`, `dir/`) gives the empty name |
| MatrixName.DisplayNameExamples | projekt.py:111-113 | `matrices/toy.mtx` and `toy.mtx` are both named `toy` |
| Records.IterSlot | projekt.py:64-87 | one iteration entry is `'-'` exactly when the solver rejects the identifier; otherwise it is the solver's count, or `max_iter` when the count is larger |
| Records.TimeSlot | projekt.py:64-86 | one time entry is `'-'` exactly when the solver rejects the identifier; otherwise it is the measured duration |
| Records.IterResults | projekt.py:64-87 | the iteration entries of one call hold one entry per identifier |
| Records.TimeResults | projekt.py:64-86 | the time entries of one call hold one entry per identifier |
| Records.ResultsAt | projekt.py:64-87 | one call appends exactly one entry per identifier to each list, and entry `i` is the result for `precons[i]` |
| Records.DashesAgree | projekt.py:64-87 | new entry `i` is `'-'` in `n_iters` exactly when it is `'-'` in `times`, exactly when the solver rejected `precons[i]`; otherwise the count is the solver's, capped at `max_iter`, and the time is the measured one |
| Records.TestingLine | projekt.py:50 | `Testing {name}:` with its line ending is the name plus 10 characters |
| Records.Warning | projekt.py:70 | the warning with its line ending is the identifier plus 28 characters |
| Records.DoneLine | projekt.py:89 | ` - {precon} done.` with its line ending is the identifier plus 10 characters |
| Records.LinesName | projekt.py:50-89 | each progress line holds the name or identifier verbatim at a fixed offset and ends with one line ending |
| Records.StepOutput | projekt.py:66-89 | one loop turn prints at most one line: the warning exactly when warning and the identifier is rejected, ` - {precon} done.` exactly when verbose and it is accepted |
| Records.LoopOutput | projekt.py:64-89 | the loop prints at most one line per identifier, and nothing when neither verbose nor warning |
| Records.DoneInjective | projekt.py:89 | two different identifiers never get the same progress line |
| Records.DoneInLoop | projekt.py:64-89 | the loop prints ` - {p} done.` exactly when verbose and `p` is an accepted identifier of the list |
| Records.DoneExactly | projekt.py:49-92 | one `test_preconditioners` call prints ` - {p} done.` exactly when verbose and `p` is an accepted identifier of the list |
| Records.TrialOutput | projekt.py:49-92 | one call prints at most two lines more than there are identifiers; verbose output starts with `Testing {name}:` and ends with `Done.`; without verbose or warning nothing is printed |
| Records.WarningInjective | projekt.py:70 | two different identifiers never get the same warning |
| Records.WarningInLoop | projekt.py:64-73 | the loop prints the warning for `p` exactly when it was asked to warn and `p` is a rejected identifier of the list |
| Records.WarnedExactly | projekt.py:49-92 | one `test_preconditioners` call prints the warning for `p` exactly when `testing_first_tim` is set and `p` is a rejected identifier of the list |
| Records.RenderIterations | projekt.py:39 | entry `i` of the iteration row is `'-'` or the decimal count of entry `i` |
| Records.RenderTimings | projekt.py:41 | entry `i` of the time row is `'-'` or the rendered time of entry `i` |
| Records.IterationCellsFit | projekt.py:55 | with `max_iter` below 10^12, every rendered iteration entry fits its 12-wide field |
| Records.IterationRowAligned | projekt.py:37-41 | under the default `max_iter` of 20000, a record's iteration line is as long as the header whenever the name, the shape and the identifiers fit |
| Records.MatrixRecord.constructor | projekt.py:26-31 | a new record keeps its matrix, name and row count and starts with two empty result lists |
| Records.MatrixRecord.RowCells | projekt.py:38-41 | `kind == 'n_iter'` shows the rendered `n_iters`, any other kind the rendered `times`, one cell per stored entry |
| Records.MatrixRecord.Output | projekt.py:33-41 | `print_record` makes two print calls whose text together is the record line of the chosen list followed by one line ending |
| Records.MatrixRecord.PrintRecord | projekt.py:33-41 | the method prints exactly `Output`: the prefix without a line ending, then the row of the chosen list |
| Records.MatrixRecord.TestOne | projekt.py:64-89 | one loop iteration appends the entry for its identifier to each list, keeps them parallel and prints that identifier's warning or progress line |
| Records.MatrixRecord.TestPreconditioners | projekt.py:43-92 | both lists keep their old entries and gain exactly `IterResults`/`TimeResults` of the identifiers, in order; the lists stay parallel (`Valid`); what is printed is `TrialOutput` |
| Benchmark.LoadMatrices | projekt.py:95-117 | one fresh, distinct record per path, in order, named by the path's display name, with its matrix's row count and empty result lists |
| Benchmark.LoadMatrix | projekt.py:104-115 | one path gives a fresh record named by the path's display name, with its matrix's row count and empty result lists |
| Benchmark.RunOutput | projekt.py:158-161 | the run prints at most two lines more per record than there are identifiers, and at least two per record when verbose |
| Benchmark.WarnedOnFirstRecordOnly | projekt.py:158-161 | the whole run prints the warning for `p` exactly when there is a matrix and `p` is a rejected identifier, and no record after the first prints it |
| Benchmark.RunTrials | projekt.py:158-161 | every record gains the results of the whole list under the default `max_iter` and stays parallel; only the first call warns; the output is `RunOutput` |
| Benchmark.TitlesSpanHeader | projekt.py:167-174 | both table titles are centred over exactly the header's width and read back unchanged |
| Benchmark.RowsOutput | projekt.py:169-177 | the record loop makes two print calls per record |
| Benchmark.RowsAt | projekt.py:169-177 | print calls 2i and 2i+1 of the record loop together write record i's `RecordLine` and a line ending |
| Benchmark.PrintNextRow | projekt.py:169-170 | one pass of the record loop extends the output by that record's two print calls |
| Benchmark.PrintRows | projekt.py:169-177 | the record loop prints each record's line, in order |
| Benchmark.HeaderOutput | projekt.py:168 | `head_col + '\n' + head_len*"-"` is the header, a line ending, then dashes in every further column but the last, 2·`head_len` + 2 characters in all |
| Benchmark.ReportOutput | projekt.py:163-179 | the report has 4 print calls per record plus 6: the iteration title first, the header block second and again right after the three blank lines and the time title, and a blank line last |
| Benchmark.ReportRows | projekt.py:169-177 | the iteration rows fill print calls 2 to 2k+1 and the time rows calls 2k+5 to 4k+4 of the report |
| Benchmark.PrintReport | projekt.py:163-179 | the report is the title, header and rule, then the iteration rows, three blank lines, the time title, header and rule, then the time rows and a final blank line |
| Benchmark.ToyIterations | projekt.py:64-87 | on the toy matrix with `["none", "bogus"]`, the iteration entries are `[1, '-']` |
| Benchmark.ToyTimings | projekt.py:64-86 | on the same run, the time entries are the measured time for `none` and `'-'` for `bogus` |
| Benchmark.ToyExample | projekt.py:64-87 | on `matrices/toy.mtx` with `["none", "bogus"]`, a solver that rejects `bogus` and converges in one step stores `[1, '-']` and a `'-'` time for `bogus`, under the name `toy` |

## Left out

- PETSc: creating and configuring the KSP, `setUp` and `solve` (projekt.py:52-62, 75-82) are library calls. They are abstracted by the `Solver` oracle:
  - `accepts` stands for `PC.setType` not raising;
  - `iterations` stands for the number of iterations CG would take without any cap. The stored count, the one KSP reports, is that number capped at `max_iter`, because KSP stops there.

  The oracle does not depend on which preconditioner the shared KSP held before. Exceptions raised by `setUp` or `solve` are not modelled.
- `mmread`, the CSR conversion and `createAIJ` assembly (projekt.py:104-108) are abstracted by the `rowsOf` parameter of `LoadMatrices`. A matrix is known only by its source path and row count. `rowsOf` is total: a file that fails to parse or assemble, which ends the Python run with an exception, is not modelled.
- `time.time()` and `round(1000*(end - start), 3)` (projekt.py:81-86) are not modelled. Each trial's duration is an integer parameter, which stands for thousandths of a millisecond.
  - Durations are signed. They are differences of two wall-clock readings, and the code does not ensure those readings are ordered, so the model makes no claim that timings are non-negative.
  - How Python prints the float is the `renderTime` parameter.
- `load_matrix_files` and `Path.glob` (projekt.py:119-134) touch the file system, so the list of paths is an input. The message and `sys.exit(1)` for an empty folder are left out.
- `argparse` and the missing-`-pcons` exit (projekt.py:138-155) are process plumbing.
- Path separators other than `/` are not modelled, because they depend on the operating system.
