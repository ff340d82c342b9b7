// The fixed-width result tables of projekt.py: `_form_str_row`
// (projekt.py:10-19), the record line prefix of `print_record`
// (projekt.py:37), the header line, its `-` rule and the centred title
// (projekt.py:164-175).

module Table {
  import opened Text

  /** Width of every cell of the table (`^12` / `<12`). */
  const Width: nat := 12

  // A value takes 15 characters of a row (`"| "`, its 12-wide field and
  // `" "`), and the `name || shape` block in front of the values 31.

  const NameHeading: string := "MATRIX NAME"
  const ShapeHeading: string := "SHAPE"

  /** Every value fits in a 12-wide field, so none widens its column. */
  predicate AllFit(vals: seq<string>)
  {
    forall i :: 0 <= i < |vals| ==> |vals[i]| <= Width
  }

  /** The text one value contributes to a row: `f"| {val:^12} "`. */
  function Cell(v: string): (r: string)
    ensures |v| <= Width ==> |r| == 15
    ensures |r| >= 15
    ensures r[0] == '|' && r[1] == ' ' && r[|r| - 1] == ' '
    ensures r[2..|r| - 1] == Center(v, Width)
  {
    "| " + Center(v, Width) + " "
  }

  /** The accumulator of `_form_str_row` after it has seen `vals`. */
  function Cells(vals: seq<string>): (r: string)
    ensures AllFit(vals) ==> |r| == 15 * |vals|
    ensures |r| >= 15 * |vals|
  {
    if vals == [] then ""
    else Cells(vals[..|vals| - 1]) + Cell(vals[|vals| - 1])
  }

  /** What `_form_str_row(*vals)` returns. */
  function FormRow(vals: seq<string>): (r: string)
    ensures AllFit(vals) ==> |r| == 15 * |vals| + 1
    ensures |r| >= 15 * |vals| + 1 && r[|r| - 1] == '|'
  {
    Cells(vals) + "|"
  }

  lemma CellsStep(vals: seq<string>, i: nat)
    requires i < |vals|
    ensures Cells(vals[..i + 1]) == Cells(vals[..i]) + Cell(vals[i])
  {
    assert vals[..i + 1][..i] == vals[..i];
  }

  /** `_form_str_row`: the loop that appends one cell per value. */
  method FormStrRow(vals: seq<string>) returns (r: string)
    ensures r == FormRow(vals)
  {
    var acc := "";
    for i := 0 to |vals|
      invariant acc == Cells(vals[..i])
    {
      CellsStep(vals, i);
      acc := acc + Cell(vals[i]);
    }
    assert vals[..|vals|] == vals;
    r := acc + "|";
  }

  /** Cell `i` of the accumulator starts at column `15 * i`. */
  lemma {:induction false} CellsAt(vals: seq<string>, i: nat)
    requires AllFit(vals) && i < |vals|
    ensures Cells(vals)[15 * i..15 * (i + 1)] == Cell(vals[i])
  {
    var init := vals[..|vals| - 1];
    assert AllFit(init);
    if i < |vals| - 1 {
      CellsAt(init, i);
      assert init[i] == vals[i];
    }
  }

  lemma SliceOfSlice(s: string, lo: nat, hi: nat, a: nat, b: nat)
    requires lo <= hi <= |s| && a <= b <= hi - lo
    ensures s[lo..hi][a..b] == s[lo + a..lo + b]
  {
    forall k | 0 <= k < b - a
      ensures s[lo..hi][a..b][k] == s[lo + a..lo + b][k]
    {
    }
  }

  /** Value `i` of a row sits in its own cell: a `|` at column `15 * i`, its centred field two columns on. */
  lemma FormRowCellAt(vals: seq<string>, i: nat)
    requires AllFit(vals) && i < |vals|
    ensures |FormRow(vals)| == 15 * |vals| + 1
    ensures FormRow(vals)[15 * i] == '|'
    ensures FormRow(vals)[15 * i + 2..15 * i + 14] == Center(vals[i], Width)
  {
    var c := Cell(vals[i]);
    CellsAt(vals, i);
    var lo := 15 * i;
    var row := FormRow(vals);
    assert row[lo..lo + 15] == Cells(vals)[lo..lo + 15] == c;
    SliceOfSlice(row, lo, lo + 15, 2, 14);
  }

  /**
   * Shape of a row of `k` values that each fit: `15 * k + 1` characters,
   * a `|` at every multiple of 15, value `i` centred at columns
   * `15 * i + 2 .. 15 * i + 13`, and only `"|"` when `k == 0`.
   */
  lemma FormRowLayout(vals: seq<string>)
    requires AllFit(vals)
    ensures |FormRow(vals)| == 15 * |vals| + 1
    ensures FormRow(vals)[|FormRow(vals)| - 1] == '|'
    ensures vals == [] ==> FormRow(vals) == "|"
    ensures |vals| > 0 ==> FormRow(vals)[..2] == "| "
    ensures forall i :: 0 <= i <= |vals| ==> FormRow(vals)[15 * i] == '|'
    ensures forall i :: 0 <= i < |vals| ==>
      FormRow(vals)[15 * i + 2..15 * i + 14] == Center(vals[i], Width)
  {
    var r := FormRow(vals);
    assert |r| == 15 * |vals| + 1 && r[|r| - 1] == '|';
    forall i | 0 <= i < |vals|
      ensures r[15 * i] == '|'
      ensures r[15 * i + 2..15 * i + 14] == Center(vals[i], Width)
    {
      FormRowCellAt(vals, i);
    }
    assert r[15 * |vals|] == '|';
    if vals != [] {
      CellsAt(vals, 0);
      assert FormRow(vals)[..2] == Cell(vals[0])[..2];
    }
  }

  /** The `"{n}x{n}"` shape column of a record. */
  function Shape(n: nat): (r: string)
    ensures var k := |NatToString(n)|;
      |r| == 2 * k + 1 && r[k] == 'x' && ParseNat(r[..k]) == n && ParseNat(r[k + 1..]) == n
  {
    var d := NatToString(n);
    NatToStringRoundTrip(n);
    assert (d + "x" + d)[..|d|] == d && (d + "x" + d)[|d| + 1..] == d;
    d + "x" + d
  }

  /** The shape fits its 12-wide column exactly when `n` has at most five digits. */
  lemma ShapeFits(n: nat)
    ensures |Shape(n)| <= Width <==> n < 100000
  {
    DigitCount(n, 5);
    assert Pow10(5) == 100000;
  }

  /** `f"| {name:<12} || {f'{n}x{n}':^12} "`, printed before a record's results. */
  function RecordPrefix(name: string, nRows: nat): (r: string)
    ensures |r| >= 31 && r[..2] == "| "
    ensures |name| <= Width && |Shape(nRows)| <= Width ==> |r| == 31
  {
    "| " + LeftAlign(name, Width) + " || " + Center(Shape(nRows), Width) + " "
  }

  /**
   * Where the fields of a record's prefix sit when they fit: the name
   * left-aligned at columns 2-13, `" || "` at 14-17, the shape centred at
   * 18-29.
   */
  lemma RecordPrefixLayout(name: string, nRows: nat)
    requires |name| <= Width && nRows < 100000
    ensures var r := RecordPrefix(name, nRows);
      |r| == 31 && r[..2] == "| " && r[2..14] == LeftAlign(name, Width) && r[14..18] == " || " &&
      r[18..30] == Center(Shape(nRows), Width) && r[30] == ' '
  {
    ShapeFits(nRows);
  }

  /** The record line as it appears on the console (projekt.py:37-41). */
  function RecordLine(name: string, nRows: nat, cells: seq<string>): (r: string)
    ensures |name| <= Width && |Shape(nRows)| <= Width && AllFit(cells) ==> |r| == 31 + 15 * |cells| + 1
    ensures |r| >= 32 && r[|r| - 1] == '|'
  {
    RecordPrefix(name, nRows) + FormRow(cells)
  }

  /** `f"| {"MATRIX NAME":^12} || {"SHAPE":^12} "`, the header's first two columns. */
  function HeaderPrefix(): (r: string)
    ensures |r| == 31 && r[..2] == "| "
    ensures r[2..14] == Center(NameHeading, Width) && r[14..18] == " || "
    ensures r[18..30] == Center(ShapeHeading, Width) && r[30] == ' '
  {
    "| " + Center(NameHeading, Width) + " || " + Center(ShapeHeading, Width) + " "
  }

  /** `head_col` (projekt.py:164). */
  function HeaderLine(precons: seq<string>): (r: string)
    ensures |r| >= 31 + 15 * |precons| + 1 && r[|r| - 1] == '|'
  {
    HeaderPrefix() + FormRow(precons)
  }

  /** `head_len * "-"`, the rule under the header (projekt.py:168). */
  function Rule(headLen: nat): (r: string)
    ensures |r| == headLen
    ensures forall i :: 0 <= i < |r| ==> r[i] == '-'
  {
    Repeat('-', headLen)
  }

  /** `f"{title:^{head_len}}"`, a table's title (projekt.py:167, 174). */
  function TitleLine(title: string, headLen: nat): (r: string)
    ensures |r| == if |title| >= headLen then |title| else headLen
  {
    Center(title, headLen)
  }

  /** The header is the 31-character prefix and then 15 characters per preconditioner plus one. */
  lemma HeaderLength(precons: seq<string>)
    requires AllFit(precons)
    ensures |HeaderLine(precons)| == 31 + 15 * |precons| + 1
  {
    FormRowLayout(precons);
  }

  /**
   * A record line is exactly as long as the header when the name, the
   * shape and every result fit their fields and there is one result per
   * preconditioner; the rule is then as long as both.
   */
  lemma RecordLineMatchesHeader(name: string, nRows: nat, cells: seq<string>, precons: seq<string>)
    requires |name| <= Width && nRows < 100000
    requires AllFit(cells) && AllFit(precons) && |cells| == |precons|
    ensures |RecordLine(name, nRows, cells)| == |HeaderLine(precons)|
    ensures |Rule(|HeaderLine(precons)|)| == |RecordLine(name, nRows, cells)|
  {
    ShapeFits(nRows);
    FormRowLayout(cells);
    HeaderLength(precons);
  }

  lemma PrefixFields(prefix: string, row: string)
    requires |prefix| == 31
    ensures (prefix + row)[..31] == prefix
    ensures (prefix + row)[2..14] == prefix[2..14] && (prefix + row)[18..30] == prefix[18..30]
  {
    assert (prefix + row)[..31] == prefix;
  }

  lemma {:induction false} SeparatorAfterPrefix(prefix: string, vals: seq<string>, i: nat)
    requires |prefix| == 31 && AllFit(vals) && i <= |vals|
    ensures (prefix + FormRow(vals))[31 + 15 * i] == '|'
  {
    if i < |vals| {
      FormRowCellAt(vals, i);
    } else {
      assert |Cells(vals)| == 15 * i;
    }
  }

  /**
   * The name/shape prefixes line up: the header and a record line carry
   * `|` at columns 0, 15 and 16 (the `||`), and hold the name and the
   * shape in the same 12-wide fields, left-aligned name and centred shape
   * in a record line, centred headings in the header.
   */
  lemma PrefixesAlign(name: string, nRows: nat, cells: seq<string>, precons: seq<string>)
    requires |name| <= Width && nRows < 100000
    ensures RecordLine(name, nRows, cells)[0] == HeaderLine(precons)[0] == '|'
    ensures RecordLine(name, nRows, cells)[15] == HeaderLine(precons)[15] == '|'
    ensures RecordLine(name, nRows, cells)[16] == HeaderLine(precons)[16] == '|'
    ensures RecordLine(name, nRows, cells)[2..14] == LeftAlign(name, Width)
    ensures HeaderLine(precons)[2..14] == Center(NameHeading, Width)
    ensures RecordLine(name, nRows, cells)[18..30] == Center(Shape(nRows), Width)
    ensures HeaderLine(precons)[18..30] == Center(ShapeHeading, Width)
  {
    ShapeFits(nRows);
    PrefixFields(RecordPrefix(name, nRows), FormRow(cells));
    PrefixFields(HeaderPrefix(), FormRow(precons));
  }

  /**
   * The columns line up: when every field fits, the header and a record
   * line carry their `|` separators at the same columns (0, the `||` at 15
   * and 16, and every 15 columns from 31 on), and hold the name and the
   * shape in the same 12-wide fields.
   */
  lemma SeparatorsAlign(name: string, nRows: nat, cells: seq<string>, precons: seq<string>)
    requires |name| <= Width && nRows < 100000
    requires AllFit(cells) && AllFit(precons) && |cells| == |precons|
    ensures RecordLine(name, nRows, cells)[0] == HeaderLine(precons)[0] == '|'
    ensures RecordLine(name, nRows, cells)[15] == HeaderLine(precons)[15] == '|'
    ensures RecordLine(name, nRows, cells)[16] == HeaderLine(precons)[16] == '|'
    ensures RecordLine(name, nRows, cells)[2..14] == LeftAlign(name, Width)
    ensures HeaderLine(precons)[2..14] == Center(NameHeading, Width)
    ensures RecordLine(name, nRows, cells)[18..30] == Center(Shape(nRows), Width)
    ensures HeaderLine(precons)[18..30] == Center(ShapeHeading, Width)
    ensures forall i :: 0 <= i <= |cells| ==>
      RecordLine(name, nRows, cells)[31 + 15 * i] == '|' &&
      HeaderLine(precons)[31 + 15 * i] == '|'
  {
    PrefixesAlign(name, nRows, cells, precons);
    ShapeFits(nRows);
    var rp := RecordPrefix(name, nRows);
    var hp := HeaderPrefix();
    forall i | 0 <= i <= |cells|
      ensures RecordLine(name, nRows, cells)[31 + 15 * i] == '|'
      ensures HeaderLine(precons)[31 + 15 * i] == '|'
    {
      SeparatorAfterPrefix(rp, cells, i);
      SeparatorAfterPrefix(hp, precons, i);
    }
  }

  /** The title is centred over exactly the header's width when it is no wider. */
  lemma TitleSpansHeader(title: string, precons: seq<string>)
    requires Unpadded(title) && |title| <= |HeaderLine(precons)|
    ensures |TitleLine(title, |HeaderLine(precons)|)| == |HeaderLine(precons)|
    ensures TrimRight(TrimLeft(TitleLine(title, |HeaderLine(precons)|))) == title
  {
    CenterRoundTrip(title, |HeaderLine(precons)|);
  }

  /** `'-'`, the marker of an unsupported preconditioner, sits at column 5 of its field. */
  lemma DashCell()
    ensures Center("-", Width) == "     -      "
  {
    assert Center("-", Width) == Spaces(5) + "-" + Spaces(6);
  }
}
