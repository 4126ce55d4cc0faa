/** The layout that Tableify::make computes, as pure functions of the data and
    the configuration: column widths, the sample row that fixes the border
    length, the rendered rows and the whole list of lines.  The class in
    tableify.dfy computes the same things with loops and is proved equal to
    these functions. */
module Layout {
  import SU = StringUtils

  /** The three formatters the setters left(), center() and right() select. */
  datatype Formatter = Left | Center | Right

  /** The configuration fields of a Tableify object. */
  datatype Config = Config(
    formatter: Formatter,
    padding: nat,
    separator: string,
    headerCharacter: string,
    belowHeaderCharacter: string)

  /** The field initialisers of the class. */
  function DefaultConfig(): Config {
    Config(Left, 1, "|", "-", "-")
  }

  /** A table: rows of cells, row 0 being the header; rows may be ragged. */
  type Table = seq<seq<string>>

  function Max(a: int, b: int): int {
    if a < b then b else a
  }

  /** Where a formatter puts a text of length n in a field of width w:
      left-aligned at 0, right-aligned at the end, centred with the smaller
      half of the padding in front. */
  function Lead(f: Formatter, n: nat, w: nat): nat {
    if w <= n then 0
    else match f
      case Left => 0
      case Center => (w - n) / 2
      case Right => w - n
  }

  /** The formatter call on one cell: pad to the column width with spaces,
      never truncate; the text itself appears unchanged at Lead. */
  function Align(f: Formatter, text: string, width: nat): (r: string)
    ensures |r| == Max(|text|, width)
    ensures width <= |text| ==> r == text
    ensures Lead(f, |text|, width) + |text| <= |r|
    ensures r[Lead(f, |text|, width)..Lead(f, |text|, width) + |text|] == text
    ensures forall k :: 0 <= k < Lead(f, |text|, width) ==> r[k] == ' '
    ensures forall k :: Lead(f, |text|, width) + |text| <= k < |r| ==> r[k] == ' '
  {
    match f
    case Left => SU.Left(text, width)
    case Center => SU.Center(text, width)
    case Right => SU.Right(text, width)
  }

  // ---------------------------------------------------------------------------
  // Column widths (maxMultidimensionalArrayStringSize)
  // ---------------------------------------------------------------------------

  /** The largest cell count of any row. */
  function MaxRowLen(data: Table): (r: nat)
    ensures forall i :: 0 <= i < |data| ==> |data[i]| <= r
    ensures |data| == 0 ==> r == 0
    ensures |data| > 0 ==> exists i :: 0 <= i < |data| && |data[i]| == r
    decreases |data|
  {
    if |data| == 0 then 0
    else
      var m := MaxRowLen(data[..|data| - 1]);
      assert forall i :: 0 <= i < |data| - 1 ==> data[..|data| - 1][i] == data[i];
      Max(m, |data[|data| - 1]|)
  }

  /** Folding one more row into the width vector: a column the vector already
      has takes the larger of the two lengths, a column it lacks is appended. */
  function MergeRow(w: seq<nat>, row: seq<string>): seq<nat> {
    seq(Max(|w|, |row|), j requires 0 <= j < Max(|w|, |row|) =>
      if j < |w| && j < |row| then Max(w[j], |row[j]|)
      else if j < |w| then w[j]
      else |row[j]|)
  }

  /** The width vector: one entry per column, as long as the longest row, and
      wide enough for every cell that row has in that column. */
  function ColumnWidths(data: Table): (r: seq<nat>)
    ensures |r| == MaxRowLen(data)
    ensures forall i, j :: 0 <= i < |data| && 0 <= j < |data[i]| ==> |data[i][j]| <= r[j]
    decreases |data|
  {
    if |data| == 0 then []
    else
      var front := data[..|data| - 1];
      assert forall i :: 0 <= i < |data| - 1 ==> front[i] == data[i];
      MergeRow(ColumnWidths(front), data[|data| - 1])
  }

  /** One step of the inner loop of maxMultidimensionalArrayStringSize. */
  lemma {:induction false} MergeRowStep(w: seq<nat>, row: seq<string>, j: nat)
    requires j < |row|
    ensures var m := MergeRow(w, row[..j]);
            MergeRow(w, row[..j + 1])
              == if j >= |m| then m + [|row[j]|] else if m[j] < |row[j]| then m[j := |row[j]|] else m
  {
    var m := MergeRow(w, row[..j]);
    var m' := MergeRow(w, row[..j + 1]);
    assert |m| == Max(|w|, j);
    if j >= |m| {
      assert m' == m + [|row[j]|];
    } else if m[j] < |row[j]| {
      assert m' == m[j := |row[j]|];
    } else {
      assert m' == m;
    }
  }

  /** One step of the outer loop of maxMultidimensionalArrayStringSize. */
  lemma {:induction false} ColumnWidthsStep(data: Table, i: nat)
    requires i < |data|
    ensures ColumnWidths(data[..i + 1]) == MergeRow(ColumnWidths(data[..i]), data[i])
  {
    assert data[..i + 1][..i] == data[..i];
  }

  /** Every width is attained: entry j is the length of some cell in column j,
      so together with ColumnWidths' contract it is the column's maximum. */
  lemma {:induction false} WidthAttained(data: Table, j: nat)
    requires j < |ColumnWidths(data)|
    ensures exists i :: 0 <= i < |data| && j < |data[i]| && |data[i][j]| == ColumnWidths(data)[j]
    decreases |data|
  {
    var n := |data|;
    var front := data[..n - 1];
    var last := data[n - 1];
    var w := ColumnWidths(front);
    assert ColumnWidths(data) == MergeRow(w, last);
    if j < |w| && (j >= |last| || |last[j]| <= w[j]) {
      WidthAttained(front, j);
      var i :| 0 <= i < |front| && j < |front[i]| && |front[i][j]| == w[j];
      assert data[i] == front[i];
    } else {
      assert |last[j]| == ColumnWidths(data)[j];
    }
  }

  /** The example in the source's own documentation comment. */
  lemma {:induction false} ColumnWidthsExample()
    ensures ColumnWidths([["aaaa", "aaaaa"], ["bb", "bbbbbbb"]]) == [4, 7]
  {
    var data := [["aaaa", "aaaaa"], ["bb", "bbbbbbb"]];
    assert data[..1] == [["aaaa", "aaaaa"]];
    assert data[..1][..0] == [];
    assert ColumnWidths(data[..1]) == [4, 5];
  }

  // ---------------------------------------------------------------------------
  // Row length (calculateRowLength)
  // ---------------------------------------------------------------------------

  function Sum(ws: seq<nat>): nat
    decreases |ws|
  {
    if |ws| == 0 then 0 else Sum(ws[..|ws| - 1]) + ws[|ws| - 1]
  }

  /** The sample row before trimming: the separator and its padding, then for
      every column a blank field of the column's width, padding, separator,
      padding. */
  function SampleRow(ws: seq<nat>, p: nat, s: string): string
    decreases |ws|
  {
    if |ws| == 0 then s + SU.Spaces(p)
    else SampleRow(ws[..|ws| - 1], p, s) + SU.Spaces(ws[|ws| - 1]) + SU.Spaces(p) + s + SU.Spaces(p)
  }

  /** The length of the trimmed sample row: the length of the border lines. */
  function RowLength(ws: seq<nat>, p: nat, s: string): nat {
    |SU.Rtrim(SampleRow(ws, p, s))|
  }

  lemma {:induction false} SampleRowLength(ws: seq<nat>, p: nat, s: string)
    ensures |SampleRow(ws, p, s)| == |s| + p + Sum(ws) + |ws| * (2 * p + |s|)
    decreases |ws|
  {
    if |ws| > 0 {
      var front := ws[..|ws| - 1];
      var k := 2 * p + |s|;
      SampleRowLength(front, p, s);
      assert Sum(ws) == Sum(front) + ws[|ws| - 1];
      FewerColumnsShorter(|front|, |ws|, k);
    }
  }

  /** A trailing space makes no difference to rtrim. */
  lemma {:induction false} RtrimSpace(y: string)
    ensures SU.Rtrim(y + " ") == SU.Rtrim(y)
  {
    var z := y + " ";
    assert z[..|z| - 1] == y;
  }

  /** Trailing spaces make no difference to rtrim. */
  lemma {:induction false} RtrimSpaces(x: string, p: nat)
    ensures SU.Rtrim(x + SU.Spaces(p)) == SU.Rtrim(x)
    decreases p
  {
    if p > 0 {
      var y := x + SU.Spaces(p - 1);
      assert SU.Spaces(p) == SU.Spaces(p - 1) + " ";
      assert x + SU.Spaces(p) == y + " ";
      RtrimSpace(y);
      RtrimSpaces(x, p - 1);
    } else {
      assert x + SU.Spaces(p) == x;
    }
  }

  /** A separator whose last character rtrim would not strip. */
  predicate SolidSeparator(s: string) {
    |s| > 0 && !SU.IsTrimmed(s[|s| - 1])
  }

  /** rtrim removes exactly the final padding of the sample row. */
  lemma {:induction false} SampleRowTrim(ws: seq<nat>, p: nat, s: string)
    requires SolidSeparator(s)
    ensures RowLength(ws, p, s) == |SampleRow(ws, p, s)| - p
  {
    var head := if |ws| == 0 then "" else SampleRow(ws[..|ws| - 1], p, s) + SU.Spaces(ws[|ws| - 1]) + SU.Spaces(p);
    var x := head + s;
    assert SampleRow(ws, p, s) == x + SU.Spaces(p);
    RtrimSpaces(x, p);
    assert x[|x| - 1] == s[|s| - 1];
  }

  /** calculateRowLength in closed form: the separator once, then for every
      column its width, twice the padding and the separator. */
  lemma {:induction false} RowLengthFormula(ws: seq<nat>, p: nat, s: string)
    requires SolidSeparator(s)
    ensures RowLength(ws, p, s) == |s| + Sum(ws) + |ws| * (2 * p + |s|)
    ensures |ws| == 0 ==> RowLength(ws, p, s) == |s|
  {
    SampleRowTrim(ws, p, s);
    SampleRowLength(ws, p, s);
  }

  // ---------------------------------------------------------------------------
  // Rendered rows
  // ---------------------------------------------------------------------------

  /** The text make() appends for one cell. */
  function Segment(cfg: Config, cell: string, width: nat): (r: string)
    ensures |r| == Max(|cell|, width) + 2 * cfg.padding + |cfg.separator|
    ensures r[..Max(|cell|, width)] == Align(cfg.formatter, cell, width)
  {
    Align(cfg.formatter, cell, width) + SU.Spaces(cfg.padding) + cfg.separator + SU.Spaces(cfg.padding)
  }

  /** One rendered data line: the separator and its padding, then one segment
      per cell the row actually has (a short row gets no extra segments). */
  function RenderRow(cfg: Config, row: seq<string>, ws: seq<nat>): (r: string)
    requires |row| <= |ws|
    ensures cfg.separator + SU.Spaces(cfg.padding) <= r
    decreases |row|
  {
    if |row| == 0 then cfg.separator + SU.Spaces(cfg.padding)
    else RenderRow(cfg, row[..|row| - 1], ws) + Segment(cfg, row[|row| - 1], ws[|row| - 1])
  }

  /** One step of make()'s inner loop: the next cell's segment is appended. */
  lemma {:induction false} RenderRowStep(cfg: Config, row: seq<string>, ws: seq<nat>, j: nat)
    requires j < |row| <= |ws|
    ensures RenderRow(cfg, row[..j + 1], ws) == RenderRow(cfg, row[..j], ws) + Segment(cfg, row[j], ws[j])
  {
    assert row[..j + 1][..j] == row[..j];
  }

  /** Segments come in cell order: rendering the first j cells gives a
      prefix of the rendered row. */
  lemma {:induction false} RenderRowPrefix(cfg: Config, row: seq<string>, ws: seq<nat>, j: nat)
    requires j <= |row| <= |ws|
    ensures RenderRow(cfg, row[..j], ws) <= RenderRow(cfg, row, ws)
    decreases |row|
  {
    if j < |row| {
      var front := row[..|row| - 1];
      RenderRowPrefix(cfg, front, ws, j);
      assert front[..j] == row[..j];
    } else {
      assert row[..j] == row;
    }
  }

  /** A row whose cells fit their columns is exactly as long as the untrimmed
      sample row over its own columns. */
  lemma {:induction false} RenderRowLength(cfg: Config, row: seq<string>, ws: seq<nat>)
    requires |row| <= |ws|
    requires forall j :: 0 <= j < |row| ==> |row[j]| <= ws[j]
    ensures |RenderRow(cfg, row, ws)| == |SampleRow(ws[..|row|], cfg.padding, cfg.separator)|
    decreases |row|
  {
    var n := |row|;
    if n > 0 {
      RenderRowLength(cfg, row[..n - 1], ws);
      assert ws[..n][..n - 1] == ws[..n - 1];
    }
  }

  /** A row with a cell for every column, each fitting its column, is the
      border length plus the padding: the real row keeps the trailing padding
      that rtrim took off the sample row. */
  lemma {:induction false} FullRowLength(cfg: Config, row: seq<string>, ws: seq<nat>)
    requires |row| == |ws|
    requires forall j :: 0 <= j < |row| ==> |row[j]| <= ws[j]
    requires SolidSeparator(cfg.separator)
    ensures |RenderRow(cfg, row, ws)| == RowLength(ws, cfg.padding, cfg.separator) + cfg.padding
  {
    RenderRowLength(cfg, row, ws);
    assert ws[..|row|] == ws;
    SampleRowTrim(ws, cfg.padding, cfg.separator);
  }

  lemma {:induction false} SumPrefix(ws: seq<nat>, m: nat)
    requires m <= |ws|
    ensures Sum(ws[..m]) <= Sum(ws)
    decreases |ws|
  {
    if m < |ws| {
      SumPrefix(ws[..|ws| - 1], m);
      assert ws[..|ws| - 1][..m] == ws[..m];
    } else {
      assert ws[..m] == ws;
    }
  }

  lemma {:induction false} FewerColumnsShorter(m: nat, n: nat, k: nat)
    requires m < n
    ensures m * k + k <= n * k
    ensures n == m + 1 ==> n * k == m * k + k
  {
    var d := n - m - 1;
    assert n * k == m * k + k + d * k;
  }

  /** A ragged row, missing at least one column, is shorter than the border
      even though it keeps its trailing padding. */
  lemma {:induction false} ShortRowLength(cfg: Config, row: seq<string>, ws: seq<nat>)
    requires |row| < |ws|
    requires forall j :: 0 <= j < |row| ==> |row[j]| <= ws[j]
    requires SolidSeparator(cfg.separator)
    ensures |RenderRow(cfg, row, ws)| < RowLength(ws, cfg.padding, cfg.separator)
  {
    var p, s, m := cfg.padding, cfg.separator, |row|;
    RenderRowLength(cfg, row, ws);
    SampleRowLength(ws[..m], p, s);
    RowLengthFormula(ws, p, s);
    SumPrefix(ws, m);
    FewerColumnsCost(|s|, p, Sum(ws[..m]), Sum(ws), m, |ws|);
  }

  /** The arithmetic behind ShortRowLength: a missing column costs at least
      the separator and both paddings, more than the one trailing padding. */
  lemma {:induction false} FewerColumnsCost(sl: nat, p: nat, a: nat, b: nat, m: nat, n: nat)
    requires 0 < sl && a <= b && m < n
    ensures sl + p + a + m * (2 * p + sl) < sl + b + n * (2 * p + sl)
  {
    FewerColumnsShorter(m, n, 2 * p + sl);
  }

  /** Every row has at most as many cells as the width vector, so every
      width lookup make() does is in bounds. */
  predicate Fits(rows: Table, ws: seq<nat>) {
    forall i :: 0 <= i < |rows| ==> |rows[i]| <= |ws|
  }

  lemma {:induction false} RowsFit(data: Table)
    ensures Fits(data, ColumnWidths(data))
  {
  }

  /** Rows of a table fit the table's width vector. */
  lemma {:induction false} RowFits(data: Table, i: nat)
    requires i < |data|
    ensures |data[i]| <= |ColumnWidths(data)|
    ensures forall j :: 0 <= j < |data[i]| ==> |data[i][j]| <= ColumnWidths(data)[j]
  {
  }

  // ---------------------------------------------------------------------------
  // The whole table (make)
  // ---------------------------------------------------------------------------

  /** The lines for the rows, with the below-header line after row 0. */
  function Body(cfg: Config, rows: Table, ws: seq<nat>, belowHeader: string): seq<string>
    requires Fits(rows, ws)
    decreases |rows|
  {
    if |rows| == 0 then []
    else
      var n := |rows|;
      Body(cfg, rows[..n - 1], ws, belowHeader)
        + [RenderRow(cfg, rows[n - 1], ws)]
        + (if n == 1 then [belowHeader] else [])
  }

  /** One step of make()'s outer loop: the next row's line is appended,
      followed by the below-header line when it was row 0. */
  lemma {:induction false} BodyStep(cfg: Config, rows: Table, ws: seq<nat>, belowHeader: string, i: nat)
    requires i < |rows|
    requires Fits(rows, ws)
    ensures Body(cfg, rows[..i + 1], ws, belowHeader)
         == Body(cfg, rows[..i], ws, belowHeader) + [RenderRow(cfg, rows[i], ws)]
            + (if i == 0 then [belowHeader] else [])
  {
    assert rows[..i + 1][..i] == rows[..i];
  }

  /** What make()'s outer loop does with a row's line: the lines so far, the
      line, and the below-header line after row 0. */
  lemma {:induction false} AppendRowLine(cfg: Config, rows: Table, ws: seq<nat>, bookEnd: string,
                                         belowHeader: string, i: nat, lines: seq<string>, line: string)
    requires i < |rows|
    requires Fits(rows, ws)
    requires lines == [bookEnd] + Body(cfg, rows[..i], ws, belowHeader)
    requires line == RenderRow(cfg, rows[i], ws)
    ensures i == 0 ==> lines + [line] + [belowHeader] == [bookEnd] + Body(cfg, rows[..i + 1], ws, belowHeader)
    ensures i != 0 ==> lines + [line] == [bookEnd] + Body(cfg, rows[..i + 1], ws, belowHeader)
  {
    BodyStep(cfg, rows, ws, belowHeader, i);
    var body := Body(cfg, rows[..i], ws, belowHeader);
    if i == 0 {
      assert Body(cfg, rows[..i + 1], ws, belowHeader) == body + [line] + [belowHeader];
    } else {
      assert Body(cfg, rows[..i + 1], ws, belowHeader) == body + [line];
    }
  }

  function BorderLength(cfg: Config, data: Table): nat {
    RowLength(ColumnWidths(data), cfg.padding, cfg.separator)
  }

  /** The top and bottom line. */
  function BookEnd(cfg: Config, data: Table): (r: string)
    ensures |r| == BorderLength(cfg, data) * |cfg.headerCharacter|
    ensures |cfg.headerCharacter| == 1 ==> forall k :: 0 <= k < |r| ==> r[k] == cfg.headerCharacter[0]
  {
    SU.Fill(BorderLength(cfg, data), cfg.headerCharacter)
  }

  /** The line below the header row. */
  function BelowHeader(cfg: Config, data: Table): (r: string)
    ensures |r| == BorderLength(cfg, data) * |cfg.belowHeaderCharacter|
    ensures |cfg.belowHeaderCharacter| == 1 ==> forall k :: 0 <= k < |r| ==> r[k] == cfg.belowHeaderCharacter[0]
  {
    SU.Fill(BorderLength(cfg, data), cfg.belowHeaderCharacter)
  }

  /** The lines make() stores in the table field. */
  function Render(cfg: Config, data: Table): seq<string> {
    var ws := ColumnWidths(data);
    [BookEnd(cfg, data)] + Body(cfg, data, ws, BelowHeader(cfg, data)) + [BookEnd(cfg, data)]
  }

  /** The line of make()'s output that shows row i: row 0 right after the
      top border, every later row after the below-header line. */
  function RowLine(i: nat): nat {
    if i == 0 then 1 else i + 2
  }

  lemma {:induction false} BodyLength(cfg: Config, rows: Table, ws: seq<nat>, belowHeader: string)
    requires Fits(rows, ws)
    ensures |Body(cfg, rows, ws, belowHeader)| == if |rows| == 0 then 0 else |rows| + 1
    decreases |rows|
  {
    if |rows| > 0 {
      BodyLength(cfg, rows[..|rows| - 1], ws, belowHeader);
    }
  }

  lemma {:induction false} BodyBelowHeader(cfg: Config, rows: Table, ws: seq<nat>, belowHeader: string)
    requires |rows| > 0
    requires Fits(rows, ws)
    ensures |Body(cfg, rows, ws, belowHeader)| > 1
    ensures Body(cfg, rows, ws, belowHeader)[1] == belowHeader
    decreases |rows|
  {
    var n := |rows|;
    BodyLength(cfg, rows, ws, belowHeader);
    if n > 1 {
      BodyBelowHeader(cfg, rows[..n - 1], ws, belowHeader);
    }
  }

  lemma {:induction false} BodyRow(cfg: Config, rows: Table, ws: seq<nat>, belowHeader: string, i: nat)
    requires i < |rows|
    requires Fits(rows, ws)
    ensures RowLine(i) - 1 < |Body(cfg, rows, ws, belowHeader)|
    ensures Body(cfg, rows, ws, belowHeader)[RowLine(i) - 1] == RenderRow(cfg, rows[i], ws)
    decreases |rows|
  {
    var n := |rows|;
    var front := rows[..n - 1];
    BodyLength(cfg, front, ws, belowHeader);
    BodyLength(cfg, rows, ws, belowHeader);
    if i < n - 1 {
      BodyRow(cfg, front, ws, belowHeader, i);
      assert front[i] == rows[i];
    }
  }

  /** Where each line of make()'s output comes from, line by line. */
  lemma {:induction false} TableShape(cfg: Config, data: Table)
    ensures |Render(cfg, data)| == if |data| == 0 then 2 else |data| + 3
    ensures Render(cfg, data)[0] == BookEnd(cfg, data)
    ensures Render(cfg, data)[|Render(cfg, data)| - 1] == BookEnd(cfg, data)
    ensures |data| > 0 ==> Render(cfg, data)[2] == BelowHeader(cfg, data)
  {
    var ws := ColumnWidths(data);
    var b := BookEnd(cfg, data);
    var body := Body(cfg, data, ws, BelowHeader(cfg, data));
    assert Render(cfg, data) == [b] + body + [b];
    BodyLength(cfg, data, ws, BelowHeader(cfg, data));
    if |data| > 0 {
      BodyBelowHeader(cfg, data, ws, BelowHeader(cfg, data));
    }
  }

  lemma {:induction false} TableRow(cfg: Config, data: Table, i: nat)
    requires i < |data|
    ensures RowLine(i) < |Render(cfg, data)|
    ensures Render(cfg, data)[RowLine(i)] == RenderRow(cfg, data[i], ColumnWidths(data))
  {
    var ws := ColumnWidths(data);
    var b := BookEnd(cfg, data);
    var body := Body(cfg, data, ws, BelowHeader(cfg, data));
    assert Render(cfg, data) == [b] + body + [b];
    BodyRow(cfg, data, ws, BelowHeader(cfg, data), i);
    FramedAt(b, body, RowLine(i) - 1);
  }

  /** Indexing into a sequence with one element added at each end. */
  lemma {:induction false} FramedAt<T>(b: T, body: seq<T>, k: nat)
    requires k < |body|
    ensures |[b] + body + [b]| == |body| + 2
    ensures ([b] + body + [b])[k + 1] == body[k]
  {
  }

  /** The shape of make()'s output: a table of n > 0 rows has n + 3 lines, an
      empty one 2; the first and last lines are the book end, row 0 comes
      next, then the below-header line, then rows 1.. in their order. */
  lemma {:induction false} TableLines(cfg: Config, data: Table)
    ensures |Render(cfg, data)| == if |data| == 0 then 2 else |data| + 3
    ensures Render(cfg, data)[0] == BookEnd(cfg, data)
    ensures Render(cfg, data)[|Render(cfg, data)| - 1] == BookEnd(cfg, data)
    ensures |data| > 0 ==> Render(cfg, data)[1] == RenderRow(cfg, data[0], ColumnWidths(data))
    ensures |data| > 0 ==> Render(cfg, data)[2] == BelowHeader(cfg, data)
    ensures forall k :: 1 <= k < |data| ==> Render(cfg, data)[k + 2] == RenderRow(cfg, data[k], ColumnWidths(data))
  {
    TableShape(cfg, data);
    if |data| > 0 {
      TableRow(cfg, data, 0);
    }
    forall k | 1 <= k < |data|
      ensures Render(cfg, data)[k + 2] == RenderRow(cfg, data[k], ColumnWidths(data))
    {
      TableRow(cfg, data, k);
      assert RowLine(k) == k + 2;
    }
  }

  /** With no padding, one-character border characters, a separator that
      rtrim leaves alone and rows that all have every column, every line of
      the table has the same length: that of the border. */
  lemma {:induction false} UniformLineLength(cfg: Config, data: Table, k: nat)
    requires cfg.padding == 0
    requires |cfg.headerCharacter| == 1 && |cfg.belowHeaderCharacter| == 1
    requires SolidSeparator(cfg.separator)
    requires forall i :: 0 <= i < |data| ==> |data[i]| == MaxRowLen(data)
    requires k < |Render(cfg, data)|
    ensures |Render(cfg, data)[k]| == BorderLength(cfg, data)
  {
    TableShape(cfg, data);
    var n := |Render(cfg, data)|;
    if k == 0 || k == n - 1 {
      assert |BookEnd(cfg, data)| == BorderLength(cfg, data) * 1;
    } else if k == 2 {
      assert |BelowHeader(cfg, data)| == BorderLength(cfg, data) * 1;
    } else {
      var i := if k == 1 then 0 else k - 2;
      TableRow(cfg, data, i);
      assert RowLine(i) == k;
      RowFits(data, i);
      FullRowLength(cfg, data[i], ColumnWidths(data));
    }
  }

  /** The converse for a non-zero padding: the header row, when it has every
      column, is longer than the book end by exactly the padding. */
  lemma {:induction false} PaddedHeaderLonger(cfg: Config, data: Table)
    requires |cfg.headerCharacter| == 1
    requires SolidSeparator(cfg.separator)
    requires |data| > 0 && |data[0]| == MaxRowLen(data)
    ensures |Render(cfg, data)[1]| == |Render(cfg, data)[0]| + cfg.padding
  {
    TableShape(cfg, data);
    TableRow(cfg, data, 0);
    RowFits(data, 0);
    FullRowLength(cfg, data[0], ColumnWidths(data));
    assert |BookEnd(cfg, data)| == BorderLength(cfg, data) * 1;
  }

  /** The end-to-end example: two columns, default configuration. */
  lemma {:induction false} RenderExample()
    ensures Render(DefaultConfig(), [["A", "B"], ["x", "yy"]])
         == ["----------", "| A | B  | ", "----------", "| x | yy | ", "----------"]
  {
    var cfg := DefaultConfig();
    var data := [["A", "B"], ["x", "yy"]];
    ExampleBorder();
    var ws := ColumnWidths(data);
    var below := BelowHeader(cfg, data);
    ExampleRows(ws);
    assert data[..1] == [["A", "B"]];
    assert data[..1][..0] == [];
    assert Body(cfg, data[..1][..0], ws, below) == [];
    assert Body(cfg, data[..1], ws, below) == ["| A | B  | ", "----------"];
    assert Body(cfg, data, ws, below) == ["| A | B  | ", "----------", "| x | yy | "];
  }

  lemma {:induction false} ExampleBorder()
    ensures ColumnWidths([["A", "B"], ["x", "yy"]]) == [1, 2]
    ensures BorderLength(DefaultConfig(), [["A", "B"], ["x", "yy"]]) == 10
    ensures BookEnd(DefaultConfig(), [["A", "B"], ["x", "yy"]]) == "----------"
    ensures BelowHeader(DefaultConfig(), [["A", "B"], ["x", "yy"]]) == "----------"
  {
    var data := [["A", "B"], ["x", "yy"]];
    assert data[..1] == [["A", "B"]];
    assert data[..1][..0] == [];
    assert ColumnWidths(data[..1]) == [1, 1];
    var ws := ColumnWidths(data);
    assert ws == [1, 2];
    RowLengthFormula(ws, 1, "|");
    assert ws[..1] == [1] && ws[..1][..0] == [];
    assert Sum([1]) == 1;
    assert Sum(ws) == 3;
    assert SU.Fill(10, "-") == "----------";
  }

  lemma {:induction false} ExampleRows(ws: seq<nat>)
    requires ws == [1, 2]
    ensures RenderRow(DefaultConfig(), ["A", "B"], ws) == "| A | B  | "
    ensures RenderRow(DefaultConfig(), ["x", "yy"], ws) == "| x | yy | "
  {
    ExampleRow(ws, ["A", "B"], "| A | ", "| A | B  | ");
    ExampleRow(ws, ["x", "yy"], "| x | ", "| x | yy | ");
  }

  lemma {:induction false} ExampleRow(ws: seq<nat>, row: seq<string>, first: string, whole: string)
    requires ws == [1, 2] && |row| == 2 && |row[0]| == 1 && |row[1]| <= 2
    requires first == "| " + row[0] + " | "
    requires whole == first + SU.Left(row[1], 2) + " | "
    ensures RenderRow(DefaultConfig(), row, ws) == whole
  {
    var cfg := DefaultConfig();
    assert row[..1][..0] == [];
    assert RenderRow(cfg, row[..1][..0], ws) == "| ";
    assert SU.Left(row[0], 1) == row[0];
    assert RenderRow(cfg, row[..1], ws) == first;
    assert row[..2] == row;
  }
}
