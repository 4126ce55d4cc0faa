/** The Tableify class: configuration and data held in fields, fluent setters
    that overwrite one field each and return the object, and make(), which
    builds the lines with the same loops as the original and stores them. */
module Tableify {
  import SU = StringUtils
  import opened Layout

  /** The constant table help() renders: method name, description. */
  function HelpTable(): (t: Table)
    ensures |t| == 13
  {
    [ ["Method", "Description of Method"],
      ["Tableify::new(array)", "Static method to create a new instance"],
      ["center()", "Set the formatter to use the center method"],
      ["left()", "Set the formatter to use the left method"],
      ["right()", "set the formatter to use the right method"],
      ["setData(array)", "Set the data array on the object"],
      ["seperatorPadding(string)", "Set the # of blank characters around the seperator"],
      ["seperator(string)", "Set the seperator string"],
      ["headerCharacter(string)", "Set the header character"],
      ["belowHeaderCharacter(string)", "Set the below header character string"],
      ["make()", "Make the data into an array of table rows"],
      ["toArray()", "Return the array of table rows"],
      ["Tableify::help()", "Display this help!"] ]
  }

  /** Every row of the help table has two cells: the method and its description. */
  lemma {:induction false} HelpTableColumns()
    ensures forall i :: 0 <= i < |HelpTable()| ==> |HelpTable()[i]| == 2
  {
  }

  /** help() renders 13 rows, so 16 lines. */
  lemma {:induction false} HelpLines()
    ensures |Render(DefaultConfig(), HelpTable())| == 16
    ensures Render(DefaultConfig(), HelpTable())[0] == BookEnd(DefaultConfig(), HelpTable())
    ensures Render(DefaultConfig(), HelpTable())[15] == BookEnd(DefaultConfig(), HelpTable())
  {
    TableShape(DefaultConfig(), HelpTable());
  }

  class Tableify {
    var formatter: Formatter
    var padding: nat
    var separator: string
    var headerCharacter: string
    var belowHeaderCharacter: string
    var data: Table
    var table: seq<string>

    /** The configuration fields taken together. */
    function Settings(): Config
      reads this
    {
      Config(formatter, padding, separator, headerCharacter, belowHeaderCharacter)
    }

    /** A fresh object with the field initialisers: left alignment, padding 1,
        separator "|", "-" for both border lines, no data, no table. */
    constructor ()
      ensures Settings() == DefaultConfig()
      ensures data == [] && table == []
    {
      formatter := Formatter.Left;
      padding := 1;
      separator := "|";
      headerCharacter := "-";
      belowHeaderCharacter := "-";
      data := [];
      table := [];
    }

    /** Tableify::new($data): a fresh object with default settings, then setData. */
    static method New(newData: Table) returns (t: Tableify)
      ensures fresh(t)
      ensures t.Settings() == DefaultConfig()
      ensures t.data == newData && t.table == []
    {
      t := new Tableify();
      t := t.SetData(newData);
    }

    method SetData(newData: Table) returns (self: Tableify)
      modifies this`data
      ensures self == this
      ensures data == newData
      ensures Settings() == old(Settings()) && table == old(table)
    {
      data := newData;
      self := this;
    }

    method Left() returns (self: Tableify)
      modifies this`formatter
      ensures self == this
      ensures Settings() == old(Settings()).(formatter := Formatter.Left)
      ensures data == old(data) && table == old(table)
    {
      formatter := Formatter.Left;
      self := this;
    }

    method Center() returns (self: Tableify)
      modifies this`formatter
      ensures self == this
      ensures Settings() == old(Settings()).(formatter := Formatter.Center)
      ensures data == old(data) && table == old(table)
    {
      formatter := Formatter.Center;
      self := this;
    }

    method Right() returns (self: Tableify)
      modifies this`formatter
      ensures self == this
      ensures Settings() == old(Settings()).(formatter := Formatter.Right)
      ensures data == old(data) && table == old(table)
    {
      formatter := Formatter.Right;
      self := this;
    }

    /** seperatorPadding(): the method keeps the original's spelling; the
        field it sets is `padding`. */
    method SeperatorPadding(newPadding: nat) returns (self: Tableify)
      modifies this`padding
      ensures self == this
      ensures Settings() == old(Settings()).(padding := newPadding)
      ensures data == old(data) && table == old(table)
    {
      padding := newPadding;
      self := this;
    }

    /** seperator(): sets the `separator` field. */
    method Seperator(newSeparator: string) returns (self: Tableify)
      modifies this`separator
      ensures self == this
      ensures Settings() == old(Settings()).(separator := newSeparator)
      ensures data == old(data) && table == old(table)
    {
      separator := newSeparator;
      self := this;
    }

    method HeaderCharacter(newHeaderCharacter: string) returns (self: Tableify)
      modifies this`headerCharacter
      ensures self == this
      ensures Settings() == old(Settings()).(headerCharacter := newHeaderCharacter)
      ensures data == old(data) && table == old(table)
    {
      headerCharacter := newHeaderCharacter;
      self := this;
    }

    method BelowHeaderCharacter(newBelowHeaderCharacter: string) returns (self: Tableify)
      modifies this`belowHeaderCharacter
      ensures self == this
      ensures Settings() == old(Settings()).(belowHeaderCharacter := newBelowHeaderCharacter)
      ensures data == old(data) && table == old(table)
    {
      belowHeaderCharacter := newBelowHeaderCharacter;
      self := this;
    }

    /** Builds the table from the data and the settings and stores it; only
        the table field changes. */
    method Make() returns (self: Tableify)
      modifies this`table
      ensures self == this
      ensures table == Render(Settings(), data)
      ensures data == old(data) && Settings() == old(Settings())
    {
      var cfg := Settings();
      var rows := data;
      var fieldLengths := MaxMultidimensionalArrayStringSize(rows);
      var rowLength := CalculateRowLength(fieldLengths, cfg.padding, cfg.separator);
      var bookEnd := SU.Fill(rowLength, cfg.headerCharacter);
      var belowHeader := SU.Fill(rowLength, cfg.belowHeaderCharacter);
      assert bookEnd == BookEnd(cfg, rows) && belowHeader == BelowHeader(cfg, rows);
      RowsFit(rows);
      var lines := [bookEnd];
      var i := 0;
      assert Body(cfg, rows[..0], fieldLengths, belowHeader) == [];
      while i < |rows|
        invariant 0 <= i <= |rows|
        invariant lines == [bookEnd] + Body(cfg, rows[..i], fieldLengths, belowHeader)
      {
        var row := rows[i];
        var line := cfg.separator + SU.Spaces(cfg.padding);
        var j := 0;
        while j < |row|
          invariant 0 <= j <= |row|
          invariant line == RenderRow(cfg, row[..j], fieldLengths)
        {
          var segment := Align(cfg.formatter, row[j], fieldLengths[j]) + SU.Spaces(cfg.padding)
            + cfg.separator + SU.Spaces(cfg.padding);
          RenderRowStep(cfg, row, fieldLengths, j);
          line := line + segment;
          j := j + 1;
        }
        assert row[..j] == row;
        AppendRowLine(cfg, rows, fieldLengths, bookEnd, belowHeader, i, lines, line);
        lines := lines + [line];
        if i == 0 {
          lines := lines + [belowHeader];
        }
        i := i + 1;
      }
      assert rows[..i] == rows;
      lines := lines + [bookEnd];
      table := lines;
      self := this;
    }

    /** toArray(): the lines the last make() stored. */
    method ToArray() returns (lines: seq<string>)
      ensures lines == table
    {
      lines := table;
    }

    /** maxMultidimensionalArrayStringSize: the widest cell of every column,
        found with the original's nested loops; a column seen for the first
        time is appended, a wider cell overwrites its entry. */
    static method MaxMultidimensionalArrayStringSize(rows: Table) returns (lengths: seq<nat>)
      ensures lengths == ColumnWidths(rows)
    {
      lengths := [];
      var i := 0;
      while i < |rows|
        invariant 0 <= i <= |rows|
        invariant lengths == ColumnWidths(rows[..i])
      {
        var row := rows[i];
        ghost var before := lengths;
        var j := 0;
        while j < |row|
          invariant 0 <= j <= |row|
          invariant lengths == MergeRow(before, row[..j])
        {
          MergeRowStep(before, row, j);
          var tempLength := |row[j]|;
          if j >= |lengths| {
            lengths := lengths + [tempLength];
          } else if lengths[j] < tempLength {
            lengths := lengths[j := tempLength];
          }
          j := j + 1;
        }
        assert row[..j] == row;
        ColumnWidthsStep(rows, i);
        i := i + 1;
      }
      assert rows[..i] == rows;
    }

    /** calculateRowLength: the length of the trimmed sample row; when rtrim
        cannot reach into the separator this is the separator once plus, per
        column, its width, twice the padding and the separator. */
    static method CalculateRowLength(fieldLengths: seq<nat>, padding: nat, sep: string) returns (n: nat)
      ensures n == RowLength(fieldLengths, padding, sep)
      ensures SolidSeparator(sep) ==>
                n == |sep| + Sum(fieldLengths) + |fieldLengths| * (2 * padding + |sep|)
    {
      var sampleRow := sep + SU.Spaces(padding);
      var i := 0;
      while i < |fieldLengths|
        invariant 0 <= i <= |fieldLengths|
        invariant sampleRow == SampleRow(fieldLengths[..i], padding, sep)
      {
        assert fieldLengths[..i + 1][..i] == fieldLengths[..i];
        sampleRow := sampleRow + SU.Spaces(fieldLengths[i]) + SU.Spaces(padding) + sep + SU.Spaces(padding);
        i := i + 1;
      }
      assert fieldLengths[..i] == fieldLengths;
      sampleRow := SU.Rtrim(sampleRow);
      n := |sampleRow|;
      if SolidSeparator(sep) {
        RowLengthFormula(fieldLengths, padding, sep);
      }
    }

    /** Tableify::help(): the fixed 13-row table through new, make and toArray,
        giving 16 lines framed by identical book ends. */
    static method Help() returns (lines: seq<string>)
      ensures lines == Render(DefaultConfig(), HelpTable())
      ensures |lines| == 16
      ensures lines[0] == lines[15] == BookEnd(DefaultConfig(), HelpTable())
    {
      var t := New(HelpTable());
      t := t.Make();
      lines := t.ToArray();
      HelpLines();
    }
  }
}
