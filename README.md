# Tableify, modelled in Dafny

Tableify turns a grid of strings into a bordered plain-text table, one string
per line. A `Tableify` object holds the data and five settings:

- the formatter (left, center or right alignment);
- the separator padding;
- the separator glyph;
- the header character, used for the top and bottom lines;
- the below-header character.

Fluent setters overwrite one setting each and return the object. `make()`
builds the lines and stores them in the `table` field, and `toArray()`
returns that field.

`make()` works in five steps:

1. It finds the widest cell of every column (`maxMultidimensionalArrayStringSize`).
2. It builds a blank sample row from those widths, right-trims it and takes
   its length (`calculateRowLength`).
3. It fills the border lines to that length.
4. It emits the top border, then every row, with the below-header line
   after row 0.
5. It emits the bottom border.

The project has three modules:

- `string_utils.dfy`, module `StringUtils`: the padding helpers Tableify
  takes from the external StringUtils package (`fill`, `left`, `right`,
  `center`), plus PHP's `rtrim`. These are small definitions whose contracts
  state what Tableify relies on: repetition, and padding to a width without
  truncation.
- `layout.dfy`, module `Layout`: the specification as pure functions.
  - `ColumnWidths` is the width vector.
  - `SampleRow` and `RowLength` give the border length.
  - `RenderRow` is one data line.
  - `Render` is the whole output of `make()`.
  - The lemmas cover column maxima, the row-length formula, line count and
    order, line lengths, and a worked example.
- `tableify.dfy`, module `Tableify`: the class `Tableify`.
  - Its fields are the same as the PHP object's, except the StringUtils
    instance (see Left out).
  - Every setter states the object's whole new state.
  - `Make`, `MaxMultidimensionalArrayStringSize` and `CalculateRowLength`
    use the original's loops, with invariants, and are proved equal to the
    `Layout` functions.
  - `Help` runs the fixed 13-row help table through `New`, `Make` and
    `ToArray`.

Two properties of the code are worth stating up front:

- **Data rows are not trimmed.** `rtrim` is applied to the sample row only
  (src/Tableify.php:232), never to the rows `make()` emits. Take a separator
  whose last character `rtrim` keeps and a one-character header character.
  Then a row with a cell in every column is `padding` characters longer than
  the border (`FullRowLength`, `PaddedHeaderLonger`). `UniformLineLength`
  proves that padding 0 is enough for every line to have the border's
  length, given one-character border characters, such a separator and no
  ragged rows. For a padding above 0, `PaddedHeaderLonger` shows the
  header line is longer than the border, so padding 0 is also necessary.
  With a header character `c` of any length, the border is
  `row_length · |c|` long (`BookEnd`).
- **The code does not validate settings.** The formatter is called by the
  name stored in a field (src/Tableify.php:191), and the padding is used as
  given. Only the three setters `left()`, `center()` and `right()` write the
  formatter field, so the model uses a three-case datatype. Negative
  padding is left out (see below).

## Model

| member | source | states |
|---|---|---|
| StringUtils.Fill | src/Tableify.php:177-179 | `fill(n, c)` is `n` copies of `c`: its length is `n * |c|`, and for a one-character `c` every character is `c` |
| StringUtils.Spaces | src/Tableify.php:185 | `fill(n)` with the default character is exactly `n` spaces |
| StringUtils.Left | src/Tableify.php:191 | the text comes first, followed by spaces up to the width; the length is `max(|text|, width)` and the text is never cut |
| StringUtils.Right | src/Tableify.php:191 | spaces up to the width come first and the text ends the field; never truncates |
| StringUtils.Center | src/Tableify.php:191 | the text sits after `floor(pad/2)` spaces, and the spaces after it number the same or one more (the odd space goes right) |
| StringUtils.Rtrim | src/Tableify.php:232 | the result is a prefix of the input; it does not end in an `rtrim` whitespace character, and everything it dropped was such a character |
| Layout.Lead | src/Tableify.php:191 | where each formatter puts the cell in its field: at 0 for left, at the end for right, after half the padding for center; `Align` states that the cell appears there |
| Layout.Align | src/Tableify.php:191 | the chosen formatter pads the cell to `max(|cell|, width)` with spaces; the cell appears unchanged at the formatter's offset (`Lead`), and a cell at least as wide as the column comes back unchanged |
| Layout.DefaultConfig | src/Tableify.php:17-25 | the field initialisers: left, padding 1, separator `|`, `-` and `-`; `Tableify.Tableify.constructor` states that a new object has them |
| Layout.MaxRowLen | src/Tableify.php:247-248 | the largest cell count over the rows: every row is at most that long and some row reaches it (0 for no rows) |
| Layout.MergeRow | src/Tableify.php:248-256 | one row folded into the width vector, column by column; `MergeRowStep` states that the inner loop's append-or-overwrite computes it |
| Layout.ColumnWidths | src/Tableify.php:237-260 | the width vector has one entry per column of the longest row, and every cell of every row, ragged ones included, fits its column's entry |
| Layout.WidthAttained | src/Tableify.php:244-260 | every entry equals the length of some cell in that column, so with `ColumnWidths` the entry is exactly the column maximum |
| Layout.ColumnWidthsExample | src/Tableify.php:237-239 | `[['aaaa','aaaaa'],['bb','bbbbbbb']]` gives `[4, 7]` |
| Layout.MergeRowStep | src/Tableify.php:248-256 | one inner-loop step: an unseen column is appended with the cell's length, a wider cell overwrites its entry, and otherwise nothing changes |
| Layout.ColumnWidthsStep | src/Tableify.php:247-258 | one outer-loop step folds the next row into the widths of the rows before it |
| Layout.SampleRow | src/Tableify.php:228-231 | the untrimmed sample row: separator and padding, then a blank field, padding, separator and padding per column; `SampleRowLength` gives its length |
| Layout.RowLength | src/Tableify.php:232-233 | the length of the right-trimmed sample row; `RowLengthFormula` gives its closed form and `SampleRowTrim` what `rtrim` removes |
| Layout.SampleRowLength | src/Tableify.php:228-231 | the untrimmed sample row has length `|s| + p + Σw + n·(2p + |s|)` |
| Layout.RtrimSpaces | src/Tableify.php:232 | trailing spaces make no difference to `rtrim` |
| Layout.SampleRowTrim | src/Tableify.php:228-233 | when the separator does not end in whitespace, `rtrim` removes exactly the final `p` padding spaces of the sample row |
| Layout.RowLengthFormula | src/Tableify.php:226-234 | for such a separator the row length is `|s| + Σw + n·(2p + |s|)`; with no columns it is `|s|` |
| Layout.Segment | src/Tableify.php:191 | the text for one cell: the aligned cell, then padding, separator, padding; its length is `max(|cell|, width) + 2p + |s|` and it starts with the aligned cell |
| Layout.RenderRow | src/Tableify.php:185-192 | one data line: it starts with the separator and the padding, then one segment per cell the row has; `RenderRowStep`, `RenderRowPrefix`, `RenderRowLength`, `FullRowLength` and `ShortRowLength` characterise it |
| Layout.RenderRowStep | src/Tableify.php:187-192 | one inner-loop step of `make()` appends the cell's segment: the aligned cell, padding, the separator, padding |
| Layout.RenderRowPrefix | src/Tableify.php:185-192 | segments come in cell order: rendering the first `j` cells gives a prefix of the rendered row |
| Layout.RenderRowLength | src/Tableify.php:185-191 | a row whose cells fit their columns is as long as the untrimmed sample row over its own columns |
| Layout.FullRowLength | src/Tableify.php:185-191 | for a separator whose last character `rtrim` keeps, a row with a cell in every column is `row_length + p` long; the data line keeps the padding that `rtrim` took off the sample row |
| Layout.ShortRowLength | src/Tableify.php:187-191 | a ragged row gets no segments for its missing columns and is shorter than `row_length`, given a separator that does not end in whitespace |
| Layout.RowFits | src/Tableify.php:187-191 | each row has at most as many cells as the width vector, and each of its cells fits, so the lookup `$field_lengths[$j]` is always in bounds |
| Layout.Body | src/Tableify.php:183-199 | the lines the row loop emits: each row's line in order, the below-header line after row 0; `BodyStep`, `BodyLength`, `BodyBelowHeader` and `BodyRow` characterise it |
| Layout.BodyStep | src/Tableify.php:183-199 | one outer-loop step of `make()` appends the row's line, plus the below-header line after row 0 |
| Layout.AppendRowLine | src/Tableify.php:194-198 | the same step, stated on the lines accumulated so far, with the top border at the front |
| Layout.BookEnd | src/Tableify.php:177 | the top and bottom line: the header character repeated `row_length` times, so `row_length · |c|` long, all `c` for a one-character `c` |
| Layout.BelowHeader | src/Tableify.php:179 | the line below the header: the below-header character repeated `row_length` times, with the same length and content facts |
| Layout.Render | src/Tableify.php:168-205 | the whole output of `make()`: book end, the row loop's lines, book end; `TableShape`, `TableRow`, `TableLines` and `UniformLineLength` characterise it |
| Layout.BodyLength | src/Tableify.php:183-199 | the loop emits `n + 1` lines for `n > 0` rows and none for no rows |
| Layout.BodyBelowHeader | src/Tableify.php:196-198 | the second line the loop emits is the below-header line |
| Layout.BodyRow | src/Tableify.php:183-199 | row `i` is emitted at position `RowLine(i) - 1` of the loop's output |
| Layout.TableShape | src/Tableify.php:177-201 | `make()` gives `n + 3` lines for `n > 0` rows and 2 for an empty table; the first and last lines are the same book end, and line 2 is the below-header line |
| Layout.TableRow | src/Tableify.php:183-199 | row 0 is line 1, and row `k ≥ 1` is line `k + 2`, so row order is preserved |
| Layout.TableLines | src/Tableify.php:168-205 | the whole output in order: book end, row 0, below-header line, rows 1… in order, book end |
| Layout.UniformLineLength | src/Tableify.php:175-201 | with padding 0, one-character border characters, a separator that does not end in whitespace and no ragged rows, every line is exactly the border length |
| Layout.PaddedHeaderLonger | src/Tableify.php:177-191 | with a one-character header character and such a separator, a header row with every column is exactly `padding` longer than the book end |
| Layout.RenderExample | src/Tableify.php:168-205 | `[["A","B"],["x","yy"]]` with the default settings gives the five lines `----------`, `| A | B  | `, `----------`, `| x | yy | `, `----------` |
| Tableify.HelpTable | src/Tableify.php:264-278 | the help table has 13 rows |
| Tableify.HelpTableColumns | src/Tableify.php:264-278 | every row of the help table has two cells, the method and its description |
| Tableify.HelpLines | src/Tableify.php:262-280 | rendering the help table gives 16 lines, with the same book end first and last |
| Tableify.Tableify.constructor | src/Tableify.php:14-47 | a new object has the field defaults: left, padding 1, separator `|`, `-` and `-`, no data and no table |
| Tableify.Tableify.New | src/Tableify.php:57-69 | `new($data)` returns a fresh object with default settings and the given data |
| Tableify.Tableify.SetData | src/Tableify.php:77-81 | overwrites the data only and returns the same object |
| Tableify.Tableify.Left | src/Tableify.php:88-92 | sets the formatter to left, changes nothing else and returns the same object |
| Tableify.Tableify.Center | src/Tableify.php:98-102 | sets the formatter to center, changes nothing else and returns the same object |
| Tableify.Tableify.Right | src/Tableify.php:109-113 | sets the formatter to right, changes nothing else and returns the same object |
| Tableify.Tableify.SeperatorPadding | src/Tableify.php:120-124 | overwrites the padding only and returns the same object |
| Tableify.Tableify.Seperator | src/Tableify.php:132-136 | overwrites the separator only and returns the same object |
| Tableify.Tableify.HeaderCharacter | src/Tableify.php:144-148 | overwrites the header character only and returns the same object |
| Tableify.Tableify.BelowHeaderCharacter | src/Tableify.php:156-160 | overwrites the below-header character only and returns the same object |
| Tableify.Tableify.Make | src/Tableify.php:168-205 | the nested loops store exactly `Render(settings, data)` in `table`; the data and settings are unchanged, and the same object is returned |
| Tableify.Tableify.ToArray | src/Tableify.php:212-215 | returns the stored table |
| Tableify.Tableify.MaxMultidimensionalArrayStringSize | src/Tableify.php:244-260 | the nested loops, which append or overwrite `lengths[j]`, compute exactly `ColumnWidths(data)` |
| Tableify.Tableify.CalculateRowLength | src/Tableify.php:226-234 | the loop and `rtrim` compute `RowLength`; for a separator that does not end in whitespace the result is `|s| + Σw + n·(2p + |s|)` |
| Tableify.Tableify.Help | src/Tableify.php:262-280 | `help()` equals `make()` over the help table with default settings: 16 lines, the first equal to the last |

## Left out

- The StringUtils package (src/Tableify.php:4) is not part of this model. `Fill`, `Left`, `Right` and `Center` are definitions that carry the contracts Tableify relies on, not the package's code.
- StringUtils.Center: the tie-break (the odd padding space goes to the right) is an assumption about the package, not something read from its code.
- Injecting a StringUtils instance through the constructor or `new` (src/Tableify.php:38-69) is not modelled. The model always uses the one helper set above.
- The string-named formatter call (src/Tableify.php:191) is a match on a three-case datatype. There is no "unknown formatter" path, because only the three setters can set it.
- Tableify.Tableify.SeperatorPadding: takes a `nat`. The source accepts any `int` without a check, and a negative padding depends on what the unseen `fill` does with a negative count.
- Widths are sequence lengths of `char`. PHP's `strlen` counts bytes, so multibyte text is not modelled.
- `rtrim` is modelled with PHP's default character set only.
- Data is a sequence of sequences of strings. PHP arrays with non-list keys or non-string cells are not modelled.
- src/TableifyInterface.php holds only declarations and is not part of this model.
- example/example.php prints tables to the console (I/O only) and is not part of this model.
