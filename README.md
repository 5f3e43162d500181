# puncher, modelled in Dafny

puncher draws an IBM 80-column punched card as an SVG document, for printing and
for cutting on a plotter. The card model lives in `src/puncher/puncher.py`:

- the punch code `EBCD_PUNCH_RULES`, which maps a character to the punch rows (12, 11, 0 to 9) cut in its column;
- the geometry of a grid of 80 columns by 25 printed lines, with a punch row on every other line;
- the class `PunchcardSVG`. Its constructor draws nine groups one after another: the style, the card outline, the punched holes, the cell boxes, the hole guides, the row numbers, the column numbers, the printed content and the manufacturer line. `makesvg` then stacks these groups into layers, following four switches.

The command line in `src/puncher/__main__.py` does three things: it picks the card content (a fixed test
pattern or a given string), announces it with a summary of the four switches, and
draws the card.

The model has these modules:

- `Builtins`: the Python built-ins the code relies on, as Dafny functions with their
  specifications: `str(n)`, `list.index` raising `ValueError`, one-character
  `str.replace`, `join` and `split`.
- `Escaping`: `escape`, checked against a per-character reference definition.
- `CodeTable`: the row and column numberings and the code table, with the
  zone-and-digit scheme the table follows.
- `Geometry`: the constants as exact reals, the cell location, the cell centre and
  the label-to-cell lookup.
- `Svg`: an abstract tree of SVG elements. A raster is identified by the document it
  was rendered from.
- `Layout`: what every drawing step produces, written as pure functions. This
  includes the complete document `makesvg` returns (`Render`) and the nine groups the
  constructor collects (`Build`).
- `Card`: the class `PunchcardSvg`, whose nine group fields are updated by one method
  per `_draw_*` step. Each method has the loops of the source and is proved to store
  the group `Layout` describes. `Create` runs the constructor and returns the card or
  the exception it raised. `MakeSvg` is `makesvg`.
- `PuncherMain`: `_switches` (a loop over the four switch names), the choice of
  content, and `main` up to the point where the document is drawn.

The Python exceptions that construction can raise are modelled as values. A content
longer than 80 characters raises `ValueError`. The holes are punched first. A character
beyond column 80 that has holes makes its column lookup fail. Then the printed labels
are drawn, and every character beyond column 80 fails its lookup, so content that is
too long always raises, even when its trailing characters are blanks. An empty
manufacturer string leaves the attribute unset. Drawing the manufacturer line then
raises `AttributeError`.

`_character_cell_location` computes `y = (row + 1) / 8`, so the line number grows
downwards in SVG coordinates.

## Model

| member | source | states |
|---|---|---|
| Builtins.DecimalString | src/puncher/puncher.py:73 | `str(n)` is a non-empty string of decimal digits; it has one digit exactly when n < 10, and its last digit is n mod 10 |
| Builtins.DecimalStringInjective | src/puncher/puncher.py:73 | distinct column numbers have distinct labels |
| Builtins.IndexOfSpec | src/puncher/puncher.py:161-162 | `list.index` succeeds exactly for members; it returns the first position holding the value, and otherwise raises `ValueError` |
| Builtins.IndexOfDistinct | src/puncher/puncher.py:161-162 | in a list without repetitions, every element is found at its own position |
| Builtins.ReplaceAbsent | src/puncher/puncher.py:33-35 | replacing a character that does not occur leaves the text unchanged |
| Builtins.SplitJoin | src/puncher/__main__.py:51 | joining parts that do not contain the separator, then splitting the result, gives back the same parts |
| Escaping.EscapeIsPerCharacter | src/puncher/puncher.py:30-36 | the three successive replacements equal escaping each character on its own; the `&` written for `<` and `>` is never escaped again, because `&` is replaced first |
| Escaping.EscapeNoAngleBrackets | src/puncher/puncher.py:30-36 | escaped text contains no `<` and no `>` |
| Escaping.EscapeIdentity | src/puncher/puncher.py:30-36 | text without `&`, `<` or `>` is returned unchanged |
| Escaping.EscapeLength | src/puncher/puncher.py:30-36 | every `&` adds four characters, and every `<` and every `>` adds three |
| Escaping.EscapeIdempotentIff | src/puncher/puncher.py:30-36 | escaping twice gives the same text as escaping once exactly when the text contains none of the three characters |
| CodeTable.ColumnNumbering | src/puncher/puncher.py:73 | the column numbering has one label per column |
| CodeTable.ColumnLabelsAt | src/puncher/puncher.py:73 | the label at index i is `str(i + 1)` |
| CodeTable.RowIndex | src/puncher/puncher.py:72 | the index of a row label names that label, and it is the label's rank in top-to-bottom order |
| CodeTable.RowLabelIndexFacts | src/puncher/puncher.py:72 | `index` finds 12 at 0, 11 at 1 and the digit rows 0 to 9 at 2 to 11 |
| CodeTable.RowIndexExamples | src/puncher/puncher.py:72 | rows 12, 1 and 0 sit at indices 0, 3 and 2 |
| CodeTable.EbcdPunchRulesWellFormed | src/puncher/puncher.py:77-142 | every entry of the table lists at most three rows; each row is in the row numbering; the rows are listed top to bottom with no repetition |
| CodeTable.EbcdPunchRulesEntries | src/puncher/puncher.py:77-142 | every entry follows the zone-and-digit scheme wherever the scheme applies; only the blank punches nothing |
| CodeTable.ZoneDigitCodeListed | src/puncher/puncher.py:77-142 | the blank, the digits, the letters, `&`, `-` and `/` are all keys of the table |
| CodeTable.PunchRowsZoneDigit | src/puncher/puncher.py:324 | the lookup with an empty default gives the scheme's rows for those characters, and at least one row for every listed character other than the blank |
| CodeTable.PunchRowsExamples | src/puncher/puncher.py:78-91 | `A` is punched in rows 12 and 1, `0` in row 0 alone, and the blank nowhere |
| CodeTable.PunchRowsWellFormed | src/puncher/puncher.py:324 | for any character, listed or not, the lookup returns a well-formed pattern of row labels; an unlisted character gives the empty pattern and no error |
| CodeTable.NotInParts | src/puncher/puncher.py:324 | a character in none of the table's parts is not a key, and the lookup with an empty default gives no rows |
| CodeTable.PunchRowsUnlisted | src/puncher/puncher.py:324 | the lower-case `a` is not in the table and punches nothing, without an error |
| Geometry.Dimensions | src/puncher/puncher.py:40-65 | the card is 7.375 by 3.25 inches; the left margin is 0.2075, so 2 margins plus 80 columns give the card width exactly; the document is 8.375 by 4.25 inches |
| Geometry.CellSize | src/puncher/puncher.py:145-148 | a cell is one column (0.087 inch) wide and one line (1/8 inch) high |
| Geometry.CellsTile | src/puncher/puncher.py:150-153 | neighbouring cells share an edge; the first column starts at the left margin; line r spans from r/8 to (r + 1)/8 inch |
| Geometry.GridFitsCard | src/puncher/puncher.py:150-153 | every cell of the 80 by 25 grid lies on the card, and the 80th column ends at the right margin |
| Geometry.CellLocationMonotone | src/puncher/puncher.py:150-153 | x grows strictly with the column and y strictly with the line, in both directions of the if-and-only-if |
| Geometry.CellCenterInsideCell | src/puncher/puncher.py:155-158 | the centre is half a cell right of the corner and half a cell above it |
| Geometry.ColumnLabelsDistinct | src/puncher/puncher.py:73 | the 80 column labels are pairwise distinct |
| Geometry.ColumnLabelIndex | src/puncher/puncher.py:73 | the label `str(k)` is found at index k - 1, for k from 1 to 80 |
| Geometry.ColumnLabelMembership | src/puncher/puncher.py:73 | the column labels are exactly the spellings of 1 to 80 |
| Geometry.PunchCellInSpec | src/puncher/puncher.py:160-166 | for any numberings, the lookup succeeds exactly when both labels are listed; the column index and `2 * row + 1` map back to the labels; otherwise it raises `ValueError` |
| Geometry.PunchCellOfLabels | src/puncher/puncher.py:160-166 | `(str(k), CARD_HOLE_ROW_NUMBERING[r])` goes to cell `(k - 1, 2 r + 1)` |
| Geometry.PunchCellIndicesSpec | src/puncher/puncher.py:160-166 | a hole position exists exactly for a column label and a row label, and it is an odd line from 1 to 23 in a column below 80; any other label raises `ValueError` |
| Geometry.HoleInsideCell | src/puncher/puncher.py:214-220 | the hole is 0.04 inch wide and 0.07 inch high, its centre is the cell centre, and it lies strictly inside its cell |
| Geometry.HoleWithinCard | src/puncher/puncher.py:214-220 | every hole of the grid lies strictly inside the card |
| Geometry.HolesDisjoint | src/puncher/puncher.py:214-220 | holes at two different cells do not overlap |
| Layout.HoleByLabels | src/puncher/puncher.py:203-227 | the hole drawn for column `str(k)` and the r-th row label is the geometric hole of grid column k - 1 on line 2 r + 1 |
| Layout.HoleByHoleCoordSpec | src/puncher/puncher.py:203-227 | a hole is drawn exactly for a column label and a row label; anything else raises `ValueError` |
| Layout.CutBoundaryOfLabels | src/puncher/puncher.py:319-320 | the cut outline is a one-element list holding that hole with class `cardpunch_boundary` |
| Layout.ColumnHolesOfLabels | src/puncher/puncher.py:323-331 | for a column 1 to 80, the column's holes are the cut outlines of the listed rows, one per row, in the listed order |
| Layout.ColumnHolesOutside | src/puncher/puncher.py:323-331 | for a column name outside the numbering, the holes raise `ValueError` exactly when there is a row to punch |
| Layout.ColumnNameOutside | src/puncher/puncher.py:73 | no number above 80 spells a column label |
| Layout.ColumnLoopStops | src/puncher/puncher.py:333-338 | once an iteration of the content loop raises, the loop ends with that exception |
| Layout.ColumnLoopStep | src/puncher/puncher.py:333-338 | one more iteration either extends the list by what it drew, or raises, ending the loop with its exception |
| Layout.ColumnLoopSucceeds | src/puncher/puncher.py:333-338 | when every iteration succeeds, the loop yields the concatenation of their drawings, in content order |
| Layout.ColumnLoopBlankTail | src/puncher/puncher.py:333-338 | iterations that either draw nothing or raise `ValueError` keep the earlier result exactly when every one of them drew nothing |
| Layout.ColumnLoopSplit | src/puncher/puncher.py:333-338 | the loop succeeds with the drawings of the first m columns exactly when every later character draws nothing |
| Layout.ContentPunchesSpec | src/puncher/puncher.py:333-338 | punching succeeds exactly when no character beyond column 80 has holes, and otherwise raises `ValueError`; the holes are those of the first 80 characters, column by column and row by row |
| Layout.ContentPunchesFrom | src/puncher/puncher.py:333-338 | the same statement, split at column m |
| Layout.ContentPunchesWithinCard | src/puncher/puncher.py:333-338 | content that fits on the card is punched column by column |
| Layout.ColumnPunchesWithinCard | src/puncher/puncher.py:336 | each of the first 80 columns draws the reference holes of its character |
| Layout.ColumnPunchesOfLabel | src/puncher/puncher.py:323-331 | column `str(k)` draws the cut outline of each row of its character, in grid column k - 1 |
| Layout.ColumnPunchesBeyondCard | src/puncher/puncher.py:336 | a column beyond the 80th draws nothing for a character without holes, and otherwise raises `ValueError` |
| Layout.ColumnHolesExamples | src/puncher/puncher.py:319-331 | `A` gives two holes, in grid rows 0 and 3; `0` gives one hole, in grid row 2; the blank gives none |
| Layout.ColumnHolesUnlisted | src/puncher/puncher.py:324-331 | a character the table does not list, such as `a`, draws no hole in its column |
| Layout.ContentHoleCount | src/puncher/puncher.py:333-338 | the columns together hold one hole per listed row of each character |
| Layout.ContentPunchesCount | src/puncher/puncher.py:333-338 | the group of punched holes holds the sum of the rule lengths of the characters on the card |
| Layout.PrintedLabelOfLabel | src/puncher/puncher.py:300-309 | the printed label of column `str(k)` is its escaped character, centred in the top-line cell of grid column k - 1 |
| Layout.CharacterLabelsOfLabel | src/puncher/puncher.py:311-314 | the label is appended as one list item, so each column contributes a list that holds one text element |
| Layout.CharacterLabelsBeyondCard | src/puncher/puncher.py:302 | every column beyond the 80th raises `ValueError` at the label lookup |
| Layout.CharacterLabelsWithinCard | src/puncher/puncher.py:343 | each of the first 80 columns prints its reference label |
| Layout.ContentLabelsSpec | src/puncher/puncher.py:340-345 | printing the labels succeeds exactly when the content has at most 80 characters, and otherwise raises `ValueError`; on success there is one escaped label per character, in its column, in content order |
| Layout.ContentLabelsFrom | src/puncher/puncher.py:340-345 | the same statement, split at column m |
| Layout.ContentLabelsWithinCard | src/puncher/puncher.py:340-345 | content that fits on the card is printed column by column |
| Layout.LinesLength | src/puncher/puncher.py:188-193 | a grid drawn line by line, with w elements per line, has (number of lines) × w elements |
| Layout.LinesAt | src/puncher/puncher.py:188-193 | element `i * w + c` of such a grid is element c of line i, which makes the order row-major |
| Layout.PunchcardCharacterGridAt | src/puncher/puncher.py:184-198 | the character grid has 2000 elements, and element `row * 80 + col` is what the drawing function draws at that cell's corner |
| Layout.CharacterGridCells | src/puncher/puncher.py:168-182 | each cell box covers exactly its cell, with y equal to the bottom minus the height, and is named by its column and line |
| Layout.CellBoxIdParts | src/puncher/puncher.py:181 | `cell_box_<c>_<r>` splits at `_` back into its column and line numbers |
| Layout.CellBoxIdInjective | src/puncher/puncher.py:181 | two cells with the same id are the same cell |
| Layout.PunchholeBoundariesAt | src/puncher/puncher.py:261-269 | the hole guides hold 960 elements, and the guide at `r * 80 + c` is the hole the r-th row label and the c-th column label name |
| Layout.ColumnNumberLabelsAt | src/puncher/puncher.py:271-283 | there are 160 column numbers, on lines 6 and 24; the one at `i * 80 + col` reads `str(col + 1)` and is centred in its cell |
| Layout.DigitRowLabelsAt | src/puncher/puncher.py:295 | the row names printed are the row labels after the two zone rows |
| Layout.RowNumberLabelOfDigit | src/puncher/puncher.py:285-290 | the label of digit row d in a column is `str(d)`, centred in the cell of that row's hole |
| Layout.RowNumberLabelsAt | src/puncher/puncher.py:292-298 | there are 800 row numbers, 0 to 9 only; each is printed at the centre of the hole it names |
| Layout.BuildSpec | src/puncher/puncher.py:356-371 | the groups can be built exactly when the content fits the 80 columns and the manufacturer line is set; too long a content raises `ValueError`, and an unset manufacturer raises `AttributeError` |
| Layout.AssembleErrors | src/puncher/puncher.py:356-371 | the drawing stops at the first step that raises (punches, then labels, then manufacturer line), with that step's exception |
| Layout.BuildParts | src/puncher/puncher.py:356-371 | a built card holds the content punches, the content labels and the manufacturer text |
| Layout.AssembleParts | src/puncher/puncher.py:356-371 | every group of an assembled card is what its drawing step draws |
| Layout.RenderLayers | src/puncher/puncher.py:402-491 | in every mode the document is the card plus its 0.5 inch margins, with a matching view box; the style is first, and the cut lines (outline, then holes, translated by (0.5, 0.5)) are last; there are 3 layers when flattened and 4 otherwise; without flattening the second layer is `card_printed` holding the row numbers, the column numbers, the content labels and the manufacturer line in that order, and the third is `punchcard_structure`, both translated by (0.5, 0.5) |
| Layout.FlattenRastersVectorLayers | src/puncher/puncher.py:440-471 | flattening replaces the printed and structure layers by one card-sized image, rendered at 5 times scale on white from those same two groups without their translation; the style and the cut lines are unchanged |
| Layout.StructureSelection | src/puncher/puncher.py:428-432 | the structure layer holds the cell grid exactly when `print_cellboundaries` is set and the hole guides exactly when `print_punchboundaries` is set, cells first |
| Card.ManufacturerOf | src/puncher/puncher.py:381-382 | the manufacturer attribute is set exactly when the string is non-empty, and then to that string |
| Card.CreateSpec | src/puncher/puncher.py:373-400 | a card can be created exactly when its content fits and the manufacturer string is not empty; the exception otherwise is `ValueError` for too long a content, else `AttributeError` |
| Card.PunchcardSvg.Init | src/puncher/puncher.py:379-399 | the constructor stores the content, the flags and the manufacturer (only when non-empty), and draws no group yet |
| Card.PunchcardSvg.DefineCardStyle | src/puncher/puncher.py:229-243 | stores the style |
| Card.PunchcardSvg.DrawCardBoundary | src/puncher/puncher.py:245-259 | stores the notched outline of the card |
| Card.PunchcardSvg.DrawCardpunchColumnPunches | src/puncher/puncher.py:323-331 | the loop over the character's rows yields exactly `ColumnPunches`, including the first exception |
| Card.PunchcardSvg.DrawCardpunchContentPunches | src/puncher/puncher.py:333-338 | the loop over the content succeeds exactly when `ContentPunches` does; on success it stores that group, and on failure it raises the same exception and leaves the field alone |
| Card.PunchcardSvg.DrawPunchcardCharacterGrid | src/puncher/puncher.py:184-198 | the nested loops over 25 lines and 80 columns build exactly `PunchcardCharacterGrid` |
| Card.PunchcardSvg.DrawCharacterGrid | src/puncher/puncher.py:199-201 | stores the grid of cell boxes |
| Card.PunchcardSvg.DrawPunchholeBoundaries | src/puncher/puncher.py:261-269 | the nested loops over the row and column numberings store exactly `PunchholeBoundaries` |
| Card.PunchcardSvg.DrawHoleBoundary | src/puncher/puncher.py:267 | a guide drawn from labels taken from the numberings never raises, and is the hole at that position |
| Card.PunchcardSvg.DrawRowNumberLabels | src/puncher/puncher.py:292-298 | the nested loops store exactly `RowNumberLabels` |
| Card.PunchcardSvg.DrawRowLabel | src/puncher/puncher.py:285-290 | a row label drawn inside the loops never raises, and is `RowLabelText` |
| Card.PunchcardSvg.DrawColumnNumberLabels | src/puncher/puncher.py:277-283 | the nested loops store exactly `ColumnNumberLabels` |
| Card.PunchcardSvg.DrawCardpunchContentLabels | src/puncher/puncher.py:340-345 | the loop succeeds exactly when `ContentLabels` does; on success it stores that group, and on failure it raises the same exception and leaves the field alone |
| Card.PunchcardSvg.DrawManufacturerLabeltext | src/puncher/puncher.py:347-354 | raises `AttributeError` exactly when the manufacturer is unset, and otherwise stores the manufacturer line |
| Card.PunchcardSvg.MakeSvgContent | src/puncher/puncher.py:356-371 | runs the nine steps in order and stops at the first exception, which is the one reported; when nothing raises, every field holds its step's group |
| Card.PunchcardSvg.MakeSvg | src/puncher/puncher.py:402-491 | the conditional appends build exactly `Render` of the card's groups for the three switches that matter |
| Card.Create | src/puncher/puncher.py:373-400 | `PunchcardSVG(...)` returns a fresh card exactly when `Build` succeeds, holding the given content, the manufacturer only when non-empty, the margins flag, and exactly the built groups; otherwise it raises `Build`'s exception |
| PuncherMain.SwitchEntry | src/puncher/__main__.py:50 | an entry is `+` or `-`, according to the flag, followed by the switch name |
| PuncherMain.Switches | src/puncher/__main__.py:46-51 | the loop yields the four entries joined by commas, which split back into exactly those four entries, in the fixed order; there is no comma at either end |
| PuncherMain.SwitchesSplit | src/puncher/__main__.py:46-51 | the summary is 53 characters long, starts with the sign of `flatten` and splits into the four entries |
| PuncherMain.TestPatternText | src/puncher/__main__.py:120 | the test pattern, written here in the groups of the code table, is the string `main` uses |
| PuncherMain.TestPatternFits | src/puncher/__main__.py:120 | the test pattern has 63 characters, so it fits on the card |
| PuncherMain.TestPatternPunched | src/puncher/__main__.py:120 | every character of the test pattern is a key of the table and is punched in at least one row |
| PuncherMain.HoleCountAtLeast | src/puncher/puncher.py:333-338 | content whose characters each have a hole punches at least one hole per character |
| PuncherMain.TestPatternHoles | src/puncher/__main__.py:120 | the test pattern can be punched, and gives at least 63 holes |
| PuncherMain.Run | src/puncher/__main__.py:119-132 | the content is the test pattern or the given string, and it is announced with the switch summary; drawing succeeds exactly when the content fits, always for the test pattern, and otherwise raises `ValueError`; the document is `Render` of the built card, with flatten, cellboundaries and punchboundaries passed to the same-named options |

## Left out

- Rasterisation: `cairosvg.svg2png`, the base64 encoding and the data URI (puncher.py lines 455-465). These are an external library. The image carries a symbolic `PngOf(document, 5, "white")` instead of pixels.
- Presentation attributes: the CSS text of the style, and the stroke, fill, dash, stroke width, corner radius and text anchoring attributes. These are strings with no logic. The style is one `Style` element.
- The polygon point strings. The outline keeps its five points as numbers.
- The `fill` and `stroke` arguments of `_draw_cardpunch_hole_by_holecoord`. Only its class is kept, so the blue fill of `_draw_cardpunch_printblock` is not distinguished. `PrintBlock` is modelled, but it is never called by the card, and the model only defines it.
- Floating-point rounding. The constants are exact reals.
- `print_punchboxes` and `enable_punchhole_printed_cutlines` are taken and ignored, as in the code. `enable_document_margins` is stored and never read, as in the code.
- `writesvg` and `writepng`, which are file I/O.
- `as_str` serialisation of the element tree.
- From `__main__.py`:
  - The `argparse` set-up, including the mutual exclusion of `--cstring` and `--testpattern` and the `+x`/`-x` default resolution. `Args` holds the parsed values.
  - The colorama console output of `_console_message`. `Run` returns the message text instead of printing it.
  - The `PUNCHER_DEBUG` logging set-up, and every logger call.
  - `test_cairosvg`, the `--form` choice and the output paths.
- `src/puncher/__init__.py` is not part of this model. It only checks a dependency at import time.
- `EbcdPunchRules` is one dictionary literal in the code. The model writes it as the union of eight disjoint parts grouped by zone, so that each part can be proved well formed on its own.
- Layout.ColumnHoleRects: its own contract states only that there is one outline per row; the outline of each row is fixed by its recursive definition and stated by `Layout.ColumnHolesOfLabels` and `Layout.ColumnHolesExamples`.
