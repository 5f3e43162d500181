/** What each drawing step of `PunchcardSVG` (src/puncher/puncher.py) produces, as pure
    functions of the card content: one SVG element per `_draw_*` helper, the element
    lists of the grids, the groups that `_makesvg_content` stores, and the document
    `makesvg` assembles from them. The methods of `Card.PunchcardSvg` are proved against
    these functions; the lemmas here state what the drawing means. */
module Layout {
  import opened Builtins
  import opened Escaping
  import opened CodeTable
  import opened Geometry
  import opened Svg

  // ---------------------------------------------------------------------------
  // Single elements

  /** The id of a character-cell box: `cell_box_<column>_<line>`. */
  function CellBoxId(column: nat, row: nat): string
  {
    "cell_box_" + DecimalString(column) + "_" + DecimalString(row)
  }

  /** `_draw_character_cell_box`: the cell whose bottom-left corner is (x, y), drawn as a
      rectangle one cell in size whose top edge is one line above y. */
  function CellBox(textColumn: nat, textRow: nat, x: real, y: real): Element
  {
    var size := CellSize();
    Rect(x, y - size.1, size.0, size.1, None, Some(CellBoxId(textColumn, textRow)))
  }

  /** The Python name of `CellBox`, which becomes part of the grid's group id. */
  const CellBoxName: string := "_draw_character_cell_box"

  /** `_draw_cardpunch_hole_by_holecoord`: a hole-sized rectangle centred in the cell of the
      hole named by a column label and a row label; `ValueError` for a label outside its
      numbering. */
  function HoleByHoleCoord(holeCoordX: string, holeCoordY: string, cls: Option<string>): Result<Element>
  {
    HoleIn(ColumnLabels, RowLabels, holeCoordX, holeCoordY, cls)
  }

  /** The same drawing over any column numbering and row numbering. */
  function HoleIn(columns: seq<string>, rows: seq<string>, holeCoordX: string, holeCoordY: string, cls: Option<string>): Result<Element>
  {
    match PunchCellIn(columns, rows, holeCoordX, holeCoordY)
    case Err(e) => Err(e)
    case Ok(cell) => Ok(HoleAtCell(cell.0, cell.1, cls))
  }

  /** The hole-sized rectangle centred in a grid cell. */
  function HoleAtCell(column: nat, line: nat, cls: Option<string>): Element
  {
    var center := CellCenter(column, line);
    Rect(center.0 - PunchHoleWidth / 2.0, center.1 - PunchHoleHeight / 2.0, PunchHoleWidth, PunchHoleHeight, cls, None)
  }

  lemma HoleInAt(columns: seq<string>, rows: seq<string>, holeCoordX: string, holeCoordY: string, cls: Option<string>, column: nat, line: nat)
    requires PunchCellIn(columns, rows, holeCoordX, holeCoordY) == Ok((column, line))
    ensures HoleIn(columns, rows, holeCoordX, holeCoordY, cls) == Ok(HoleAtCell(column, line, cls))
  {
  }

  /** Reference definition of a hole in geometric terms: the hole rectangle of grid column
      `column` in punch row `rowIndex` (0 for row 12, ..., 11 for row 9). */
  function PunchHole(column: nat, rowIndex: nat, cls: Option<string>): Element
  {
    var h := HoleRect(column, 2 * rowIndex + 1);
    Rect(h.0, h.1, h.2, h.3, cls, None)
  }

  /** The card outline with its notched top-left corner, clockwise from the left
      edge one line below the corner. */
  const CardBoundaryPoints: seq<(real, real)> :=
    [(0.0, InchesPerLine), (InchesPerColumn, 0.0), (CardWidth, 0.0), (CardWidth, CardLength), (0.0, CardLength)]

  /** `_draw_card_boundary`. */
  function CardBoundary(): Element
  {
    Group("cardpunch_boundary", None, [Polygon(CardBoundaryPoints, Some("cardpunch_boundary"))])
  }

  /** `_draw_punchcard_column_label`: the column number `col + 1`, centred in its cell on
      line `row`. */
  function ColumnNumberLabel(row: nat, col: nat): Element
  {
    var loc := CellLocation(col, row);
    Text(loc.0 + InchesPerColumn / 2.0, loc.1 - InchesPerLine / 2.0, DecimalString(col + 1), Some("collabel"))
  }

  /** `_draw_punchcard_row_label`: the row label `row`, centred in the cell of that row's
      hole in column `col`. */
  function RowNumberLabel(row: string, col: nat): Result<Element>
  {
    RowNumberLabelIn(ColumnLabels, RowLabels, row, col)
  }

  /** The same drawing over any column numbering and row numbering. */
  function RowNumberLabelIn(columns: seq<string>, rows: seq<string>, row: string, col: nat): Result<Element>
  {
    match PunchCellIn(columns, rows, DecimalString(col + 1), row)
    case Err(e) => Err(e)
    case Ok(cell) =>
      var loc := CellLocation(cell.0, cell.1);
      Ok(Text(loc.0 + InchesPerColumn / 2.0, loc.1 - InchesPerLine / 2.0, row, Some("numlabel")))
  }

  /** `_draw_cardpunch_printedlabel`: the escaped character printed in its column on the
      top line; `ValueError` for a column name outside the numbering. */
  function PrintedLabel(character: string, columnName: string): Result<seq<Element>>
  {
    match IndexOf(ColumnLabels, columnName)
    case Err(e) => Err(e)
    case Ok(col) =>
      var loc := CellLocation(col, 0);
      Ok([Text(loc.0 + InchesPerColumn / 2.0, loc.1 - InchesPerLine / 2.0, Escape(character), Some("cardchar"))])
  }

  /** `_draw_cardpunch_column_labels`: appends the list from `PrintedLabel` as one item,
      giving a list that holds a list. */
  function ColumnContentLabels(character: string, columnName: string): Result<seq<Element>>
  {
    match PrintedLabel(character, columnName)
    case Err(e) => Err(e)
    case Ok(l) => Ok([Items(l)])
  }

  /** `_draw_cardpunch_printblock` (never called by the card): a filled box at a hole. */
  function PrintBlock(rowName: string, columnName: string): Result<seq<Element>>
  {
    match HoleByHoleCoord(columnName, rowName, None)
    case Err(e) => Err(e)
    case Ok(h) => Ok([h])
  }

  /** `_draw_cardpunch_cutboundary`: the outline of a hole to cut. */
  function CutBoundary(rowName: string, columnName: string): Result<seq<Element>>
  {
    match HoleByHoleCoord(columnName, rowName, Some("cardpunch_boundary"))
    case Err(e) => Err(e)
    case Ok(h) => Ok([h])
  }

  /** `_draw_manufacturer_labeltext`: the manufacturer line near the bottom edge. Reading the
      manufacturer attribute when the constructor never set it raises `AttributeError`. */
  function ManufacturerLabel(manufacturer: Option<string>): Result<Element>
  {
    match manufacturer
    case None => Err(AttributeError)
    case Some(s) =>
      Ok(Group("card_manufacturer_label", None,
               [Text(LeftMargin, CardLength - 0.03, s, Some("card_manufacturer_label"))]))
  }

  // ---------------------------------------------------------------------------
  // Holes

  /** The hole of column `k` (1..80) in the `r`-th row is the geometric hole of grid
      column `k - 1`, punch row `r`. */
  lemma HoleByLabels(k: nat, r: nat, cls: Option<string>)
    requires 1 <= k <= GridColumns && r < |RowLabels|
    ensures HoleByHoleCoord(DecimalString(k), RowLabels[r], cls) == Ok(PunchHole(k - 1, r, cls))
  {
    ColumnLabelIndex(k);
    RowLabelsDistinct();
    IndexOfDistinct(RowLabels, r);
    HoleInLabels(ColumnLabels, RowLabels, DecimalString(k), r, cls, k - 1);
  }

  lemma HoleInLabels(columns: seq<string>, rows: seq<string>, holeCoordX: string, r: nat, cls: Option<string>, col: nat)
    requires r < |rows| && IndexOf(columns, holeCoordX) == Ok(col) && IndexOf(rows, rows[r]) == Ok(r)
    ensures HoleIn(columns, rows, holeCoordX, rows[r], cls) == Ok(PunchHole(col, r, cls))
  {
    PunchCellInOk(columns, rows, holeCoordX, rows[r], col, r);
    HoleInAt(columns, rows, holeCoordX, rows[r], cls, col, 2 * r + 1);
  }

  /** A hole is drawn exactly for a column label and a row label; anything else raises
      `ValueError`. */
  lemma HoleByHoleCoordSpec(holeCoordX: string, holeCoordY: string, cls: Option<string>)
    ensures HoleByHoleCoord(holeCoordX, holeCoordY, cls).Ok? <==> holeCoordX in ColumnLabels && holeCoordY in RowLabels
    ensures HoleByHoleCoord(holeCoordX, holeCoordY, cls).Err? ==> HoleByHoleCoord(holeCoordX, holeCoordY, cls).error == ValueError
  {
    PunchCellInSpec(ColumnLabels, RowLabels, holeCoordX, holeCoordY);
  }

  /** `_draw_cardpunch_column_punches` after the table lookup: the cut outline of every
      listed row, in the listed order; the first row that cannot be located raises. */
  function ColumnHoles(rows: seq<string>, columnName: string): Result<seq<Element>>
  {
    if rows == [] then Ok([])
    else
      match CutBoundary(rows[0], columnName)
      case Err(e) => Err(e)
      case Ok(h) =>
        match ColumnHoles(rows[1..], columnName)
        case Err(e) => Err(e)
        case Ok(t) => Ok(h + t)
  }

  /** `_draw_cardpunch_column_punches`: the holes for one character; a character outside
      the table punches nothing. */
  function ColumnPunches(character: char, columnName: string): Result<seq<Element>>
  {
    ColumnHoles(PunchRows(character), columnName)
  }

  const CutClass: Option<string> := Some("cardpunch_boundary")

  /** Reference definition: the cut outlines of the given rows in grid column `col`, one
      per row and in the same order. */
  function ColumnHoleRects(col: nat, rows: seq<string>): (holes: seq<Element>)
    requires forall j :: 0 <= j < |rows| ==> rows[j] in RowLabels
    ensures |holes| == |rows|
  {
    if rows == [] then []
    else [PunchHole(col, RowIndex(rows[0]), CutClass)] + ColumnHoleRects(col, rows[1..])
  }

  /** The holes for column `k` (1..80) are the geometric holes of grid column `k - 1` in the
      listed rows, in the listed order. */
  lemma {:induction false} ColumnHolesOfLabels(k: nat, rows: seq<string>)
    requires 1 <= k <= GridColumns
    requires forall j :: 0 <= j < |rows| ==> rows[j] in RowLabels
    ensures ColumnHoles(rows, DecimalString(k)) == Ok(ColumnHoleRects(k - 1, rows))
  {
    if rows != [] {
      var r := RowIndex(rows[0]);
      CutBoundaryOfLabels(k, r);
      ColumnHolesOfLabels(k, rows[1..]);
    }
  }

  lemma CutBoundaryOfLabels(k: nat, r: nat)
    requires 1 <= k <= GridColumns && r < |RowLabels|
    ensures CutBoundary(RowLabels[r], DecimalString(k)) == Ok([PunchHole(k - 1, r, CutClass)])
  {
    HoleByLabels(k, r, CutClass);
  }

  /** A column name outside the numbering raises `ValueError` as soon as there is a row
      to punch, and is never looked up when there is none. */
  lemma ColumnHolesOutside(rows: seq<string>, columnName: string)
    requires columnName !in ColumnLabels
    ensures ColumnHoles(rows, columnName) == if rows == [] then Ok([]) else Err(ValueError)
  {
    if rows != [] {
      HoleByHoleCoordSpec(columnName, rows[0], CutClass);
    }
  }

  /** No column name beyond the 80th is in the numbering. */
  lemma ColumnNameOutside(n: nat)
    requires n > GridColumns
    ensures DecimalString(n) !in ColumnLabels
  {
    ColumnLabelMembership(DecimalString(n));
    if DecimalString(n) in ColumnLabels {
      var k :| 1 <= k <= GridColumns && DecimalString(n) == DecimalString(k);
      DecimalStringInjective(n, k);
    }
  }

  // ---------------------------------------------------------------------------
  // The loop over the content

  /** The loop shared by `_draw_cardpunch_content_punches` and
      `_draw_cardpunch_content_labels` after its first `n` iterations: iteration `i`
      extends the list with what `step` draws for character `i` in column `str(i + 1)`;
      the first iteration that raises ends the loop with its exception. */
  function ColumnLoop(step: (char, string) -> Result<seq<Element>>, content: string, n: nat): Result<seq<Element>>
    requires n <= |content|
  {
    if n == 0 then Ok([])
    else
      match ColumnLoop(step, content, n - 1)
      case Err(e) => Err(e)
      case Ok(h) =>
        match step(content[n - 1], DecimalString(n))
        case Err(e) => Err(e)
        case Ok(t) => Ok(h + t)
  }

  /** Once an iteration raises, the loop ends with that exception. */
  lemma {:induction false} ColumnLoopStops(step: (char, string) -> Result<seq<Element>>, content: string, i: nat, n: nat)
    requires i <= n <= |content| && ColumnLoop(step, content, i).Err?
    ensures ColumnLoop(step, content, n) == ColumnLoop(step, content, i)
    decreases n
  {
    if n > i {
      ColumnLoopStops(step, content, i, n - 1);
    }
  }

  /** One more iteration: it extends the list, or it raises and the loop ends with its
      exception. */
  lemma ColumnLoopStep(step: (char, string) -> Result<seq<Element>>, content: string, i: nat,
                       drawn: seq<Element>, r: Result<seq<Element>>)
    requires i < |content| && ColumnLoop(step, content, i) == Ok(drawn)
    requires r == step(content[i], DecimalString(i + 1))
    ensures r.Ok? ==> ColumnLoop(step, content, i + 1) == Ok(drawn + r.value)
    ensures r.Err? ==> ColumnLoop(step, content, |content|) == Err(r.error)
  {
    if r.Err? {
      ColumnLoopStops(step, content, i + 1, |content|);
    }
  }

  /** Reference definition: the concatenation of `draw(content[i], i)` for `i < n`. */
  function ConcatColumns(draw: (char, nat) -> seq<Element>, content: string, n: nat): seq<Element>
    requires n <= |content|
  {
    if n == 0 then [] else ConcatColumns(draw, content, n - 1) + draw(content[n - 1], n - 1)
  }

  /** When every iteration up to `n` succeeds, the loop draws their concatenation. */
  lemma {:induction false} ColumnLoopSucceeds(step: (char, string) -> Result<seq<Element>>,
                                              draw: (char, nat) -> seq<Element>, content: string, n: nat)
    requires n <= |content|
    requires forall k :: 1 <= k <= n ==> step(content[k - 1], DecimalString(k)) == Ok(draw(content[k - 1], k - 1))
    ensures ColumnLoop(step, content, n) == Ok(ConcatColumns(draw, content, n))
  {
    if n > 0 {
      ColumnLoopSucceeds(step, draw, content, n - 1);
    }
  }

  /** When every iteration after `m` either draws nothing (on a `blank` character) or
      raises `ValueError`, the loop keeps what it had after `m` iterations exactly when all
      those characters are blank, and otherwise raises `ValueError`. */
  lemma {:induction false} ColumnLoopBlankTail(step: (char, string) -> Result<seq<Element>>,
                                               blank: char -> bool, content: string, m: nat, n: nat)
    requires m <= n <= |content|
    requires forall k :: m < k <= n ==>
      step(content[k - 1], DecimalString(k)) == if blank(content[k - 1]) then Ok([]) else Err(ValueError)
    ensures ColumnLoop(step, content, n) ==
      if ColumnLoop(step, content, m).Err? || forall i :: m <= i < n ==> blank(content[i]) then ColumnLoop(step, content, m)
      else Err(ValueError)
  {
    if n > m {
      ColumnLoopBlankTail(step, blank, content, m, n - 1);
      var prev := ColumnLoop(step, content, n - 1);
      var last := step(content[n - 1], DecimalString(n));
      assert last == if blank(content[n - 1]) then Ok([]) else Err(ValueError);
      assert (forall i :: m <= i < n ==> blank(content[i])) <==>
             (forall i :: m <= i < n - 1 ==> blank(content[i])) && blank(content[n - 1]);
      if prev.Ok? && last.Ok? {
        assert prev.value + [] == prev.value;
      }
    }
  }

  /** A loop whose first `m` iterations draw `draw` and whose later iterations behave as
      in `ColumnLoopBlankTail` succeeds, with the first `m` drawings, exactly when every
      later character is blank. */
  lemma ColumnLoopSplit(step: (char, string) -> Result<seq<Element>>, blank: char -> bool,
                        draw: (char, nat) -> seq<Element>, content: string, m: nat)
    requires m <= |content|
    requires forall k :: 1 <= k <= m ==> step(content[k - 1], DecimalString(k)) == Ok(draw(content[k - 1], k - 1))
    requires forall k :: m < k <= |content| ==>
      step(content[k - 1], DecimalString(k)) == if blank(content[k - 1]) then Ok([]) else Err(ValueError)
    ensures ColumnLoop(step, content, |content|) ==
      if forall i :: m <= i < |content| ==> blank(content[i]) then Ok(ConcatColumns(draw, content, m))
      else Err(ValueError)
  {
    ColumnLoopSucceeds(step, draw, content, m);
    ColumnLoopBlankTail(step, blank, content, m, |content|);
  }

  // ---------------------------------------------------------------------------
  // Content punches

  /** `_draw_cardpunch_content_punches`: the holes of every content character in its
      column, in content order. */
  function ContentPunches(content: string): Result<seq<Element>>
  {
    ColumnLoop(ColumnPunches, content, |content|)
  }

  /** A character without holes. */
  predicate Unpunched(c: char)
  {
    PunchRows(c) == []
  }

  /** Reference definition of the holes of one column: the cut outline of every punched
      row of its character, in grid column `col`, top to bottom. */
  function ColumnHolesRef(c: char, col: nat): seq<Element>
  {
    PunchRowsWellFormed(c);
    ColumnHoleRects(col, PunchRows(c))
  }

  /** The number of holes the first `n` characters punch: the sum of their rule lengths. */
  function HoleCount(content: string, n: nat): nat
    requires n <= |content|
  {
    if n == 0 then 0 else HoleCount(content, n - 1) + |PunchRows(content[n - 1])|
  }

  /** Column by column, the holes drawn are one per listed row of each character. */
  lemma {:induction false} ContentHoleCount(content: string, n: nat)
    requires n <= |content|
    ensures |ConcatColumns(ColumnHolesRef, content, n)| == HoleCount(content, n)
  {
    if n > 0 {
      ContentHoleCount(content, n - 1);
      PunchRowsWellFormed(content[n - 1]);
    }
  }

  /** `_punched_holes_g` holds one rectangle per listed row of each character on the card. */
  lemma ContentPunchesCount(content: string)
    requires ContentPunches(content).Ok?
    ensures |ContentPunches(content).value| == HoleCount(content, Min(|content|, GridColumns))
  {
    ContentPunchesSpec(content);
    ContentHoleCount(content, Min(|content|, GridColumns));
  }

  /** Single columns: `A` is cut in rows 12 and 1 (grid rows 0 and 3), `0` in row 0 alone
      (grid row 2), and the blank not at all. */
  lemma ColumnHolesExamples(col: nat)
    ensures ColumnHolesRef('A', col) == [PunchHole(col, 0, CutClass), PunchHole(col, 3, CutClass)]
    ensures ColumnHolesRef('0', col) == [PunchHole(col, 2, CutClass)]
    ensures ColumnHolesRef(' ', col) == []
  {
    PunchRowsExamples();
    RowIndexExamples();
    ColumnHoleRectsPair(col, "12", "1");
    ColumnHoleRectsSingle(col, "0");
  }

  /** A character the table does not list, such as the lower-case `a`, is cut nowhere. */
  lemma ColumnHolesUnlisted(c: char, col: nat)
    requires c !in EbcdPunchRules
    ensures ColumnHolesRef(c, col) == []
    ensures c == 'a' || ColumnHolesRef('a', col) == []
  {
    PunchRowsWellFormed(c);
    PunchRowsUnlisted();
  }

  lemma ColumnHoleRectsPair(col: nat, a: string, b: string)
    requires a in RowLabels && b in RowLabels
    ensures ColumnHoleRects(col, [a, b]) == [PunchHole(col, RowIndex(a), CutClass), PunchHole(col, RowIndex(b), CutClass)]
  {
    var rows := [a, b];
    ColumnHoleRectsSingle(col, b);
    assert rows[1..] == [b];
  }

  lemma ColumnHoleRectsSingle(col: nat, a: string)
    requires a in RowLabels
    ensures ColumnHoleRects(col, [a]) == [PunchHole(col, RowIndex(a), CutClass)]
  {
  }

  /** The content is punched column by column from the table: punching fails, with
      `ValueError`, exactly when a character beyond column 80 has holes; the holes drawn
      are those of the first 80 characters, column by column. */
  lemma ContentPunchesSpec(content: string)
    ensures ContentPunches(content).Ok? <==> forall i :: GridColumns <= i < |content| ==> Unpunched(content[i])
    ensures ContentPunches(content).Err? ==> ContentPunches(content).error == ValueError
    ensures ContentPunches(content).Ok? ==>
      ContentPunches(content).value == ConcatColumns(ColumnHolesRef, content, Min(|content|, GridColumns))
  {
    ContentPunchesFrom(content, Min(|content|, GridColumns));
  }

  /** The same, split at a variable column count `m` (the literal 80 would let the
      solver unroll the loop). */
  lemma ContentPunchesFrom(content: string, m: nat)
    requires m <= |content| && m <= GridColumns && (m == GridColumns || m == |content|)
    ensures ContentPunches(content) ==
      if forall i :: m <= i < |content| ==> Unpunched(content[i]) then Ok(ConcatColumns(ColumnHolesRef, content, m))
      else Err(ValueError)
  {
    ColumnPunchesWithinCard(content, m);
    ColumnPunchesBeyondCard(content, m);
    ColumnLoopSplit(ColumnPunches, Unpunched, ColumnHolesRef, content, m);
  }

  /** Content that fits the card is punched column by column. */
  lemma ContentPunchesWithinCard(content: string, n: nat)
    requires n == |content| && n <= GridColumns
    ensures ContentPunches(content) == Ok(ConcatColumns(ColumnHolesRef, content, n))
  {
    ContentPunchesFrom(content, n);
  }

  /** Each of the first 80 columns draws its reference holes. */
  lemma ColumnPunchesWithinCard(content: string, m: nat)
    requires m <= |content| && m <= GridColumns
    ensures forall k :: 1 <= k <= m ==>
      ColumnPunches(content[k - 1], DecimalString(k)) == Ok(ColumnHolesRef(content[k - 1], k - 1))
  {
    forall k | 1 <= k <= m
      ensures ColumnPunches(content[k - 1], DecimalString(k)) == Ok(ColumnHolesRef(content[k - 1], k - 1))
    {
      ColumnPunchesOfLabel(content[k - 1], k);
    }
  }

  lemma ColumnPunchesOfLabel(c: char, k: nat)
    requires 1 <= k <= GridColumns
    ensures ColumnPunches(c, DecimalString(k)) == Ok(ColumnHolesRef(c, k - 1))
  {
    PunchRowsWellFormed(c);
    ColumnHolesOfLabels(k, PunchRows(c));
  }

  /** Each column after the 80th draws nothing or raises. */
  lemma ColumnPunchesBeyondCard(content: string, m: nat)
    requires m <= |content| && (m == GridColumns || m == |content|)
    ensures forall k :: m < k <= |content| ==>
      ColumnPunches(content[k - 1], DecimalString(k)) == if Unpunched(content[k - 1]) then Ok([]) else Err(ValueError)
  {
    forall k | m < k <= |content|
      ensures ColumnPunches(content[k - 1], DecimalString(k)) == if Unpunched(content[k - 1]) then Ok([]) else Err(ValueError)
    {
      ColumnNameOutside(k);
      ColumnHolesOutside(PunchRows(content[k - 1]), DecimalString(k));
    }
  }

  // ---------------------------------------------------------------------------
  // Content labels

  /** One iteration of `_draw_cardpunch_content_labels`: the printed label of one character. */
  function CharacterLabels(c: char, columnName: string): Result<seq<Element>>
  {
    ColumnContentLabels([c], columnName)
  }

  /** `_draw_cardpunch_content_labels`: the printed label of every content character in
      its column, in content order. */
  function ContentLabels(content: string): Result<seq<Element>>
  {
    ColumnLoop(CharacterLabels, content, |content|)
  }

  /** Reference definition of one column's printed label: the escaped character centred
      in the top-line cell of grid column `col`, wrapped as one list item. */
  function ContentLabelRef(c: char, col: nat): seq<Element>
  {
    var center := CellCenter(col, 0);
    [Items([Text(center.0, center.1, Escape([c]), Some("cardchar"))])]
  }

  lemma CharacterLabelsOfLabel(c: char, k: nat)
    requires 1 <= k <= GridColumns
    ensures CharacterLabels(c, DecimalString(k)) == Ok(ContentLabelRef(c, k - 1))
  {
    PrintedLabelOfLabel(c, k);
  }

  lemma PrintedLabelOfLabel(c: char, k: nat)
    requires 1 <= k <= GridColumns
    ensures PrintedLabel([c], DecimalString(k)) == Ok(ContentLabelRef(c, k - 1)[0].elements)
  {
    ColumnLabelIndex(k);
    PrintedLabelAt(c, k - 1, DecimalString(k));
  }

  lemma PrintedLabelAt(c: char, col: nat, columnName: string)
    requires IndexOf(ColumnLabels, columnName) == Ok(col)
    ensures PrintedLabel([c], columnName) == Ok(ContentLabelRef(c, col)[0].elements)
  {
  }

  /** Columns after the 80th have no label to print at: the lookup raises `ValueError`. */
  lemma CharacterLabelsBeyondCard(content: string, m: nat)
    requires m <= |content| && (m == GridColumns || m == |content|)
    ensures forall k :: m < k <= |content| ==>
      CharacterLabels(content[k - 1], DecimalString(k)) == Err(ValueError)
  {
    forall k | m < k <= |content|
      ensures CharacterLabels(content[k - 1], DecimalString(k)) == Err(ValueError)
    {
      ColumnNameOutside(k);
      IndexOfSpec(ColumnLabels, DecimalString(k));
    }
  }

  /** Printing the labels fails, with `ValueError`, exactly when the content is longer than
      the card; otherwise every character is printed, escaped, at the top of its column. */
  lemma ContentLabelsSpec(content: string)
    ensures ContentLabels(content).Ok? <==> |content| <= GridColumns
    ensures ContentLabels(content).Err? ==> ContentLabels(content).error == ValueError
    ensures ContentLabels(content).Ok? ==> ContentLabels(content).value == ConcatColumns(ContentLabelRef, content, |content|)
  {
    ContentLabelsFrom(content, Min(|content|, GridColumns));
  }

  lemma ContentLabelsFrom(content: string, m: nat)
    requires m <= |content| && m <= GridColumns && (m == GridColumns || m == |content|)
    ensures ContentLabels(content) ==
      if m == |content| then Ok(ConcatColumns(ContentLabelRef, content, m)) else Err(ValueError)
  {
    CharacterLabelsWithinCard(content, m);
    CharacterLabelsBeyondCard(content, m);
    ColumnLoopSplit(CharacterLabels, c => false, ContentLabelRef, content, m);
    if m < |content| {
      assert !(forall i :: m <= i < |content| ==> (c => false)(content[i])) by {
        assert (c => false)(content[m]) == false;
      }
    }
  }

  lemma CharacterLabelsWithinCard(content: string, m: nat)
    requires m <= |content| && m <= GridColumns
    ensures forall k :: 1 <= k <= m ==>
      CharacterLabels(content[k - 1], DecimalString(k)) == Ok(ContentLabelRef(content[k - 1], k - 1))
  {
    forall k | 1 <= k <= m
      ensures CharacterLabels(content[k - 1], DecimalString(k)) == Ok(ContentLabelRef(content[k - 1], k - 1))
    {
      CharacterLabelsOfLabel(content[k - 1], k);
    }
  }

  /** Content that fits the card is printed column by column. */
  lemma ContentLabelsWithinCard(content: string, n: nat)
    requires n == |content| && n <= GridColumns
    ensures ContentLabels(content) == Ok(ConcatColumns(ContentLabelRef, content, n))
  {
    ContentLabelsFrom(content, n);
  }

  // ---------------------------------------------------------------------------
  // Grids

  /** The elements of a grid drawn line by line: `line(keys[0]) + ... + line(keys[n - 1])`. */
  function Lines<K>(keys: seq<K>, line: K -> seq<Element>): seq<Element>
  {
    if keys == [] then [] else Lines(keys[..|keys| - 1], line) + line(keys[|keys| - 1])
  }

  /** The line numbers `0, ..., n - 1` of `range(n)`. */
  function Range(n: nat): (r: seq<nat>)
    ensures |r| == n && forall i :: 0 <= i < n ==> r[i] == i
  {
    seq(n, i requires 0 <= i < n => i)
  }

  /** The next line of a grid extends it by that line's elements. */
  lemma LinesSnoc<K>(keys: seq<K>, line: K -> seq<Element>, i: nat)
    requires i < |keys|
    ensures Lines(keys[..i + 1], line) == Lines(keys[..i], line) + line(keys[i])
  {
    assert keys[..i + 1][..i] == keys[..i];
  }

  /** When every line has `width` elements, the grid has `|keys| * width` of them and
      element `i * width + c` is element `c` of line `i`. */
  lemma {:induction false} LinesAt<K>(keys: seq<K>, line: K -> seq<Element>, width: nat, i: nat, c: nat)
    requires forall j :: 0 <= j < |keys| ==> |line(keys[j])| == width
    requires i < |keys| && c < width
    ensures |Lines(keys, line)| == |keys| * width
    ensures i * width + c < |keys| * width
    ensures Lines(keys, line)[i * width + c] == line(keys[i])[c]
  {
    var n := |keys|;
    var prefix := keys[..n - 1];
    LinesLength(keys, line, width);
    LinesLength(prefix, line, width);
    MulSucc(n - 1, width);
    assert Lines(keys, line) == Lines(prefix, line) + line(keys[n - 1]);
    if i < n - 1 {
      LinesAt(prefix, line, width, i, c);
    }
  }

  lemma {:induction false} LinesLength<K>(keys: seq<K>, line: K -> seq<Element>, width: nat)
    requires forall j :: 0 <= j < |keys| ==> |line(keys[j])| == width
    ensures |Lines(keys, line)| == |keys| * width
  {
    if keys != [] {
      LinesLength(keys[..|keys| - 1], line, width);
      MulSucc(|keys| - 1, width);
    }
  }

  lemma MulSucc(a: nat, w: nat)
    ensures (a + 1) * w == a * w + w
  {
  }

  /** One line of the character grid: `drawfunc` at every column of line `row`, given the
      bottom-left corner of the cell. */
  function CellLine(drawfunc: (nat, nat, real, real) -> Element, row: nat): (l: seq<Element>)
    ensures |l| == GridColumns
  {
    seq(GridColumns, col requires 0 <= col < GridColumns =>
      drawfunc(col, row, CellLocation(col, row).0, CellLocation(col, row).1))
  }

  /** `_draw_punchcard_character_grid`: `drawfunc` at every cell of the 25 lines by 80
      columns, line by line, in a group named after the drawing function. */
  function PunchcardCharacterGrid(drawfunc: (nat, nat, real, real) -> Element, name: string): Element
  {
    Group("character_grid_" + name, None, Lines(Range(GridLines), row => CellLine(drawfunc, row)))
  }

  /** The grid has one element per cell, and the element of line `row`, column `col` is
      what `drawfunc` draws at that cell's corner. */
  lemma PunchcardCharacterGridAt(drawfunc: (nat, nat, real, real) -> Element, name: string, row: nat, col: nat)
    requires row < GridLines && col < GridColumns
    ensures |PunchcardCharacterGrid(drawfunc, name).elements| == 2000
    ensures PunchcardCharacterGrid(drawfunc, name).elements[row * 80 + col] ==
      drawfunc(col, row, CellLocation(col, row).0, CellLocation(col, row).1)
  {
    LinesAt(Range(GridLines), row => CellLine(drawfunc, row), GridColumns, row, col);
  }

  /** `_draw_character_grid`: the grid of character-cell boxes. */
  function CharacterGrid(): Element
  {
    PunchcardCharacterGrid(CellBox, CellBoxName)
  }

  /** Every cell box of the character grid covers exactly its cell and carries the id of
      that cell. */
  lemma CharacterGridCells(row: nat, col: nat)
    requires row < GridLines && col < GridColumns
    ensures |CharacterGrid().elements| == 2000
    ensures var e := CharacterGrid().elements[row * 80 + col];
      var corner := CellLocation(col, row);
      && e == Rect(corner.0, corner.1 - CellSize().1, CellSize().0, CellSize().1, None, Some(CellBoxId(col, row)))
  {
    PunchcardCharacterGridAt(CellBox, CellBoxName, row, col);
  }

  /** Cell box ids name their cell: `cell_box_<c>_<r>` splits back into c and r. */
  lemma CellBoxIdParts(column: nat, row: nat)
    ensures Split(CellBoxId(column, row), '_') == ["cell", "box", DecimalString(column), DecimalString(row)]
  {
    var parts := ["cell", "box", DecimalString(column), DecimalString(row)];
    JoinFour('_', parts);
    assert "cell" + "_" + "box" + "_" == "cell_box_";
    forall i | 0 <= i < |parts| ensures '_' !in parts[i] {
      if i >= 2 {
        assert forall j :: 0 <= j < |parts[i]| ==> '0' <= parts[i][j] <= '9';
      }
    }
    SplitJoin('_', parts);
  }

  lemma CellBoxIdInjective(c1: nat, r1: nat, c2: nat, r2: nat)
    requires CellBoxId(c1, r1) == CellBoxId(c2, r2)
    ensures c1 == c2 && r1 == r2
  {
    CellBoxIdParts(c1, r1);
    CellBoxIdParts(c2, r2);
    DecimalStringInjective(c1, c2);
    DecimalStringInjective(r1, r2);
  }

  /** The class of the hole-location guides. */
  const HoleBoundaryClass: Option<string> := Some("cardpunch_hole_boundary")

  /** One line of the hole-location guides: the hole of punch row `r` in every column. */
  function HoleBoundaryLine(r: nat): (l: seq<Element>)
    ensures |l| == GridColumns
  {
    seq(GridColumns, c requires 0 <= c < GridColumns => PunchHole(c, r, HoleBoundaryClass))
  }

  /** `_draw_punchhole_boundaries`: the outline of every hole position, row by row. */
  function PunchholeBoundaries(): Element
  {
    Group("cardpunch_hole_boundary", None, Lines(Range(|RowLabels|), HoleBoundaryLine))
  }

  /** The guides hold the 960 hole positions, and the guide for the `r`-th row label and
      the column label at index `c` is the hole that label pair names. */
  lemma PunchholeBoundariesAt(r: nat, c: nat)
    requires r < |RowLabels| && c < GridColumns
    ensures |PunchholeBoundaries().elements| == 960
    ensures Ok(PunchholeBoundaries().elements[r * 80 + c]) == HoleByHoleCoord(ColumnLabels[c], RowLabels[r], HoleBoundaryClass)
  {
    LinesAt(Range(|RowLabels|), HoleBoundaryLine, GridColumns, r, c);
    ColumnLabelsAt(c);
    HoleByLabels(c + 1, r, HoleBoundaryClass);
  }

  /** The lines `[6, 24]` that carry the column numbers. */
  const ColumnLabelLines: seq<nat> := [6, 24]

  /** The column numbers `1` to `80` on line `row`. */
  function ColumnLabelLine(row: nat): (l: seq<Element>)
    ensures |l| == GridColumns
  {
    seq(GridColumns, col requires 0 <= col < GridColumns => ColumnNumberLabel(row, col))
  }

  /** `_draw_column_number_labels`. */
  function ColumnNumberLabels(): Element
  {
    Group("column_number_labels", None, Lines(ColumnLabelLines, ColumnLabelLine))
  }

  /** The column numbers are printed twice, on lines 6 and 24: the label at `i * 80 + col`
      reads `str(col + 1)` and is centred in its cell. */
  lemma ColumnNumberLabelsAt(i: nat, col: nat)
    requires i < 2 && col < GridColumns
    ensures |ColumnNumberLabels().elements| == 160
    ensures var e, center := ColumnNumberLabels().elements[i * 80 + col], CellCenter(col, ColumnLabelLines[i]);
      e == Text(center.0, center.1, DecimalString(col + 1), Some("collabel"))
  {
    LinesAt(ColumnLabelLines, ColumnLabelLine, GridColumns, i, col);
  }

  /** The row names `'0'` to `'9'` that `_draw_row_number_labels` prints. */
  const DigitRowLabels: seq<string> := ["0", "1", "2", "3", "4", "5", "6", "7", "8", "9"]

  /** Reference definition of a row number: digit row `d` is printed as `str(d)`, centred
      in the cell of its hole, which is on line `2 (d + 2) + 1`. */
  function RowLabelText(d: nat, col: nat): Element
  {
    var center := CellCenter(col, 2 * (d + 2) + 1);
    Text(center.0, center.1, DecimalString(d), Some("numlabel"))
  }

  function RowLabelLine(d: nat): (l: seq<Element>)
    ensures |l| == GridColumns
  {
    seq(GridColumns, col requires 0 <= col < GridColumns => RowLabelText(d, col))
  }

  /** `_draw_row_number_labels`: every digit row's name in every column. */
  function RowNumberLabels(): Element
  {
    Group("row_number_labels", None, Lines(Range(|DigitRowLabels|), RowLabelLine))
  }

  /** The row names are the row labels after the two zone rows. */
  lemma DigitRowLabelsAt(d: nat)
    requires d < |DigitRowLabels|
    ensures DigitRowLabels[d] == DecimalString(d) && RowLabels[d + 2] == DigitRowLabels[d]
  {
  }

  /** `_draw_punchcard_row_label` prints digit row `d` in column `col` as `RowLabelText`. */
  lemma RowNumberLabelOfDigit(d: nat, col: nat)
    requires d < |DigitRowLabels| && col < GridColumns
    ensures RowNumberLabel(DigitRowLabels[d], col) == Ok(RowLabelText(d, col))
  {
    DigitRowLabelsAt(d);
    ColumnLabelIndex(col + 1);
    RowLabelsDistinct();
    IndexOfDistinct(RowLabels, d + 2);
    RowNumberLabelInAt(ColumnLabels, RowLabels, col, d);
  }

  lemma RowNumberLabelInAt(columns: seq<string>, rows: seq<string>, col: nat, d: nat)
    requires d + 2 < |rows| && rows[d + 2] == DecimalString(d)
    requires IndexOf(columns, DecimalString(col + 1)) == Ok(col) && IndexOf(rows, rows[d + 2]) == Ok(d + 2)
    ensures RowNumberLabelIn(columns, rows, rows[d + 2], col) == Ok(RowLabelText(d, col))
  {
    PunchCellInOk(columns, rows, DecimalString(col + 1), rows[d + 2], col, d + 2);
  }

  /** Each row number is printed at the centre of the hole it names, so the digits line
      up with the punch rows: the 800 labels, digit row by digit row. */
  lemma RowNumberLabelsAt(d: nat, col: nat)
    requires d < 10 && col < GridColumns
    ensures |RowNumberLabels().elements| == 800
    ensures var e, h := RowNumberLabels().elements[d * 80 + col], HoleRect(col, 2 * (d + 2) + 1);
      e.Text? && e.text == DigitRowLabels[d]
      && e.x == h.0 + h.2 / 2.0 && e.y == h.1 + h.3 / 2.0
  {
    LinesAt(Range(|DigitRowLabels|), RowLabelLine, GridColumns, d, col);
    DigitRowLabelsAt(d);
  }

  // ---------------------------------------------------------------------------
  // The card and its document

  /** The groups `_makesvg_content` stores on the card, in the order it draws them. */
  datatype CardGroups = CardGroups(
    style: Element,
    boundary: Element,
    punches: Element,
    cells: Element,
    punchBoundaries: Element,
    rowLabels: Element,
    columnLabels: Element,
    contentLabels: Element,
    manufacturerLabel: Element)

  /** `_makesvg_content`: every group of the card, or the first exception a drawing step
      raises (the content punches, then the content labels, then the manufacturer label). */
  function Build(content: string, manufacturer: Option<string>): Result<CardGroups>
  {
    Assemble(ContentPunches(content), ContentLabels(content), ManufacturerLabel(manufacturer))
  }

  /** The groups of a card from the outcomes of its three drawing steps that can fail, in
      the order they run; the other groups cannot fail. */
  function Assemble(punches: Result<seq<Element>>, labels: Result<seq<Element>>, manufacturer: Result<Element>): Result<CardGroups>
  {
    match punches
    case Err(e) => Err(e)
    case Ok(holes) =>
      match labels
      case Err(e) => Err(e)
      case Ok(printed) =>
        match manufacturer
        case Err(e) => Err(e)
        case Ok(m) =>
          Ok(CardGroups(Style, CardBoundary(), Group("cardpunches", None, holes), CharacterGrid(),
                        PunchholeBoundaries(), RowNumberLabels(), ColumnNumberLabels(),
                        Group("cardpunchlabels", None, printed), m))
  }

  /** A card can be built exactly when its content fits the 80 columns and it has a
      manufacturer line. Too long a content raises `ValueError` (from the punches or, for
      trailing characters without holes, from the labels); a missing manufacturer line
      raises `AttributeError`. */
  lemma BuildSpec(content: string, manufacturer: Option<string>)
    ensures Build(content, manufacturer).Ok? <==> |content| <= GridColumns && manufacturer.Some?
    ensures Build(content, manufacturer).Err? ==>
      Build(content, manufacturer).error == if |content| > GridColumns then ValueError else AttributeError
  {
    ContentPunchesSpec(content);
    ContentLabelsSpec(content);
    AssembleErrors(ContentPunches(content), ContentLabels(content), ManufacturerLabel(manufacturer));
  }

  lemma AssembleErrors(punches: Result<seq<Element>>, labels: Result<seq<Element>>, manufacturer: Result<Element>)
    ensures Assemble(punches, labels, manufacturer).Ok? <==> punches.Ok? && labels.Ok? && manufacturer.Ok?
    ensures Assemble(punches, labels, manufacturer).Err? ==>
      Assemble(punches, labels, manufacturer).error ==
        if punches.Err? then punches.error else if labels.Err? then labels.error else manufacturer.error
  {
  }

  /** A built card holds what the three failing steps drew: the content punches, the content
      labels and the manufacturer line. */
  lemma BuildParts(content: string, manufacturer: Option<string>)
    requires Build(content, manufacturer).Ok?
    ensures ContentPunches(content).Ok? && ContentLabels(content).Ok? && manufacturer.Some?
    ensures var g := Build(content, manufacturer).value;
      && g.punches == Group("cardpunches", None, ContentPunches(content).value)
      && g.contentLabels == Group("cardpunchlabels", None, ContentLabels(content).value)
      && g.manufacturerLabel == Group("card_manufacturer_label", None,
           [Text(LeftMargin, CardLength - 0.03, manufacturer.value, Some("card_manufacturer_label"))])
  {
    AssembleParts(ContentPunches(content), ContentLabels(content), manufacturer);
  }

  lemma AssembleParts(punches: Result<seq<Element>>, labels: Result<seq<Element>>, manufacturer: Option<string>)
    requires Assemble(punches, labels, ManufacturerLabel(manufacturer)).Ok?
    ensures punches.Ok? && labels.Ok? && manufacturer.Some?
    ensures var g := Assemble(punches, labels, ManufacturerLabel(manufacturer)).value;
      && g.style == Style && g.boundary == CardBoundary() && g.cells == CharacterGrid()
      && g.punchBoundaries == PunchholeBoundaries() && g.rowLabels == RowNumberLabels()
      && g.columnLabels == ColumnNumberLabels()
      && g.punches == Group("cardpunches", None, punches.value)
      && g.contentLabels == Group("cardpunchlabels", None, labels.value)
      && g.manufacturerLabel == Group("card_manufacturer_label", None,
           [Text(LeftMargin, CardLength - 0.03, manufacturer.value, Some("card_manufacturer_label"))])
  {
  }

  /** The translation of every layer of the document by the document margins. */
  const DocumentTransform: Option<(real, real)> := Some((DocumentMarginLeft, DocumentMarginTop))

  /** The printed material: row numbers, column numbers, content labels, manufacturer line. */
  function PrintedElements(g: CardGroups): seq<Element>
  {
    [g.rowLabels, g.columnLabels, g.contentLabels, g.manufacturerLabel]
  }

  /** The optional structure layer: the cell boxes, then the hole guides. */
  function StructureElements(g: CardGroups, printCellBoundaries: bool, printPunchBoundaries: bool): seq<Element>
  {
    (if printCellBoundaries then [g.cells] else []) + (if printPunchBoundaries then [g.punchBoundaries] else [])
  }

  /** The document rasterised when the printed material is flattened: the card alone,
      without the margins. */
  function PrintDocument(g: CardGroups, printCellBoundaries: bool, printPunchBoundaries: bool): Document
  {
    Document(CardWidth, CardLength, (0.0, 0.0, CardWidth, CardLength),
             [g.style, Group("card_printed", None, PrintedElements(g)),
              Group("punchcard_structure", None, StructureElements(g, printCellBoundaries, printPunchBoundaries))])
  }

  /** `makesvg`: the style, then the printed material and the structure (as a raster at
      5 times scale on white when flattened, as vector groups otherwise), then the cut
      lines on top, all translated by the document margins. `print_punchboxes` has no
      effect. */
  function Render(g: CardGroups, flatten: bool, printCellBoundaries: bool, printPunchBoundaries: bool): Document
  {
    var cut := Group("card_cutlines", DocumentTransform, [g.boundary, g.punches]);
    var middle :=
      if flatten then
        [Group("card_printed_flattened", DocumentTransform,
               [Image(CardWidth, CardLength, "flattened_print",
                      PngOf(PrintDocument(g, printCellBoundaries, printPunchBoundaries), 5, "white"))])]
      else
        [Group("card_printed", DocumentTransform, PrintedElements(g)),
         Group("punchcard_structure", DocumentTransform, StructureElements(g, printCellBoundaries, printPunchBoundaries))];
    Document(DocumentWidth, DocumentHeight, (0.0, 0.0, DocumentWidth, DocumentHeight), [g.style] + middle + [cut])
  }

  /** The same group, drawn without a transform. */
  function Untranslated(e: Element): Element
  {
    if e.Group? then Group(e.id, None, e.elements) else e
  }

  /** In every mode the document is the card plus its margins, the style comes first and
      the cut lines (the outline, then the punched holes) come last, translated by the
      margins; so what is cut does not depend on the printing options. */
  lemma RenderLayers(g: CardGroups, flatten: bool, printCellBoundaries: bool, printPunchBoundaries: bool)
    ensures var d := Render(g, flatten, printCellBoundaries, printPunchBoundaries);
      && d.width == DocumentMarginLeft + CardWidth + DocumentMarginRight
      && d.height == DocumentMarginTop + CardLength + DocumentMarginBottom
      && d.viewBox == (0.0, 0.0, d.width, d.height)
      && |d.elements| == (if flatten then 3 else 4)
      && d.elements[0] == g.style
      && d.elements[|d.elements| - 1] == Group("card_cutlines", Some((0.5, 0.5)), [g.boundary, g.punches])
    ensures var d := Render(g, false, printCellBoundaries, printPunchBoundaries);
      && d.elements[1] == Group("card_printed", Some((0.5, 0.5)),
                                [g.rowLabels, g.columnLabels, g.contentLabels, g.manufacturerLabel])
      && d.elements[2] == Group("punchcard_structure", Some((0.5, 0.5)),
                                StructureElements(g, printCellBoundaries, printPunchBoundaries))
  {
  }

  /** Flattening changes only the middle layers: the flat raster is rendered from exactly
      the printed and structure groups the vector document would draw, without their
      margin translation (the image itself is translated instead). */
  lemma FlattenRastersVectorLayers(g: CardGroups, printCellBoundaries: bool, printPunchBoundaries: bool)
    ensures var flat, vector := Render(g, true, printCellBoundaries, printPunchBoundaries),
                                Render(g, false, printCellBoundaries, printPunchBoundaries);
      && flat.elements[0] == vector.elements[0] && flat.elements[2] == vector.elements[3]
      && flat.elements[1] == Group("card_printed_flattened", vector.elements[1].transform,
           [Image(CardWidth, CardLength, "flattened_print",
                  PngOf(Document(CardWidth, CardLength, (0.0, 0.0, CardWidth, CardLength),
                                 [vector.elements[0], Untranslated(vector.elements[1]), Untranslated(vector.elements[2])]),
                        5, "white"))])
  {
  }

  /** The structure layer holds the cell boxes exactly when asked for, and the hole guides
      exactly when asked for, cells first. */
  lemma StructureSelection(g: CardGroups, printCellBoundaries: bool, printPunchBoundaries: bool)
    ensures var s := StructureElements(g, printCellBoundaries, printPunchBoundaries);
      && |s| == (if printCellBoundaries then 1 else 0) + (if printPunchBoundaries then 1 else 0)
      && (printCellBoundaries ==> s[0] == g.cells)
      && (printPunchBoundaries ==> s[|s| - 1] == g.punchBoundaries)
  {
  }

  function Min(a: nat, b: nat): nat { if a < b then a else b }
}
