/** The card's dimensions and the character-cell geometry of `PunchcardSVG`
    (src/puncher/puncher.py), in inches, as exact reals. A card is a grid of
    80 columns by 25 printed lines; a punch row sits on every other line. */
module Geometry {
  import opened Builtins
  import opened CodeTable

  // EIA RS-292 card size
  const CardWidth: real := 7.0 + 3.0 / 8.0
  const CardLength: real := 3.0 + 1.0 / 4.0
  const CardThickness: real := 0.007

  // Printing grid
  const LinesPerInch: real := 8.0
  const InchesPerLine: real := 1.0 / LinesPerInch
  const InchesPerColumn: real := 0.087
  const ColumnsPerInch: real := 1.0 / InchesPerColumn
  const LeftMargin: real := (CardWidth - InchesPerColumn * 80.0) / 2.0
  const TopMargin: real := 0.0

  // Margins of the document around the card
  const DocumentMarginLeft: real := 0.5
  const DocumentMarginRight: real := 0.5
  const DocumentMarginTop: real := 0.5
  const DocumentMarginBottom: real := 0.5
  const DocumentWidth: real := DocumentMarginLeft + CardWidth + DocumentMarginRight
  const DocumentHeight: real := DocumentMarginTop + CardLength + DocumentMarginBottom

  const DpiGuess: nat := 300
  const StrokeWeight: real := 1.0 / DpiGuess as real

  const PunchHoleHeight: real := 0.07
  const PunchHoleWidth: real := 0.04

  /** The number of printed lines and of columns the character grid covers. */
  const GridLines: nat := 25
  const GridColumns: nat := 80

  /** The exact values the constant expressions come to. */
  lemma Dimensions()
    ensures CardWidth == 7.375 && CardLength == 3.25
    ensures LeftMargin == 0.2075 && 2.0 * LeftMargin + 80.0 * InchesPerColumn == CardWidth
    ensures DocumentWidth == 8.375 && DocumentHeight == 4.25
    ensures InchesPerLine == 0.125 && StrokeWeight * 300.0 == 1.0
  {
  }

  /** `_character_cell_size`: one column wide and one line high. */
  function CellSize(): (size: (real, real))
    ensures size == (InchesPerColumn, 0.125)
  {
    (1.0 / ColumnsPerInch, 1.0 / LinesPerInch)
  }

  /** `_character_cell_location`: the bottom-left corner of the cell at a column and a line;
      y grows downwards, so line `row` ends at `(row + 1)` line heights. */
  function CellLocation(column: nat, row: nat): (real, real)
  {
    (LeftMargin + column as real * InchesPerColumn, TopMargin + (row + 1) as real * InchesPerLine)
  }

  /** `_character_cell_center_location`: half a cell right of and half a cell above the corner. */
  function CellCenter(column: nat, row: nat): (real, real)
  {
    var corner := CellLocation(column, row);
    (corner.0 + InchesPerColumn / 2.0, corner.1 - InchesPerLine / 2.0)
  }

  /** `_character_cell_location_for_punch`: the grid cell of the hole named by a column label
      and a row label. The column label is looked up first, then the row label; a label
      outside its numbering raises `ValueError`. Punch row `i` sits on line `2 i + 1`. */
  function PunchCellIndices(column: string, row: string): Result<(nat, nat)>
  {
    PunchCellIn(ColumnLabels, RowLabels, column, row)
  }

  /** The same lookup over any column numbering and row numbering. */
  function PunchCellIn(columns: seq<string>, rows: seq<string>, column: string, row: string): Result<(nat, nat)>
  {
    match IndexOf(columns, column)
    case Err(e) => Err(e)
    case Ok(c) =>
      match IndexOf(rows, row)
      case Err(e) => Err(e)
      case Ok(r) => Ok((c, r * 2 + 1))
  }

  // ---------------------------------------------------------------------------
  // The grid

  /** The cells tile the card: neighbouring cells share an edge, and the first column
      starts at the left margin. */
  lemma CellsTile(column: nat, row: nat)
    ensures CellLocation(column + 1, row).0 == CellLocation(column, row).0 + CellSize().0
    ensures CellLocation(column, row + 1).1 == CellLocation(column, row).1 + CellSize().1
    ensures CellLocation(column, row).1 - CellSize().1 == row as real * InchesPerLine
    ensures CellLocation(0, row).0 == LeftMargin
  {
  }

  /** The 80 columns are centred on the card, with equal margins left and right, and the
      25 lines fit within its length. */
  lemma GridFitsCard(column: nat, row: nat)
    requires column < GridColumns && row < GridLines
    ensures 0.0 < CellLocation(column, row).0
    ensures CellLocation(column, row).0 + CellSize().0 <= CardWidth - LeftMargin
    ensures CellLocation(GridColumns - 1, row).0 + CellSize().0 == CardWidth - LeftMargin
    ensures 0.0 <= CellLocation(column, row).1 - CellSize().1
    ensures CellLocation(column, row).1 < CardLength
  {
  }

  /** Locations grow strictly with the column and with the line. */
  lemma CellLocationMonotone(c1: nat, r1: nat, c2: nat, r2: nat)
    ensures c1 < c2 <==> CellLocation(c1, r1).0 < CellLocation(c2, r2).0
    ensures r1 < r2 <==> CellLocation(c1, r1).1 < CellLocation(c2, r2).1
  {
  }

  /** A cell's centre is the midpoint of its box. */
  lemma CellCenterInsideCell(column: nat, row: nat)
    ensures CellCenter(column, row).0 - CellLocation(column, row).0 == CellSize().0 / 2.0
    ensures CellLocation(column, row).1 - CellCenter(column, row).1 == CellSize().1 / 2.0
  {
  }

  // ---------------------------------------------------------------------------
  // Punch positions

  /** The column labels are pairwise distinct. */
  lemma ColumnLabelsDistinct()
    ensures forall j, k :: 0 <= j < k < |ColumnLabels| ==> ColumnLabels[j] != ColumnLabels[k]
  {
    forall j, k | 0 <= j < k < |ColumnLabels| ensures ColumnLabels[j] != ColumnLabels[k] {
      ColumnLabelsAt(j);
      ColumnLabelsAt(k);
      if ColumnLabels[j] == ColumnLabels[k] {
        DecimalStringInjective(j + 1, k + 1);
      }
    }
  }

  /** Column label `str(k)` is found at index `k - 1`, for every k in 1..80. */
  lemma ColumnLabelIndex(k: nat)
    requires 1 <= k <= GridColumns
    ensures IndexOf(ColumnLabels, DecimalString(k)) == Ok(k - 1)
  {
    ColumnLabelsDistinct();
    ColumnLabelsAt(k - 1);
    IndexOfDistinct(ColumnLabels, k - 1);
  }

  /** The column labels are exactly the spellings of 1..80. */
  lemma ColumnLabelMembership(s: string)
    ensures s in ColumnLabels <==> exists k :: 1 <= k <= GridColumns && s == DecimalString(k)
  {
    if s in ColumnLabels {
      var i :| 0 <= i < |ColumnLabels| && ColumnLabels[i] == s;
      ColumnLabelsAt(i);
    } else {
      forall k | 1 <= k <= GridColumns ensures s != DecimalString(k) {
        ColumnLabelsAt(k - 1);
      }
    }
  }

  /** The lookup over any numberings: it succeeds exactly when both labels are listed,
      with the first index of each; otherwise it raises `ValueError`. */
  lemma PunchCellInSpec(columns: seq<string>, rows: seq<string>, column: string, row: string)
    ensures PunchCellIn(columns, rows, column, row).Ok? <==> column in columns && row in rows
    ensures PunchCellIn(columns, rows, column, row).Err? ==> PunchCellIn(columns, rows, column, row).error == ValueError
    ensures PunchCellIn(columns, rows, column, row).Ok? ==>
      var c, l := PunchCellIn(columns, rows, column, row).value.0, PunchCellIn(columns, rows, column, row).value.1;
      && c < |columns| && columns[c] == column
      && l % 2 == 1 && 1 <= l <= 2 * |rows| - 1 && rows[l / 2] == row
  {
    IndexOfSpec(columns, column);
    IndexOfSpec(rows, row);
    if column in columns && row in rows {
      var i := IndexOf(rows, row).value;
      assert PunchCellIn(columns, rows, column, row).value.1 == 2 * i + 1;
      assert (2 * i + 1) / 2 == i && (2 * i + 1) % 2 == 1;
    }
  }

  lemma PunchCellInOk(columns: seq<string>, rows: seq<string>, column: string, row: string, c: nat, i: nat)
    requires IndexOf(columns, column) == Ok(c) && IndexOf(rows, row) == Ok(i)
    ensures PunchCellIn(columns, rows, column, row) == Ok((c, 2 * i + 1))
  {
  }

  /** The hole of the `k`-th column (1..80) and the `r`-th row label sits in grid column
      `k - 1` on line `2 r + 1`. */
  lemma PunchCellOfLabels(k: nat, r: nat)
    requires 1 <= k <= GridColumns && r < |RowLabels|
    ensures PunchCellIndices(DecimalString(k), RowLabels[r]) == Ok((k - 1, 2 * r + 1))
  {
    ColumnLabelIndex(k);
    RowLabelsDistinct();
    IndexOfDistinct(RowLabels, r);
    PunchCellInOk(ColumnLabels, RowLabels, DecimalString(k), RowLabels[r], k - 1, r);
  }

  /** A hole position succeeds exactly for a column label and a row label; anything else
      raises `ValueError`. A successful position names a grid column below 80 and an odd
      line from 1 (row 12) to 23 (row 9), and maps back to the labels it came from. */
  lemma PunchCellIndicesSpec(column: string, row: string)
    ensures PunchCellIndices(column, row).Ok? <==> column in ColumnLabels && row in RowLabels
    ensures PunchCellIndices(column, row).Err? ==> PunchCellIndices(column, row).error == ValueError
    ensures PunchCellIndices(column, row).Ok? ==>
      var c, l := PunchCellIndices(column, row).value.0, PunchCellIndices(column, row).value.1;
      && c < GridColumns && ColumnLabels[c] == column
      && l % 2 == 1 && 1 <= l <= 2 * |RowLabels| - 1 && RowLabels[l / 2] == row
  {
    PunchCellInSpec(ColumnLabels, RowLabels, column, row);
  }

  /** The rectangle of a punch hole, `(x, y, width, height)` with (x, y) its top-left
      corner: the hole size centred on the cell centre, as `_draw_cardpunch_hole_by_holecoord`
      places it. */
  function HoleRect(column: nat, line: nat): (real, real, real, real)
  {
    var center := CellCenter(column, line);
    (center.0 - PunchHoleWidth / 2.0, center.1 - PunchHoleHeight / 2.0, PunchHoleWidth, PunchHoleHeight)
  }

  /** A hole is 0.04 inch wide and 0.07 inch high, centred on its cell's centre, and lies
      strictly inside its character cell. */
  lemma HoleInsideCell(column: nat, line: nat)
    ensures var h, m := HoleRect(column, line), CellCenter(column, line);
      h.2 == 0.04 && h.3 == 0.07 && h.0 + h.2 / 2.0 == m.0 && h.1 + h.3 / 2.0 == m.1
    ensures var h, corner := HoleRect(column, line), CellLocation(column, line);
      corner.0 < h.0 && h.0 + h.2 < corner.0 + CellSize().0 && corner.1 - CellSize().1 < h.1 && h.1 + h.3 < corner.1
  {
  }

  /** Every hole of the grid lies inside the card. */
  lemma HoleWithinCard(column: nat, line: nat)
    requires column < GridColumns && line < GridLines
    ensures var h := HoleRect(column, line);
      0.0 < h.0 && h.0 + h.2 < CardWidth && 0.0 < h.1 && h.1 + h.3 < CardLength
  {
  }

  /** Holes at two different positions do not overlap. */
  lemma HolesDisjoint(c1: nat, l1: nat, c2: nat, l2: nat)
    requires (c1, l1) != (c2, l2)
    ensures var a, b := HoleRect(c1, l1), HoleRect(c2, l2);
      a.0 + a.2 < b.0 || b.0 + b.2 < a.0 || a.1 + a.3 < b.1 || b.1 + b.3 < a.1
  {
  }
}
