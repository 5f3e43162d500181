/** The `PunchcardSVG` object (src/puncher/puncher.py): a card content, a manufacturer
    line, and the nine groups `_makesvg_content` draws into the object's attributes, one
    drawing method at a time. Each drawing method is proved to store the group that the
    matching function of `Layout` describes; `Create` runs the constructor and
    `_makesvg_content`, and `MakeSvg` assembles the document. */
module Card {
  import opened Builtins
  import opened CodeTable
  import opened Geometry
  import opened Svg
  import opened Layout

  /** The default `card_manufacturer_string` of the constructor. */
  const DefaultManufacturer: string := "IBM UNITED STATES LIMITED                  3081 IBM UBM JABMS WE ALL BM FOR IBM"

  /** `if card_manufacturer_string:` — an empty string is falsy, and the attribute is then
      never set. */
  function ManufacturerOf(manufacturerString: string): (m: Option<string>)
    ensures m.Some? <==> manufacturerString != ""
    ensures m.Some? ==> m.value == manufacturerString
  {
    if manufacturerString == "" then None else Some(manufacturerString)
  }

  /** A card can be created exactly when its content fits the 80 columns and the
      manufacturer string is not empty; a longer content raises `ValueError`, an empty
      manufacturer string `AttributeError` (when drawing the manufacturer line). */
  lemma CreateSpec(content: string, manufacturerString: string)
    ensures Build(content, ManufacturerOf(manufacturerString)).Ok? <==> |content| <= GridColumns && manufacturerString != ""
    ensures Build(content, ManufacturerOf(manufacturerString)).Err? ==>
      Build(content, ManufacturerOf(manufacturerString)).error ==
        if |content| > GridColumns then ValueError else AttributeError
  {
    BuildSpec(content, ManufacturerOf(manufacturerString));
  }

  class PunchcardSvg {
    // Set by the constructor and never changed afterwards.
    const cardContent: string
    /** `card_manufacturer_string`; `None` while the attribute is unset. */
    const manufacturer: Option<string>
    const enableDocumentMargins: bool

    // The groups, `None` until drawn.
    var cardStyle: Option<Element>
    var cardBoundary: Option<Element>
    var punchedHoles: Option<Element>
    var characterCells: Option<Element>
    var punchBoundaries: Option<Element>
    var rowNumberLabels: Option<Element>
    var columnNumberLabels: Option<Element>
    var contentColumnLabels: Option<Element>
    var manufacturerLabel: Option<Element>

    /** The nine groups, once every one of them is drawn. */
    function Groups(): Option<CardGroups>
      reads this
    {
      if && cardStyle.Some? && cardBoundary.Some? && punchedHoles.Some? && characterCells.Some?
         && punchBoundaries.Some? && rowNumberLabels.Some? && columnNumberLabels.Some?
         && contentColumnLabels.Some? && manufacturerLabel.Some?
      then
        Some(CardGroups(cardStyle.value, cardBoundary.value, punchedHoles.value, characterCells.value,
                        punchBoundaries.value, rowNumberLabels.value, columnNumberLabels.value,
                        contentColumnLabels.value, manufacturerLabel.value))
      else None
    }

    /** `__init__` up to its call of `_makesvg_content`: the content and the flags are
        stored, the manufacturer string only when it is not empty, and no group is drawn
        yet. `enable_punchhole_printed_cutlines` is accepted and ignored. */
    constructor Init(content: string, manufacturerString: string, enableDocumentMargins: bool,
                     enablePunchholePrintedCutlines: bool)
      ensures cardContent == content && manufacturer == ManufacturerOf(manufacturerString)
      ensures this.enableDocumentMargins == enableDocumentMargins
      ensures cardStyle.None? && cardBoundary.None? && punchedHoles.None? && characterCells.None?
      ensures punchBoundaries.None? && rowNumberLabels.None? && columnNumberLabels.None?
      ensures contentColumnLabels.None? && manufacturerLabel.None?
    {
      cardContent := content;
      manufacturer := if manufacturerString != "" then Some(manufacturerString) else None;
      this.enableDocumentMargins := enableDocumentMargins;
      cardStyle := None;
      cardBoundary := None;
      punchedHoles := None;
      characterCells := None;
      punchBoundaries := None;
      rowNumberLabels := None;
      columnNumberLabels := None;
      contentColumnLabels := None;
      manufacturerLabel := None;
    }

    /** `_define_card_style`. */
    method DefineCardStyle()
      modifies this`cardStyle
      ensures cardStyle == Some(Style)
    {
      cardStyle := Some(Style);
    }

    /** `_draw_card_boundary`. */
    method DrawCardBoundary()
      modifies this`cardBoundary
      ensures cardBoundary == Some(CardBoundary())
    {
      var boxPoints := [(0.0, InchesPerLine), (InchesPerColumn, 0.0), (CardWidth, 0.0), (CardWidth, CardLength), (0.0, CardLength)];
      cardBoundary := Some(Group("cardpunch_boundary", None, [Polygon(boxPoints, Some("cardpunch_boundary"))]));
    }

    /** `_draw_cardpunch_column_punches`: the cut outline of every row the table lists for
        the character, in the listed order; the first row that cannot be located raises. */
    static method DrawCardpunchColumnPunches(character: char, columnName: string) returns (r: Result<seq<Element>>)
      ensures r == ColumnPunches(character, columnName)
    {
      var punchRows := PunchRows(character);
      var columnElements: seq<Element> := [];
      var i := 0;
      assert punchRows[0..] == punchRows;
      PrefixedEmpty(ColumnHoles(punchRows, columnName));
      while i < |punchRows|
        invariant 0 <= i <= |punchRows|
        invariant ColumnPunches(character, columnName) == Prefixed(columnElements, ColumnHoles(punchRows[i..], columnName))
      {
        var cut := CutBoundary(punchRows[i], columnName);
        assert punchRows[i..][1..] == punchRows[i + 1..];
        if cut.Err? {
          return Err(cut.error);
        }
        PrefixedAppend(columnElements, cut.value, ColumnHoles(punchRows[i + 1..], columnName));
        columnElements := columnElements + cut.value;
        i := i + 1;
      }
      ColumnHolesDone(punchRows, i, columnName, columnElements);
      return Ok(columnElements);
    }

    /** `_draw_cardpunch_content_punches`: the holes of every content character, column
        `str(index + 1)` for the character at `index`; the group is stored only when no
        column raised. */
    method DrawCardpunchContentPunches() returns (o: Outcome)
      modifies this`punchedHoles
      ensures o.Pass? <==> ContentPunches(cardContent).Ok?
      ensures o.Fail? ==> o.error == ContentPunches(cardContent).error
      ensures o.Fail? ==> punchedHoles == old(punchedHoles)
      ensures o.Pass? ==> punchedHoles == Some(Group("cardpunches", None, ContentPunches(cardContent).value))
    {
      var cardHoles: seq<Element> := [];
      var index := 0;
      while index < |cardContent|
        invariant 0 <= index <= |cardContent|
        invariant ColumnLoop(ColumnPunches, cardContent, index) == Ok(cardHoles)
        invariant punchedHoles == old(punchedHoles)
      {
        var elements := DrawCardpunchColumnPunches(cardContent[index], DecimalString(index + 1));
        ColumnLoopStep(ColumnPunches, cardContent, index, cardHoles, elements);
        if elements.Err? {
          return Fail(elements.error);
        }
        cardHoles := cardHoles + elements.value;
        index := index + 1;
      }
      punchedHoles := Some(Group("cardpunches", None, cardHoles));
      return Pass;
    }

    /** `_draw_punchcard_character_grid`: `drawfunc` at every cell, line by line, given the
        cell's bottom-left corner, in a group named after the drawing function. */
    static method DrawPunchcardCharacterGrid(drawfunc: (nat, nat, real, real) -> Element, name: string) returns (g: Element)
      ensures g == PunchcardCharacterGrid(drawfunc, name)
    {
      var elements: seq<Element> := [];
      var row := 0;
      while row < GridLines
        invariant 0 <= row <= GridLines
        invariant elements == Lines(Range(GridLines)[..row], r => CellLine(drawfunc, r))
      {
        var col := 0;
        while col < GridColumns
          invariant 0 <= col <= GridColumns
          invariant elements == Lines(Range(GridLines)[..row], r => CellLine(drawfunc, r)) + CellLine(drawfunc, row)[..col]
        {
          var (x, y) := CellLocation(col, row);
          var element := drawfunc(col, row, x, y);
          assert CellLine(drawfunc, row)[..col + 1] == CellLine(drawfunc, row)[..col] + [element];
          elements := elements + [element];
          col := col + 1;
        }
        LinesSnoc(Range(GridLines), r => CellLine(drawfunc, r), row);
        assert CellLine(drawfunc, row)[..GridColumns] == CellLine(drawfunc, row);
        row := row + 1;
      }
      assert Range(GridLines)[..GridLines] == Range(GridLines);
      return Group("character_grid_" + name, None, elements);
    }

    /** `_draw_character_grid`. */
    method DrawCharacterGrid()
      modifies this`characterCells
      ensures characterCells == Some(CharacterGrid())
    {
      var g := DrawPunchcardCharacterGrid(CellBox, CellBoxName);
      characterCells := Some(g);
    }

    /** `_draw_punchhole_boundaries`: the outline of every hole position, for every row
        label and every column label. */
    method DrawPunchholeBoundaries()
      modifies this`punchBoundaries
      ensures punchBoundaries == Some(PunchholeBoundaries())
    {
      var cardHoles: seq<Element> := [];
      var rindex := 0;
      while rindex < |RowLabels|
        invariant 0 <= rindex <= |RowLabels|
        invariant cardHoles == Lines(Range(|RowLabels|)[..rindex], HoleBoundaryLine)
      {
        var cindex := 0;
        while cindex < |ColumnLabels|
          invariant 0 <= cindex <= |ColumnLabels|
          invariant cardHoles == Lines(Range(|RowLabels|)[..rindex], HoleBoundaryLine) + HoleBoundaryLine(rindex)[..cindex]
        {
          var hole := DrawHoleBoundary(rindex, cindex);
          assert HoleBoundaryLine(rindex)[..cindex + 1] == HoleBoundaryLine(rindex)[..cindex] + [hole];
          cardHoles := cardHoles + [hole];
          cindex := cindex + 1;
        }
        LinesSnoc(Range(|RowLabels|), HoleBoundaryLine, rindex);
        assert HoleBoundaryLine(rindex)[..GridColumns] == HoleBoundaryLine(rindex);
        rindex := rindex + 1;
      }
      assert Range(|RowLabels|)[..|RowLabels|] == Range(|RowLabels|);
      punchBoundaries := Some(Group("cardpunch_hole_boundary", None, cardHoles));
    }

    /** One call of `_draw_cardpunch_hole_by_holecoord` in `_draw_punchhole_boundaries`:
        the labels come from the numberings, so the lookup cannot raise. */
    static method DrawHoleBoundary(rindex: nat, cindex: nat) returns (hole: Element)
      requires rindex < |RowLabels| && cindex < |ColumnLabels|
      ensures hole == PunchHole(cindex, rindex, HoleBoundaryClass)
    {
      ColumnLabelsAt(cindex);
      HoleByLabels(cindex + 1, rindex, HoleBoundaryClass);
      var r := HoleByHoleCoord(ColumnLabels[cindex], RowLabels[rindex], HoleBoundaryClass);
      hole := r.value;
    }

    /** `_draw_row_number_labels`: the names `'0'` to `'9'` in every column. */
    method DrawRowNumberLabels()
      modifies this`rowNumberLabels
      ensures rowNumberLabels == Some(RowNumberLabels())
    {
      var elements: seq<Element> := [];
      var d := 0;
      while d < |DigitRowLabels|
        invariant 0 <= d <= |DigitRowLabels|
        invariant elements == Lines(Range(|DigitRowLabels|)[..d], RowLabelLine)
      {
        var col := 0;
        while col < GridColumns
          invariant 0 <= col <= GridColumns
          invariant elements == Lines(Range(|DigitRowLabels|)[..d], RowLabelLine) + RowLabelLine(d)[..col]
        {
          var rowLabel := DrawRowLabel(d, col);
          assert RowLabelLine(d)[..col + 1] == RowLabelLine(d)[..col] + [rowLabel];
          elements := elements + [rowLabel];
          col := col + 1;
        }
        LinesSnoc(Range(|DigitRowLabels|), RowLabelLine, d);
        assert RowLabelLine(d)[..GridColumns] == RowLabelLine(d);
        d := d + 1;
      }
      assert Range(|DigitRowLabels|)[..|DigitRowLabels|] == Range(|DigitRowLabels|);
      rowNumberLabels := Some(Group("row_number_labels", None, elements));
    }

    /** One call of `_draw_punchcard_row_label` in `_draw_row_number_labels`: the row name
        and the column number are in the numberings, so the lookup cannot raise. */
    static method DrawRowLabel(d: nat, col: nat) returns (rowLabel: Element)
      requires d < |DigitRowLabels| && col < GridColumns
      ensures rowLabel == RowLabelText(d, col)
    {
      RowNumberLabelOfDigit(d, col);
      var r := RowNumberLabel(DigitRowLabels[d], col);
      rowLabel := r.value;
    }

    /** `_draw_column_number_labels`: the column numbers on lines 6 and 24. */
    method DrawColumnNumberLabels()
      modifies this`columnNumberLabels
      ensures columnNumberLabels == Some(ColumnNumberLabels())
    {
      var elements: seq<Element> := [];
      var i := 0;
      while i < |ColumnLabelLines|
        invariant 0 <= i <= |ColumnLabelLines|
        invariant elements == Lines(ColumnLabelLines[..i], ColumnLabelLine)
      {
        var row := ColumnLabelLines[i];
        var col := 0;
        while col < GridColumns
          invariant 0 <= col <= GridColumns
          invariant elements == Lines(ColumnLabelLines[..i], ColumnLabelLine) + ColumnLabelLine(row)[..col]
        {
          var columnLabel := ColumnNumberLabel(row, col);
          assert ColumnLabelLine(row)[..col + 1] == ColumnLabelLine(row)[..col] + [columnLabel];
          elements := elements + [columnLabel];
          col := col + 1;
        }
        LinesSnoc(ColumnLabelLines, ColumnLabelLine, i);
        assert ColumnLabelLine(row)[..GridColumns] == ColumnLabelLine(row);
        i := i + 1;
      }
      assert ColumnLabelLines[..|ColumnLabelLines|] == ColumnLabelLines;
      columnNumberLabels := Some(Group("column_number_labels", None, elements));
    }

    /** `_draw_cardpunch_content_labels`: the printed label of every content character;
        the group is stored only when no column raised. */
    method DrawCardpunchContentLabels() returns (o: Outcome)
      modifies this`contentColumnLabels
      ensures o.Pass? <==> ContentLabels(cardContent).Ok?
      ensures o.Fail? ==> o.error == ContentLabels(cardContent).error
      ensures o.Fail? ==> contentColumnLabels == old(contentColumnLabels)
      ensures o.Pass? ==> contentColumnLabels == Some(Group("cardpunchlabels", None, ContentLabels(cardContent).value))
    {
      var labels: seq<Element> := [];
      var index := 0;
      while index < |cardContent|
        invariant 0 <= index <= |cardContent|
        invariant ColumnLoop(CharacterLabels, cardContent, index) == Ok(labels)
        invariant contentColumnLabels == old(contentColumnLabels)
      {
        var elements := ColumnContentLabels([cardContent[index]], DecimalString(index + 1));
        ColumnLoopStep(CharacterLabels, cardContent, index, labels, elements);
        if elements.Err? {
          return Fail(elements.error);
        }
        labels := labels + elements.value;
        index := index + 1;
      }
      contentColumnLabels := Some(Group("cardpunchlabels", None, labels));
      return Pass;
    }

    /** `_draw_manufacturer_labeltext`: reading the unset manufacturer attribute raises
        `AttributeError`. */
    method DrawManufacturerLabeltext() returns (o: Outcome)
      modifies this`manufacturerLabel
      ensures o.Pass? <==> manufacturer.Some?
      ensures o.Fail? ==> o.error == AttributeError && manufacturerLabel == old(manufacturerLabel)
      ensures o.Pass? ==> manufacturerLabel == Some(ManufacturerLabel(manufacturer).value)
    {
      if manufacturer.None? {
        return Fail(AttributeError);
      }
      var text := Text(LeftMargin, CardLength - 0.03, manufacturer.value, Some("card_manufacturer_label"));
      manufacturerLabel := Some(Group("card_manufacturer_label", None, [text]));
      return Pass;
    }

    /** `_makesvg_content`: every drawing step in order, stopping at the first exception
        (the content punches, then the content labels, then the manufacturer line). When
        no step raises, every group holds what its drawing step draws. */
    method MakeSvgContent() returns (o: Outcome)
      modifies this`cardStyle, this`cardBoundary, this`punchedHoles, this`characterCells,
               this`punchBoundaries, this`rowNumberLabels, this`columnNumberLabels,
               this`contentColumnLabels, this`manufacturerLabel
      ensures o.Pass? <==> ContentPunches(cardContent).Ok? && ContentLabels(cardContent).Ok? && manufacturer.Some?
      ensures o.Fail? ==> o.error == if ContentPunches(cardContent).Err? then ContentPunches(cardContent).error
                                   else if ContentLabels(cardContent).Err? then ContentLabels(cardContent).error
                                   else AttributeError
      ensures o.Pass? ==>
        && cardStyle == Some(Style) && cardBoundary == Some(CardBoundary())
        && punchedHoles == Some(Group("cardpunches", None, ContentPunches(cardContent).value))
        && characterCells == Some(CharacterGrid()) && punchBoundaries == Some(PunchholeBoundaries())
        && rowNumberLabels == Some(RowNumberLabels()) && columnNumberLabels == Some(ColumnNumberLabels())
        && contentColumnLabels == Some(Group("cardpunchlabels", None, ContentLabels(cardContent).value))
        && manufacturerLabel == Some(ManufacturerLabel(manufacturer).value)
    {
      DefineCardStyle();
      DrawCardBoundary();
      o := DrawCardpunchContentPunches();
      if o.Fail? {
        return;
      }
      ghost var early := (cardStyle, cardBoundary, punchedHoles);
      DrawCharacterGrid();
      DrawPunchholeBoundaries();
      DrawRowNumberLabels();
      DrawColumnNumberLabels();
      ghost var grids := (characterCells, punchBoundaries, rowNumberLabels, columnNumberLabels);
      o := DrawCardpunchContentLabels();
      if o.Fail? {
        return;
      }
      ghost var printed := contentColumnLabels;
      o := DrawManufacturerLabeltext();
      if o.Pass? {
        assert (cardStyle, cardBoundary, punchedHoles) == early;
        assert (characterCells, punchBoundaries, rowNumberLabels, columnNumberLabels) == grids;
        assert contentColumnLabels == printed;
      }
    }

    /** `makesvg`: the layers in drawing order, with the printed material flattened to a
        raster when asked; `print_punchboxes` is accepted and ignored. */
    method MakeSvg(flattenPrintedMaterial: bool, printCellBoundaries: bool, printPunchBoundaries: bool,
                   printPunchBoxes: bool) returns (doc: Document)
      requires Groups().Some?
      ensures doc == Render(Groups().value, flattenPrintedMaterial, printCellBoundaries, printPunchBoundaries)
    {
      var cardLayers := [cardStyle.value];
      var documentTransform := Some((DocumentMarginLeft, DocumentMarginTop));
      var cutLinesElements := [cardBoundary.value, punchedHoles.value];
      var cutLinesG := Group("card_cutlines", documentTransform, cutLinesElements);

      var structureElements: seq<Element> := [];
      if printCellBoundaries {
        structureElements := structureElements + [characterCells.value];
      }
      if printPunchBoundaries {
        structureElements := structureElements + [punchBoundaries.value];
      }
      ghost var g := Groups().value;
      assert structureElements == StructureElements(g, printCellBoundaries, printPunchBoundaries);
      var printElements := [rowNumberLabels.value, columnNumberLabels.value, contentColumnLabels.value, manufacturerLabel.value];

      if flattenPrintedMaterial {
        var structureG := Group("punchcard_structure", None, structureElements);
        var printedG := Group("card_printed", None, printElements);
        var printSvg := Document(CardWidth, CardLength, (0.0, 0.0, CardWidth, CardLength),
                                 [cardStyle.value, printedG, structureG]);
        var flattenedImage := Image(CardWidth, CardLength, "flattened_print", PngOf(printSvg, 5, "white"));
        cardLayers := cardLayers + [Group("card_printed_flattened", documentTransform, [flattenedImage])];
      } else {
        var structureG := Group("punchcard_structure", documentTransform, structureElements);
        var printedG := Group("card_printed", documentTransform, printElements);
        cardLayers := cardLayers + [printedG, structureG];
      }
      cardLayers := cardLayers + [cutLinesG];
      return Document(DocumentWidth, DocumentHeight, (0.0, 0.0, DocumentWidth, DocumentHeight), cardLayers);
    }
  }

  /** Past the last row, the remaining holes add nothing. */
  lemma ColumnHolesDone(rows: seq<string>, i: nat, columnName: string, p: seq<Element>)
    requires i == |rows|
    ensures Prefixed(p, ColumnHoles(rows[i..], columnName)) == Ok(p)
  {
    assert rows[i..] == [] && p + [] == p;
  }

  /** `p + t` for a successful `r = Ok(t)`; the exception otherwise. */
  function Prefixed(p: seq<Element>, r: Result<seq<Element>>): Result<seq<Element>>
  {
    match r
    case Err(e) => Err(e)
    case Ok(t) => Ok(p + t)
  }

  lemma PrefixedEmpty(r: Result<seq<Element>>)
    ensures Prefixed([], r) == r
  {
    if r.Ok? {
      assert [] + r.value == r.value;
    }
  }

  lemma PrefixedAppend(p: seq<Element>, h: seq<Element>, r: Result<seq<Element>>)
    ensures Prefixed(p, match r case Err(e) => Err(e) case Ok(t) => Ok(h + t)) == Prefixed(p + h, r)
  {
    if r.Ok? {
      assert p + (h + r.value) == p + h + r.value;
    }
  }

  /** `PunchcardSVG(card_content, card_manufacturer_string, ...)`: the constructor stores
      its arguments and draws every group; an exception from a drawing step escapes the
      constructor, and no card is made. */
  method Create(content: string, manufacturerString: string, enableDocumentMargins: bool,
                enablePunchholePrintedCutlines: bool) returns (r: Result<PunchcardSvg>)
    ensures r.Ok? <==> Build(content, ManufacturerOf(manufacturerString)).Ok?
    ensures r.Err? ==> r.error == Build(content, ManufacturerOf(manufacturerString)).error
    ensures r.Ok? ==> fresh(r.value) && r.value.cardContent == content
    ensures r.Ok? ==> r.value.manufacturer == ManufacturerOf(manufacturerString)
    ensures r.Ok? ==> r.value.enableDocumentMargins == enableDocumentMargins
    ensures r.Ok? ==> r.value.Groups() == Some(Build(content, ManufacturerOf(manufacturerString)).value)
  {
    var card := new PunchcardSvg.Init(content, manufacturerString, enableDocumentMargins, enablePunchholePrintedCutlines);
    var o := card.MakeSvgContent();
    // `Build` fails with the first failing step, and otherwise collects the same groups.
    AssembleErrors(ContentPunches(content), ContentLabels(content), ManufacturerLabel(ManufacturerOf(manufacturerString)));
    if o.Fail? {
      return Err(o.error);
    }
    AssembleParts(ContentPunches(content), ContentLabels(content), ManufacturerOf(manufacturerString));
    return Ok(card);
  }
}
