/** The command-line entry point (src/puncher/__main__.py): the choice of card content,
    the summary of the four switches, and the card drawn for the parsed arguments. */
module PuncherMain {
  import opened Builtins
  import opened CodeTable
  import opened Geometry
  import opened Svg
  import opened Layout
  import opened Card

  /** The parsed arguments `main` reads. `argparse` makes `--cstring` and `--testpattern`
      mutually exclusive and requires one of them, so `cstring` is read only when
      `testpattern` is not set. */
  datatype Args = Args(testpattern: bool, cstring: string,
                       flatten: bool, cellboundaries: bool, punchboundaries: bool, printpunch: bool)

  /** The fixed test pattern, 63 characters: the zone characters `&` and `-`, the ten
      digits, the letters with `/`, and the 24 symbols punched with row 8 (27 characters
      other than digits and letters in all), written here in the groups of the code table. */
  const TestPattern: string :=
    "&-0123456789" + "ABCDEFGHI" + "JKLMNOPQR/STUVWXYZ" + ":#@'=\"" + "[.<(+|" + "]$*);^" + "\\,%_>?"

  /** The card content: the test pattern when asked for, the given string otherwise. */
  function Content(args: Args): string
  {
    if args.testpattern then TestPattern else args.cstring
  }

  // ---------------------------------------------------------------------------
  // `_switches`

  /** The switch names, in the order they are reported. */
  const SwitchNames: seq<string> := ["flatten", "cellboundaries", "punchboundaries", "printpunch"]

  /** `getattr(args, switch)` for one of the switch names. */
  function Flag(args: Args, name: string): bool
    requires name in SwitchNames
  {
    if name == "flatten" then args.flatten
    else if name == "cellboundaries" then args.cellboundaries
    else if name == "punchboundaries" then args.punchboundaries
    else args.printpunch
  }

  /** The report of one switch: its name after `+` when it is on, after `-` when it is off. */
  function SwitchEntry(on: bool, name: string): (e: string)
    ensures |e| == |name| + 1 && e[1..] == name
    ensures e[0] == (if on then '+' else '-')
    ensures forall ch :: ch in e <==> ch == e[0] || ch in name
  {
    (if on then "+" else "-") + name
  }

  /** The four reports, written out field by field. */
  function SwitchEntries(args: Args): seq<string>
  {
    [SwitchEntry(args.flatten, "flatten"), SwitchEntry(args.cellboundaries, "cellboundaries"),
     SwitchEntry(args.punchboundaries, "punchboundaries"), SwitchEntry(args.printpunch, "printpunch")]
  }

  /** `_switches`: the report of every switch, in the fixed order, joined by commas; the
      report splits back into exactly the four entries, so it has no empty entry and no
      leading or trailing comma. */
  method Switches(args: Args) returns (s: string)
    ensures s == Join(',', SwitchEntries(args))
    ensures Split(s, ',') == SwitchEntries(args)
    ensures s[0] != ',' && s[|s| - 1] != ','
  {
    var switches: seq<string> := [];
    var i := 0;
    while i < |SwitchNames|
      invariant 0 <= i <= |SwitchNames|
      invariant switches == SwitchEntries(args)[..i]
    {
      var switch := SwitchNames[i];
      switches := switches + [if Flag(args, switch) then "+" + switch else "-" + switch];
      i := i + 1;
    }
    assert switches == SwitchEntries(args);
    s := Join(',', switches);
    SwitchesSplit(args);
  }

  /** The joined report splits into the four entries again; its first character is the
      sign of `flatten` and its last the last letter of `printpunch`. */
  lemma SwitchesSplit(args: Args)
    ensures Split(Join(',', SwitchEntries(args)), ',') == SwitchEntries(args)
    ensures var s := Join(',', SwitchEntries(args));
      && |s| == 53 && s[0] == (if args.flatten then '+' else '-') && s[|s| - 1] == 'h'
  {
    var entries := SwitchEntries(args);
    assert ',' !in "flatten" && ',' !in "cellboundaries" && ',' !in "punchboundaries" && ',' !in "printpunch";
    SplitJoin(',', entries);
    JoinFour(',', entries);
  }

  // ---------------------------------------------------------------------------
  // The test pattern

  /** A character the code punches in at least one row. */
  ghost predicate Punched(c: char)
  {
    c in EbcdPunchRules && c != ' '
  }

  /** The test pattern has 63 characters, so it fits on a card. */
  lemma TestPatternFits()
    ensures |TestPattern| == 63 && |TestPattern| <= GridColumns
  {
  }

  /** The test pattern is the string `main` writes out. */
  lemma TestPatternText()
    ensures TestPattern == "&-0123456789ABCDEFGHIJKLMNOPQR/STUVWXYZ:#@'=\"[.<(+|]$*);^\\,%_>?"
  {
    LettersText();
    SymbolsText();
    assert TestPattern == ("&-0123456789" + "ABCDEFGHI" + "JKLMNOPQR/STUVWXYZ") + (":#@'=\"" + "[.<(+|" + "]$*);^" + "\\,%_>?");
    WholeText();
  }

  lemma WholeText()
    ensures "&-0123456789ABCDEFGHIJKLMNOPQR/STUVWXYZ" + ":#@'=\"[.<(+|]$*);^\\,%_>?"
      == "&-0123456789ABCDEFGHIJKLMNOPQR/STUVWXYZ:#@'=\"[.<(+|]$*);^\\,%_>?"
  {
  }

  lemma LettersText()
    ensures "&-0123456789" + "ABCDEFGHI" + "JKLMNOPQR/STUVWXYZ" == "&-0123456789ABCDEFGHIJKLMNOPQR/STUVWXYZ"
  {
  }

  lemma SymbolsText()
    ensures ":#@'=\"" + "[.<(+|" + "]$*);^" + "\\,%_>?" == ":#@'=\"[.<(+|]$*);^\\,%_>?"
  {
  }

  /** Every character of the test pattern is a key of the code table and is punched in at
      least one row. */
  lemma TestPatternPunched()
    ensures forall c :: c in TestPattern ==> Punched(c) && |PunchRows(c)| >= 1
  {
    LettersAndDigitsPunched();
    SymbolsPunched();
    forall c | c in TestPattern ensures Punched(c) && |PunchRows(c)| >= 1 {
      PunchRowsZoneDigit(c);
    }
  }

  /** The zone characters, the digits and the letters, by the zone-and-digit scheme. */
  lemma LettersAndDigitsPunched()
    ensures forall c :: c in "&-0123456789" + "ABCDEFGHI" + "JKLMNOPQR/STUVWXYZ" ==> Punched(c)
  {
    ZoneDigitCodeListed();
    ZoneAndDigitCharacters();
    ZoneTwelveLetters();
    RestOfLetters();
  }

  lemma ZoneAndDigitCharacters()
    ensures forall c :: c in "&-0123456789" ==> ZoneDigitCode(c).Some? && c != ' '
  {
  }

  lemma ZoneTwelveLetters()
    ensures forall c :: c in "ABCDEFGHI" ==> ZoneDigitCode(c).Some? && c != ' '
  {
  }

  lemma RestOfLetters()
    ensures forall c :: c in "JKLMNOPQR/STUVWXYZ" ==> ZoneDigitCode(c).Some? && c != ' '
  {
  }

  /** The symbols, each in its group of the table. */
  lemma SymbolsPunched()
    ensures forall c :: c in ":#@'=\"" + "[.<(+|" + "]$*);^" + "\\,%_>?" ==> Punched(c)
  {
    SymbolPartsInTable();
    EightRowSymbols();
    ZoneTwelveSymbols();
    ZoneElevenSymbols();
    ZoneZeroSymbols();
  }

  lemma EightRowSymbols()
    ensures forall c :: c in ":#@'=\"" ==> c in EightRowSymbolRules && c != ' '
  {
  }

  lemma ZoneTwelveSymbols()
    ensures forall c :: c in "[.<(+|" ==> c in ZoneTwelveSymbolRules && c != ' '
  {
  }

  lemma ZoneElevenSymbols()
    ensures forall c :: c in "]$*);^" ==> c in ZoneElevenSymbolRules && c != ' '
  {
  }

  lemma ZoneZeroSymbols()
    ensures forall c :: c in "\\,%_>?" ==> c in ZoneZeroSymbolRules && c != ' '
  {
  }

  /** A content whose first `n` characters are each punched somewhere has at least `n`
      holes among them. */
  lemma {:induction false} HoleCountAtLeast(content: string, n: nat)
    requires n <= |content|
    requires forall i :: 0 <= i < n ==> |PunchRows(content[i])| >= 1
    ensures HoleCount(content, n) >= n
  {
    if n > 0 {
      HoleCountAtLeast(content, n - 1);
    }
  }

  // ---------------------------------------------------------------------------
  // `main`

  /** The console message announcing the card. */
  function Announcement(content: string, switches: string): string
  {
    "creating punchcard with content: \"" + content + "\", switches=" + switches + " "
  }

  /** `main` up to the drawing: the content is chosen, announced with the switches, and a
      card with the default manufacturer line is created and drawn with the four switches
      passed to the same-named options of `makesvg`. A content longer than 80 characters
      raises `ValueError`; the test pattern always draws, with at least one hole per
      character. */
  method Run(args: Args) returns (message: string, r: Result<Document>)
    ensures message == Announcement(Content(args), Join(',', SwitchEntries(args)))
    ensures r.Ok? <==> |Content(args)| <= GridColumns
    ensures r.Err? ==> r.error == ValueError
    ensures args.testpattern ==> r.Ok?
    ensures r.Ok? ==>
      && Build(Content(args), Some(DefaultManufacturer)).Ok?
      && r.value == Render(Build(Content(args), Some(DefaultManufacturer)).value,
                           args.flatten, args.cellboundaries, args.punchboundaries)
  {
    var content: string;
    if args.testpattern {
      content := TestPattern;
    } else {
      content := args.cstring;
    }
    var switches := Switches(args);
    message := Announcement(content, switches);
    CreateSpec(content, DefaultManufacturer);
    if args.testpattern {
      TestPatternFits();
    }
    var ps := Create(content, DefaultManufacturer, true, false);
    if ps.Err? {
      return message, Err(ps.error);
    }
    var svgContent := ps.value.MakeSvg(args.flatten, args.cellboundaries, args.punchboundaries, args.printpunch);
    return message, Ok(svgContent);
  }

  /** The test pattern's card holds at least one hole for each of its 63 characters. */
  lemma TestPatternHoles(content: string)
    requires content == TestPattern
    ensures ContentPunches(content).Ok? && |ContentPunches(content).value| >= 63
  {
    TestPatternFits();
    TestPatternPunched();
    ContentPunchesSpec(content);
    ContentPunchesCount(content);
    forall i | 0 <= i < |content| ensures |PunchRows(content[i])| >= 1 {
      assert content[i] in TestPattern;
    }
    HoleCountAtLeast(content, |content|);
  }
}
