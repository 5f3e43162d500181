/** The punch code of the card (src/puncher/puncher.py): the twelve punch-row labels in
    top-to-bottom order, the eighty column labels, and the table from a character to
    the rows punched in its column. */
module CodeTable {
  import opened Builtins

  /** `CARD_HOLE_ROW_NUMBERING`: the zone rows 12 and 11, then the digit rows 0 to 9. */
  const RowLabels: seq<string> := ["12", "11", "0", "1", "2", "3", "4", "5", "6", "7", "8", "9"]

  /** `CARD_HOLE_COLUMN_NUMBERING`: `str(k)` for k in 1..80. */
  const ColumnLabels: seq<string> := ColumnNumbering(80)

  /** The labels `str(1)` to `str(n)`, in order. */
  function ColumnNumbering(n: nat): (labels: seq<string>)
    ensures |labels| == n
  {
    seq(n, i requires 0 <= i < n => DecimalString(i + 1))
  }

  /** The label at index `i` is `str(i + 1)`. */
  lemma ColumnLabelsAt(i: nat)
    requires i < |ColumnLabels|
    ensures ColumnLabels[i] == DecimalString(i + 1)
  {
  }

  /** `EBCD_PUNCH_RULES`: the punched rows of every character of the code. It is one
      constant dictionary; it is written here as the union of its eight parts, grouped
      by zone, whose keys are disjoint. */
  const EbcdPunchRules: map<char, seq<string>> := LetterAndDigitRules + SymbolRules

  /** The blank, the digits, the letters and the three zone characters `&`, `-`, `/`. */
  const LetterAndDigitRules: map<char, seq<string>> :=
    ZoneAndDigitRules + ZoneTwelveLetterRules + ZoneElevenLetterRules + ZoneZeroLetterRules

  /** The symbols punched with row 8. */
  const SymbolRules: map<char, seq<string>> :=
    EightRowSymbolRules + ZoneTwelveSymbolRules + ZoneElevenSymbolRules + ZoneZeroSymbolRules

  /** Blank, the two zone characters `&` (row 12) and `-` (row 11), and the ten digits: at most one row. */
  const ZoneAndDigitRules: map<char, seq<string>> := map[
    ' ' := [],
    '&' := ["12"],
    '-' := ["11"],
    '0' := ["0"],
    '1' := ["1"],
    '2' := ["2"],
    '3' := ["3"],
    '4' := ["4"],
    '5' := ["5"],
    '6' := ["6"],
    '7' := ["7"],
    '8' := ["8"],
    '9' := ["9"]
  ]

  /** `A` to `I`: row 12 and a digit row 1 to 9. */
  const ZoneTwelveLetterRules: map<char, seq<string>> := map[
    'A' := ["12", "1"],
    'B' := ["12", "2"],
    'C' := ["12", "3"],
    'D' := ["12", "4"],
    'E' := ["12", "5"],
    'F' := ["12", "6"],
    'G' := ["12", "7"],
    'H' := ["12", "8"],
    'I' := ["12", "9"]
  ]

  /** `J` to `R`: row 11 and a digit row 1 to 9. */
  const ZoneElevenLetterRules: map<char, seq<string>> := map[
    'J' := ["11", "1"],
    'K' := ["11", "2"],
    'L' := ["11", "3"],
    'M' := ["11", "4"],
    'N' := ["11", "5"],
    'O' := ["11", "6"],
    'P' := ["11", "7"],
    'Q' := ["11", "8"],
    'R' := ["11", "9"]
  ]

  /** `/` and `S` to `Z`: row 0 and a digit row 1 to 9. */
  const ZoneZeroLetterRules: map<char, seq<string>> := map[
    '/' := ["0", "1"],
    'S' := ["0", "2"],
    'T' := ["0", "3"],
    'U' := ["0", "4"],
    'V' := ["0", "5"],
    'W' := ["0", "6"],
    'X' := ["0", "7"],
    'Y' := ["0", "8"],
    'Z' := ["0", "9"]
  ]

  /** Symbols without a zone: a digit row 2 to 7 and row 8. */
  const EightRowSymbolRules: map<char, seq<string>> := map[
    ':' := ["2", "8"],
    '#' := ["3", "8"],
    '@' := ["4", "8"],
    '\'' := ["5", "8"],
    '=' := ["6", "8"],
    '"' := ["7", "8"]
  ]

  /** Symbols in zone 12: row 12, a digit row 2 to 7 and row 8. */
  const ZoneTwelveSymbolRules: map<char, seq<string>> := map[
    '[' := ["12", "2", "8"],
    '.' := ["12", "3", "8"],
    '<' := ["12", "4", "8"],
    '(' := ["12", "5", "8"],
    '+' := ["12", "6", "8"],
    '|' := ["12", "7", "8"]
  ]

  /** Symbols in zone 11: row 11, a digit row 2 to 7 and row 8. */
  const ZoneElevenSymbolRules: map<char, seq<string>> := map[
    ']' := ["11", "2", "8"],
    '$' := ["11", "3", "8"],
    '*' := ["11", "4", "8"],
    ')' := ["11", "5", "8"],
    ';' := ["11", "6", "8"],
    '^' := ["11", "7", "8"]
  ]

  /** Symbols in zone 0: row 0, a digit row 2 to 7 and row 8. */
  const ZoneZeroSymbolRules: map<char, seq<string>> := map[
    '\\' := ["0", "2", "8"],
    ',' := ["0", "3", "8"],
    '%' := ["0", "4", "8"],
    '_' := ["0", "5", "8"],
    '>' := ["0", "6", "8"],
    '?' := ["0", "7", "8"]
  ]

  /** The position of a row label in the top-to-bottom order; -1 for any other string. */
  ghost function RowRank(rowName: string): int
  {
    match IndexOf(RowLabels, rowName)
    case Ok(i) => i
    case Err(_) => -1
  }

  /** `CARD_HOLE_ROW_NUMBERING.index(rowName)` for a row label. */
  function RowIndex(rowName: string): (i: nat)
    requires rowName in RowLabels
    ensures i < |RowLabels| && RowLabels[i] == rowName && i == RowRank(rowName)
  {
    IndexOfSpec(RowLabels, rowName);
    IndexOf(RowLabels, rowName).value
  }

  /** A punch pattern as the table writes them: at most three rows, each a row label,
      listed top to bottom without repetition. */
  ghost predicate WellFormedRule(rows: seq<string>)
  {
    && |rows| <= 3
    && (forall j :: 0 <= j < |rows| ==> rows[j] in RowLabels)
    && (forall j, k :: 0 <= j < k < |rows| ==> RowRank(rows[j]) < RowRank(rows[k]))
  }

  lemma RowLabelsDistinct()
    ensures forall j, k :: 0 <= j < k < |RowLabels| ==> RowLabels[j] != RowLabels[k]
  {
  }

  /** Each row label is found at its own position. */
  lemma RowLabelIndices()
    ensures forall r :: 0 <= r < |RowLabels| ==> IndexOf(RowLabels, RowLabels[r]) == Ok(r)
  {
    RowLabelsDistinct();
    forall r | 0 <= r < |RowLabels| ensures IndexOf(RowLabels, RowLabels[r]) == Ok(r) {
      IndexOfDistinct(RowLabels, r);
    }
  }

  /** Where `CARD_HOLE_ROW_NUMBERING.index` finds each row label. */
  lemma RowLabelIndexFacts()
    ensures
      IndexOf(RowLabels, "12") == Ok(0) &&
      IndexOf(RowLabels, "11") == Ok(1) &&
      IndexOf(RowLabels, "0") == Ok(2) &&
      IndexOf(RowLabels, "1") == Ok(3) &&
      IndexOf(RowLabels, "2") == Ok(4) &&
      IndexOf(RowLabels, "3") == Ok(5) &&
      IndexOf(RowLabels, "4") == Ok(6) &&
      IndexOf(RowLabels, "5") == Ok(7) &&
      IndexOf(RowLabels, "6") == Ok(8) &&
      IndexOf(RowLabels, "7") == Ok(9) &&
      IndexOf(RowLabels, "8") == Ok(10) &&
      IndexOf(RowLabels, "9") == Ok(11)
  {
    RowLabelIndices();
    assert RowLabels[0] == "12" && RowLabels[1] == "11" && RowLabels[2] == "0" && RowLabels[3] == "1" && RowLabels[4] == "2" && RowLabels[5] == "3" && RowLabels[6] == "4" && RowLabels[7] == "5" && RowLabels[8] == "6" && RowLabels[9] == "7" && RowLabels[10] == "8" && RowLabels[11] == "9";
  }

  /** The rank of the `r`-th row label is `r`. */
  lemma RowRankOf(r: nat)
    requires r < |RowLabels|
    ensures RowRank(RowLabels[r]) == r
  {
    RowLabelsDistinct();
    IndexOfDistinct(RowLabels, r);
  }

  lemma RuleWellFormed1(a: nat)
    requires a < 12
    ensures WellFormedRule([RowLabels[a]])
  {
  }

  lemma RuleWellFormed2(a: nat, b: nat)
    requires a < b < 12
    ensures WellFormedRule([RowLabels[a], RowLabels[b]])
  {
    RowRankOf(a);
    RowRankOf(b);
  }

  lemma RuleWellFormed3(a: nat, b: nat, c: nat)
    requires a < b < c < 12
    ensures WellFormedRule([RowLabels[a], RowLabels[b], RowLabels[c]])
  {
    RowRankOf(a);
    RowRankOf(b);
    RowRankOf(c);
  }

  lemma ZoneAndDigitRulesWellFormed()
    ensures forall c :: c in ZoneAndDigitRules ==> WellFormedRule(ZoneAndDigitRules[c])
  {
    forall c | c in ZoneAndDigitRules ensures WellFormedRule(ZoneAndDigitRules[c]) {
      if c == ' ' {
        
      } else if c == '&' {
        RuleWellFormed1(0); assert ZoneAndDigitRules[c] == [RowLabels[0]];
      } else if c == '-' {
        RuleWellFormed1(1); assert ZoneAndDigitRules[c] == [RowLabels[1]];
      } else if c == '0' {
        RuleWellFormed1(2); assert ZoneAndDigitRules[c] == [RowLabels[2]];
      } else if c == '1' {
        RuleWellFormed1(3); assert ZoneAndDigitRules[c] == [RowLabels[3]];
      } else if c == '2' {
        RuleWellFormed1(4); assert ZoneAndDigitRules[c] == [RowLabels[4]];
      } else if c == '3' {
        RuleWellFormed1(5); assert ZoneAndDigitRules[c] == [RowLabels[5]];
      } else if c == '4' {
        RuleWellFormed1(6); assert ZoneAndDigitRules[c] == [RowLabels[6]];
      } else if c == '5' {
        RuleWellFormed1(7); assert ZoneAndDigitRules[c] == [RowLabels[7]];
      } else if c == '6' {
        RuleWellFormed1(8); assert ZoneAndDigitRules[c] == [RowLabels[8]];
      } else if c == '7' {
        RuleWellFormed1(9); assert ZoneAndDigitRules[c] == [RowLabels[9]];
      } else if c == '8' {
        RuleWellFormed1(10); assert ZoneAndDigitRules[c] == [RowLabels[10]];
      } else if c == '9' {
        RuleWellFormed1(11); assert ZoneAndDigitRules[c] == [RowLabels[11]];
      }
    }
  }

  lemma ZoneTwelveLetterRulesWellFormed()
    ensures forall c :: c in ZoneTwelveLetterRules ==> WellFormedRule(ZoneTwelveLetterRules[c])
  {
    forall c | c in ZoneTwelveLetterRules ensures WellFormedRule(ZoneTwelveLetterRules[c]) {
      if c == 'A' {
        RuleWellFormed2(0, 3); assert ZoneTwelveLetterRules[c] == [RowLabels[0], RowLabels[3]];
      } else if c == 'B' {
        RuleWellFormed2(0, 4); assert ZoneTwelveLetterRules[c] == [RowLabels[0], RowLabels[4]];
      } else if c == 'C' {
        RuleWellFormed2(0, 5); assert ZoneTwelveLetterRules[c] == [RowLabels[0], RowLabels[5]];
      } else if c == 'D' {
        RuleWellFormed2(0, 6); assert ZoneTwelveLetterRules[c] == [RowLabels[0], RowLabels[6]];
      } else if c == 'E' {
        RuleWellFormed2(0, 7); assert ZoneTwelveLetterRules[c] == [RowLabels[0], RowLabels[7]];
      } else if c == 'F' {
        RuleWellFormed2(0, 8); assert ZoneTwelveLetterRules[c] == [RowLabels[0], RowLabels[8]];
      } else if c == 'G' {
        RuleWellFormed2(0, 9); assert ZoneTwelveLetterRules[c] == [RowLabels[0], RowLabels[9]];
      } else if c == 'H' {
        RuleWellFormed2(0, 10); assert ZoneTwelveLetterRules[c] == [RowLabels[0], RowLabels[10]];
      } else if c == 'I' {
        RuleWellFormed2(0, 11); assert ZoneTwelveLetterRules[c] == [RowLabels[0], RowLabels[11]];
      }
    }
  }

  lemma ZoneElevenLetterRulesWellFormed()
    ensures forall c :: c in ZoneElevenLetterRules ==> WellFormedRule(ZoneElevenLetterRules[c])
  {
    forall c | c in ZoneElevenLetterRules ensures WellFormedRule(ZoneElevenLetterRules[c]) {
      if c == 'J' {
        RuleWellFormed2(1, 3); assert ZoneElevenLetterRules[c] == [RowLabels[1], RowLabels[3]];
      } else if c == 'K' {
        RuleWellFormed2(1, 4); assert ZoneElevenLetterRules[c] == [RowLabels[1], RowLabels[4]];
      } else if c == 'L' {
        RuleWellFormed2(1, 5); assert ZoneElevenLetterRules[c] == [RowLabels[1], RowLabels[5]];
      } else if c == 'M' {
        RuleWellFormed2(1, 6); assert ZoneElevenLetterRules[c] == [RowLabels[1], RowLabels[6]];
      } else if c == 'N' {
        RuleWellFormed2(1, 7); assert ZoneElevenLetterRules[c] == [RowLabels[1], RowLabels[7]];
      } else if c == 'O' {
        RuleWellFormed2(1, 8); assert ZoneElevenLetterRules[c] == [RowLabels[1], RowLabels[8]];
      } else if c == 'P' {
        RuleWellFormed2(1, 9); assert ZoneElevenLetterRules[c] == [RowLabels[1], RowLabels[9]];
      } else if c == 'Q' {
        RuleWellFormed2(1, 10); assert ZoneElevenLetterRules[c] == [RowLabels[1], RowLabels[10]];
      } else if c == 'R' {
        RuleWellFormed2(1, 11); assert ZoneElevenLetterRules[c] == [RowLabels[1], RowLabels[11]];
      }
    }
  }

  lemma ZoneZeroLetterRulesWellFormed()
    ensures forall c :: c in ZoneZeroLetterRules ==> WellFormedRule(ZoneZeroLetterRules[c])
  {
    forall c | c in ZoneZeroLetterRules ensures WellFormedRule(ZoneZeroLetterRules[c]) {
      if c == '/' {
        RuleWellFormed2(2, 3); assert ZoneZeroLetterRules[c] == [RowLabels[2], RowLabels[3]];
      } else if c == 'S' {
        RuleWellFormed2(2, 4); assert ZoneZeroLetterRules[c] == [RowLabels[2], RowLabels[4]];
      } else if c == 'T' {
        RuleWellFormed2(2, 5); assert ZoneZeroLetterRules[c] == [RowLabels[2], RowLabels[5]];
      } else if c == 'U' {
        RuleWellFormed2(2, 6); assert ZoneZeroLetterRules[c] == [RowLabels[2], RowLabels[6]];
      } else if c == 'V' {
        RuleWellFormed2(2, 7); assert ZoneZeroLetterRules[c] == [RowLabels[2], RowLabels[7]];
      } else if c == 'W' {
        RuleWellFormed2(2, 8); assert ZoneZeroLetterRules[c] == [RowLabels[2], RowLabels[8]];
      } else if c == 'X' {
        RuleWellFormed2(2, 9); assert ZoneZeroLetterRules[c] == [RowLabels[2], RowLabels[9]];
      } else if c == 'Y' {
        RuleWellFormed2(2, 10); assert ZoneZeroLetterRules[c] == [RowLabels[2], RowLabels[10]];
      } else if c == 'Z' {
        RuleWellFormed2(2, 11); assert ZoneZeroLetterRules[c] == [RowLabels[2], RowLabels[11]];
      }
    }
  }

  lemma EightRowSymbolRulesWellFormed()
    ensures forall c :: c in EightRowSymbolRules ==> WellFormedRule(EightRowSymbolRules[c])
  {
    forall c | c in EightRowSymbolRules ensures WellFormedRule(EightRowSymbolRules[c]) {
      if c == ':' {
        RuleWellFormed2(4, 10); assert EightRowSymbolRules[c] == [RowLabels[4], RowLabels[10]];
      } else if c == '#' {
        RuleWellFormed2(5, 10); assert EightRowSymbolRules[c] == [RowLabels[5], RowLabels[10]];
      } else if c == '@' {
        RuleWellFormed2(6, 10); assert EightRowSymbolRules[c] == [RowLabels[6], RowLabels[10]];
      } else if c == '\'' {
        RuleWellFormed2(7, 10); assert EightRowSymbolRules[c] == [RowLabels[7], RowLabels[10]];
      } else if c == '=' {
        RuleWellFormed2(8, 10); assert EightRowSymbolRules[c] == [RowLabels[8], RowLabels[10]];
      } else if c == '"' {
        RuleWellFormed2(9, 10); assert EightRowSymbolRules[c] == [RowLabels[9], RowLabels[10]];
      }
    }
  }

  lemma ZoneTwelveSymbolRulesWellFormed()
    ensures forall c :: c in ZoneTwelveSymbolRules ==> WellFormedRule(ZoneTwelveSymbolRules[c])
  {
    forall c | c in ZoneTwelveSymbolRules ensures WellFormedRule(ZoneTwelveSymbolRules[c]) {
      if c == '[' {
        RuleWellFormed3(0, 4, 10); assert ZoneTwelveSymbolRules[c] == [RowLabels[0], RowLabels[4], RowLabels[10]];
      } else if c == '.' {
        RuleWellFormed3(0, 5, 10); assert ZoneTwelveSymbolRules[c] == [RowLabels[0], RowLabels[5], RowLabels[10]];
      } else if c == '<' {
        RuleWellFormed3(0, 6, 10); assert ZoneTwelveSymbolRules[c] == [RowLabels[0], RowLabels[6], RowLabels[10]];
      } else if c == '(' {
        RuleWellFormed3(0, 7, 10); assert ZoneTwelveSymbolRules[c] == [RowLabels[0], RowLabels[7], RowLabels[10]];
      } else if c == '+' {
        RuleWellFormed3(0, 8, 10); assert ZoneTwelveSymbolRules[c] == [RowLabels[0], RowLabels[8], RowLabels[10]];
      } else if c == '|' {
        RuleWellFormed3(0, 9, 10); assert ZoneTwelveSymbolRules[c] == [RowLabels[0], RowLabels[9], RowLabels[10]];
      }
    }
  }

  lemma ZoneElevenSymbolRulesWellFormed()
    ensures forall c :: c in ZoneElevenSymbolRules ==> WellFormedRule(ZoneElevenSymbolRules[c])
  {
    forall c | c in ZoneElevenSymbolRules ensures WellFormedRule(ZoneElevenSymbolRules[c]) {
      if c == ']' {
        RuleWellFormed3(1, 4, 10); assert ZoneElevenSymbolRules[c] == [RowLabels[1], RowLabels[4], RowLabels[10]];
      } else if c == '$' {
        RuleWellFormed3(1, 5, 10); assert ZoneElevenSymbolRules[c] == [RowLabels[1], RowLabels[5], RowLabels[10]];
      } else if c == '*' {
        RuleWellFormed3(1, 6, 10); assert ZoneElevenSymbolRules[c] == [RowLabels[1], RowLabels[6], RowLabels[10]];
      } else if c == ')' {
        RuleWellFormed3(1, 7, 10); assert ZoneElevenSymbolRules[c] == [RowLabels[1], RowLabels[7], RowLabels[10]];
      } else if c == ';' {
        RuleWellFormed3(1, 8, 10); assert ZoneElevenSymbolRules[c] == [RowLabels[1], RowLabels[8], RowLabels[10]];
      } else if c == '^' {
        RuleWellFormed3(1, 9, 10); assert ZoneElevenSymbolRules[c] == [RowLabels[1], RowLabels[9], RowLabels[10]];
      }
    }
  }

  lemma ZoneZeroSymbolRulesWellFormed()
    ensures forall c :: c in ZoneZeroSymbolRules ==> WellFormedRule(ZoneZeroSymbolRules[c])
  {
    forall c | c in ZoneZeroSymbolRules ensures WellFormedRule(ZoneZeroSymbolRules[c]) {
      if c == '\\' {
        RuleWellFormed3(2, 4, 10); assert ZoneZeroSymbolRules[c] == [RowLabels[2], RowLabels[4], RowLabels[10]];
      } else if c == ',' {
        RuleWellFormed3(2, 5, 10); assert ZoneZeroSymbolRules[c] == [RowLabels[2], RowLabels[5], RowLabels[10]];
      } else if c == '%' {
        RuleWellFormed3(2, 6, 10); assert ZoneZeroSymbolRules[c] == [RowLabels[2], RowLabels[6], RowLabels[10]];
      } else if c == '_' {
        RuleWellFormed3(2, 7, 10); assert ZoneZeroSymbolRules[c] == [RowLabels[2], RowLabels[7], RowLabels[10]];
      } else if c == '>' {
        RuleWellFormed3(2, 8, 10); assert ZoneZeroSymbolRules[c] == [RowLabels[2], RowLabels[8], RowLabels[10]];
      } else if c == '?' {
        RuleWellFormed3(2, 9, 10); assert ZoneZeroSymbolRules[c] == [RowLabels[2], RowLabels[9], RowLabels[10]];
      }
    }
  }

  /** Every entry of the table is a well-formed punch pattern. */
  lemma EbcdPunchRulesWellFormed()
    ensures forall c :: c in EbcdPunchRules ==> WellFormedRule(EbcdPunchRules[c])
  {
    LetterAndDigitRulesWellFormed();
    SymbolRulesWellFormed();
  }

  lemma LetterAndDigitRulesWellFormed()
    ensures forall c :: c in LetterAndDigitRules ==> WellFormedRule(LetterAndDigitRules[c])
  {
    ZoneAndDigitRulesWellFormed();
    ZoneTwelveLetterRulesWellFormed();
    ZoneElevenLetterRulesWellFormed();
    ZoneZeroLetterRulesWellFormed();
  }

  lemma SymbolRulesWellFormed()
    ensures forall c :: c in SymbolRules ==> WellFormedRule(SymbolRules[c])
  {
    EightRowSymbolRulesWellFormed();
    ZoneTwelveSymbolRulesWellFormed();
    ZoneElevenSymbolRulesWellFormed();
    ZoneZeroSymbolRulesWellFormed();
  }

  /** `EBCD_PUNCH_RULES.get(character, [])`: the rows punched for a character; a character
      outside the table punches nothing, it is not an error. */
  function PunchRows(c: char): seq<string>
  {
    if c in EbcdPunchRules then EbcdPunchRules[c] else []
  }

  // ---------------------------------------------------------------------------
  // The zone-and-digit scheme of the letters and digits

  /** The Hollerith scheme the table follows for the blank, the digits, the letters and
      `&`, `-`, `/`: a digit punches its own row; `A`-`I` punch row 12 and a digit 1-9,
      `J`-`R` row 11 and a digit 1-9, `/` and `S`-`Z` row 0 and a digit 1-9. For the
      remaining symbols the scheme says nothing (`None`). */
  function ZoneDigitCode(c: char): Option<seq<string>>
  {
    if c == ' ' then Some([])
    else if c == '&' then Some(["12"])
    else if c == '-' then Some(["11"])
    else if '0' <= c <= '9' then Some([[c]])
    else if 'A' <= c <= 'I' then Some(["12", [Digit(c as int - 'A' as int + 1)]])
    else if 'J' <= c <= 'R' then Some(["11", [Digit(c as int - 'J' as int + 1)]])
    else if c == '/' then Some(["0", "1"])
    else if 'S' <= c <= 'Z' then Some(["0", [Digit(c as int - 'S' as int + 2)]])
    else None
  }

  /** An entry of the table: it follows the zone-and-digit scheme where the scheme applies,
      and only the blank punches nothing. */
  ghost predicate TableEntry(c: char, rows: seq<string>)
  {
    && (ZoneDigitCode(c).Some? ==> rows == ZoneDigitCode(c).value)
    && (c != ' ' ==> |rows| >= 1)
  }

  lemma ZoneAndDigitEntries()
    ensures forall c :: c in ZoneAndDigitRules ==> TableEntry(c, ZoneAndDigitRules[c])
  {
  }

  lemma ZoneTwelveLetterEntries()
    ensures forall c :: c in ZoneTwelveLetterRules ==> TableEntry(c, ZoneTwelveLetterRules[c])
  {
  }

  lemma ZoneElevenLetterEntries()
    ensures forall c :: c in ZoneElevenLetterRules ==> TableEntry(c, ZoneElevenLetterRules[c])
  {
  }

  lemma ZoneZeroLetterEntries()
    ensures forall c :: c in ZoneZeroLetterRules ==> TableEntry(c, ZoneZeroLetterRules[c])
  {
  }

  lemma EightRowSymbolEntries()
    ensures forall c :: c in EightRowSymbolRules ==> TableEntry(c, EightRowSymbolRules[c])
  {
  }

  lemma ZoneTwelveSymbolEntries()
    ensures forall c :: c in ZoneTwelveSymbolRules ==> TableEntry(c, ZoneTwelveSymbolRules[c])
  {
  }

  lemma ZoneElevenSymbolEntries()
    ensures forall c :: c in ZoneElevenSymbolRules ==> TableEntry(c, ZoneElevenSymbolRules[c])
  {
  }

  lemma ZoneZeroSymbolEntries()
    ensures forall c :: c in ZoneZeroSymbolRules ==> TableEntry(c, ZoneZeroSymbolRules[c])
  {
  }

  lemma EbcdPunchRulesEntries()
    ensures forall c :: c in EbcdPunchRules ==> TableEntry(c, EbcdPunchRules[c])
  {
    LetterAndDigitEntries();
    SymbolEntries();
  }

  lemma LetterAndDigitEntries()
    ensures forall c :: c in LetterAndDigitRules ==> TableEntry(c, LetterAndDigitRules[c])
  {
    ZoneAndDigitEntries();
    ZoneTwelveLetterEntries();
    ZoneElevenLetterEntries();
    ZoneZeroLetterEntries();
  }

  lemma SymbolEntries()
    ensures forall c :: c in SymbolRules ==> TableEntry(c, SymbolRules[c])
  {
    EightRowSymbolEntries();
    ZoneTwelveSymbolEntries();
    ZoneElevenSymbolEntries();
    ZoneZeroSymbolEntries();
  }

  ghost predicate InLetterParts(c: char)
  {
    c in ZoneAndDigitRules || c in ZoneTwelveLetterRules || c in ZoneElevenLetterRules || c in ZoneZeroLetterRules
  }

  lemma ZoneDigitCodeInParts()
    ensures forall c :: ZoneDigitCode(c).Some? ==> InLetterParts(c)
  {
    assert forall c :: 'A' <= c <= 'I' ==> c in ZoneTwelveLetterRules;
    assert forall c :: 'J' <= c <= 'R' ==> c in ZoneElevenLetterRules;
    assert forall c :: 'S' <= c <= 'Z' ==> c in ZoneZeroLetterRules;
    assert forall c :: '0' <= c <= '9' ==> c in ZoneAndDigitRules;
  }

  lemma LetterPartsInTable()
    ensures forall c :: InLetterParts(c) ==> c in EbcdPunchRules
  {
  }

  ghost predicate InSymbolParts(c: char)
  {
    c in EightRowSymbolRules || c in ZoneTwelveSymbolRules || c in ZoneElevenSymbolRules || c in ZoneZeroSymbolRules
  }

  lemma SymbolPartsInTable()
    ensures forall c :: InSymbolParts(c) ==> c in EbcdPunchRules
  {
  }

  /** Every character the scheme covers is in the table. */
  lemma ZoneDigitCodeListed()
    ensures forall c :: ZoneDigitCode(c).Some? ==> c in EbcdPunchRules
  {
    ZoneDigitCodeInParts();
    LetterPartsInTable();
  }

  /** `EBCD_PUNCH_RULES.get` follows the zone-and-digit scheme for the blank, the digits,
      the letters and `&`, `-`, `/`; and every listed character other than the blank
      punches at least one row. */
  lemma PunchRowsZoneDigit(c: char)
    ensures ZoneDigitCode(c).Some? ==> PunchRows(c) == ZoneDigitCode(c).value
    ensures c in EbcdPunchRules && c != ' ' ==> |PunchRows(c)| >= 1
  {
    EbcdPunchRulesEntries();
    ZoneDigitCodeListed();
  }

  /** The examples of the code: `A` is punched in rows 12 and 1, `0` in row 0 alone, and
      the blank nowhere. */
  lemma PunchRowsExamples()
    ensures PunchRows('A') == ["12", "1"] && PunchRows('0') == ["0"] && PunchRows(' ') == []
  {
    assert ZoneDigitCode('0') == Some(["0"]);
    assert ZoneDigitCode(' ') == Some([]);
    assert Digit(1) == '1';
    assert ZoneDigitCode('A') == Some(["12", "1"]);
    PunchRowsOfCode('0', ["0"]);
    PunchRowsOfCode(' ', []);
    PunchRowsOfCode('A', ["12", "1"]);
  }

  lemma PunchRowsOfCode(c: char, rows: seq<string>)
    requires ZoneDigitCode(c) == Some(rows)
    ensures PunchRows(c) == rows
  {
    PunchRowsZoneDigit(c);
  }

  /** The lower-case letters are not in the table, so `a` punches nothing. */
  lemma PunchRowsUnlisted()
    ensures 'a' !in EbcdPunchRules && PunchRows('a') == []
  {
    LowerCaseNotInLetterParts();
    LowerCaseNotInSymbolParts();
    NotInParts('a');
  }

  lemma LowerCaseNotInLetterParts()
    ensures !InLetterParts('a')
  {
  }

  lemma LowerCaseNotInSymbolParts()
    ensures !InSymbolParts('a')
  {
  }

  /** A character in none of the eight parts is not in the table and punches nothing. */
  lemma NotInParts(c: char)
    requires !InLetterParts(c) && !InSymbolParts(c)
    ensures c !in EbcdPunchRules && PunchRows(c) == []
  {
    NotInLetterParts(c);
    NotInSymbolParts(c);
  }

  /** A key of the letters-and-digits half is a key of one of its four parts. */
  lemma NotInLetterParts(c: char)
    requires !InLetterParts(c)
    ensures c !in LetterAndDigitRules
  {
  }

  /** A key of the symbols half is a key of one of its four parts. */
  lemma NotInSymbolParts(c: char)
    requires !InSymbolParts(c)
    ensures c !in SymbolRules
  {
  }

  /** Where the rows of the examples sit, top to bottom. */
  lemma RowIndexExamples()
    ensures RowIndex("12") == 0 && RowIndex("1") == 3 && RowIndex("0") == 2
  {
    RowLabelIndexFacts();
  }

  /** Whatever the character, the rows it punches are a well-formed pattern: at most three
      distinct row labels, top to bottom. */
  lemma PunchRowsWellFormed(c: char)
    ensures WellFormedRule(PunchRows(c))
    ensures forall j :: 0 <= j < |PunchRows(c)| ==> PunchRows(c)[j] in RowLabels
    ensures c !in EbcdPunchRules ==> PunchRows(c) == []
  {
    EbcdPunchRulesWellFormed();
  }
}
