/**
 * lib/csv-import.ts: a worksheet from CSV text with the columns
 * section,operand1,operand2[,difficulty]. Rows are grouped into sections in
 * the order their names first appear, and the problems are numbered 1..N
 * across the sections. `Date.now()` is the string parameter `stamp` and
 * `new Date().toISOString()` the parameter `now`.
 */
module CsvImport {
  import opened Options
  import opened MathTypes
  import opened WorksheetTypes
  import opened Digits
  import opened Text

  /** A parsed data line. */
  datatype CsvRow = CsvRow(section: string, operand1: int, operand2: int, difficulty: string)

  // ----- lines and rows -----

  /** The first line is a header when its lower-cased form mentions a column name. */
  predicate IsHeader(line: string)
  {
    var firstLine := ToLower(line);
    Contains(firstLine, "section") || Contains(firstLine, "operand") || Contains(firstLine, "difficulty")
  }

  /** The trimmed text split on "\n", without the header line. */
  function DataLines(csvText: string): seq<string>
  {
    var lines := Split(Trim(csvText), '\n');
    if IsHeader(lines[0]) then lines[1..] else lines
  }

  /** `line.split(",").map((p) => p.trim())`. */
  function Fields(line: string): (parts: seq<string>)
  {
    var raw := Split(line, ',');
    seq(|raw|, i requires 0 <= i < |raw| => Trim(raw[i]))
  }

  /**
   * One pass of the row loop: a blank line, fewer than three fields or an
   * operand without an integer prefix is skipped (None).
   */
  function ParseLine(line: string): (r: Option<CsvRow>)
  {
    if Trim(line) == "" then None
    else
      var parts := Fields(line);
      if |parts| < 3 then None
      else
        var section := if parts[0] != "" then parts[0] else "Problems";
        var operand1 := ParseInt(parts[1]);
        var operand2 := ParseInt(parts[2]);
        var difficulty := if |parts| > 3 && ToLower(parts[3]) != "" then ToLower(parts[3]) else "medium";
        if operand1.None? || operand2.None? then None
        else Some(CsvRow(section, operand1.value, operand2.value, difficulty))
  }

  /**
   * What a kept row holds: a non-empty section name ("Problems" for an
   * empty field), the parseInt values of the second and third fields, and
   * the lower-cased fourth field or "medium" when it is missing or empty.
   * Lines that are blank, too short or have an operand parseInt rejects
   * give nothing.
   */
  lemma {:induction false} ParseLineFacts(line: string)
    ensures Trim(line) == "" ==> ParseLine(line).None?
    ensures |Fields(line)| < 3 ==> ParseLine(line).None?
    ensures |Fields(line)| >= 3 && (ParseInt(Fields(line)[1]).None? || ParseInt(Fields(line)[2]).None?)
            ==> ParseLine(line).None?
    ensures ParseLine(line).Some? ==>
              var parts, row := Fields(line), ParseLine(line).value;
              |parts| >= 3
              && |row.section| > 0 && (parts[0] != "" ==> row.section == parts[0])
              && Some(row.operand1) == ParseInt(parts[1]) && Some(row.operand2) == ParseInt(parts[2])
              && |row.difficulty| > 0
              && (|parts| > 3 && parts[3] != "" ==> row.difficulty == ToLower(parts[3]))
  {
  }

  /** What ParseLine makes of each line, in line order. */
  function LineParses(lines: seq<string>): (r: seq<Option<CsvRow>>)
    ensures |r| == |lines|
  {
    seq(|lines|, i requires 0 <= i < |lines| => ParseLine(lines[i]))
  }

  /** The rows that were parsed, in order, with the skipped lines dropped. */
  function Kept(parses: seq<Option<CsvRow>>): (rows: seq<CsvRow>)
    ensures |rows| <= |parses|
  {
    if |parses| == 0 then []
    else
      var init := Kept(parses[..|parses| - 1]);
      match parses[|parses| - 1]
      case None => init
      case Some(row) => init + [row]
  }

  /** The rows the loop keeps, in line order. */
  function ParsedRows(lines: seq<string>): seq<CsvRow>
  {
    Kept(LineParses(lines))
  }

  /** The row loop of `parseCSVToWorksheet`. */
  method ParseRows(dataLines: seq<string>) returns (rows: seq<CsvRow>)
    ensures rows == ParsedRows(dataLines)
  {
    ghost var parses := LineParses(dataLines);
    rows := [];
    var i := 0;
    while i < |dataLines|
      invariant 0 <= i <= |dataLines|
      invariant rows == Kept(parses[..i])
    {
      var parsed := ParseLine(dataLines[i]);
      assert parses[..i + 1][..i] == parses[..i];
      assert parses[i] == parsed;
      if parsed.Some? {
        rows := rows + [parsed.value];
      }
      i := i + 1;
    }
    assert parses[..i] == parses;
  }

  /** When every parse succeeds, every parsed row is kept, in order. */
  lemma {:induction false} KeptAllSome(parses: seq<Option<CsvRow>>)
    requires forall i :: 0 <= i < |parses| ==> parses[i].Some?
    ensures |Kept(parses)| == |parses|
    ensures forall i :: 0 <= i < |parses| ==> Kept(parses)[i] == parses[i].value
  {
    if |parses| > 0 {
      KeptAllSome(parses[..|parses| - 1]);
    }
  }

  // ----- grouping -----

  /** The rows of one section name, in input order. */
  function RowsOf(rows: seq<CsvRow>, name: string): (r: seq<CsvRow>)
    ensures |r| <= |rows|
    ensures forall j :: 0 <= j < |r| ==> r[j].section == name
  {
    if |rows| == 0 then []
    else RowsOf(rows[..|rows| - 1], name) + (if rows[|rows| - 1].section == name then [rows[|rows| - 1]] else [])
  }

  /** The section names in the order of their first appearance. */
  function SectionNames(rows: seq<CsvRow>): seq<string>
  {
    if |rows| == 0 then []
    else
      var init := SectionNames(rows[..|rows| - 1]);
      if rows[|rows| - 1].section in init then init else init + [rows[|rows| - 1].section]
  }

  predicate Distinct(names: seq<string>)
  {
    forall i, j :: 0 <= i < j < |names| ==> names[i] != names[j]
  }

  /**
   * Each name is listed once, and the names listed are exactly the rows'
   * section names.
   */
  lemma {:induction false} SectionNamesFacts(rows: seq<CsvRow>)
    ensures Distinct(SectionNames(rows))
    ensures forall name :: name in SectionNames(rows) <==> exists j :: 0 <= j < |rows| && rows[j].section == name
  {
    if |rows| > 0 {
      var init := rows[..|rows| - 1];
      SectionNamesFacts(init);
      forall name
        ensures name in SectionNames(rows) <==> exists j :: 0 <= j < |rows| && rows[j].section == name
      {
        if exists j :: 0 <= j < |rows| && rows[j].section == name {
          var j :| 0 <= j < |rows| && rows[j].section == name;
          if j < |rows| - 1 {
            assert init[j].section == name;
          }
        }
        if name in SectionNames(init) {
          var j :| 0 <= j < |init| && init[j].section == name;
          assert rows[j].section == name;
        }
      }
    }
  }

  /** A name that no row carries has no rows. */
  lemma {:induction false} RowsOfAbsent(rows: seq<CsvRow>, name: string)
    requires forall j :: 0 <= j < |rows| ==> rows[j].section != name
    ensures RowsOf(rows, name) == []
  {
    if |rows| > 0 {
      RowsOfAbsent(rows[..|rows| - 1], name);
    }
  }

  /** A section name with its rows: an entry of the `sectionMap`. */
  datatype SectionRows = SectionRows(name: string, rows: seq<CsvRow>)

  /** The entries of the `sectionMap` once every row is added, in insertion order. */
  function Groups(rows: seq<CsvRow>): seq<SectionRows>
  {
    var names := SectionNames(rows);
    seq(|names|, i requires 0 <= i < |names| => SectionRows(names[i], RowsOf(rows, names[i])))
  }

  /** `sectionMap.get(name)`: the position of the entry with that name. */
  function Find(groups: seq<SectionRows>, name: string): (r: Option<nat>)
    ensures r.Some? ==> r.value < |groups| && groups[r.value].name == name
    ensures r.None? ==> forall j :: 0 <= j < |groups| ==> groups[j].name != name
  {
    if |groups| == 0 then None
    else if groups[|groups| - 1].name == name then Some(|groups| - 1)
    else Find(groups[..|groups| - 1], name)
  }

  /**
   * The grouping loop: `get`, `push` and `set` on a Map that keeps its
   * keys in insertion order (an entry list here).
   */
  method GroupBySection(rows: seq<CsvRow>) returns (groups: seq<SectionRows>)
    ensures groups == Groups(rows)
  {
    groups := [];
    var k := 0;
    while k < |rows|
      invariant 0 <= k <= |rows|
      invariant groups == Groups(rows[..k])
    {
      var row := rows[k];
      var existing := Find(groups, row.section);
      GroupsStep(rows[..k], row);
      assert rows[..k + 1] == rows[..k] + [row];
      if existing.Some? {
        groups := groups[existing.value := SectionRows(row.section, groups[existing.value].rows + [row])];
      } else {
        groups := groups + [SectionRows(row.section, [row])];
      }
      k := k + 1;
    }
    assert rows[..k] == rows;
  }

  /** Adding one row: append it to its section's entry, or open a new entry at the end. */
  lemma {:induction false} GroupsStep(rows: seq<CsvRow>, row: CsvRow)
    ensures var g, n := Groups(rows), row.section;
            Groups(rows + [row])
            == match Find(g, n)
               case Some(i) => g[i := SectionRows(n, g[i].rows + [row])]
               case None => g + [SectionRows(n, [row])]
  {
    var all := rows + [row];
    assert all[..|all| - 1] == rows;
    var g, n := Groups(rows), row.section;
    var names := SectionNames(rows);
    SectionNamesFacts(rows);
    match Find(g, n)
    case Some(i) =>
      assert names[i] == n;
      var expected := g[i := SectionRows(n, g[i].rows + [row])];
      assert SectionNames(all) == names;
      forall j | 0 <= j < |names|
        ensures Groups(all)[j] == expected[j]
      {
        if j != i {
          assert names[j] != n;
        }
      }
    case None =>
      forall j | 0 <= j < |names|
        ensures names[j] != n
      {
        assert g[j].name == names[j];
      }
      assert n !in names;
      assert SectionNames(all) == names + [n];
      forall j | 0 <= j < |rows|
        ensures rows[j].section != n
      {
        assert rows[j].section in names;
      }
      RowsOfAbsent(rows, n);
      var expected := g + [SectionRows(n, [row])];
      forall j | 0 <= j < |names| + 1
        ensures Groups(all)[j] == expected[j]
      {
        if j < |names| {
          assert names[j] != n;
        }
      }
  }

  /** Rows in the sections before section i. */
  function RowsBefore(groups: seq<SectionRows>, i: nat): nat
    requires i <= |groups|
  {
    if i == 0 then 0 else RowsBefore(groups, i - 1) + |groups[i - 1].rows|
  }

  /** Every row lands in exactly one section, so the sections hold all rows between them. */
  lemma {:induction false} GroupsCount(rows: seq<CsvRow>)
    ensures RowsBefore(Groups(rows), |Groups(rows)|) == |rows|
  {
    if |rows| > 0 {
      var init, row := rows[..|rows| - 1], rows[|rows| - 1];
      assert rows == init + [row];
      GroupsCount(init);
      GroupsStep(init, row);
      var g := Groups(init);
      match Find(g, row.section)
      case Some(i) =>
        RowsBeforeBump(g, i, SectionRows(row.section, g[i].rows + [row]), |g|);
      case None =>
        var g2 := g + [SectionRows(row.section, [row])];
        RowsBeforeSame(g, g2, |g|);
    }
  }

  lemma {:induction false} RowsBeforeSame(a: seq<SectionRows>, b: seq<SectionRows>, n: nat)
    requires n <= |a| && n <= |b| && forall j :: 0 <= j < n ==> |a[j].rows| == |b[j].rows|
    ensures RowsBefore(a, n) == RowsBefore(b, n)
  {
    if n > 0 {
      RowsBeforeSame(a, b, n - 1);
    }
  }

  lemma {:induction false} RowsBeforeBump(g: seq<SectionRows>, i: nat, e: SectionRows, n: nat)
    requires i < |g| && |e.rows| == |g[i].rows| + 1 && n <= |g|
    ensures RowsBefore(g[i := e], n) == RowsBefore(g, n) + (if i < n then 1 else 0)
  {
    if n > 0 {
      RowsBeforeBump(g, i, e, n - 1);
    }
  }

  // ----- sections and problems -----

  function ProblemId(worksheetId: string, n: nat): string
  {
    "problem-" + worksheetId + "-" + NatToString(n)
  }

  /** The problem built from a row: a multiplication of the two operands. */
  function RowProblem(row: CsvRow, id: string): (p: Problem)
  {
    Problem(id, Multiplication, row.operand1, row.operand2,
            if row.difficulty != "" then row.difficulty else "medium", row.operand1 * row.operand2)
  }

  /** The problems of one section, numbered on from `before`. */
  function SectionProblems(rows: seq<CsvRow>, worksheetId: string, before: nat): seq<Problem>
  {
    seq(|rows|, j requires 0 <= j < |rows| => RowProblem(rows[j], ProblemId(worksheetId, before + j + 1)))
  }

  /** Section i: id "section-<worksheetId>-<i+1>", titled with the name. */
  function SectionAt(groups: seq<SectionRows>, worksheetId: string, i: nat): WorksheetSection
    requires i < |groups|
  {
    WorksheetSection("section-" + worksheetId + "-" + NatToString(i + 1), groups[i].name,
                     SectionProblems(groups[i].rows, worksheetId, RowsBefore(groups, i)), None)
  }

  function Sections(groups: seq<SectionRows>, worksheetId: string): seq<WorksheetSection>
  {
    seq(|groups|, i requires 0 <= i < |groups| => SectionAt(groups, worksheetId, i))
  }

  /** The section loop, with its running `problemCounter`. */
  method BuildSections(groups: seq<SectionRows>, worksheetId: string) returns (sections: seq<WorksheetSection>)
    ensures sections == Sections(groups, worksheetId)
  {
    sections := [];
    var problemCounter := 0;
    while |sections| < |groups|
      invariant |sections| <= |groups|
      invariant problemCounter == RowsBefore(groups, |sections|)
      invariant forall i :: 0 <= i < |sections| ==> sections[i] == SectionAt(groups, worksheetId, i)
    {
      var entry := groups[|sections|];
      var problems := SectionProblems(entry.rows, worksheetId, problemCounter);
      problemCounter := problemCounter + |entry.rows|;
      sections := sections + [WorksheetSection("section-" + worksheetId + "-" + NatToString(|sections| + 1),
                                               entry.name, problems, None)];
    }
  }

  /** `sections.flatMap((s) => s.problems)`. */
  function Flatten(sections: seq<WorksheetSection>): seq<Problem>
  {
    if |sections| == 0 then [] else Flatten(sections[..|sections| - 1]) + sections[|sections| - 1].problems
  }

  /**
   * Across the sections the problems are numbered 1, 2, ..., N in order,
   * and there is one per row.
   */
  lemma {:induction false} FlattenNumbering(groups: seq<SectionRows>, worksheetId: string, g: nat)
    requires g <= |groups|
    ensures var flat := Flatten(Sections(groups, worksheetId)[..g]);
            |flat| == RowsBefore(groups, g)
            && forall k :: 0 <= k < |flat| ==> flat[k].id == ProblemId(worksheetId, k + 1)
  {
    if g > 0 {
      var s := Sections(groups, worksheetId);
      FlattenNumbering(groups, worksheetId, g - 1);
      assert s[..g][..g - 1] == s[..g - 1];
    }
  }

  // ----- the worksheet -----

  /** The fixed settings of an imported worksheet. */
  const ImportSettings := WorksheetSettings(true, [PartialProducts, AreaModel], false, true, false, false)

  /** The worksheet built from the kept rows. */
  function Imported(rows: seq<CsvRow>, worksheetTitle: string, worksheetDescription: Option<string>,
                    stamp: string, now: string): Worksheet
  {
    var worksheetId := "worksheet-" + stamp;
    var sections := Sections(Groups(rows), worksheetId);
    Worksheet(worksheetId, worksheetTitle, worksheetDescription, Some(sections), Flatten(sections), now, ImportSettings)
  }

  /** `parseCSVToWorksheet`: null exactly when no line gives a row. */
  method ParseCSVToWorksheet(csvText: string, worksheetTitle: string, worksheetDescription: Option<string>,
                             stamp: string, now: string) returns (r: Option<Worksheet>)
    ensures r.None? <==> |ParsedRows(DataLines(csvText))| == 0
    ensures r.Some? ==> r.value == Imported(ParsedRows(DataLines(csvText)), worksheetTitle, worksheetDescription, stamp, now)
  {
    var lines := Split(Trim(csvText), '\n');
    var dataLines := if IsHeader(lines[0]) then lines[1..] else lines;
    var rows := ParseRows(dataLines);
    if |rows| == 0 {
      return None;
    }
    var sectionMap := GroupBySection(rows);
    var worksheetId := "worksheet-" + stamp;
    var sections := BuildSections(sectionMap, worksheetId);
    return Some(Worksheet(worksheetId, worksheetTitle, worksheetDescription, Some(sections), Flatten(sections),
                          now, ImportSettings));
  }

  /**
   * The sections of an imported worksheet are titled with the names in
   * order of first appearance, each name once, and each holds the problems
   * of its rows in input order: multiplications whose answer is the product.
   */
  lemma {:induction false} ImportedSections(rows: seq<CsvRow>, worksheetTitle: string, worksheetDescription: Option<string>,
                         stamp: string, now: string)
    ensures var w := Imported(rows, worksheetTitle, worksheetDescription, stamp, now);
            var names := SectionNames(rows);
            w.sections.Some? && |w.sections.value| == |names| && Distinct(names)
            && (forall i :: 0 <= i < |names| ==>
                  w.sections.value[i].title == names[i]
                  && |w.sections.value[i].problems| == |RowsOf(rows, names[i])|)
            && (forall i, j :: 0 <= i < |names| && 0 <= j < |RowsOf(rows, names[i])| ==>
                  var p, row := w.sections.value[i].problems[j], RowsOf(rows, names[i])[j];
                  p.operation == Multiplication && p.multiplicand == row.operand1
                  && p.multiplier == row.operand2 && p.correctAnswer == row.operand1 * row.operand2)
            && w.settings == ImportSettings && w.title == worksheetTitle
  {
    SectionNamesFacts(rows);
    SectionsShape(Groups(rows), "worksheet-" + stamp);
  }

  /**
   * Section i is titled with the i-th group's name and holds one
   * multiplication per row of that group, whose answer is the product.
   */
  lemma {:induction false} SectionsShape(groups: seq<SectionRows>, worksheetId: string)
    ensures var s := Sections(groups, worksheetId);
            |s| == |groups|
            && (forall i :: 0 <= i < |groups| ==> s[i].title == groups[i].name && |s[i].problems| == |groups[i].rows|)
            && (forall i, j :: 0 <= i < |groups| && 0 <= j < |groups[i].rows| ==>
                  var p, row := s[i].problems[j], groups[i].rows[j];
                  p.operation == Multiplication && p.multiplicand == row.operand1
                  && p.multiplier == row.operand2 && p.correctAnswer == row.operand1 * row.operand2)
  {
  }

  /** `problems` has one problem per kept row, numbered 1..N in order. */
  lemma {:induction false} ImportedNumbering(rows: seq<CsvRow>, worksheetTitle: string, worksheetDescription: Option<string>,
                          stamp: string, now: string)
    ensures var w := Imported(rows, worksheetTitle, worksheetDescription, stamp, now);
            |w.problems| == |rows|
            && forall k :: 0 <= k < |w.problems| ==> w.problems[k].id == ProblemId(w.id, k + 1)
  {
    var worksheetId := "worksheet-" + stamp;
    var groups := Groups(rows);
    GroupsCount(rows);
    var s := Sections(groups, worksheetId);
    FlattenNumbering(groups, worksheetId, |groups|);
    assert s[..|groups|] == s;
  }

  /** Empty or blank text gives no worksheet. */
  lemma {:induction false} EmptyTextGivesNothing(csvText: string)
    requires forall i :: 0 <= i < |csvText| ==> IsJsWhitespace(csvText[i])
    ensures |ParsedRows(DataLines(csvText))| == 0
  {
    TrimEmptyIffBlank(csvText);
    assert Split(Trim(csvText), '\n') == [""];
    var lines := DataLines(csvText);
    assert |lines| <= 1;
    if |lines| == 1 {
      assert lines[..0] == [];
    }
  }

  // ----- the example file -----

  /** A data line: the four fields joined with commas. */
  function RowLine(section: string, operand1: string, operand2: string, difficulty: string): string
  {
    Join([section, operand1, operand2, difficulty], ',')
  }

  /** The eight data rows of `generateExampleCSV`: section, operands and difficulty as written. */
  function ExampleTable(): seq<(string, string, string, string)>
  {
    [("Two-Digit by One-Digit", "12", "3", "easy"),
     ("Two-Digit by One-Digit", "45", "7", "medium"),
     ("Two-Digit by One-Digit", "78", "9", "hard"),
     ("Two-Digit by Two-Digit", "23", "15", "medium"),
     ("Two-Digit by Two-Digit", "34", "28", "hard"),
     ("Two-Digit by Two-Digit", "67", "89", "hard"),
     ("Three-Digit by Two-Digit", "234", "56", "hard"),
     ("Three-Digit by Two-Digit", "456", "78", "hard")]
  }

  /** One data line per table row, in order. */
  function TableLines(table: seq<(string, string, string, string)>): (lines: seq<string>)
    ensures |lines| == |table|
  {
    seq(|table|, i requires 0 <= i < |table| => RowLine(table[i].0, table[i].1, table[i].2, table[i].3))
  }

  /** The lines of the example: the header, then one line per table row. */
  function ExampleLines(): (lines: seq<string>)
  {
    ["section,operand1,operand2,difficulty"] + TableLines(ExampleTable())
  }

  /** `generateExampleCSV`: the template literal, whose lines are separated by "\n". */
  function GenerateExampleCSV(): string
  {
    Join(ExampleLines(), '\n')
  }

  predicate Trimmed(s: string)
  {
    |s| > 0 && !IsJsWhitespace(s[0]) && !IsJsWhitespace(s[|s| - 1])
  }

  predicate LowerCase(s: string)
  {
    forall i :: 0 <= i < |s| ==> LowerChar(s[i]) == s[i]
  }

  /**
   * A table row the row loop reads back as written: no comma or line break
   * in any field, trimmed section and difficulty, a lower-case difficulty
   * and digit-string operands.
   */
  predicate WellFormedRow(t: (string, string, string, string))
  {
    ',' !in t.0 && ',' !in t.1 && ',' !in t.2 && ',' !in t.3
    && '\n' !in t.0 && '\n' !in t.1 && '\n' !in t.2 && '\n' !in t.3
    && Trimmed(t.0) && Trimmed(t.3) && LowerCase(t.3)
    && IsDigitString(t.1) && IsDigitString(t.2)
  }

  /** A field that the row loop reads back unchanged: no comma, nothing to trim. */
  predicate CleanField(s: string)
  {
    ',' !in s && Trim(s) == s
  }

  /**
   * A line of four comma-free, trimmed fields whose operands are digit
   * strings is read as the row of those fields.
   */
  lemma {:induction false} ParseRowLine(section: string, operand1: string, operand2: string, difficulty: string)
    requires ',' !in section && ',' !in operand1 && ',' !in operand2 && ',' !in difficulty
    requires Trimmed(section) && Trimmed(difficulty) && LowerCase(difficulty)
    requires IsDigitString(operand1) && IsDigitString(operand2)
    ensures ParseLine(RowLine(section, operand1, operand2, difficulty))
            == Some(CsvRow(section, DecimalValue(operand1), DecimalValue(operand2), difficulty))
  {
    RowLineFields(section, operand1, operand2, difficulty);
    LowerOfLower(difficulty);
    DigitsParse(operand1);
    DigitsParse(operand2);
    ParseLineOfFields(RowLine(section, operand1, operand2, difficulty), [section, operand1, operand2, difficulty],
                      DecimalValue(operand1), DecimalValue(operand2));
  }

  /** The fields of such a line are the four strings, and it starts with the section's first character. */
  lemma {:induction false} RowLineFields(section: string, operand1: string, operand2: string, difficulty: string)
    requires ',' !in section && ',' !in operand1 && ',' !in operand2 && ',' !in difficulty
    requires Trimmed(section) && Trimmed(difficulty)
    requires IsDigitString(operand1) && IsDigitString(operand2)
    ensures Fields(RowLine(section, operand1, operand2, difficulty)) == [section, operand1, operand2, difficulty]
    ensures |RowLine(section, operand1, operand2, difficulty)| > 0
            && RowLine(section, operand1, operand2, difficulty)[0] == section[0]
  {
    TrimOfTrimmed(section);
    TrimOfTrimmed(difficulty);
    DigitsTrimmed(operand1);
    DigitsTrimmed(operand2);
    FieldsOfRowLine(section, operand1, operand2, difficulty);
    JoinFirst([section, operand1, operand2, difficulty], ',');
  }

  lemma {:induction false} ParseLineOfFields(line: string, parts: seq<string>, x: int, y: int)
    requires |line| > 0 && !IsJsWhitespace(line[0])
    requires Fields(line) == parts && |parts| == 4 && parts[0] != ""
    requires ParseInt(parts[1]) == Some(x) && ParseInt(parts[2]) == Some(y)
    requires ToLower(parts[3]) == parts[3] != ""
    ensures ParseLine(line) == Some(CsvRow(parts[0], x, y, parts[3]))
  {
    TrimEmptyIffBlank(line);
  }

  lemma {:induction false} FieldsOfRowLine(a: string, b: string, c: string, d: string)
    requires CleanField(a) && CleanField(b) && CleanField(c) && CleanField(d)
    ensures Fields(RowLine(a, b, c, d)) == [a, b, c, d]
  {
    var parts := [a, b, c, d];
    assert forall i :: 0 <= i < |parts| ==> CleanField(parts[i]);
    FieldsOfJoin(parts);
  }

  lemma {:induction false} FieldsOfJoin(parts: seq<string>)
    requires |parts| >= 1
    requires forall i :: 0 <= i < |parts| ==> CleanField(parts[i])
    ensures Fields(Join(parts, ',')) == parts
  {
    SplitJoin(parts, ',');
  }

  lemma {:induction false} JoinFirst(parts: seq<string>, sep: char)
    requires |parts| >= 1 && |parts[0]| > 0
    ensures |Join(parts, sep)| > 0 && Join(parts, sep)[0] == parts[0][0]
  {
  }

  lemma {:induction false} DigitsTrimmed(s: string)
    requires IsDigitString(s)
    ensures Trim(s) == s
  {
    assert IsDigitChar(s[0]) && IsDigitChar(s[|s| - 1]);
    TrimOfTrimmed(s);
  }

  lemma {:induction false} DigitsParse(s: string)
    requires IsDigitString(s)
    ensures ParseInt(s) == Some(DecimalValue(s))
  {
    assert s + "" == s;
    ParseIntDigitsThen(s, "");
  }

  lemma {:induction false} LowerOfLower(s: string)
    requires LowerCase(s)
    ensures ToLower(s) == s
  {
  }

  /** A data line is its four fields with a comma between each. */
  lemma {:induction false} RowLineSpelled(a: string, b: string, c: string, d: string)
    ensures RowLine(a, b, c, d) == a + [','] + b + [','] + c + [','] + d
  {
    assert Join([c, d], ',') == c + [','] + Join([d], ',');
    assert Join([b, c, d], ',') == b + [','] + Join([c, d], ',');
    assert [a, b, c, d][1..] == [b, c, d];
  }

  /** Rows drawn from three distinct section names, each of them used, make three sections. */
  lemma {:induction false} ThreeSections(rows: seq<CsvRow>, i: nat, j: nat, k: nat)
    requires i < |rows| && j < |rows| && k < |rows|
    requires rows[i].section != rows[j].section && rows[i].section != rows[k].section
    requires rows[j].section != rows[k].section
    requires forall m :: 0 <= m < |rows| ==>
               rows[m].section == rows[i].section || rows[m].section == rows[j].section
               || rows[m].section == rows[k].section
    ensures |SectionNames(rows)| == 3
  {
    SectionNamesFacts(rows);
    var names := SectionNames(rows);
    var a, b, c := rows[i].section, rows[j].section, rows[k].section;
    assert a in names && b in names && c in names;
    forall n | 0 <= n < |names|
      ensures names[n] == a || names[n] == b || names[n] == c
    {
      assert names[n] in names;
    }
    if |names| > 3 {
      NameAt(names, 0);
      NameAt(names, 1);
      NameAt(names, 2);
      NameAt(names, 3);
      assert false;
    }
    AtLeastThree(names, a, b, c);
  }

  /** A list holding three distinct values has at least three entries. */
  lemma {:induction false} AtLeastThree(names: seq<string>, a: string, b: string, c: string)
    requires a != b && a != c && b != c
    requires a in names && b in names && c in names
    ensures |names| >= 3
  {
    var x :| 0 <= x < |names| && names[x] == a;
    var y :| 0 <= y < |names| && names[y] == b;
    var z :| 0 <= z < |names| && names[z] == c;
    assert x != y && x != z && y != z;
  }

  lemma {:induction false} NameAt(names: seq<string>, n: nat)
    ensures n < |names| ==> names[n] in names
  {
  }

  /** A well-formed row gives a line without a line break. */
  lemma {:induction false} RowLineNoBreak(t: (string, string, string, string))
    requires WellFormedRow(t)
    ensures '\n' !in RowLine(t.0, t.1, t.2, t.3)
  {
    RowLineSpelled(t.0, t.1, t.2, t.3);
  }

  /**
   * A header and the lines of well-formed rows, joined with line breaks,
   * split back into those lines and have nothing to trim.
   */
  lemma {:induction false} TableTextSplits(header: string, table: seq<(string, string, string, string)>)
    requires '\n' !in header && Trimmed(header)
    requires |table| > 0 && forall i :: 0 <= i < |table| ==> WellFormedRow(table[i])
    ensures var lines := [header] + TableLines(table);
            Split(Join(lines, '\n'), '\n') == lines && Trim(Join(lines, '\n')) == Join(lines, '\n')
  {
    var lines := [header] + TableLines(table);
    forall i | 0 <= i < |lines|
      ensures '\n' !in lines[i]
    {
      if i > 0 {
        RowLineNoBreak(table[i - 1]);
      }
    }
    SplitJoin(lines, '\n');
    JoinFirst(lines, '\n');
    var last := table[|table| - 1];
    RowLineSpelled(last.0, last.1, last.2, last.3);
    JoinLast(lines, '\n');
    TrimOfTrimmed(Join(lines, '\n'));
  }

  /** The line of a well-formed table row parses to that row. */
  lemma {:induction false} TableLineParses(table: seq<(string, string, string, string)>, i: nat)
    requires i < |table| && WellFormedRow(table[i])
    ensures LineParses(TableLines(table))[i]
            == Some(CsvRow(table[i].0, DecimalValue(table[i].1), DecimalValue(table[i].2), table[i].3))
  {
    var t := table[i];
    ParseRowLine(t.0, t.1, t.2, t.3);
  }

  /** A string whose characters are neither commas nor line breaks contains neither. */
  lemma {:induction false} NoSeparators(s: string)
    requires forall i :: 0 <= i < |s| ==> s[i] != ',' && s[i] != '\n'
    ensures ',' !in s && '\n' !in s
  {
  }

  /** A digit string holds no comma, no line break and nothing to trim. */
  lemma {:induction false} DigitsClean(s: string)
    requires IsDigitString(s)
    ensures ',' !in s && '\n' !in s
  {
  }

  lemma {:induction false} ExampleSectionsClean()
    ensures forall i :: 0 <= i < |ExampleTable()| ==>
              ',' !in ExampleTable()[i].0 && '\n' !in ExampleTable()[i].0 && Trimmed(ExampleTable()[i].0)
  {
    NoSeparators("Two-Digit by One-Digit");
    NoSeparators("Two-Digit by Two-Digit");
    NoSeparators("Three-Digit by Two-Digit");
  }

  lemma {:induction false} ExampleDifficultiesClean()
    ensures forall i :: 0 <= i < |ExampleTable()| ==>
              ',' !in ExampleTable()[i].3 && '\n' !in ExampleTable()[i].3
              && Trimmed(ExampleTable()[i].3) && LowerCase(ExampleTable()[i].3)
  {
    NoSeparators("easy");
    NoSeparators("medium");
    NoSeparators("hard");
  }

  lemma {:induction false} ExampleOperandsClean()
    ensures forall i :: 0 <= i < |ExampleTable()| ==>
              IsDigitString(ExampleTable()[i].1) && IsDigitString(ExampleTable()[i].2)
              && ',' !in ExampleTable()[i].1 && '\n' !in ExampleTable()[i].1
              && ',' !in ExampleTable()[i].2 && '\n' !in ExampleTable()[i].2
  {
    var t := ExampleTable();
    forall i | 0 <= i < |t|
      ensures IsDigitString(t[i].1) && IsDigitString(t[i].2)
    {
    }
    forall i | 0 <= i < |t|
      ensures ',' !in t[i].1 && '\n' !in t[i].1 && ',' !in t[i].2 && '\n' !in t[i].2
    {
      DigitsClean(t[i].1);
      DigitsClean(t[i].2);
    }
  }

  /** Every row of the example is well-formed. */
  lemma {:induction false} ExampleTableWellFormed()
    ensures forall i :: 0 <= i < |ExampleTable()| ==> WellFormedRow(ExampleTable()[i])
  {
    ExampleSectionsClean();
    ExampleDifficultiesClean();
    ExampleOperandsClean();
  }

  /** The rows of well-formed table lines: one per table row, with that row's section. */
  lemma {:induction false} TableSections(table: seq<(string, string, string, string)>)
    requires forall i :: 0 <= i < |table| ==> WellFormedRow(table[i])
    ensures |ParsedRows(TableLines(table))| == |table|
    ensures forall m :: 0 <= m < |table| ==> ParsedRows(TableLines(table))[m].section == table[m].0
  {
    var parses := LineParses(TableLines(table));
    forall i | 0 <= i < |parses|
      ensures parses[i].Some? && parses[i].value.section == table[i].0
    {
      TableLineParses(table, i);
    }
    KeptAllSome(parses);
  }

  /** A first line starting with "section" is taken for the header. */
  lemma {:induction false} SectionHeader(line: string)
    requires |line| >= 7 && line[..7] == "section"
    ensures IsHeader(line)
  {
    var lower := ToLower(line);
    assert lower[..7] == "section";
    ContainsPrefix(lower, "section");
  }

  /**
   * The text of a recognised header and well-formed rows has exactly the
   * rows' lines as its data lines.
   */
  lemma {:induction false} TableDataLines(header: string, table: seq<(string, string, string, string)>)
    requires '\n' !in header && Trimmed(header) && |header| >= 7 && header[..7] == "section"
    requires |table| > 0 && forall i :: 0 <= i < |table| ==> WellFormedRow(table[i])
    ensures DataLines(Join([header] + TableLines(table), '\n')) == TableLines(table)
  {
    TableTextSplits(header, table);
    SectionHeader(header);
    assert ([header] + TableLines(table))[1..] == TableLines(table);
  }

  /**
   * Well-formed rows under three distinct section names, each of them
   * used, parse to one row per line in three sections.
   */
  lemma {:induction false} TableThreeSections(table: seq<(string, string, string, string)>, i: nat, j: nat, k: nat)
    requires forall m :: 0 <= m < |table| ==> WellFormedRow(table[m])
    requires i < |table| && j < |table| && k < |table|
    requires table[i].0 != table[j].0 && table[i].0 != table[k].0 && table[j].0 != table[k].0
    requires forall m :: 0 <= m < |table| ==> table[m].0 == table[i].0 || table[m].0 == table[j].0 || table[m].0 == table[k].0
    ensures |ParsedRows(TableLines(table))| == |table|
    ensures |SectionNames(ParsedRows(TableLines(table)))| == 3
  {
    TableSections(table);
    ThreeSections(ParsedRows(TableLines(table)), i, j, k);
  }

  /** The example's header line: no line break, nothing to trim, and it starts with "section". */
  lemma {:induction false} ExampleHeader(header: string)
    requires header == "section,operand1,operand2,difficulty"
    ensures '\n' !in header && Trimmed(header) && |header| >= 7 && header[..7] == "section"
  {
    NoLineBreak(header);
  }

  lemma {:induction false} NoLineBreak(s: string)
    requires forall i :: 0 <= i < |s| ==> s[i] != '\n'
    ensures '\n' !in s
  {
  }

  /** The example's rows fall under three distinct section names, first used by rows 0, 3 and 6. */
  lemma {:induction false} ExampleTableSections()
    ensures var t := ExampleTable();
            t[0].0 != t[3].0 && t[0].0 != t[6].0 && t[3].0 != t[6].0
            && forall m :: 0 <= m < |t| ==> t[m].0 == t[0].0 || t[m].0 == t[3].0 || t[m].0 == t[6].0
  {
    var t := ExampleTable();
    assert t[0].0[13] == 'O' && t[3].0[13] == 'T';
    assert |t[0].0| == |t[3].0| == 22 && |t[6].0| == 24;
  }

  /** Parsing the example gives eight problems in three sections. */
  lemma {:induction false} ExampleParses()
    ensures |ParsedRows(DataLines(GenerateExampleCSV()))| == 8
    ensures |SectionNames(ParsedRows(DataLines(GenerateExampleCSV())))| == 3
  {
    var header := "section,operand1,operand2,difficulty";
    var table := ExampleTable();
    ExampleHeader(header);
    ExampleTableWellFormed();
    ExampleTableSections();
    TableDataLines(header, table);
    TableThreeSections(table, 0, 3, 6);
  }
}
