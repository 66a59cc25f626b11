/**
 * The printable worksheet of components/worksheet/WorksheetPrintView.tsx:
 * which problems are printed under which number, which are skipped, and
 * the right-aligned text column in which the saved work of each method is
 * printed.
 */
module WorksheetPrintView {
  import opened Options
  import opened Digits
  import opened Text
  import opened MathTypes
  import opened WorksheetTypes
  import WorksheetOverview

  // ---------------------------------------------------------------------
  // Numbering

  /** A problem with the number printed before it. */
  datatype Numbered = Numbered(problem: Problem, number: nat)

  /** Lines 35-44: problems of earlier sections, plus the position in the section, plus one. */
  function Number(sections: seq<WorksheetSection>, sectionIdx: nat, probIdx: nat): nat
    requires sectionIdx <= |sections|
  {
    if sectionIdx == 0 then probIdx + 1
    else WorksheetOverview.SectionsTotal(sections[..sectionIdx]) + probIdx + 1
  }

  /** The numbered problems of one section. */
  function SectionEntries(sections: seq<WorksheetSection>, sectionIdx: nat): (r: seq<Numbered>)
    requires sectionIdx < |sections|
    ensures |r| == |sections[sectionIdx].problems|
  {
    var problems := sections[sectionIdx].problems;
    seq(|problems|, p requires 0 <= p < |problems| => Numbered(problems[p], Number(sections, sectionIdx, p)))
  }

  /** The numbered problems of the first n sections, section by section. */
  function SectionedListing(sections: seq<WorksheetSection>, n: nat): seq<Numbered>
    requires n <= |sections|
  {
    if n == 0 then [] else SectionedListing(sections, n - 1) + SectionEntries(sections, n - 1)
  }

  /**
   * Lines 32-78: section by section when `sections` is present and not
   * empty, otherwise the flat list `allProblems` numbered idx + 1 (which,
   * as on the overview, is empty when `sections` is present but empty).
   */
  function Listing(worksheet: Worksheet): seq<Numbered>
  {
    if worksheet.sections.Some? && |worksheet.sections.value| > 0 then
      SectionedListing(worksheet.sections.value, |worksheet.sections.value|)
    else
      var all := WorksheetOverview.AllProblems(worksheet);
      seq(|all|, i requires 0 <= i < |all| => Numbered(all[i], i + 1))
  }

  /** Flattening one more section appends its problems. */
  lemma {:induction false} FlattenPrefix(sections: seq<WorksheetSection>, n: nat)
    requires n < |sections|
    ensures WorksheetOverview.Flatten(sections[..n + 1]) == WorksheetOverview.Flatten(sections[..n]) + sections[n].problems
  {
    assert sections[..n + 1][..n] == sections[..n];
  }

  /** Section s's entries are numbered on from the problems of the sections before it. */
  lemma {:induction false} EntriesNumbered(sections: seq<WorksheetSection>, s: nat, p: nat)
    requires s < |sections| && p < |sections[s].problems|
    ensures SectionEntries(sections, s)[p]
            == Numbered(sections[s].problems[p], |WorksheetOverview.Flatten(sections[..s])| + p + 1)
  {
    WorksheetOverview.FlattenCounts(map[], sections[..s]);
    if s == 0 {
      assert sections[..s] == [];
    }
  }

  /** The first n sections, numbered, are their problems numbered 1, 2, 3, ... */
  lemma {:induction false} SectionedListingNumbered(sections: seq<WorksheetSection>, n: nat)
    requires n <= |sections|
    ensures var flat := WorksheetOverview.Flatten(sections[..n]);
            |SectionedListing(sections, n)| == |flat|
            && forall k :: 0 <= k < |flat| ==> SectionedListing(sections, n)[k] == Numbered(flat[k], k + 1)
  {
    if n == 0 {
      assert sections[..n] == [];
    } else {
      var before := WorksheetOverview.Flatten(sections[..n - 1]);
      var flat := WorksheetOverview.Flatten(sections[..n]);
      var prev := SectionedListing(sections, n - 1);
      var entries := SectionEntries(sections, n - 1);
      SectionedListingNumbered(sections, n - 1);
      FlattenPrefix(sections, n - 1);
      assert SectionedListing(sections, n) == prev + entries;
      forall k | 0 <= k < |flat| ensures (prev + entries)[k] == Numbered(flat[k], k + 1) {
        if k < |before| {
          assert (prev + entries)[k] == prev[k];
          assert flat[k] == before[k];
        } else {
          EntriesNumbered(sections, n - 1, k - |before|);
          assert (prev + entries)[k] == entries[k - |before|];
          assert flat[k] == sections[n - 1].problems[k - |before|];
        }
      }
    }
  }

  /**
   * Every printed number is the problem's position in `allProblems` plus
   * one, in both layouts: the numbers run 1..N without gaps or repeats.
   */
  lemma {:induction false} ListingNumbersConsecutively(worksheet: Worksheet)
    ensures var all := WorksheetOverview.AllProblems(worksheet);
            |Listing(worksheet)| == |all|
            && forall k :: 0 <= k < |all| ==> Listing(worksheet)[k] == Numbered(all[k], k + 1)
  {
    if worksheet.sections.Some? && |worksheet.sections.value| > 0 {
      var sections := worksheet.sections.value;
      SectionedListingNumbered(sections, |sections|);
      assert sections[..|sections|] == sections;
    }
  }

  // ---------------------------------------------------------------------
  // Printed lines

  /** `String(value || "___").padStart(width)`: an empty entry prints as "___". */
  function Line(value: string, width: int): (line: string)
    ensures var shown := if value == "" then "___" else value;
            |line| == (if |shown| >= width then |shown| else width)
            && line[|line| - |shown|..] == shown
            && forall i :: 0 <= i < |line| - |shown| ==> line[i] == ' '
  {
    PadStart(if value == "" then "___" else value, width, ' ')
  }

  /** Saved work as printed: header lines, one line per entry, an optional rule, and the sum. */
  datatype Work = NoWorkSaved | Column(header: seq<string>, rows: seq<string>, divider: bool, sum: string)

  /** The width shared by the lines of a column, `width` characters. */
  predicate Fits(work: Work, width: int)
  {
    work.Column? ==>
      (forall i :: 0 <= i < |work.header| ==> |work.header[i]| == width)
      && (forall i :: 0 <= i < |work.rows| ==> |work.rows[i]| >= width)
      && |work.sum| >= width
  }

  /** Lines 157 and 241: the product's digit count plus 3. */
  function ProductWidth(multiplicand: int, multiplier: int): (w: int)
    ensures w >= 4
  {
    |IntToString(multiplicand * multiplier)| + 3
  }

  /** Lines 192-197: the longest of the three numbers plus 3. */
  function ClassicWidth(multiplicand: int, multiplier: int): (w: int)
    ensures w >= ProductWidth(multiplicand, multiplier)
    ensures w >= |IntToString(multiplicand)| + 3 && w >= |IntToString(multiplier)| + 3
  {
    var a := |IntToString(multiplicand)|;
    var b := |IntToString(multiplier)|;
    var c := |IntToString(multiplicand * multiplier)|;
    (if a >= b && a >= c then a else if b >= c then b else c) + 3
  }

  /** A number >= 0 prints with as many characters as it has digits. */
  lemma {:induction false} LengthOfNat(x: nat)
    ensures |IntToString(x)| == NumDigits(x)
  {
    NatToStringDigits(x);
  }

  lemma {:induction false} FactorAtMostProduct(a: nat, b: nat)
    requires b >= 1
    ensures a <= a * b
  {
  }

  /** The product of two numbers >= 1 is at least as long as either, so then the classic column is no wider. */
  lemma {:induction false} ClassicWidthOfPositives(multiplicand: nat, multiplier: nat)
    requires multiplicand >= 1 && multiplier >= 1
    ensures ClassicWidth(multiplicand, multiplier) == ProductWidth(multiplicand, multiplier)
  {
    var p: nat := multiplicand * multiplier;
    LengthOfNat(multiplicand);
    LengthOfNat(multiplier);
    LengthOfNat(p);
    BelowPow10(p);
    FactorAtMostProduct(multiplicand, multiplier);
    FactorAtMostProduct(multiplier, multiplicand);
    DigitsOfBound(multiplicand, NumDigits(p));
    DigitsOfBound(multiplier, NumDigits(p));
  }

  /**
   * A problem with a 0 operand has the product 0, one character long: its
   * classic column is wider than the product's exactly when the other
   * operand has two or more digits (5 × 0 prints both four wide).
   */
  lemma {:induction false} ClassicWidthWithZero(multiplicand: nat, multiplier: nat)
    requires multiplicand == 0 || multiplier == 0
    ensures ClassicWidth(multiplicand, multiplier) > ProductWidth(multiplicand, multiplier)
            <==> multiplicand >= 10 || multiplier >= 10
  {
    LengthOfNat(multiplicand);
    LengthOfNat(multiplier);
    LengthOfNat(0);
    assert multiplicand * multiplier == 0;
    NumDigitsRange(multiplicand, 1);
    NumDigitsRange(multiplier, 1);
  }

  /** One printed line per entry, each at least `width` long. */
  function Lines(values: seq<string>, width: int): (r: seq<string>)
    ensures |r| == |values| && forall i :: 0 <= i < |r| ==> |r[i]| >= width && r[i] == Line(values[i], width)
  {
    seq(|values|, i requires 0 <= i < |values| => Line(values[i], width))
  }

  /** `PartialProductsWorkDisplay` (lines 146-177). */
  function PartialProductsWork(multiplicand: int, multiplier: int, saved: SavedWork): (work: Work)
    ensures work.NoWorkSaved? <==> saved.inputs.None?
    ensures work.Column? ==> |work.rows| == |saved.inputs.value| && work.divider && work.header == []
    ensures Fits(work, ProductWidth(multiplicand, multiplier))
  {
    var w := ProductWidth(multiplicand, multiplier);
    match saved.inputs
    case None => NoWorkSaved
    case Some(inputs) =>
      Column([], Lines(inputs, w), true, Line(saved.sumInput, w))
  }

  /**
   * Lines 202-207: the multiplicand right-aligned, then "× " and the
   * multiplier right-aligned, both exactly the column's width.
   */
  function ClassicHeader(multiplicand: int, multiplier: int): (h: seq<string>)
    ensures var w := ClassicWidth(multiplicand, multiplier);
            |h| == 2 && |h[0]| == w && |h[1]| == w
  {
    var w := ClassicWidth(multiplicand, multiplier);
    [PadStart(IntToString(multiplicand), w, ' '), "× " + PadStart(IntToString(multiplier), w - 2, ' ')]
  }

  /** The first header line ends in the multiplicand, the second starts with "× " and ends in the multiplier. */
  lemma {:induction false} ClassicHeaderShape(multiplicand: int, multiplier: int)
    ensures var w, h := ClassicWidth(multiplicand, multiplier), ClassicHeader(multiplicand, multiplier);
            h[0][w - |IntToString(multiplicand)|..] == IntToString(multiplicand)
            && h[1][..2] == "× " && h[1][w - |IntToString(multiplier)|..] == IntToString(multiplier)
  {
    var w, a, b := ClassicWidth(multiplicand, multiplier), IntToString(multiplicand), IntToString(multiplier);
    var first, second := PadStart(a, w, ' '), PadStart(b, w - 2, ' ');
    assert |first| == w && |second| == w - 2;
    var line := "× " + second;
    assert ClassicHeader(multiplicand, multiplier) == [first, line];
    assert line[..2] == "× ";
    assert line[w - |b|..] == second[w - 2 - |b|..];
  }

  /** `ClassicAlgorithmWorkDisplay` (lines 179-227): the problem, then the partial rows, then the sum. */
  function ClassicWork(multiplicand: int, multiplier: int, saved: SavedWork): (work: Work)
    ensures work.NoWorkSaved? <==> saved.partialInputs.None?
    ensures work.Column? ==> |work.rows| == |saved.partialInputs.value| && |work.header| == 2
    ensures work.Column? ==> (work.divider <==> |work.rows| > 1)
    ensures work.Column? ==> work.header == ClassicHeader(multiplicand, multiplier)
    ensures Fits(work, ClassicWidth(multiplicand, multiplier))
  {
    var w := ClassicWidth(multiplicand, multiplier);
    match saved.partialInputs
    case None => NoWorkSaved
    case Some(partials) =>
      var header := ClassicHeader(multiplicand, multiplier);
      ColumnFits(header, partials, |partials| > 1, saved.sumInput, w);
      Column(header, Lines(partials, w), |partials| > 1, Line(saved.sumInput, w))
  }

  /** A column of lines under a header of width-long lines fits the width. */
  lemma {:induction false} ColumnFits(header: seq<string>, values: seq<string>, divider: bool, sumValue: string, width: int)
    requires forall i :: 0 <= i < |header| ==> |header[i]| == width
    ensures Fits(Column(header, Lines(values, width), divider, Line(sumValue, width)), width)
  {
  }

  /** `AreaModelWorkDisplay` (lines 229-261): the addition grid's saved rows and sum. */
  function AreaModelWork(multiplicand: int, multiplier: int, saved: SavedWork): (work: Work)
    ensures work.NoWorkSaved? <==> saved.additionInputs.None? || saved.additionInputs.value.inputs.None?
    ensures work.Column? ==> |work.rows| == |saved.additionInputs.value.inputs.value| && work.divider
    ensures Fits(work, ProductWidth(multiplicand, multiplier))
  {
    var w := ProductWidth(multiplicand, multiplier);
    match saved.additionInputs
    case None => NoWorkSaved
    case Some(addition) =>
      match addition.inputs
      case None => NoWorkSaved
      case Some(inputs) =>
        Column([], Lines(inputs, w), true, Line(addition.sumInput, w))
  }

  // ---------------------------------------------------------------------
  // One problem

  /** What is printed for one problem: its number, operands, mark and work. */
  datatype Printed = Printed(number: nat, multiplicand: int, multiplier: int, mark: Option<bool>, work: Option<Work>)

  /**
   * `ProblemWorkDisplay` (lines 89-137): nothing without a saved state or
   * for another operation (line 92); otherwise the ✓/✗ mark once complete
   * (line 105) and the work of the method in use (methods without a print
   * layout print none).
   */
  function ProblemWorkDisplay(problem: Problem, number: nat, progress: WorksheetProgress): (r: Option<Printed>)
    ensures r.None? <==> problem.id !in progress.problemStates || problem.operation != Multiplication
    ensures r.Some? ==> r.value.number == number
    ensures r.Some? ==> (r.value.mark.Some? <==> progress.problemStates[problem.id].isComplete)
  {
    if problem.id !in progress.problemStates || problem.operation != Multiplication then None
    else
      var state := progress.problemStates[problem.id];
      var m, n := problem.multiplicand, problem.multiplier;
      var work := match state.currentMethod
        case PartialProducts => Some(PartialProductsWork(m, n, state.userInputs))
        case ClassicAlgorithm => Some(ClassicWork(m, n, state.userInputs))
        case AreaModel => Some(AreaModelWork(m, n, state.userInputs))
        case _ => None;
      Some(Printed(number, m, n, if state.isComplete then Some(state.isCorrect == Some(true)) else None, work))
  }

  /** The printed mark is the overview's badge: none while incomplete, ✓ exactly for a solved problem. */
  lemma {:induction false} MarkAgreesWithOverview(problem: Problem, number: nat, progress: WorksheetProgress)
    requires ProblemWorkDisplay(problem, number, progress).Some?
    ensures var mark := ProblemWorkDisplay(problem, number, progress).value.mark;
            var status := WorksheetOverview.GetProblemStatus(progress, problem);
            (mark.None? <==> status == WorksheetOverview.Incomplete)
            && (mark == Some(true) <==> status == WorksheetOverview.Correct)
            && (mark == Some(false) <==> status == WorksheetOverview.Incorrect)
  {
  }
}
