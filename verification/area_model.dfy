/**
 * lib/validators/multiplication-area-model.ts: the place-value decomposition,
 * the expected area-model grid of a multiplication, the validator that
 * compares a student's cells and sum with it, and the completeness test.
 */
module AreaModel {
  import opened Options
  import opened MathTypes
  import opened Digits
  import opened Sorting
  import opened Grids
  import opened Validation

  /** One rectangle of the grid: row indexes the multiplier parts, col the multiplicand parts. */
  datatype AreaModelCell = AreaModelCell(row: nat, col: nat, rowValue: nat, colValue: nat, expected: nat)

  datatype AreaModelExpected = AreaModelExpected(cells: seq<AreaModelCell>, multiplicandParts: seq<nat>,
                                                 multiplierParts: seq<nat>, sum: int)

  /**
   * A student's entries, cells keyed "row-col". A key mapped to None holds
   * null; a key that is not in the map is undefined.
   */
  datatype AreaModelInputs = AreaModelInputs(cells: map<string, Option<int>>, sum: Option<int>)

  const OnlyMultiplication := "Area Model validator only supports multiplication"

  // ----- place-value decomposition -----

  /** The place values of the given places, the last place first. */
  function ValuesFromTop(ps: seq<Place>): (r: seq<nat>)
    ensures |r| == |ps|
    ensures forall i :: 0 <= i < |ps| ==> r[i] == PlaceValue(ps[|ps| - 1 - i])
  {
    if ps == [] then [] else [PlaceValue(ps[|ps| - 1])] + ValuesFromTop(ps[..|ps| - 1])
  }

  /**
   * What `getPlaceValueComponents` returns: the place values of the nonzero
   * digits, most significant first, or [0] when there are none (0 and, as
   * the loop never runs for them, negative numbers).
   */
  function PlaceValueComponents(num: int): seq<nat>
  {
    var found := if num > 0 then ValuesFromTop(NonzeroPlaces(num)) else [];
    if |found| > 0 then found else [0]
  }

  /** `getPlaceValueComponents`: peels digits off the ones end, unshifting each nonzero term. */
  method GetPlaceValueComponents(num: int) returns (components: seq<nat>)
    ensures components == PlaceValueComponents(num)
  {
    var found: seq<nat> := [];
    var place: nat := 0;
    var n := num;
    while n > 0
      invariant num <= 0 ==> n == num && |found| == 0
      invariant num > 0 ==> n >= 0 && n == Shift(num, place) && found == ValuesFromTop(NonzeroPlacesBelow(num, place))
      decreases n
    {
      var digit := n % 10;
      ShiftStep(num, place);
      ComponentsStep(num, place);
      if digit > 0 {
        found := [PlaceValue(Place(digit, place))] + found;
      }
      n := n / 10;
      place := place + 1;
    }
    if num > 0 {
      NonzeroPlacesBelowAll(num, place);
    }
    components := if |found| > 0 then found else [0];
  }

  /** Looking at one more place puts its term, when its digit is not 0, in front. */
  lemma {:induction false} ComponentsStep(n: nat, k: nat)
    ensures var d := DigitAt(n, k);
            ValuesFromTop(NonzeroPlacesBelow(n, k + 1))
            == (if d == 0 then [] else [PlaceValue(Place(d, k))]) + ValuesFromTop(NonzeroPlacesBelow(n, k))
  {
    var below := NonzeroPlacesBelow(n, k);
    var d := DigitAt(n, k);
    if d != 0 {
      assert (below + [Place(d, k)])[..|below|] == below;
    } else {
      assert NonzeroPlacesBelow(n, k + 1) == below;
    }
  }

  /**
   * For n > 0 the components are the nonzero digits times their powers of
   * ten, most significant first, one per nonzero digit of n's decimal form.
   */
  lemma {:induction false} ComponentsArePlaceTerms(n: nat)
    requires n > 0
    ensures |PlaceValueComponents(n)| == |NonzeroPlaces(n)| == CountNonzeroChars(NatToString(n))
    ensures forall i :: 0 <= i < |PlaceValueComponents(n)| ==> IsPlaceTerm(n, i)
  {
    ComponentsCount(n);
    forall i | 0 <= i < |PlaceValueComponents(n)|
      ensures IsPlaceTerm(n, i)
    {
      ComponentTerm(n, i);
    }
  }

  /**
   * Component i is the value of the i-th nonzero digit of n counted from the
   * top: that digit (1 to 9, the digit of n at its place) times ten to its place.
   */
  ghost predicate IsPlaceTerm(n: nat, i: nat)
  {
    var r, ps := PlaceValueComponents(n), NonzeroPlaces(n);
    i < |r| == |ps| &&
    var pl := ps[|ps| - 1 - i];
    r[i] == pl.digit * Pow10(pl.place) && 1 <= pl.digit <= 9 && pl.digit == DigitAt(n, pl.place)
  }

  /** One component per nonzero digit. */
  lemma {:induction false} ComponentsCount(n: nat)
    requires n > 0
    ensures |PlaceValueComponents(n)| == |NonzeroPlaces(n)| == CountNonzeroChars(NatToString(n))
  {
    NonzeroPlacesCount(n);
    NonzeroPlacesNonempty(n);
    assert PlaceValueComponents(n) == ValuesFromTop(NonzeroPlaces(n));
  }

  /** Component i is the place term of the i-th nonzero digit counted from the top. */
  lemma {:induction false} ComponentTerm(n: nat, i: nat)
    requires n > 0 && i < |PlaceValueComponents(n)|
    ensures IsPlaceTerm(n, i)
  {
    NonzeroPlacesNonempty(n);
    NonzeroPlacesBelowEntries(n, NumDigits(n));
    var ps := NonzeroPlaces(n);
    assert PlaceValueComponents(n) == ValuesFromTop(ps);
    assert PlaceValueComponents(n)[i] == PlaceValue(ps[|ps| - 1 - i]);
  }

  /** A positive number has at least one nonzero digit, its leading one. */
  lemma {:induction false} NonzeroPlacesNonempty(n: nat)
    requires n > 0
    ensures |NonzeroPlaces(n)| > 0
  {
    LeadingDigitNonzero(n);
    NonzeroPlacesBelowComplete(n, NumDigits(n));
    assert Place(DigitAt(n, NumDigits(n) - 1), NumDigits(n) - 1) in NonzeroPlaces(n);
  }

  /** The components of 0, and of any negative number, are [0]. */
  lemma {:induction false} ComponentsOfNonPositive(num: int)
    requires num <= 0
    ensures PlaceValueComponents(num) == [0]
  {
  }

  /** The components of n >= 0 add up to n. */
  lemma {:induction false} ComponentsSum(n: nat)
    ensures Sum(PlaceValueComponents(n)) == n
  {
    if n > 0 {
      NonzeroPlacesNonempty(n);
      ValuesFromTopSum(NonzeroPlaces(n));
      PlaceSumOfNonzeroPlaces(n);
    } else {
      assert PlaceValueComponents(n) == [0];
      assert Sum([0]) == 0 + Sum([]);
    }
  }

  lemma {:induction false} ValuesFromTopSum(ps: seq<Place>)
    ensures Sum(ValuesFromTop(ps)) == PlaceSum(ps)
  {
    if ps != [] {
      var init := ps[..|ps| - 1];
      ValuesFromTopSum(init);
      var r := ValuesFromTop(ps);
      assert r == [PlaceValue(ps[|ps| - 1])] + ValuesFromTop(init);
      assert r[1..] == ValuesFromTop(init);
    }
  }

  /** The components are strictly decreasing. */
  lemma {:induction false} ComponentsDecreasing(num: int)
    ensures var r := PlaceValueComponents(num);
            forall i, j :: 0 <= i < j < |r| ==> r[i] > r[j]
  {
    if num > 0 {
      var ps := NonzeroPlaces(num);
      NonzeroPlacesBelowEntries(num, NumDigits(num));
      NonzeroPlacesBelowIncreasing(num, NumDigits(num));
      var r := ValuesFromTop(ps);
      forall i, j | 0 <= i < j < |r| ensures r[i] > r[j] {
        var low, high := ps[|ps| - 1 - j], ps[|ps| - 1 - i];
        assert low.place < high.place && low.digit <= 9 && 1 <= high.digit;
        PlaceValueOrder(low, high);
      }
    }
  }

  /** A single digit at a lower place is worth less than any nonzero digit at a higher place. */
  lemma {:induction false} PlaceValueOrder(low: Place, high: Place)
    requires low.place < high.place && low.digit <= 9 && 1 <= high.digit
    ensures PlaceValue(low) < PlaceValue(high)
  {
    Pow10Grows(low.place, high.place);
    var p := Pow10(low.place);
    var q := Pow10(high.place);
    assert low.digit * p <= 9 * p;
    assert high.digit * q >= q;
  }

  // ----- the expected grid -----

  /** The cell pushed for multiplier part `rowValue` (row i) and multiplicand part `colValue` (col j). */
  function CellEntry(i: nat, rowValue: nat, j: nat, colValue: nat): AreaModelCell
  {
    AreaModelCell(i, j, rowValue, colValue, rowValue * colValue)
  }

  /** The cells, row-major: the multiplier parts outer, the multiplicand parts inner. */
  function ExpectedCells(multiplicand: int, multiplier: int): seq<AreaModelCell>
  {
    Grid(PlaceValueComponents(multiplier), PlaceValueComponents(multiplicand), CellEntry)
  }

  function Expected(problem: Problem): AreaModelExpected
  {
    AreaModelExpected(ExpectedCells(problem.multiplicand, problem.multiplier),
                      PlaceValueComponents(problem.multiplicand), PlaceValueComponents(problem.multiplier),
                      problem.multiplicand * problem.multiplier)
  }

  /** `calculateExpectedAreaModel`: throws (Failure) for any operation but multiplication. */
  method CalculateExpectedAreaModel(problem: Problem) returns (r: Result<AreaModelExpected, string>)
    ensures problem.operation != Multiplication ==> r == Failure(OnlyMultiplication)
    ensures problem.operation == Multiplication ==> r == Success(Expected(problem))
  {
    if problem.operation != Multiplication {
      return Failure(OnlyMultiplication);
    }
    var multiplicandParts := GetPlaceValueComponents(problem.multiplicand);
    var multiplierParts := GetPlaceValueComponents(problem.multiplier);
    var cells: seq<AreaModelCell> := [];
    var rowIndex := 0;
    while rowIndex < |multiplierParts|
      invariant 0 <= rowIndex <= |multiplierParts|
      invariant cells == Grid(multiplierParts[..rowIndex], multiplicandParts, CellEntry)
    {
      GridPrefixStep(multiplierParts, rowIndex, multiplicandParts, CellEntry);
      cells := PushCellRow(rowIndex, multiplierParts[rowIndex], multiplicandParts, cells);
      rowIndex := rowIndex + 1;
    }
    assert multiplierParts[..rowIndex] == multiplierParts;
    var sum := problem.multiplicand * problem.multiplier;
    return Success(AreaModelExpected(cells, multiplicandParts, multiplierParts, sum));
  }

  /** The inner `forEach`: one cell per multiplicand part for multiplier part `rowValue`. */
  method PushCellRow(rowIndex: nat, rowValue: nat, multiplicandParts: seq<nat>, cells: seq<AreaModelCell>)
    returns (out: seq<AreaModelCell>)
    ensures out == cells + Row(rowIndex, rowValue, multiplicandParts, CellEntry)
  {
    out := cells;
    var colIndex := 0;
    while colIndex < |multiplicandParts|
      invariant 0 <= colIndex <= |multiplicandParts|
      invariant out == cells + Row(rowIndex, rowValue, multiplicandParts[..colIndex], CellEntry)
    {
      var colValue := multiplicandParts[colIndex];
      RowPrefixStep(rowIndex, rowValue, multiplicandParts, colIndex, CellEntry);
      out := out + [AreaModelCell(rowIndex, colIndex, rowValue, colValue, rowValue * colValue)];
      colIndex := colIndex + 1;
    }
    assert multiplicandParts[..colIndex] == multiplicandParts;
  }

  /**
   * One cell per pair of parts, row-major: the cell of multiplier part i and
   * multiplicand part j sits at i * (number of multiplicand parts) + j and
   * holds their product.
   */
  lemma {:induction false} ExpectedCellsLayout(multiplicand: int, multiplier: int, i: nat, j: nat)
    ensures |ExpectedCells(multiplicand, multiplier)|
            == |PlaceValueComponents(multiplier)| * |PlaceValueComponents(multiplicand)|
    ensures var cands, pliers := PlaceValueComponents(multiplicand), PlaceValueComponents(multiplier);
            i < |pliers| && j < |cands| ==>
              var k := i * |cands| + j;
              k < |ExpectedCells(multiplicand, multiplier)|
              && ExpectedCells(multiplicand, multiplier)[k] == CellEntry(i, pliers[i], j, cands[j])
  {
    var cands := PlaceValueComponents(multiplicand);
    var pliers := PlaceValueComponents(multiplier);
    GridLength(pliers, cands, CellEntry);
    if i < |pliers| && j < |cands| {
      GridIndex(pliers, cands, CellEntry, i, j);
    }
  }

  /** The key under which a cell's value is read. */
  function CellValue(cell: AreaModelCell): int
  {
    cell.expected
  }

  /** For operands >= 0 the cells' expected values add up to the product, which is `sum`. */
  lemma {:induction false} ExpectedCellsSum(multiplicand: nat, multiplier: nat)
    ensures KeySum(ExpectedCells(multiplicand, multiplier), CellValue) == multiplicand * multiplier
  {
    var cands := PlaceValueComponents(multiplicand);
    var pliers := PlaceValueComponents(multiplier);
    GridCellSum(pliers, cands);
    ComponentsSum(multiplicand);
    ComponentsSum(multiplier);
    Commute(multiplier, multiplicand);
  }

  lemma {:induction false} Commute(a: int, b: int)
    ensures a * b == b * a
  {
  }

  lemma {:induction false} RowCellSum(i: nat, rowValue: nat, cands: seq<nat>)
    ensures KeySum(Row(i, rowValue, cands, CellEntry), CellValue) == rowValue * Sum(cands)
  {
    if cands != [] {
      var init := cands[..|cands| - 1];
      var last := cands[|cands| - 1];
      var rowInit := Row(i, rowValue, init, CellEntry);
      assert cands == init + [last];
      RowSnoc<nat, nat, AreaModelCell>(i, rowValue, init, last, CellEntry);
      RowCellSum(i, rowValue, init);
      KeySumAppend(rowInit, [CellEntry(i, rowValue, |init|, last)], CellValue);
      SumAppend(init, [last]);
      assert Sum([last]) == last + Sum([]);
      Distribute(rowValue, Sum(init), last);
    }
  }

  lemma {:induction false} Distribute(a: int, x: int, y: int)
    ensures a * x + a * y == a * (x + y)
  {
  }

  lemma {:induction false} GridCellSum(pliers: seq<nat>, cands: seq<nat>)
    ensures KeySum(Grid(pliers, cands, CellEntry), CellValue) == Sum(pliers) * Sum(cands)
  {
    if pliers != [] {
      var init := pliers[..|pliers| - 1];
      var last := pliers[|pliers| - 1];
      GridUnfold(pliers, cands, CellEntry);
      GridCellSum(init, cands);
      RowCellSum(|init|, last, cands);
      KeySumAppend(Grid(init, cands, CellEntry), Row<nat, nat, AreaModelCell>(|init|, last, cands, CellEntry), CellValue);
      assert pliers == init + [last];
      SumAppend(init, [last]);
      assert Sum([last]) == last + Sum([]);
      Factor(Sum(init), last, Sum(cands));
    }
  }

  lemma {:induction false} Factor(p: int, v: int, c: int)
    ensures p * c + v * c == (p + v) * c
  {
  }

  // ----- validation -----

  /** The key "row-col" of a cell. */
  function CellKey(row: nat, col: nat): string
  {
    NatToString(row) + "-" + NatToString(col)
  }

  /** `inputs.cells[key]`, where a missing key reads as undefined (None). */
  function Lookup(cells: map<string, Option<int>>, key: string): Option<int>
  {
    if key in cells then cells[key] else None
  }

  /** The student's entry for a grid cell holds its expected value. */
  predicate CellMatches(cell: AreaModelCell, cells: map<string, Option<int>>)
  {
    Lookup(cells, CellKey(cell.row, cell.col)) == Some(cell.expected)
  }

  /** The error of one cell, if any: "missing" for null or undefined, "incorrect" for another number. */
  function CellErrors(cell: AreaModelCell, cells: map<string, Option<int>>): (errs: seq<ValidationError>)
    ensures |errs| <= 1
    ensures |errs| == 0 <==> CellMatches(cell, cells)
  {
    var key := CellKey(cell.row, cell.col);
    var userValue := Lookup(cells, key);
    var cellLabel := NatToString(cell.rowValue) + " × " + NatToString(cell.colValue);
    if userValue.None? then
      [ValidationError("cell-" + key, Num(cell.expected), Absent, "Cell (" + cellLabel + ") is missing")]
    else if userValue.value != cell.expected then
      [ValidationError("cell-" + key, Num(cell.expected), Num(userValue.value), "Cell (" + cellLabel + ") is incorrect")]
    else []
  }

  /**
   * A reported cell error is on field "cell-<row>-<col>" and says "missing"
   * for a null or undefined entry and "incorrect" for a different number.
   */
  lemma {:induction false} CellErrorKinds(cell: AreaModelCell, cells: map<string, Option<int>>)
    ensures var errs := CellErrors(cell, cells);
            var key := CellKey(cell.row, cell.col);
            var cellLabel := NatToString(cell.rowValue) + " × " + NatToString(cell.colValue);
            (|errs| > 0 ==> errs[0].field == "cell-" + key && errs[0].expected == Num(cell.expected))
            && (Lookup(cells, key).None? ==>
                  |errs| > 0 && errs[0].actual == Absent && errs[0].message == "Cell (" + cellLabel + ") is missing")
            && (Lookup(cells, key).Some? && Lookup(cells, key).value != cell.expected ==>
                  |errs| > 0 && errs[0].actual == Num(Lookup(cells, key).value)
                  && errs[0].message == "Cell (" + cellLabel + ") is incorrect")
  {
  }

  /** The errors of the first n cells, in order. */
  function CellsErrors(expectedCells: seq<AreaModelCell>, cells: map<string, Option<int>>, n: nat): seq<ValidationError>
    requires n <= |expectedCells|
  {
    if n == 0 then []
    else if CellMatches(expectedCells[n - 1], cells) then CellsErrors(expectedCells, cells, n - 1)
    else CellsErrors(expectedCells, cells, n - 1) + CellErrors(expectedCells[n - 1], cells)
  }

  function AreaModelErrors(expected: AreaModelExpected, inputs: AreaModelInputs): seq<ValidationError>
  {
    CellsErrors(expected.cells, inputs.cells, |expected.cells|) + SumErrors(expected.sum, inputs.sum)
  }

  /** What `validateAreaModel` returns. */
  function AreaModelVerdict(problem: Problem, inputs: AreaModelInputs): ValidationResult
  {
    if problem.operation != Multiplication then OperationRejected(problem.operation, OnlyMultiplication)
    else Verdict(AreaModelErrors(Expected(problem), inputs))
  }

  /** `validateAreaModel`: one check per expected cell in grid order, then the sum. */
  method ValidateAreaModel(problem: Problem, inputs: AreaModelInputs) returns (r: ValidationResult)
    ensures r == AreaModelVerdict(problem, inputs)
  {
    if problem.operation != Multiplication {
      return OperationRejected(problem.operation, OnlyMultiplication);
    }
    var result := CalculateExpectedAreaModel(problem);
    var expected := result.value;
    var errors: seq<ValidationError> := [];
    var k := 0;
    while k < |expected.cells|
      invariant 0 <= k <= |expected.cells|
      invariant errors == CellsErrors(expected.cells, inputs.cells, k)
    {
      errors := PushCellError(expected.cells[k], inputs.cells, errors);
      CellsErrorsLast(expected.cells, inputs.cells, k);
      k := k + 1;
    }
    errors := PushSumError(expected.sum, inputs.sum, errors);
    assert errors == AreaModelErrors(expected, inputs);
    return ValidationResult(|errors| == 0, if |errors| > 0 then Some(errors) else None);
  }

  /** One pass of the validator's cell loop. */
  method PushCellError(cell: AreaModelCell, cells: map<string, Option<int>>, errors: seq<ValidationError>)
    returns (out: seq<ValidationError>)
    ensures out == errors + CellErrors(cell, cells)
  {
    out := errors;
    var key := CellKey(cell.row, cell.col);
    var userValue := if key in cells then cells[key] else None;
    var cellLabel := NatToString(cell.rowValue) + " × " + NatToString(cell.colValue);
    if userValue.None? {
      out := out + [ValidationError("cell-" + key, Num(cell.expected), Absent, "Cell (" + cellLabel + ") is missing")];
    } else if userValue.value != cell.expected {
      out := out + [ValidationError("cell-" + key, Num(cell.expected), Num(userValue.value),
                                    "Cell (" + cellLabel + ") is incorrect")];
    }
  }

  /** No error among the first n cells exactly when each of them matches. */
  lemma {:induction false} CellsErrorsEmpty(expectedCells: seq<AreaModelCell>, cells: map<string, Option<int>>, n: nat)
    requires n <= |expectedCells|
    ensures |CellsErrors(expectedCells, cells, n)| == 0 <==> forall i :: 0 <= i < n ==> CellMatches(expectedCells[i], cells)
  {
    if forall i :: 0 <= i < n ==> CellMatches(expectedCells[i], cells) {
      CellsErrorsNone(expectedCells, cells, n);
    } else {
      var i :| 0 <= i < n && !CellMatches(expectedCells[i], cells);
      CellsErrorsMiss(expectedCells, cells, i, n);
    }
  }

  /** A cell that does not match makes every longer prefix report an error. */
  lemma {:induction false} CellsErrorsMiss(expectedCells: seq<AreaModelCell>, cells: map<string, Option<int>>, i: nat, n: nat)
    requires i < n <= |expectedCells|
    requires !CellMatches(expectedCells[i], cells)
    ensures |CellsErrors(expectedCells, cells, n)| > 0
  {
    CellsErrorsCount(expectedCells, cells, n - 1);
    if i < n - 1 {
      CellsErrorsMiss(expectedCells, cells, i, n - 1);
    }
    assert |CellsErrors(expectedCells, cells, n)| > 0;
  }

  /** Cell i adds as many errors as it has of its own. */
  lemma {:induction false} CellsErrorsCount(expectedCells: seq<AreaModelCell>, cells: map<string, Option<int>>, i: nat)
    requires i < |expectedCells|
    ensures |CellsErrors(expectedCells, cells, i + 1)| == |CellsErrors(expectedCells, cells, i)| + |CellErrors(expectedCells[i], cells)|
  {
  }

  /** Cell i adds its own errors after those of the cells before it. */
  lemma {:induction false} CellsErrorsLast(expectedCells: seq<AreaModelCell>, cells: map<string, Option<int>>, i: nat)
    requires i < |expectedCells|
    ensures CellsErrors(expectedCells, cells, i + 1) == CellsErrors(expectedCells, cells, i) + CellErrors(expectedCells[i], cells)
  {
    if CellMatches(expectedCells[i], cells) {
      assert CellErrors(expectedCells[i], cells) == [];
    }
  }

  /** When the first n cells all match, they report no error. */
  lemma {:induction false} CellsErrorsNone(expectedCells: seq<AreaModelCell>, cells: map<string, Option<int>>, n: nat)
    requires n <= |expectedCells|
    requires forall i :: 0 <= i < n ==> CellMatches(expectedCells[i], cells)
    ensures |CellsErrors(expectedCells, cells, n)| == 0
  {
    if n > 0 {
      CellsErrorsNone(expectedCells, cells, n - 1);
    }
  }

  /** The cell errors read the entries of the grid's own keys and nothing else. */
  lemma {:induction false} CellsErrorsFrame(expectedCells: seq<AreaModelCell>, cells: map<string, Option<int>>,
                                            other: map<string, Option<int>>, n: nat)
    requires n <= |expectedCells|
    requires forall i :: 0 <= i < n ==>
               var key := CellKey(expectedCells[i].row, expectedCells[i].col);
               Lookup(cells, key) == Lookup(other, key)
    ensures CellsErrors(expectedCells, cells, n) == CellsErrors(expectedCells, other, n)
  {
    if n > 0 {
      CellsErrorsFrame(expectedCells, cells, other, n - 1);
      var c := expectedCells[n - 1];
      assert Lookup(cells, CellKey(c.row, c.col)) == Lookup(other, CellKey(c.row, c.col));
    }
  }

  /** A non-multiplication problem gets exactly one error, on field "operation". */
  lemma {:induction false} AreaModelRejectsOperation(problem: Problem, inputs: AreaModelInputs)
    requires problem.operation != Multiplication
    ensures !AreaModelVerdict(problem, inputs).isCorrect
    ensures AreaModelVerdict(problem, inputs).errors
            == Some([ValidationError("operation", Text("multiplication"), Text(OperationName(problem.operation)), OnlyMultiplication)])
  {
  }

  /**
   * A multiplication is accepted exactly when every grid cell's key holds
   * the cell's expected value and the sum is multiplicand × multiplier;
   * `errors` is then undefined.
   */
  lemma {:induction false} AreaModelCorrectIff(problem: Problem, inputs: AreaModelInputs)
    requires problem.operation == Multiplication
    ensures var cells := ExpectedCells(problem.multiplicand, problem.multiplier);
            AreaModelVerdict(problem, inputs).isCorrect
            <==> (forall i :: 0 <= i < |cells| ==> CellMatches(cells[i], inputs.cells))
                 && inputs.sum == Some(problem.multiplicand * problem.multiplier)
    ensures AreaModelVerdict(problem, inputs).isCorrect <==> AreaModelVerdict(problem, inputs).errors.None?
  {
    var e := Expected(problem);
    CellsErrorsEmpty(e.cells, inputs.cells, |e.cells|);
    var cellErrors := CellsErrors(e.cells, inputs.cells, |e.cells|);
    var sumErrors := SumErrors(e.sum, inputs.sum);
    assert AreaModelErrors(e, inputs) == cellErrors + sumErrors;
    assert |cellErrors + sumErrors| == |cellErrors| + |sumErrors|;
  }

  /**
   * Entries under keys that are not grid cells are never inspected: two
   * inputs that agree on the grid's keys and the sum get the same verdict.
   */
  lemma {:induction false} AreaModelIgnoresOtherKeys(problem: Problem, inputs: AreaModelInputs, other: AreaModelInputs)
    requires inputs.sum == other.sum
    requires var cells := ExpectedCells(problem.multiplicand, problem.multiplier);
             forall i :: 0 <= i < |cells| ==>
               Lookup(inputs.cells, CellKey(cells[i].row, cells[i].col)) == Lookup(other.cells, CellKey(cells[i].row, cells[i].col))
    ensures AreaModelVerdict(problem, inputs) == AreaModelVerdict(problem, other)
  {
    var e := Expected(problem);
    CellsErrorsFrame(e.cells, inputs.cells, other.cells, |e.cells|);
  }

  /**
   * `isAreaModelComplete`: throws for a non-multiplication (through the
   * calculator); otherwise every grid key holds a non-null entry and the sum
   * is non-null.
   */
  function IsAreaModelComplete(problem: Problem, inputs: AreaModelInputs): (r: Result<bool, string>)
    ensures problem.operation != Multiplication <==> r == Failure(OnlyMultiplication)
  {
    if problem.operation != Multiplication then Failure(OnlyMultiplication)
    else
      var cells := ExpectedCells(problem.multiplicand, problem.multiplier);
      Success((forall i :: 0 <= i < |cells| ==> Lookup(inputs.cells, CellKey(cells[i].row, cells[i].col)).Some?)
              && inputs.sum.Some?)
  }

  /** An accepted solution is complete; an incomplete one is rejected. */
  lemma {:induction false} AreaModelCorrectIsComplete(problem: Problem, inputs: AreaModelInputs)
    requires problem.operation == Multiplication
    ensures AreaModelVerdict(problem, inputs).isCorrect ==> IsAreaModelComplete(problem, inputs) == Success(true)
    ensures IsAreaModelComplete(problem, inputs) == Success(false) ==> !AreaModelVerdict(problem, inputs).isCorrect
  {
    AreaModelCorrectIff(problem, inputs);
  }
}
