/**
 * lib/validators/multiplication-partial-products.ts: the expected partial
 * products of a multiplication, the validator that compares a student's
 * partial products and sum with them, and the completeness test.
 */
module PartialProducts {
  import opened Options
  import opened MathTypes
  import opened Digits
  import opened Sorting
  import opened Grids
  import opened Validation

  /** One partial product and its display label, e.g. 800 with "20 × 40". */
  datatype PartialProduct = PartialProduct(value: nat, labelText: string)

  datatype PartialProductsExpected = PartialProductsExpected(partials: seq<PartialProduct>, sum: int)

  /** A student's entries; None is a null or undefined entry. */
  datatype PartialProductsInputs = PartialProductsInputs(partials: seq<Option<int>>, sum: Option<int>)

  const OnlyMultiplication := "Partial Products validator only supports multiplication"

  /** The sort key of the calculator, `(a, b) => a.value - b.value`. */
  function Value(p: PartialProduct): int
  {
    p.value
  }

  /** The label "<multiplicand part> × <multiplier part>". */
  function ProductLabel(candValue: nat, plierValue: nat): string
  {
    NatToString(candValue) + " × " + NatToString(plierValue)
  }

  /** The partial product of a multiplicand place and a multiplier place. */
  function ProductOf(cand: Place, plier: Place): PartialProduct
  {
    PartialProduct(cand.digit * plier.digit * Pow10(cand.place + plier.place),
                   ProductLabel(PlaceValue(cand), PlaceValue(plier)))
  }

  /** The entry pushed for multiplier place `plier` and multiplicand place `cand`. */
  function ProductEntry(i: nat, plier: Place, j: nat, cand: Place): PartialProduct
  {
    ProductOf(cand, plier)
  }

  /**
   * The products in push order: multiplier places outer and multiplicand
   * places inner, each least significant first, zero digits skipped.
   */
  function PushedProducts(multiplicand: nat, multiplier: nat): seq<PartialProduct>
  {
    Grid(NonzeroPlaces(multiplier), NonzeroPlaces(multiplicand), ProductEntry)
  }

  /** The calculator's list: the pushed products, stably sorted by value. */
  function ExpectedPartials(multiplicand: nat, multiplier: nat): seq<PartialProduct>
  {
    SortBy(PushedProducts(multiplicand, multiplier), Value)
  }

  /**
   * The nested loops of `calculateExpectedPartialProducts`: both operands are
   * read from their decimal strings right to left, digit '0' is skipped.
   */
  method CollectPartialProducts(multiplicand: nat, multiplier: nat) returns (products: seq<PartialProduct>)
    ensures products == PushedProducts(multiplicand, multiplier)
  {
    var plierStr := NatToString(multiplier);
    DigitOfString(multiplier, 0);
    products := [];
    var place := 0;
    while place < |plierStr|
      invariant place <= |plierStr| == NumDigits(multiplier)
      invariant GridSoFar(multiplicand, multiplier, place, products)
    {
      var i := |plierStr| - 1 - place;  // the source's index, from the last character down
      DigitOfStringAt(multiplier, i, place);
      var plierDigit := CharDigit(plierStr[i]);
      products := PushPlace(multiplicand, multiplier, plierDigit, place, products);
      place := place + 1;
    }
    GridDone(multiplicand, multiplier, place, products);
  }

  /** One pass of the outer loop: the multiplier digit at place k, when not 0, pushes its row. */
  method PushPlace(multiplicand: nat, multiplier: nat, plierDigit: nat, k: nat, products: seq<PartialProduct>)
    returns (next: seq<PartialProduct>)
    requires GridSoFar(multiplicand, multiplier, k, products) && plierDigit == DigitAt(multiplier, k)
    ensures GridSoFar(multiplicand, multiplier, k + 1, next)
  {
    GridStep(multiplicand, multiplier, k, products);
    next := products;
    if plierDigit != 0 {
      next := PushRow(multiplicand, Place(plierDigit, k), |NonzeroPlacesBelow(multiplier, k)|, products);
    }
  }

  /** The rows of the first k multiplier places have been collected. */
  ghost predicate GridSoFar(multiplicand: nat, multiplier: nat, k: nat, products: seq<PartialProduct>)
  {
    products == Grid(NonzeroPlacesBelow(multiplier, k), NonzeroPlaces(multiplicand), ProductEntry)
  }

  /** The inner loop of the calculator: one multiplier place against every multiplicand digit. */
  method PushRow(multiplicand: nat, plier: Place, i: nat, products: seq<PartialProduct>) returns (out: seq<PartialProduct>)
    ensures out == products + Row(i, plier, NonzeroPlaces(multiplicand), ProductEntry)
  {
    var candStr := NatToString(multiplicand);
    ReadRightToLeft(multiplicand);
    out := PushRowDigits(candStr, multiplicand, plier, i, products);
  }

  /** The loop of `PushRow` over `candStr`, the decimal form of `multiplicand`, from its last character. */
  method PushRowDigits(candStr: string, multiplicand: nat, plier: Place, i: nat, products: seq<PartialProduct>)
    returns (out: seq<PartialProduct>)
    requires |candStr| == NumDigits(multiplicand)
    requires forall j :: 0 <= j < |candStr| ==>
               IsDigitChar(candStr[j]) && CharDigit(candStr[j]) == DigitAt(multiplicand, |candStr| - 1 - j)
    ensures out == products + Row(i, plier, NonzeroPlaces(multiplicand), ProductEntry)
  {
    out := products;
    var j := |candStr| - 1;
    while j >= 0
      invariant -1 <= j < |candStr|
      invariant RowSoFar(multiplicand, plier, i, products, |candStr| - 1 - j, out)
    {
      var candPlace := |candStr| - 1 - j;
      var candDigit := CharDigit(candStr[j]);
      RowStep(multiplicand, plier, i, candPlace, products, out);
      if candDigit != 0 {
        out := out + [ProductOf(Place(candDigit, candPlace), plier)];
      }
      j := j - 1;
    }
  }

  /** The products of the first k multiplicand places have been appended to `products`. */
  ghost predicate RowSoFar(multiplicand: nat, plier: Place, i: nat, products: seq<PartialProduct>, k: nat, out: seq<PartialProduct>)
  {
    out == products + Row(i, plier, NonzeroPlacesBelow(multiplicand, k), ProductEntry)
  }

  /** Looking at one more multiplicand place appends its product when the digit there is not 0. */
  lemma {:induction false} RowStep(multiplicand: nat, plier: Place, i: nat, k: nat, products: seq<PartialProduct>, out: seq<PartialProduct>)
    requires RowSoFar(multiplicand, plier, i, products, k, out)
    ensures var d := DigitAt(multiplicand, k);
            RowSoFar(multiplicand, plier, i, products, k + 1, if d == 0 then out else out + [ProductOf(Place(d, k), plier)])
  {
    var d := DigitAt(multiplicand, k);
    var row := Row(i, plier, NonzeroPlacesBelow(multiplicand, k), ProductEntry);
    if d != 0 {
      RowSnoc(i, plier, NonzeroPlacesBelow(multiplicand, k), Place(d, k), ProductEntry);
      var x := ProductOf(Place(d, k), plier);
      assert products + (row + [x]) == (products + row) + [x];
    } else {
      assert NonzeroPlacesBelow(multiplicand, k + 1) == NonzeroPlacesBelow(multiplicand, k);
    }
  }

  /** Once every multiplier place has been looked at, the rows are the pushed products. */
  lemma {:induction false} GridDone(multiplicand: nat, multiplier: nat, k: nat, products: seq<PartialProduct>)
    requires k == NumDigits(multiplier) && GridSoFar(multiplicand, multiplier, k, products)
    ensures products == PushedProducts(multiplicand, multiplier)
  {
  }

  /** Looking at one more multiplier place appends its row when the digit there is not 0. */
  lemma {:induction false} GridStep(multiplicand: nat, multiplier: nat, k: nat, products: seq<PartialProduct>)
    requires products == Grid(NonzeroPlacesBelow(multiplier, k), NonzeroPlaces(multiplicand), ProductEntry)
    ensures var d := DigitAt(multiplier, k);
            Grid(NonzeroPlacesBelow(multiplier, k + 1), NonzeroPlaces(multiplicand), ProductEntry)
            == if d == 0 then products
               else products + Row(|NonzeroPlacesBelow(multiplier, k)|, Place(d, k), NonzeroPlaces(multiplicand), ProductEntry)
  {
    var d := DigitAt(multiplier, k);
    var below := NonzeroPlacesBelow(multiplier, k);
    if d != 0 {
      GridSnoc(below, Place(d, k), NonzeroPlaces(multiplicand), ProductEntry);
    } else {
      assert NonzeroPlacesBelow(multiplier, k + 1) == below;
    }
  }

  /**
   * `calculateExpectedPartialProducts`: throws (Failure) for any operation but
   * multiplication, otherwise the sorted partial products and the product.
   */
  method CalculateExpectedPartialProducts(problem: Problem) returns (r: Result<PartialProductsExpected, string>)
    requires problem.operation == Multiplication ==> problem.multiplicand >= 0 && problem.multiplier >= 0
    ensures problem.operation != Multiplication ==> r == Failure(OnlyMultiplication)
    ensures problem.operation == Multiplication ==>
              r == Success(PartialProductsExpected(ExpectedPartials(problem.multiplicand, problem.multiplier),
                                                   problem.multiplicand * problem.multiplier))
  {
    if problem.operation != Multiplication {
      return Failure(OnlyMultiplication);
    }
    var products := CollectPartialProducts(problem.multiplicand, problem.multiplier);
    products := SortBy(products, Value);
    var sum := problem.multiplicand * problem.multiplier;
    return Success(PartialProductsExpected(products, sum));
  }

  // ----- the expected list -----

  /** A partial product's value is the product of the two place values. */
  lemma {:induction false} ProductOfValue(cand: Place, plier: Place)
    ensures ProductOf(cand, plier).value == PlaceValue(cand) * PlaceValue(plier)
  {
    Pow10Add(cand.place, plier.place);
    Rearrange(cand.digit, plier.digit, Pow10(cand.place), Pow10(plier.place));
  }

  lemma {:induction false} Rearrange(a: int, b: int, x: int, y: int)
    ensures a * b * (x * y) == (a * x) * (b * y)
  {
    calc {
      a * b * (x * y);
      == a * (b * (x * y));
      == a * (x * (b * y));
      == (a * x) * (b * y);
    }
  }

  /**
   * Zero digits are skipped, so there is one partial product per pair of
   * nonzero digits, i.e. per pair of nonzero characters of the decimal forms.
   */
  lemma {:induction false} ExpectedPartialsCount(multiplicand: nat, multiplier: nat)
    ensures |ExpectedPartials(multiplicand, multiplier)| == |NonzeroPlaces(multiplicand)| * |NonzeroPlaces(multiplier)|
    ensures |ExpectedPartials(multiplicand, multiplier)|
            == CountNonzeroChars(NatToString(multiplicand)) * CountNonzeroChars(NatToString(multiplier))
  {
    SortByFacts(PushedProducts(multiplicand, multiplier), Value);
    GridLength(NonzeroPlaces(multiplier), NonzeroPlaces(multiplicand), ProductEntry);
    NonzeroPlacesCount(multiplicand);
    NonzeroPlacesCount(multiplier);
  }

  /**
   * In push order, the product of the i-th nonzero multiplier place and the
   * j-th nonzero multiplicand place sits at i * (#multiplicand places) + j.
   */
  lemma {:induction false} PushedProductsLayout(multiplicand: nat, multiplier: nat, i: nat, j: nat)
    requires i < |NonzeroPlaces(multiplier)| && j < |NonzeroPlaces(multiplicand)|
    ensures var cands, pliers := NonzeroPlaces(multiplicand), NonzeroPlaces(multiplier);
            var ps, k := PushedProducts(multiplicand, multiplier), i * |cands| + j;
            k < |ps| && ps[k] == ProductOf(cands[j], pliers[i])
  {
    GridIndex(NonzeroPlaces(multiplier), NonzeroPlaces(multiplicand), ProductEntry, i, j);
  }

  /** The values of one multiplier place's row add up to its place value times the multiplicand part. */
  lemma {:induction false} RowValueSum(i: nat, plier: Place, cands: seq<Place>)
    ensures KeySum(Row(i, plier, cands, ProductEntry), Value) == PlaceValue(plier) * PlaceSum(cands)
  {
    if cands != [] {
      var init := cands[..|cands| - 1];
      var last := cands[|cands| - 1];
      var rowInit := Row(i, plier, init, ProductEntry);
      assert Row(i, plier, cands, ProductEntry) == rowInit + [ProductOf(last, plier)];
      RowValueSum(i, plier, init);
      KeySumAppend(rowInit, [ProductOf(last, plier)], Value);
      ProductOfValue(last, plier);
      assert KeySum([ProductOf(last, plier)], Value) == PlaceValue(last) * PlaceValue(plier);
      assert PlaceSum(cands) == PlaceSum(init) + PlaceValue(last);
      Distribute(PlaceValue(plier), PlaceSum(init), PlaceValue(last));
    }
  }

  lemma {:induction false} Distribute(a: int, x: int, y: int)
    ensures a * x + y * a == a * (x + y)
  {
  }

  lemma {:induction false} GridValueSum(pliers: seq<Place>, cands: seq<Place>)
    ensures KeySum(Grid(pliers, cands, ProductEntry), Value) == PlaceSum(pliers) * PlaceSum(cands)
  {
    if pliers != [] {
      var init := pliers[..|pliers| - 1];
      var last := pliers[|pliers| - 1];
      var gridInit := Grid(init, cands, ProductEntry);
      var row := Row(|init|, last, cands, ProductEntry);
      GridUnfold(pliers, cands, ProductEntry);
      GridValueSum(init, cands);
      RowValueSum(|init|, last, cands);
      KeySumAppend(gridInit, row, Value);
      var c, p, v := PlaceSum(cands), PlaceSum(init), PlaceValue(last);
      assert PlaceSum(pliers) == p + v;
      Commute(p, v, c);
    }
  }

  lemma {:induction false} Commute(p: int, v: int, c: int)
    ensures p * c + v * c == (p + v) * c
  {
  }

  /**
   * The expected list is ascending by value, holds exactly the pushed
   * products, and its values add up to multiplicand × multiplier.
   */
  lemma {:induction false} ExpectedPartialsSortedSum(multiplicand: nat, multiplier: nat)
    ensures SortedBy(ExpectedPartials(multiplicand, multiplier), Value)
    ensures multiset(ExpectedPartials(multiplicand, multiplier)) == multiset(PushedProducts(multiplicand, multiplier))
    ensures KeySum(ExpectedPartials(multiplicand, multiplier), Value) == multiplicand * multiplier
  {
    SortByFacts(PushedProducts(multiplicand, multiplier), Value);
    GridValueSum(NonzeroPlaces(multiplier), NonzeroPlaces(multiplicand));
    PlaceSumOfNonzeroPlaces(multiplicand);
    PlaceSumOfNonzeroPlaces(multiplier);
  }

  // ----- validation -----

  /** Position i holds the expected value. */
  predicate Matches(expected: seq<PartialProduct>, partials: seq<Option<int>>, i: nat)
  {
    i < |expected| && i < |partials| && partials[i] == Some(expected[i].value)
  }

  /** The error for position i, if any: extra, missing or incorrect. */
  function PositionErrors(expected: seq<PartialProduct>, partials: seq<Option<int>>, i: nat): (errs: seq<ValidationError>)
    ensures |errs| <= 1
    ensures |errs| == 0 <==> Matches(expected, partials, i)
  {
    var field := "partial-" + NatToString(i);
    var user := if i < |partials| then partials[i] else None;
    if i >= |expected| then
      [ValidationError(field, Text("none"), Reported(user), "Extra partial product at position " + NatToString(i + 1))]
    else if user.None? then
      [ValidationError(field, Num(expected[i].value), Absent,
                       "Partial product " + NatToString(i + 1) + " (" + expected[i].labelText + ") is missing")]
    else if user.value != expected[i].value then
      [ValidationError(field, Num(expected[i].value), Num(user.value),
                       "Partial product " + NatToString(i + 1) + " (" + expected[i].labelText + ") is incorrect")]
    else []
  }

  /**
   * A position past the expected list is "Extra", an absent or null entry is
   * "missing", a different number is "incorrect"; all on field "partial-<i>".
   */
  lemma {:induction false} PositionErrorKinds(expected: seq<PartialProduct>, partials: seq<Option<int>>, i: nat)
    ensures var errs := PositionErrors(expected, partials, i);
            |errs| > 0 ==> errs[0].field == "partial-" + NatToString(i)
    ensures var errs := PositionErrors(expected, partials, i);
            i >= |expected| ==>
              |errs| > 0 && errs[0].expected == Text("none")
              && errs[0].message == "Extra partial product at position " + NatToString(i + 1)
    ensures var errs := PositionErrors(expected, partials, i);
            i < |expected| && (i >= |partials| || partials[i].None?) ==>
              |errs| > 0 && errs[0].expected == Num(expected[i].value) && errs[0].actual == Absent
              && errs[0].message == "Partial product " + NatToString(i + 1) + " (" + expected[i].labelText + ") is missing"
    ensures var errs := PositionErrors(expected, partials, i);
            i < |expected| && i < |partials| && partials[i].Some? && partials[i].value != expected[i].value ==>
              |errs| > 0 && errs[0].expected == Num(expected[i].value) && errs[0].actual == Num(partials[i].value)
              && errs[0].message == "Partial product " + NatToString(i + 1) + " (" + expected[i].labelText + ") is incorrect"
  {
  }

  /** The errors of positions 0 .. n-1, in order. */
  function PositionsErrors(expected: seq<PartialProduct>, partials: seq<Option<int>>, n: nat): seq<ValidationError>
  {
    if n == 0 then [] else PositionsErrors(expected, partials, n - 1) + PositionErrors(expected, partials, n - 1)
  }

  /** The count error, present exactly when the lengths differ. */
  function CountErrors(expectedCount: nat, givenCount: nat): (errs: seq<ValidationError>)
  {
    if givenCount != expectedCount then
      [ValidationError("partials", Num(expectedCount), Num(givenCount),
                       "Expected " + NatToString(expectedCount) + " partial products, got " + NatToString(givenCount))]
    else []
  }

  function Max(a: nat, b: nat): nat
  {
    if a >= b then a else b
  }

  /** All errors: the count error, then each position up to the longer length, then the sum. */
  function PartialProductsErrors(expected: PartialProductsExpected, inputs: PartialProductsInputs): seq<ValidationError>
  {
    CountErrors(|expected.partials|, |inputs.partials|)
    + PositionsErrors(expected.partials, inputs.partials, Max(|inputs.partials|, |expected.partials|))
    + SumErrors(expected.sum, inputs.sum)
  }

  function Expected(problem: Problem): PartialProductsExpected
    requires problem.multiplicand >= 0 && problem.multiplier >= 0
  {
    PartialProductsExpected(ExpectedPartials(problem.multiplicand, problem.multiplier), problem.multiplicand * problem.multiplier)
  }

  /** What `validatePartialProducts` returns. */
  function PartialProductsVerdict(problem: Problem, inputs: PartialProductsInputs): ValidationResult
    requires problem.operation == Multiplication ==> problem.multiplicand >= 0 && problem.multiplier >= 0
  {
    if problem.operation != Multiplication then OperationRejected(problem.operation, OnlyMultiplication)
    else Verdict(PartialProductsErrors(Expected(problem), inputs))
  }

  /** `validatePartialProducts`, pushing errors in the source's order. */
  method ValidatePartialProducts(problem: Problem, inputs: PartialProductsInputs) returns (r: ValidationResult)
    requires problem.operation == Multiplication ==> problem.multiplicand >= 0 && problem.multiplier >= 0
    ensures r == PartialProductsVerdict(problem, inputs)
  {
    if problem.operation != Multiplication {
      return OperationRejected(problem.operation, OnlyMultiplication);
    }
    var result := CalculateExpectedPartialProducts(problem);
    var expected := result.value;
    var errors: seq<ValidationError> := [];
    if |inputs.partials| != |expected.partials| {
      errors := errors + [ValidationError("partials", Num(|expected.partials|), Num(|inputs.partials|),
                                          "Expected " + NatToString(|expected.partials|) + " partial products, got "
                                          + NatToString(|inputs.partials|))];
    }
    var maxLength := Max(|inputs.partials|, |expected.partials|);
    var i := 0;
    while i < maxLength
      invariant 0 <= i <= maxLength
      invariant errors == CountErrors(|expected.partials|, |inputs.partials|) + PositionsErrors(expected.partials, inputs.partials, i)
    {
      var pushed := PushPositionError(expected.partials, inputs.partials, i, errors);
      PositionsStep(expected.partials, inputs.partials, i, CountErrors(|expected.partials|, |inputs.partials|), errors, pushed);
      errors := pushed;
      i := i + 1;
    }
    errors := PushSumError(expected.sum, inputs.sum, errors);
    assert errors == PartialProductsErrors(expected, inputs);
    return ValidationResult(|errors| == 0, if |errors| > 0 then Some(errors) else None);
  }

  /** One pass of the validator's position loop: pushes the error of position i, if any. */
  method PushPositionError(expected: seq<PartialProduct>, partials: seq<Option<int>>, i: nat, errors: seq<ValidationError>)
    returns (out: seq<ValidationError>)
    ensures out == errors + PositionErrors(expected, partials, i)
  {
    out := errors;
    var userPartial := if i < |partials| then partials[i] else None;
    var field := "partial-" + NatToString(i);
    if i >= |expected| {
      out := out + [ValidationError(field, Text("none"), Reported(userPartial),
                                  "Extra partial product at position " + NatToString(i + 1))];
    } else if userPartial.None? {
      var expectedPartial := expected[i];
      out := out + [ValidationError(field, Num(expectedPartial.value), Absent,
                                  "Partial product " + NatToString(i + 1) + " (" + expectedPartial.labelText + ") is missing")];
    } else if userPartial.value != expected[i].value {
      var expectedPartial := expected[i];
      out := out + [ValidationError(field, Num(expectedPartial.value), Num(userPartial.value),
                                  "Partial product " + NatToString(i + 1) + " (" + expectedPartial.labelText + ") is incorrect")];
    }
  }

  /** Pushing the error of position i after those of the positions below i gives those below i + 1. */
  lemma {:induction false} PositionsStep(expected: seq<PartialProduct>, partials: seq<Option<int>>, i: nat,
                      countErrs: seq<ValidationError>, errors: seq<ValidationError>, pushed: seq<ValidationError>)
    requires errors == countErrs + PositionsErrors(expected, partials, i)
    requires pushed == errors + PositionErrors(expected, partials, i)
    ensures pushed == countErrs + PositionsErrors(expected, partials, i + 1)
  {
    assert PositionsErrors(expected, partials, i + 1) == PositionsErrors(expected, partials, i) + PositionErrors(expected, partials, i);
  }

  /** No position error below n exactly when every position below n matches. */
  lemma {:induction false} PositionsErrorsEmpty(expected: seq<PartialProduct>, partials: seq<Option<int>>, n: nat)
    ensures |PositionsErrors(expected, partials, n)| == 0 <==> forall i :: 0 <= i < n ==> Matches(expected, partials, i)
  {
    if n > 0 {
      PositionsErrorsEmpty(expected, partials, n - 1);
    }
  }

  /** The error of position i < n is part of the list for positions below n. */
  lemma {:induction false} PositionErrorListed(expected: seq<PartialProduct>, partials: seq<Option<int>>, n: nat, i: nat)
    requires i < n
    ensures forall e :: e in PositionErrors(expected, partials, i) ==> e in PositionsErrors(expected, partials, n)
  {
    if i < n - 1 {
      PositionErrorListed(expected, partials, n - 1, i);
    }
  }

  /** A non-multiplication problem gets exactly one error, on field "operation". */
  lemma {:induction false} PartialProductsRejectsOperation(problem: Problem, inputs: PartialProductsInputs)
    requires problem.operation != Multiplication
    ensures !PartialProductsVerdict(problem, inputs).isCorrect
    ensures PartialProductsVerdict(problem, inputs).errors
            == Some([ValidationError("operation", Text("multiplication"), Text(OperationName(problem.operation)), OnlyMultiplication)])
  {
  }

  /**
   * A multiplication is accepted exactly when the student gave as many
   * partial products as expected, each equal to the expected one at its
   * position, and the sum multiplicand × multiplier; `errors` is then undefined.
   */
  lemma {:induction false} PartialProductsCorrectIff(problem: Problem, inputs: PartialProductsInputs)
    requires problem.operation == Multiplication && problem.multiplicand >= 0 && problem.multiplier >= 0
    ensures var expected := ExpectedPartials(problem.multiplicand, problem.multiplier);
            PartialProductsVerdict(problem, inputs).isCorrect
            <==> |inputs.partials| == |expected|
                 && (forall i :: 0 <= i < |expected| ==> inputs.partials[i] == Some(expected[i].value))
                 && inputs.sum == Some(problem.multiplicand * problem.multiplier)
    ensures PartialProductsVerdict(problem, inputs).isCorrect <==> PartialProductsVerdict(problem, inputs).errors.None?
  {
    var e := Expected(problem);
    var n := Max(|inputs.partials|, |e.partials|);
    PositionsErrorsEmpty(e.partials, inputs.partials, n);
    var counted := CountErrors(|e.partials|, |inputs.partials|);
    var positions := PositionsErrors(e.partials, inputs.partials, n);
    var summed := SumErrors(e.sum, inputs.sum);
    assert PartialProductsErrors(e, inputs) == counted + positions + summed;
    assert |counted + positions + summed| == |counted| + |positions| + |summed|;
    assert |counted| == 0 <==> |inputs.partials| == |e.partials|;
    if |inputs.partials| == |e.partials| {
      assert n == |e.partials|;
      if forall i :: 0 <= i < |e.partials| ==> inputs.partials[i] == Some(e.partials[i].value) {
        forall i | 0 <= i < n ensures Matches(e.partials, inputs.partials, i) {
          assert inputs.partials[i] == Some(e.partials[i].value);
        }
      } else {
        var k :| 0 <= k < |e.partials| && inputs.partials[k] != Some(e.partials[k].value);
        assert !Matches(e.partials, inputs.partials, k);
      }
    }
  }

  /** Feeding the expected values back, with the product as sum, validates as correct. */
  lemma {:induction false} PartialProductsRoundTrip(problem: Problem)
    requires problem.operation == Multiplication && problem.multiplicand >= 0 && problem.multiplier >= 0
    ensures var expected := ExpectedPartials(problem.multiplicand, problem.multiplier);
            var inputs := PartialProductsInputs(seq(|expected|, i requires 0 <= i < |expected| => Some(expected[i].value)),
                                                Some(problem.multiplicand * problem.multiplier));
            PartialProductsVerdict(problem, inputs) == ValidationResult(true, None)
  {
    var expected := ExpectedPartials(problem.multiplicand, problem.multiplier);
    var inputs := PartialProductsInputs(seq(|expected|, i requires 0 <= i < |expected| => Some(expected[i].value)),
                                        Some(problem.multiplicand * problem.multiplier));
    PartialProductsCorrectIff(problem, inputs);
  }

  /**
   * A wrong number of partial products puts the "partials" count error first,
   * before every per-position error.
   */
  lemma {:induction false} PartialProductsCountErrorFirst(problem: Problem, inputs: PartialProductsInputs)
    requires problem.operation == Multiplication && problem.multiplicand >= 0 && problem.multiplier >= 0
    requires |inputs.partials| != |ExpectedPartials(problem.multiplicand, problem.multiplier)|
    ensures var n := |ExpectedPartials(problem.multiplicand, problem.multiplier)|;
            var r := PartialProductsVerdict(problem, inputs);
            r.errors.Some? && |r.errors.value| >= 1
            && r.errors.value[0] == ValidationError("partials", Num(n), Num(|inputs.partials|),
                                                    "Expected " + NatToString(n) + " partial products, got "
                                                    + NatToString(|inputs.partials|))
  {
  }

  /** Every position up to the longer length that does not match contributes its error. */
  lemma {:induction false} PartialProductsPositionReported(problem: Problem, inputs: PartialProductsInputs, i: nat)
    requires problem.operation == Multiplication && problem.multiplicand >= 0 && problem.multiplier >= 0
    requires i < Max(|inputs.partials|, |ExpectedPartials(problem.multiplicand, problem.multiplier)|)
    ensures var r := PartialProductsVerdict(problem, inputs);
            forall e :: e in PositionErrors(ExpectedPartials(problem.multiplicand, problem.multiplier), inputs.partials, i)
                        ==> r.errors.Some? && e in r.errors.value
  {
    var e := Expected(problem);
    PositionErrorListed(e.partials, inputs.partials, Max(|inputs.partials|, |e.partials|), i);
  }

  /**
   * `isPartialProductsComplete`: throws for a non-multiplication (through the
   * calculator); otherwise every expected position has a non-null entry, no
   * more and no fewer, and the sum is non-null.
   */
  function IsPartialProductsComplete(problem: Problem, inputs: PartialProductsInputs): (r: Result<bool, string>)
    requires problem.operation == Multiplication ==> problem.multiplicand >= 0 && problem.multiplier >= 0
    ensures problem.operation != Multiplication <==> r == Failure(OnlyMultiplication)
  {
    if problem.operation != Multiplication then Failure(OnlyMultiplication)
    else
      var expected := ExpectedPartials(problem.multiplicand, problem.multiplier);
      Success(|inputs.partials| == |expected|
              && (forall i :: 0 <= i < |inputs.partials| ==> inputs.partials[i].Some?)
              && inputs.sum.Some?)
  }

  /** An accepted solution is complete; a complete one with the expected values is accepted. */
  lemma {:induction false} PartialProductsCorrectIsComplete(problem: Problem, inputs: PartialProductsInputs)
    requires problem.operation == Multiplication && problem.multiplicand >= 0 && problem.multiplier >= 0
    ensures PartialProductsVerdict(problem, inputs).isCorrect ==> IsPartialProductsComplete(problem, inputs) == Success(true)
    ensures IsPartialProductsComplete(problem, inputs) == Success(false) ==> !PartialProductsVerdict(problem, inputs).isCorrect
  {
    PartialProductsCorrectIff(problem, inputs);
  }

  /** The worked example 23 × 45: 3 × 5, 20 × 5, 3 × 40, 20 × 40. */
  lemma {:induction false} PartialProductsOf23By45(multiplicand: nat, multiplier: nat)
    requires multiplicand == 23 && multiplier == 45
    ensures ExpectedPartials(multiplicand, multiplier)
            == [PartialProduct(15, "3 × 5"), PartialProduct(100, "20 × 5"),
                PartialProduct(120, "3 × 40"), PartialProduct(800, "20 × 40")]
  {
    TwoDigitPlaces(multiplicand);
    TwoDigitPlaces(multiplier);
    ExampleGrid(NonzeroPlaces(multiplier), NonzeroPlaces(multiplicand));
    SortBySorted(PushedProducts(multiplicand, multiplier), Value);
  }

  /** The push order of the worked example, which is already ascending. */
  lemma {:induction false} ExampleGrid(pliers: seq<Place>, cands: seq<Place>)
    requires pliers == [Place(5, 0), Place(4, 1)] && cands == [Place(3, 0), Place(2, 1)]
    ensures var g := Grid(pliers, cands, ProductEntry);
            g == [PartialProduct(15, "3 × 5"), PartialProduct(100, "20 × 5"),
                  PartialProduct(120, "3 × 40"), PartialProduct(800, "20 × 40")]
            && SortedBy(g, Value)
  {
    ProductExample(Place(3, 0), Place(5, 0), "3", "5");
    ProductExample(Place(2, 1), Place(5, 0), "20", "5");
    ProductExample(Place(3, 0), Place(4, 1), "3", "40");
    ProductExample(Place(2, 1), Place(4, 1), "20", "40");
    GridLength(pliers, cands, ProductEntry);
    GridIndex(pliers, cands, ProductEntry, 0, 0);
    GridIndex(pliers, cands, ProductEntry, 0, 1);
    GridIndex(pliers, cands, ProductEntry, 1, 0);
    GridIndex(pliers, cands, ProductEntry, 1, 1);
    var g := Grid(pliers, cands, ProductEntry);
    assert g[0] == PartialProduct(15, "3 × 5");
    assert g[1] == PartialProduct(100, "20 × 5");
    assert g[2] == PartialProduct(120, "3 × 40");
    assert g[3] == PartialProduct(800, "20 × 40");
    ExampleAscending();
  }

  lemma {:induction false} ExampleAscending()
    ensures SortedBy([PartialProduct(15, "3 × 5"), PartialProduct(100, "20 × 5"),
                      PartialProduct(120, "3 × 40"), PartialProduct(800, "20 × 40")], Value)
  {
  }

  /** One product of the worked example, with the decimal forms of its place values. */
  lemma {:induction false} ProductExample(cand: Place, plier: Place, candText: string, plierText: string)
    requires cand.digit < 10 && plier.digit < 10 && cand.place <= 1 && plier.place <= 1
    requires NatToString(PlaceValue(cand)) == candText && NatToString(PlaceValue(plier)) == plierText
    ensures ProductOf(cand, plier) == PartialProduct(PlaceValue(cand) * PlaceValue(plier), candText + " × " + plierText)
  {
    ProductOfValue(cand, plier);
  }

  /** The places of a two-digit number without a zero digit. */
  lemma {:induction false} TwoDigitPlaces(n: nat)
    requires 10 < n < 100 && n % 10 != 0
    ensures NonzeroPlaces(n) == [Place(n % 10, 0), Place(n / 10, 1)]
  {
    assert NumDigits(n) == 2;
    assert Shift(n, 1) == n / 10;
    assert DigitAt(n, 0) == n % 10;
    assert DigitAt(n, 1) == n / 10;
    assert NonzeroPlacesBelow(n, 1) == [Place(n % 10, 0)];
  }
}
