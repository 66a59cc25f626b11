/**
 * The logic of components/math/MultiplicationPartialProductsColumnar.tsx:
 * the partial products laid out in columns under place-value headers, an
 * optional carry row and the sum. Operands are numbers >= 0.
 */
module ColumnarView {
  import opened Options
  import opened Digits
  import opened Text
  import opened Sorting
  import MathTypes
  import PartialProducts
  import PartialProductsView
  import AdditionGridView

  // ---------------------------------------------------------------------
  // The product list

  /**
   * `calculatePartialProducts` (lines 28-56): the same string-walking loops
   * as `calculateExpectedPartialProducts` in the lib, then the stable sort,
   * so the list is the lib's: ascending, and adding up to the product.
   */
  method CalculatePartialProducts(multiplicand: nat, multiplier: nat)
    returns (products: seq<PartialProducts.PartialProduct>)
    ensures products == PartialProducts.ExpectedPartials(multiplicand, multiplier)
    ensures SortedBy(products, PartialProducts.Value)
    ensures KeySum(products, PartialProducts.Value) == multiplicand * multiplier
  {
    var pushed := PartialProducts.CollectPartialProducts(multiplicand, multiplier);
    products := SortBy(pushed, PartialProducts.Value);
    PartialProducts.ExpectedPartialsSortedSum(multiplicand, multiplier);
  }

  /** The values of the listed products, in list order. */
  function Values(products: seq<PartialProducts.PartialProduct>): seq<int>
  {
    Map(PartialProducts.Value, products)
  }

  // ---------------------------------------------------------------------
  // Columns

  /** Lines 153-155: the header of column i is 10^(maxDigits - 1 - i). */
  function ColumnHeaders(maxDigits: nat): (r: seq<nat>)
    ensures |r| == maxDigits
  {
    seq(maxDigits, i requires 0 <= i < maxDigits => Pow10(maxDigits - 1 - i))
  }

  /**
   * With maxDigits the digit count of the product (line 128) the headers
   * strictly descend, end with the ones column, and start at the product's
   * leading place.
   */
  lemma {:induction false} HeadersFitProduct(expectedSum: nat, i: nat, j: nat)
    requires i < j < NumDigits(expectedSum)
    ensures var h := ColumnHeaders(NumDigits(expectedSum));
            h[i] > h[j] && h[|h| - 1] == 1 && (expectedSum == 0 || h[0] <= expectedSum) && expectedSum < 10 * h[0]
  {
    var w := NumDigits(expectedSum);
    var h := ColumnHeaders(w);
    assert h[i] == Pow10(w - 1 - i) && h[j] == Pow10(w - 1 - j);
    Pow10Grows(w - 1 - j, w - 1 - i);
    assert h[w - 1] == Pow10(0);
    assert h[0] == Pow10(w - 1);
    NumDigitsRange(expectedSum, w);
    assert Pow10(w) == 10 * Pow10(w - 1);
  }

  /** Line 157: each header is printed with `formatPlaceValue`, the helper AdditionGrid also uses. */
  function HeaderLabel(maxDigits: nat, i: nat): string
    requires i < maxDigits
  {
    AdditionGridView.FormatPlaceValue(ColumnHeaders(maxDigits)[i])
  }

  /** A header label is a 1, its zeros below the scale, and the scale's suffix. */
  lemma {:induction false} HeaderLabelShape(maxDigits: nat, i: nat)
    requires i < maxDigits
    ensures var p := maxDigits - 1 - i;
            HeaderLabel(maxDigits, i)
            == "1" + Repeat('0', p - AdditionGridView.Scale(p)) + AdditionGridView.Suffix(p)
  {
    var p := maxDigits - 1 - i;
    var v := ColumnHeaders(maxDigits)[i];
    assert v == Pow10(p);
    AdditionGridView.PowerLabel(p);
    assert HeaderLabel(maxDigits, i) == AdditionGridView.FormatPlaceValue(Pow10(p));
  }

  // ---------------------------------------------------------------------
  // The carry row

  /** Lines 209-216: column i holds a carry input for its place, except the ones column. */
  function CarryCell(maxDigits: nat, i: nat): (cell: Option<nat>)
    requires i < maxDigits
    ensures cell.Some? ==> cell.value >= 1
  {
    var place := maxDigits - 1 - i;
    if place == 0 then None else Some(place)
  }

  /**
   * Only the ones column lacks a carry input, and every carry input sits
   * under the header of its own place.
   */
  lemma {:induction false} CarryCellsUnderHeaders(maxDigits: nat, i: nat)
    requires i < maxDigits
    ensures CarryCell(maxDigits, i).None? <==> i == maxDigits - 1
    ensures CarryCell(maxDigits, i).None? <==> ColumnHeaders(maxDigits)[i] == 1
    ensures CarryCell(maxDigits, i).Some? ==> ColumnHeaders(maxDigits)[i] == Pow10(CarryCell(maxDigits, i).value)
  {
    var p := maxDigits - 1 - i;
    assert ColumnHeaders(maxDigits)[i] == Pow10(p);
    if p > 0 {
      Pow10Grows(0, p);
    }
  }

  /** `handleCarryChange` (lines 112-117) accepts the empty string or a single digit. */
  predicate AcceptsCarry(value: string)
  {
    value == "" || (|value| == 1 && IsDigitChar(value[0]))
  }

  // ---------------------------------------------------------------------
  // Agreement with the lib validator

  /**
   * For operands >= 0 the screen's verdict (lines 81-88, the same predicate
   * as the non-columnar screen) is `validatePartialProducts`' verdict on the
   * entries read with `parseInt`.
   */
  lemma {:induction false} ColumnarAgreesWithValidator(problem: MathTypes.Problem, inputs: map<int, string>, sumInput: string)
    requires problem.operation == MathTypes.Multiplication && problem.multiplicand >= 0 && problem.multiplier >= 0
    ensures var products := PartialProducts.ExpectedPartials(problem.multiplicand, problem.multiplier);
            PartialProductsView.IsCorrect(Values(products), problem.multiplicand * problem.multiplier, inputs, sumInput)
            <==> PartialProducts.PartialProductsVerdict(problem, PartialProductsView.Parsed(|products|, inputs, sumInput)).isCorrect
  {
    var products := PartialProducts.ExpectedPartials(problem.multiplicand, problem.multiplier);
    var parsed := PartialProductsView.Parsed(|products|, inputs, sumInput);
    forall i | 0 <= i < |products|
      ensures Values(products)[i] == products[i].value && parsed.partials[i] == ParseInt(Entry(inputs, i))
    {
    }
    PartialProducts.PartialProductsCorrectIff(problem, parsed);
  }

  // ---------------------------------------------------------------------
  // The screen's state

  /** The entries, the carry digits and the `isComplete`/`isCorrect` state of the screen. */
  class ColumnarScreen {
    var inputs: map<int, string>
    var sumInput: string
    var carryDigits: map<int, string>
    var isComplete: bool
    var isCorrect: Option<bool>

    /** Every stored entry passed its input filter. */
    predicate Valid()
      reads this
    {
      PartialProductsView.AllAccepted(inputs, sumInput)
      && forall place :: place in carryDigits ==> AcceptsCarry(carryDigits[place])
    }

    /** The first render: nothing entered, incomplete, no verdict. */
    constructor()
      ensures Valid()
      ensures inputs == map[] && sumInput == "" && carryDigits == map[]
      ensures !isComplete && isCorrect == None
    {
      inputs := map[];
      sumInput := "";
      carryDigits := map[];
      isComplete := false;
      isCorrect := None;
    }

    /** `handleInputChange` (lines 99-104): only an empty or all-digit value is stored. */
    method HandleInputChange(index: int, value: string)
      requires Valid()
      modifies this
      ensures Valid()
      ensures inputs == if AcceptsNumberInput(value) then old(inputs)[index := value] else old(inputs)
      ensures sumInput == old(sumInput) && carryDigits == old(carryDigits)
      ensures isComplete == old(isComplete) && isCorrect == old(isCorrect)
    {
      if value == "" || IsDigitString(value) {
        inputs := inputs[index := value];
      }
    }

    /** `handleSumChange` (lines 106-110). */
    method HandleSumChange(value: string)
      requires Valid()
      modifies this
      ensures Valid()
      ensures sumInput == if AcceptsNumberInput(value) then value else old(sumInput)
      ensures inputs == old(inputs) && carryDigits == old(carryDigits)
      ensures isComplete == old(isComplete) && isCorrect == old(isCorrect)
    {
      if value == "" || IsDigitString(value) {
        sumInput := value;
      }
    }

    /** `handleCarryChange` (lines 112-117): carries are scratch work and never reach the verdict. */
    method HandleCarryChange(place: int, value: string)
      requires Valid()
      modifies this
      ensures Valid()
      ensures carryDigits == if AcceptsCarry(value) then old(carryDigits)[place := value] else old(carryDigits)
      ensures inputs == old(inputs) && sumInput == old(sumInput)
      ensures isComplete == old(isComplete) && isCorrect == old(isCorrect)
    {
      if value == "" || (|value| == 1 && IsDigitChar(value[0])) {
        carryDigits := carryDigits[place := value];
      }
    }

    /**
     * The completion effect (lines 71-97): store whether every product and
     * the sum are filled; when they are, store the verdict and report it to
     * `onComplete`; otherwise clear it. Carry digits play no part.
     */
    method CheckCompletion(products: seq<PartialProducts.PartialProduct>, expectedSum: int, hasOnComplete: bool)
      returns (reported: Option<bool>)
      requires Valid()
      modifies this
      ensures Valid()
      ensures isComplete == PartialProductsView.IsComplete(|products|, inputs, sumInput)
      ensures isCorrect == if isComplete then Some(PartialProductsView.IsCorrect(Values(products), expectedSum, inputs, sumInput))
                           else None
      ensures reported == if isComplete && hasOnComplete then isCorrect else None
      ensures inputs == old(inputs) && sumInput == old(sumInput) && carryDigits == old(carryDigits)
    {
      var complete := PartialProductsView.IsComplete(|products|, inputs, sumInput);
      isComplete := complete;
      reported := None;
      if complete {
        var correct := PartialProductsView.IsCorrect(Values(products), expectedSum, inputs, sumInput);
        isCorrect := Some(correct);
        if hasOnComplete {
          reported := Some(correct);
        }
      } else {
        isCorrect := None;
      }
    }
  }
}
