/**
 * The logic of components/math/MultiplicationPartialProducts.tsx, the
 * partial products screen with one text input per product: its own
 * place-value split and product list, the digits-only input filter, and
 * the completion check. Operands are the integers the screen is given.
 */
module PartialProductsView {
  import opened Options
  import opened Digits
  import opened Text
  import opened Sorting
  import opened Grids
  import MathTypes
  import PartialProducts

  /** A partial product as the screen keeps it: both digits with their places, the value and the label. */
  datatype ViewProduct = ViewProduct(multiplicandDigit: nat, multiplicandPlace: nat,
                                     multiplierDigit: nat, multiplierPlace: nat,
                                     expected: nat, labelText: string)

  // ---------------------------------------------------------------------
  // The product list

  /**
   * `getPlaceValues` (lines 32-48): peels digits off the ones end and keeps
   * the nonzero ones with their places, least significant first; nothing
   * for 0 or a negative number.
   */
  method GetPlaceValues(num: int) returns (digits: seq<Place>)
    ensures digits == if num > 0 then NonzeroPlaces(num) else []
  {
    digits := [];
    var place: nat := 0;
    var n := num;
    while n > 0
      invariant num <= 0 ==> n == num && digits == []
      invariant num > 0 ==> n >= 0 && n == Shift(num, place) && digits == NonzeroPlacesBelow(num, place)
      decreases n
    {
      var digit := n % 10;
      ShiftStep(num, place);
      if digit > 0 {
        digits := digits + [Place(digit, place)];
      }
      n := n / 10;
      place := place + 1;
    }
    if num > 0 {
      NonzeroPlacesBelowAll(num, place);
    }
  }

  /** The places `getPlaceValues` finds. */
  function PlacesOf(num: int): seq<Place>
  {
    if num > 0 then NonzeroPlaces(num) else []
  }

  /** The product pushed for multiplier place `plier` and multiplicand place `cand` (lines 58-67). */
  function ViewEntry(i: nat, plier: Place, j: nat, cand: Place): ViewProduct
  {
    ViewProduct(cand.digit, cand.place, plier.digit, plier.place,
                cand.digit * plier.digit * Pow10(cand.place + plier.place),
                PartialProducts.ProductLabel(PlaceValue(cand), PlaceValue(plier)))
  }

  /** The sort key, `(a, b) => a.expected - b.expected`. */
  function ExpectedKey(p: ViewProduct): int
  {
    p.expected
  }

  /** The screen's list: the products in push order, stably sorted by value. */
  function ViewProducts(multiplicand: int, multiplier: int): seq<ViewProduct>
  {
    SortBy(Grid(PlacesOf(multiplier), PlacesOf(multiplicand), ViewEntry), ExpectedKey)
  }

  /**
   * `calculatePartialProducts` (lines 51-72): multiplier places outer,
   * multiplicand places inner, then the stable sort by value.
   */
  method CalculatePartialProducts(multiplicand: int, multiplier: int) returns (products: seq<ViewProduct>)
    ensures products == ViewProducts(multiplicand, multiplier)
  {
    var multiplicandPlaces := GetPlaceValues(multiplicand);
    var multiplierPlaces := GetPlaceValues(multiplier);
    products := [];
    var i := 0;
    while i < |multiplierPlaces|
      invariant 0 <= i <= |multiplierPlaces|
      invariant products == Grid(multiplierPlaces[..i], multiplicandPlaces, ViewEntry)
    {
      GridPrefixStep(multiplierPlaces, i, multiplicandPlaces, ViewEntry);
      products := PushProducts(i, multiplierPlaces[i], multiplicandPlaces, products);
      i := i + 1;
    }
    assert multiplierPlaces[..i] == multiplierPlaces;
    products := SortBy(products, ExpectedKey);
  }

  /** The inner `for … of`: one product per multiplicand place for multiplier place `plier`. */
  method PushProducts(i: nat, plier: Place, multiplicandPlaces: seq<Place>, products: seq<ViewProduct>)
    returns (out: seq<ViewProduct>)
    ensures out == products + Row(i, plier, multiplicandPlaces, ViewEntry)
  {
    out := products;
    var j := 0;
    while j < |multiplicandPlaces|
      invariant 0 <= j <= |multiplicandPlaces|
      invariant out == products + Row(i, plier, multiplicandPlaces[..j], ViewEntry)
    {
      var cand := multiplicandPlaces[j];
      RowPrefixStep(i, plier, multiplicandPlaces, j, ViewEntry);
      out := out + [ViewProduct(cand.digit, cand.place, plier.digit, plier.place,
                                cand.digit * plier.digit * Pow10(cand.place + plier.place),
                                PartialProducts.ProductLabel(PlaceValue(cand), PlaceValue(plier)))];
      j := j + 1;
    }
    assert multiplicandPlaces[..j] == multiplicandPlaces;
  }

  /** The (value, label) part of a screen product. */
  function Strip(p: ViewProduct): PartialProducts.PartialProduct
  {
    PartialProducts.PartialProduct(p.expected, p.labelText)
  }

  /** Stripping every entry of a row built with ViewEntry gives the row built with the lib's entries. */
  lemma {:induction false} StripRow(i: nat, plier: Place, cands: seq<Place>)
    ensures Map(Strip, Row(i, plier, cands, ViewEntry)) == Row(i, plier, cands, PartialProducts.ProductEntry)
  {
    var a := Map(Strip, Row(i, plier, cands, ViewEntry));
    var b := Row(i, plier, cands, PartialProducts.ProductEntry);
    forall j | 0 <= j < |cands| ensures a[j] == b[j] {
    }
  }

  /** The same for a whole grid. */
  lemma {:induction false} StripGrid(pliers: seq<Place>, cands: seq<Place>)
    ensures Map(Strip, Grid(pliers, cands, ViewEntry)) == Grid(pliers, cands, PartialProducts.ProductEntry)
  {
    if pliers != [] {
      var init := pliers[..|pliers| - 1];
      var last := pliers[|pliers| - 1];
      StripGrid(init, cands);
      StripRow(|pliers| - 1, last, cands);
      MapAppend(Strip, Grid(init, cands, ViewEntry), Row(|pliers| - 1, last, cands, ViewEntry));
    }
  }

  /**
   * Both versions use the same loop order and a stable sort by value, so
   * for operands >= 0 the screen's (value, label) list is the one
   * `calculateExpectedPartialProducts` returns.
   */
  lemma {:induction false} ViewMatchesLib(multiplicand: nat, multiplier: nat)
    ensures Map(Strip, ViewProducts(multiplicand, multiplier))
            == PartialProducts.ExpectedPartials(multiplicand, multiplier)
  {
    var g := Grid(PlacesOf(multiplier), PlacesOf(multiplicand), ViewEntry);
    SortByMap(Strip, g, ExpectedKey, PartialProducts.Value);
    StripGrid(PlacesOf(multiplier), PlacesOf(multiplicand));
    assert PlacesOf(multiplier) == NonzeroPlaces(multiplier);
    assert PlacesOf(multiplicand) == NonzeroPlaces(multiplicand);
  }

  /** A product whose value is its two digits' product shifted by both places. */
  predicate Coherent(p: ViewProduct)
  {
    p.expected == p.multiplicandDigit * p.multiplierDigit * Pow10(p.multiplicandPlace + p.multiplierPlace)
  }

  /**
   * Every product remembers the digits it came from, and the list is
   * ascending by value.
   */
  lemma {:induction false} ViewProductsShape(multiplicand: int, multiplier: int)
    ensures SortedBy(ViewProducts(multiplicand, multiplier), ExpectedKey)
    ensures forall k :: 0 <= k < |ViewProducts(multiplicand, multiplier)| ==> Coherent(ViewProducts(multiplicand, multiplier)[k])
  {
    var g := Grid(PlacesOf(multiplier), PlacesOf(multiplicand), ViewEntry);
    var ps := ViewProducts(multiplicand, multiplier);
    SortByFacts(g, ExpectedKey);
    GridCoherent(PlacesOf(multiplier), PlacesOf(multiplicand));
    forall k | 0 <= k < |ps| ensures Coherent(ps[k]) {
      assert ps[k] in multiset(ps);
      assert ps[k] in g;
    }
  }

  lemma {:induction false} GridCoherent(pliers: seq<Place>, cands: seq<Place>)
    ensures forall p :: p in Grid(pliers, cands, ViewEntry) ==> Coherent(p)
  {
    if pliers != [] {
      var init := pliers[..|pliers| - 1];
      GridCoherent(init, cands);
    }
  }

  // ---------------------------------------------------------------------
  // Inputs, completion and correctness

  /** A number input counts as filled when it is present and not blank after `trim()` (lines 87-92). */
  predicate Present(inputs: map<int, string>, index: int)
  {
    index in inputs && Trim(inputs[index]) != ""
  }

  /** Lines 87-94: every product's input and the sum are filled. */
  predicate IsComplete(count: nat, inputs: map<int, string>, sumInput: string)
  {
    (forall i :: 0 <= i < count ==> Present(inputs, i)) && Trim(sumInput) != ""
  }

  /** Lines 97-103: every input parses to its product's value and the sum to the product. */
  predicate IsCorrect(expected: seq<int>, expectedSum: int, inputs: map<int, string>, sumInput: string)
  {
    (forall i :: 0 <= i < |expected| ==> ParseInt(Entry(inputs, i)) == Some(expected[i]))
    && ParseInt(sumInput) == Some(expectedSum)
  }

  /**
   * The colour of one input (lines 144-147, 160-163, 177-184): none while
   * validation is off or the input is blank, otherwise whether it parses to
   * the expected value.
   */
  function Mark(showValidation: bool, value: string, expected: int): (mark: Option<bool>)
    ensures mark.None? <==> !showValidation || Trim(value) == ""
    ensures mark == Some(true) <==> showValidation && Trim(value) != "" && ParseInt(value) == Some(expected)
  {
    if showValidation && Trim(value) != "" then Some(ParseInt(value) == Some(expected)) else None
  }

  /**
   * With validation on, the screen is complete exactly when every input
   * shows a colour, and then correct exactly when every colour is green.
   */
  lemma {:induction false} MarksAgreeWithVerdict(expected: seq<int>, expectedSum: int, inputs: map<int, string>, sumInput: string)
    ensures IsComplete(|expected|, inputs, sumInput)
            <==> (forall i :: 0 <= i < |expected| ==> Mark(true, Entry(inputs, i), expected[i]).Some?)
                 && Mark(true, sumInput, expectedSum).Some?
    ensures IsComplete(|expected|, inputs, sumInput) ==>
              (IsCorrect(expected, expectedSum, inputs, sumInput)
               <==> (forall i :: 0 <= i < |expected| ==> Mark(true, Entry(inputs, i), expected[i]) == Some(true))
                    && Mark(true, sumInput, expectedSum) == Some(true))
  {
    assert Trim("") == "";
    forall i | 0 <= i < |expected|
      ensures Present(inputs, i) <==> Mark(true, Entry(inputs, i), expected[i]).Some?
    {
    }
  }

  /** The values of the screen's products, in list order. */
  function ExpectedValues(products: seq<ViewProduct>): seq<int>
  {
    Map(ExpectedKey, products)
  }

  /** What the lib validator receives for the same entries: each input and the sum, read with `parseInt`. */
  function Parsed(count: nat, inputs: map<int, string>, sumInput: string): PartialProducts.PartialProductsInputs
  {
    PartialProducts.PartialProductsInputs(seq(count, i requires 0 <= i < count => ParseInt(Entry(inputs, i))),
                                          ParseInt(sumInput))
  }

  /** Every entry the input filter (lines 114-125) lets in: empty or all digits. */
  predicate AllAccepted(inputs: map<int, string>, sumInput: string)
  {
    (forall i :: i in inputs ==> AcceptsNumberInput(inputs[i])) && AcceptsNumberInput(sumInput)
  }

  /** An accepted entry is blank exactly when it is empty, and otherwise parses to its decimal value. */
  lemma {:induction false} AcceptedEntry(value: string)
    requires AcceptsNumberInput(value)
    ensures Trim(value) != "" <==> value != ""
    ensures value != "" ==> ParseInt(value) == Some(DecimalValue(value))
    ensures value == "" ==> ParseInt(value) == None
  {
    if value != "" {
      assert !IsJsWhitespace(value[0]) && !IsJsWhitespace(value[|value| - 1]);
      assert TrimStart(value) == value;
      assert value + "" == value;
      ParseIntDigitsThen(value, "");
    }
  }

  /** The parsed entries line up with the lib's expected list exactly when the screen's entries match its values. */
  lemma {:induction false} CorrectOnList(products: seq<ViewProduct>, expected: seq<PartialProducts.PartialProduct>,
                                         inputs: map<int, string>, sumInput: string, expectedSum: int)
    requires Map(Strip, products) == expected
    ensures var parsed := Parsed(|products|, inputs, sumInput);
            IsCorrect(ExpectedValues(products), expectedSum, inputs, sumInput)
            <==> |parsed.partials| == |expected|
                 && (forall i :: 0 <= i < |expected| ==> parsed.partials[i] == Some(expected[i].value))
                 && parsed.sum == Some(expectedSum)
  {
    var parsed := Parsed(|products|, inputs, sumInput);
    var values := ExpectedValues(products);
    assert |values| == |expected| == |parsed.partials|;
    forall i | 0 <= i < |expected|
      ensures values[i] == expected[i].value && parsed.partials[i] == ParseInt(Entry(inputs, i))
    {
      assert Strip(products[i]) == expected[i];
    }
  }

  /** The same for completeness, with entries the filter let in. */
  lemma {:induction false} CompleteOnList(count: nat, inputs: map<int, string>, sumInput: string)
    requires AllAccepted(inputs, sumInput)
    ensures var parsed := Parsed(count, inputs, sumInput);
            IsComplete(count, inputs, sumInput)
            <==> (forall i :: 0 <= i < |parsed.partials| ==> parsed.partials[i].Some?) && parsed.sum.Some?
  {
    var parsed := Parsed(count, inputs, sumInput);
    forall i | 0 <= i < count
      ensures Present(inputs, i) <==> parsed.partials[i].Some?
    {
      AcceptedEntry(Entry(inputs, i));
    }
    AcceptedEntry(sumInput);
  }

  /**
   * The screen's verdict is the lib validator's: for operands >= 0 the
   * entries are correct exactly when `validatePartialProducts` accepts
   * them read with `parseInt`.
   */
  lemma {:induction false} ViewAgreesWithValidator(problem: MathTypes.Problem, inputs: map<int, string>, sumInput: string)
    requires problem.operation == MathTypes.Multiplication && problem.multiplicand >= 0 && problem.multiplier >= 0
    ensures var products := ViewProducts(problem.multiplicand, problem.multiplier);
            IsCorrect(ExpectedValues(products), problem.multiplicand * problem.multiplier, inputs, sumInput)
            <==> PartialProducts.PartialProductsVerdict(problem, Parsed(|products|, inputs, sumInput)).isCorrect
  {
    var products := ViewProducts(problem.multiplicand, problem.multiplier);
    ViewMatchesLib(problem.multiplicand, problem.multiplier);
    CorrectOnList(products, PartialProducts.ExpectedPartials(problem.multiplicand, problem.multiplier),
                  inputs, sumInput, problem.multiplicand * problem.multiplier);
    PartialProducts.PartialProductsCorrectIff(problem, Parsed(|products|, inputs, sumInput));
  }

  /**
   * With entries the filter let in, the screen is complete exactly when
   * `isPartialProductsComplete` holds for the parsed entries.
   */
  lemma {:induction false} CompletionAgreesWithLib(problem: MathTypes.Problem, inputs: map<int, string>, sumInput: string)
    requires problem.operation == MathTypes.Multiplication && problem.multiplicand >= 0 && problem.multiplier >= 0
    requires AllAccepted(inputs, sumInput)
    ensures var products := ViewProducts(problem.multiplicand, problem.multiplier);
            IsComplete(|products|, inputs, sumInput)
            <==> PartialProducts.IsPartialProductsComplete(problem, Parsed(|products|, inputs, sumInput)) == Success(true)
  {
    var products := ViewProducts(problem.multiplicand, problem.multiplier);
    ViewMatchesLib(problem.multiplicand, problem.multiplier);
    assert |products| == |PartialProducts.ExpectedPartials(problem.multiplicand, problem.multiplier)|;
    CompleteOnExpected(problem, |products|, inputs, sumInput);
  }

  lemma {:induction false} CompleteOnExpected(problem: MathTypes.Problem, count: nat, inputs: map<int, string>, sumInput: string)
    requires problem.operation == MathTypes.Multiplication && problem.multiplicand >= 0 && problem.multiplier >= 0
    requires AllAccepted(inputs, sumInput)
    requires count == |PartialProducts.ExpectedPartials(problem.multiplicand, problem.multiplier)|
    ensures IsComplete(count, inputs, sumInput)
            <==> PartialProducts.IsPartialProductsComplete(problem, Parsed(count, inputs, sumInput)) == Success(true)
  {
    var parsed := Parsed(count, inputs, sumInput);
    assert |parsed.partials| == count;
    CompleteOnList(count, inputs, sumInput);
  }

  // ---------------------------------------------------------------------
  // The screen's state

  /** The inputs, the sum and the `isComplete`/`isCorrect` state of the screen. */
  class PartialProductsScreen {
    var inputs: map<int, string>
    var sumInput: string
    var isComplete: bool
    var isCorrect: Option<bool>

    /** Every stored entry passed the input filter. */
    predicate Valid()
      reads this
    {
      AllAccepted(inputs, sumInput)
    }

    /** The first render: nothing entered, incomplete, no verdict. */
    constructor()
      ensures Valid()
      ensures inputs == map[] && sumInput == "" && !isComplete && isCorrect == None
    {
      inputs := map[];
      sumInput := "";
      isComplete := false;
      isCorrect := None;
    }

    /** `handleInputChange` (lines 114-119): only an empty or all-digit value is stored. */
    method HandleInputChange(index: int, value: string)
      requires Valid()
      modifies this
      ensures Valid()
      ensures inputs == if AcceptsNumberInput(value) then old(inputs)[index := value] else old(inputs)
      ensures sumInput == old(sumInput) && isComplete == old(isComplete) && isCorrect == old(isCorrect)
    {
      if value == "" || IsDigitString(value) {
        inputs := inputs[index := value];
      }
    }

    /** `handleSumChange` (lines 121-125). */
    method HandleSumChange(value: string)
      requires Valid()
      modifies this
      ensures Valid()
      ensures sumInput == if AcceptsNumberInput(value) then value else old(sumInput)
      ensures inputs == old(inputs) && isComplete == old(isComplete) && isCorrect == old(isCorrect)
    {
      if value == "" || IsDigitString(value) {
        sumInput := value;
      }
    }

    /**
     * The completion effect (lines 86-112): store whether the screen is
     * complete; when it is, store the verdict and report it to `onComplete`
     * each time the effect runs; otherwise clear the verdict.
     */
    method CheckCompletion(products: seq<ViewProduct>, expectedSum: int, hasOnComplete: bool)
      returns (reported: Option<bool>)
      requires Valid()
      modifies this
      ensures Valid()
      ensures isComplete == IsComplete(|products|, inputs, sumInput)
      ensures isCorrect == if isComplete then Some(IsCorrect(ExpectedValues(products), expectedSum, inputs, sumInput))
                           else None
      ensures reported == if isComplete && hasOnComplete then isCorrect else None
      ensures inputs == old(inputs) && sumInput == old(sumInput)
    {
      var complete := IsComplete(|products|, inputs, sumInput);
      isComplete := complete;
      reported := None;
      if complete {
        var correct := IsCorrect(ExpectedValues(products), expectedSum, inputs, sumInput);
        isCorrect := Some(correct);
        if hasOnComplete {
          reported := Some(correct);
        }
      } else {
        isCorrect := None;
      }
    }
  }
}
