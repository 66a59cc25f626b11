/**
 * The logic of components/math/MultiplicationClassicAlgorithm.tsx, the long
 * multiplication screen: the grid width, the spacer cells that right-align
 * each partial product row, the placeholder-zero display and its stripping,
 * the completion check with its notify-once memory, and the per-row
 * validation marks. Operands are the non-negative integers the screen is
 * given; row inputs are the strings the digit grids emit.
 */
module ClassicAlgorithmView {
  import opened Options
  import opened Digits
  import opened Text
  import opened MathTypes
  import ClassicAlgorithm

  // ---------------------------------------------------------------------
  // Grid width

  /** `maxDigits`: the multiplicand's digit count, the multiplier's, and one column for overflow. */
  function MaxDigits(multiplicand: nat, multiplier: nat): (w: nat)
    ensures w == NumDigits(multiplicand) + NumDigits(multiplier) + 1
  {
    NatToStringDigits(multiplicand);
    |NatToString(multiplicand)| + |ClassicAlgorithm.MultiplierDigits(multiplier)| + 1
  }

  lemma {:induction false} MulLe(x: nat, y: nat, bound: nat)
    requires x <= bound
    ensures x * y <= bound * y
  {
    assert bound * y - x * y == (bound - x) * y;
  }

  /** a · b < 10^(p + q) when a < 10^p and b < 10^q. */
  lemma {:induction false} ProductBelow(a: nat, b: nat, p: nat, q: nat)
    requires a < Pow10(p) && b < Pow10(q)
    ensures a * b < Pow10(p + q)
  {
    Pow10Add(p, q);
    MulBelow(a, b, Pow10(p), Pow10(q));
  }

  lemma {:induction false} MulBelow(a: nat, b: nat, x: nat, y: nat)
    requires a < x && b < y
    ensures a * b < x * y
  {
    MulLe(b, a, y);
    MulLe(a, y, x - 1);
    assert (x - 1) * y == x * y - y;
  }

  /**
   * The product, and every partial product before its shift, fit the row:
   * the product has fewer digits than `maxDigits`, and the multiplicand
   * times one digit has at most one digit more than the multiplicand.
   */
  lemma {:induction false} RowsFit(multiplicand: nat, multiplier: nat, digit: nat)
    requires digit <= 9
    ensures NumDigits(multiplicand * multiplier) < MaxDigits(multiplicand, multiplier)
    ensures NumDigits(multiplicand * digit) <= NumDigits(multiplicand) + 1
  {
    var p := NumDigits(multiplicand);
    var q := NumDigits(multiplier);
    BelowPow10(multiplicand);
    BelowPow10(multiplier);
    ProductBelow(multiplicand, multiplier, p, q);
    DigitsOfBound(multiplicand * multiplier, p + q);
    assert Pow10(1) == 10;
    ProductBelow(multiplicand, digit, p, 1);
    DigitsOfBound(multiplicand * digit, p + 1);
  }

  // ---------------------------------------------------------------------
  // Spacer cells

  /**
   * `getLeadingSpacerIndices`: no spacers when every cell is shown,
   * otherwise the cells 0 .. maxDigits − digitCount − shiftLeft − 1.
   */
  function LeadingSpacerIndices(showAllCells: bool, maxDigits: int, digitCount: int, shiftLeft: int): (r: seq<int>)
    ensures showAllCells ==> |r| == 0
    ensures !showAllCells ==> |r| == Count(maxDigits - digitCount - shiftLeft)
    ensures forall i :: 0 <= i < |r| ==> r[i] == i
  {
    if showAllCells then [] else seq(Count(maxDigits - digitCount - shiftLeft), i => i)
  }

  /** `getTrailingIndices`: the last `shiftLeft` cells of the row. */
  function TrailingIndices(maxDigits: int, shiftLeft: nat): (r: seq<int>)
    ensures |r| == shiftLeft
    ensures forall i :: 0 <= i < |r| ==> r[i] == maxDigits - shiftLeft + i
  {
    if shiftLeft == 0 then [] else seq(shiftLeft, i => maxDigits - shiftLeft + i)
  }

  /**
   * The spacers of partial row `index` (lines 240-250): the leading ones
   * for a partial one digit longer than the multiplicand, and the trailing
   * ones unless placeholder zeros are shown there.
   */
  function PartialRowSpacers(multiplicand: nat, multiplier: nat, index: nat,
                             showAllCells: bool, showPlaceholderZeros: bool): seq<int>
  {
    var maxDigits := MaxDigits(multiplicand, multiplier);
    var leading := LeadingSpacerIndices(showAllCells, maxDigits, |NatToString(multiplicand)| + 1, index);
    if showPlaceholderZeros then leading else leading + TrailingIndices(maxDigits, index)
  }

  /** The spacers of partial row `index`'s carry row: its trailing cells and the ones column. */
  function CarryRowSpacers(maxDigits: int, index: nat): seq<int>
  {
    TrailingIndices(maxDigits, index) + [maxDigits - 1]
  }

  /**
   * Partial row `index` is laid out right-aligned with its shift: every
   * spacer is a cell of the row, leading and trailing spacers never
   * overlap, and without `showAllCells` the input cells are exactly the
   * multiplicand's digit count plus one cells ending `index` columns from
   * the right (or reaching the right edge when placeholder zeros are shown).
   */
  lemma {:induction false} PartialRowLayout(multiplicand: nat, multiplier: nat, index: nat,
                         showAllCells: bool, showPlaceholderZeros: bool, k: int)
    requires index < |ClassicAlgorithm.MultiplierDigits(multiplier)|
    ensures var maxDigits := MaxDigits(multiplicand, multiplier);
            var spacers := PartialRowSpacers(multiplicand, multiplier, index, showAllCells, showPlaceholderZeros);
            var leading := LeadingSpacerIndices(showAllCells, maxDigits, |NatToString(multiplicand)| + 1, index);
            var trailing := TrailingIndices(maxDigits, index);
            && (k in spacers ==> 0 <= k < maxDigits)
            && !(k in leading && k in trailing)
            && (!showAllCells && 0 <= k < maxDigits ==>
                  (k !in spacers <==>
                     maxDigits - index - (NumDigits(multiplicand) + 1) <= k
                     && (showPlaceholderZeros || k < maxDigits - index)))
            && (showAllCells && 0 <= k < maxDigits ==>
                  (k !in spacers <==> showPlaceholderZeros || k < maxDigits - index))
  {
    NatToStringDigits(multiplicand);
    var maxDigits := MaxDigits(multiplicand, multiplier);
    var nC := NumDigits(multiplicand);
    var nM := |ClassicAlgorithm.MultiplierDigits(multiplier)|;
    assert maxDigits == nC + nM + 1;
    var leading := LeadingSpacerIndices(showAllCells, maxDigits, nC + 1, index);
    var trailing := TrailingIndices(maxDigits, index);
    if 0 <= k < |leading| {
      assert leading[k] == k;
    }
    if maxDigits - index <= k < maxDigits {
      assert trailing[k - (maxDigits - index)] == k;
    }
    assert k in leading <==> !showAllCells && 0 <= k < nM - index;
    assert k in trailing <==> maxDigits - index <= k < maxDigits;
  }

  /** The ones column of every carry row is a spacer, and so are the partial's trailing cells. */
  lemma {:induction false} CarryRowLayout(maxDigits: int, index: nat, k: int)
    ensures maxDigits - 1 in CarryRowSpacers(maxDigits, index)
    ensures k in CarryRowSpacers(maxDigits, index) <==> k == maxDigits - 1 || maxDigits - index <= k < maxDigits
  {
    var trailing := TrailingIndices(maxDigits, index);
    if maxDigits - index <= k < maxDigits {
      assert trailing[k - (maxDigits - index)] == k;
    }
    assert k in trailing <==> maxDigits - index <= k < maxDigits;
  }

  // ---------------------------------------------------------------------
  // Placeholder zeros

  /** `s.endsWith(t)`. */
  predicate EndsWith(s: string, t: string)
  {
    |t| <= |s| && s[|s| - |t|..] == t
  }

  /**
   * The value shown in partial row `shiftLeft` (lines 253-263, 302): with
   * placeholder zeros and a non-blank entry, the entry without whitespace
   * followed by `shiftLeft` zeros, right-aligned to the row.
   */
  function PlaceholderDisplay(partialInput: string, showPlaceholderZeros: bool, shiftLeft: nat, maxDigits: int)
    : string
  {
    if showPlaceholderZeros && shiftLeft > 0 && partialInput != "" then
      var trimmed := RemoveWhitespace(partialInput);
      if trimmed != "" then PadStart(trimmed + Repeat('0', shiftLeft), maxDigits, ' ') else partialInput
    else partialInput
  }

  /**
   * What a partial row stores from the grid's value (lines 304-313): with
   * placeholder zeros, the value without whitespace, less `shiftLeft`
   * trailing zeros when it ends in them, right-aligned to the row's width
   * less the shift.
   */
  function StripPlaceholderZeros(value: string, showPlaceholderZeros: bool, shiftLeft: nat, maxDigits: int)
    : string
  {
    if showPlaceholderZeros && shiftLeft > 0 then
      var clean := RemoveWhitespace(value);
      var cut := if EndsWith(clean, Repeat('0', shiftLeft)) then clean[..|clean| - shiftLeft] else clean;
      PadStart(cut, maxDigits - shiftLeft, ' ')
    else value
  }

  /** Zeros contain no whitespace. */
  lemma {:induction false} ZerosClean(t: string, shiftLeft: nat)
    requires NoWhitespace(t)
    ensures NoWhitespace(t + Repeat('0', shiftLeft))
  {
  }

  /**
   * Storing what a placeholder row shows gives back what was stored: an
   * entry kept as digits right-aligned to the row less the shift survives
   * being shown with its zeros and stripped again.
   */
  lemma {:induction false} StripAfterDisplay(t: string, shiftLeft: nat, maxDigits: int)
    requires t != "" && NoWhitespace(t) && shiftLeft > 0
    ensures var stored := PadStart(t, maxDigits - shiftLeft, ' ');
            StripPlaceholderZeros(PlaceholderDisplay(stored, true, shiftLeft, maxDigits), true, shiftLeft, maxDigits)
            == stored
  {
    var stored := PadStart(t, maxDigits - shiftLeft, ' ');
    PaddedClean(t, maxDigits - shiftLeft);
    ZerosClean(t, shiftLeft);
    var shown := PadStart(t + Repeat('0', shiftLeft), maxDigits, ' ');
    assert PlaceholderDisplay(stored, true, shiftLeft, maxDigits) == shown;
    PaddedClean(t + Repeat('0', shiftLeft), maxDigits);
    var clean := t + Repeat('0', shiftLeft);
    assert clean[|clean| - shiftLeft..] == Repeat('0', shiftLeft);
    assert clean[..|clean| - shiftLeft] == t;
  }

  /**
   * A grid value whose digits are t followed by the row's zeros is stored
   * as t alone, right-aligned to the row less the shift.
   */
  lemma {:induction false} StripOfShown(t: string, shiftLeft: nat, maxDigits: int, width: int)
    requires NoWhitespace(t) && shiftLeft > 0
    ensures StripPlaceholderZeros(PadStart(t + Repeat('0', shiftLeft), width, ' '), true, shiftLeft, maxDigits)
            == PadStart(t, maxDigits - shiftLeft, ' ')
  {
    ZerosClean(t, shiftLeft);
    var clean := t + Repeat('0', shiftLeft);
    PaddedClean(clean, width);
    assert clean[|clean| - shiftLeft..] == Repeat('0', shiftLeft);
    assert clean[..|clean| - shiftLeft] == t;
  }

  // ---------------------------------------------------------------------
  // Completion and correctness

  /** The row check as written (lines 104-106): the whitespace-free entry parses to the expected partial. */
  predicate PartialMatches(value: string, expected: int)
  {
    ParseInt(OrZero(RemoveWhitespace(value))) == Some(expected)
  }

  /**
   * The row check corrected for placeholder zeros: a row that stores its
   * digits without the zeros is compared after shifting them back.
   */
  predicate PartialMatchesIntended(value: string, expected: int, showPlaceholderZeros: bool, shiftLeft: nat)
  {
    match ParseInt(OrZero(RemoveWhitespace(value)))
    case None => false
    case Some(v) => if showPlaceholderZeros && shiftLeft > 0 then v * Pow10(shiftLeft) == expected else v == expected
  }

  /** Without placeholder zeros the corrected row check is the written one. */
  lemma {:induction false} IntendedWithoutZeros(value: string, expected: int, showPlaceholderZeros: bool, shiftLeft: nat)
    requires !showPlaceholderZeros || shiftLeft == 0
    ensures PartialMatchesIntended(value, expected, showPlaceholderZeros, shiftLeft) <==> PartialMatches(value, expected)
  {
  }

  /**
   * `expectedPartials`: one per multiplier digit, the multiplicand times
   * the digit at place i, shifted i places.
   */
  function ExpectedPartials(multiplicand: nat, multiplier: nat): (ps: seq<int>)
    ensures |ps| == NumDigits(multiplier)
    ensures forall i :: 0 <= i < |ps| ==> ps[i] == multiplicand * DigitAt(multiplier, i) * Pow10(i)
  {
    ClassicAlgorithm.ClassicPartialsShape(multiplicand, multiplier);
    ClassicAlgorithm.ClassicPartials(multiplicand, ClassicAlgorithm.MultiplierDigits(multiplier))
  }

  /**
   * The screen's digits loop and partials (lines 30-38, 55-58) compute what
   * `calculateExpectedClassicAlgorithm` does for the same operands.
   */
  lemma {:induction false} ExpectedPartialsMatchLib(multiplicand: nat, multiplier: nat, id: string, difficulty: string, answer: int)
    ensures ExpectedPartials(multiplicand, multiplier)
            == ClassicAlgorithm.Expected(Problem(id, Multiplication, multiplicand, multiplier, difficulty, answer)).partials
    ensures ClassicAlgorithm.Expected(Problem(id, Multiplication, multiplicand, multiplier, difficulty, answer)).sum
            == multiplicand * multiplier
  {
  }

  /** Lines 91-100: every partial row and the sum hold a non-whitespace character. */
  predicate IsComplete(multiplier: nat, partialInputs: map<int, string>, sumInput: string)
  {
    (forall i :: 0 <= i < NumDigits(multiplier) ==> Filled(Entry(partialInputs, i))) && Filled(sumInput)
  }

  /**
   * Lines 103-111 as written: every row, parsed as stored, is its partial
   * and the sum parses to the product, whether placeholder zeros are on
   * or not.
   */
  predicate IsCorrect(multiplicand: nat, multiplier: nat, partialInputs: map<int, string>, sumInput: string)
  {
    var expected := ExpectedPartials(multiplicand, multiplier);
    && (forall i :: 0 <= i < |expected| ==> PartialMatches(Entry(partialInputs, i), expected[i]))
    && ParseInt(RemoveWhitespace(sumInput)) == Some(multiplicand * multiplier)
  }

  /**
   * The verdict with the corrected row check: a row stored without its
   * placeholder zeros is compared after shifting it back.
   */
  predicate IsCorrectIntended(multiplicand: nat, multiplier: nat, partialInputs: map<int, string>, sumInput: string,
                              showPlaceholderZeros: bool)
  {
    var expected := ExpectedPartials(multiplicand, multiplier);
    && (forall i :: 0 <= i < |expected| ==>
          PartialMatchesIntended(Entry(partialInputs, i), expected[i], showPlaceholderZeros, i))
    && ParseInt(RemoveWhitespace(sumInput)) == Some(multiplicand * multiplier)
  }

  /** Without placeholder zeros the corrected verdict is the written one. */
  lemma {:induction false} IntendedVerdictWithoutZeros(multiplicand: nat, multiplier: nat, partialInputs: map<int, string>,
                                                       sumInput: string)
    ensures IsCorrectIntended(multiplicand, multiplier, partialInputs, sumInput, false)
            <==> IsCorrect(multiplicand, multiplier, partialInputs, sumInput)
  {
    var expected := ExpectedPartials(multiplicand, multiplier);
    forall i | 0 <= i < |expected|
      ensures PartialMatchesIntended(Entry(partialInputs, i), expected[i], false, i)
              <==> PartialMatches(Entry(partialInputs, i), expected[i])
    {
      IntendedWithoutZeros(Entry(partialInputs, i), expected[i], false, i);
    }
  }

  /**
   * The screen's `isComplete`/`isCorrect` state and the `lastCompletionState`
   * ref that makes `onComplete` fire only when the verdict changes.
   */
  class CompletionTracker {
    var isComplete: bool
    var isCorrect: Option<bool>
    var lastCompletionState: Option<bool>

    /** The first render: incomplete, no verdict, nothing reported yet. */
    constructor()
      ensures !isComplete && isCorrect == None && lastCompletionState == None
    {
      isComplete := false;
      isCorrect := None;
      lastCompletionState := None;
    }

    /**
     * The completion effect. When complete, the verdict is stored and
     * reported (when there is a callback) only if it differs from the last
     * one reported; when incomplete, the verdict is cleared and so is the
     * memory, so a later completion is reported again.
     */
    method CheckCompletion(multiplicand: nat, multiplier: nat, partialInputs: map<int, string>, sumInput: string,
                           hasOnComplete: bool)
      returns (reported: Option<bool>)
      modifies this
      ensures isComplete == IsComplete(multiplier, partialInputs, sumInput)
      ensures isCorrect == if isComplete then Some(IsCorrect(multiplicand, multiplier, partialInputs, sumInput))
                           else None
      ensures reported.Some? <==> isComplete && hasOnComplete && old(lastCompletionState) != isCorrect
      ensures reported.Some? ==> reported == isCorrect
      ensures !isComplete ==> lastCompletionState == None
      ensures isComplete ==> lastCompletionState == if hasOnComplete then isCorrect else old(lastCompletionState)
    {
      var nowComplete := IsComplete(multiplier, partialInputs, sumInput);
      reported := None;
      if nowComplete {
        var correct := IsCorrect(multiplicand, multiplier, partialInputs, sumInput);
        isComplete := true;
        isCorrect := Some(correct);
        if hasOnComplete && lastCompletionState != Some(correct) {
          lastCompletionState := Some(correct);
          reported := Some(correct);
        }
      } else {
        isComplete := false;
        isCorrect := None;
        lastCompletionState := None;
      }
    }
  }

  /**
   * A completed screen agrees with the validator: it is correct exactly
   * when the parsed rows and sum are accepted by `validateClassicAlgorithm`.
   */
  lemma {:induction false} ViewAgreesWithValidator(multiplicand: nat, multiplier: nat, partialInputs: map<int, string>, sumInput: string)
    requires IsComplete(multiplier, partialInputs, sumInput)
    ensures var problem := Problem("", Multiplication, multiplicand, multiplier, "", multiplicand * multiplier);
            var parsed := seq(NumDigits(multiplier), i requires 0 <= i < NumDigits(multiplier) =>
                              ParseInt(RemoveWhitespace(Entry(partialInputs, i))));
            var inputs := ClassicAlgorithm.ClassicAlgorithmInputs(parsed, ParseInt(RemoveWhitespace(sumInput)));
            IsCorrect(multiplicand, multiplier, partialInputs, sumInput)
            <==> ClassicAlgorithm.ClassicVerdict(problem, inputs).isCorrect
  {
    var problem := Problem("", Multiplication, multiplicand, multiplier, "", multiplicand * multiplier);
    ClassicAlgorithm.ClassicCorrectIff(problem, ClassicAlgorithm.ClassicAlgorithmInputs(
      seq(NumDigits(multiplier), i requires 0 <= i < NumDigits(multiplier) =>
          ParseInt(RemoveWhitespace(Entry(partialInputs, i)))),
      ParseInt(RemoveWhitespace(sumInput))));
    var expected := ExpectedPartials(multiplicand, multiplier);
    assert expected == ClassicAlgorithm.ClassicPartials(multiplicand, ClassicAlgorithm.MultiplierDigits(multiplier));
  }

  // ---------------------------------------------------------------------
  // Row validation marks

  /**
   * `getPartialValidation` and `getSumValidation` (lines 171-184): no mark
   * when validation is off or the row is blank, otherwise whether the row,
   * parsed as stored, is the expected value.
   */
  function RowValidation(showValidation: bool, value: string, expected: int): (mark: Option<bool>)
    ensures mark.None? <==> !showValidation || !Filled(value)
    ensures mark.Some? ==> (mark.value <==> PartialMatches(value, expected))
  {
    if !showValidation || !Filled(value) then None
    else Some(ParseInt(RemoveWhitespace(value)) == Some(expected))
  }

  /** The row mark with the corrected row check. */
  function RowValidationIntended(showValidation: bool, value: string, expected: int, showPlaceholderZeros: bool,
                                 shiftLeft: nat): (mark: Option<bool>)
    ensures mark.None? <==> !showValidation || !Filled(value)
    ensures !showPlaceholderZeros || shiftLeft == 0 ==> mark == RowValidation(showValidation, value, expected)
  {
    if !showValidation || !Filled(value) then None
    else Some(PartialMatchesIntended(value, expected, showPlaceholderZeros, shiftLeft))
  }

  /**
   * With validation on, a complete screen is correct exactly when every
   * partial row and the sum carry a "correct" mark.
   */
  lemma {:induction false} MarksAgreeWithVerdict(multiplicand: nat, multiplier: nat, partialInputs: map<int, string>,
                                                 sumInput: string)
    requires IsComplete(multiplier, partialInputs, sumInput)
    ensures var expected := ExpectedPartials(multiplicand, multiplier);
            IsCorrect(multiplicand, multiplier, partialInputs, sumInput)
            <==> (forall i :: 0 <= i < |expected| ==> RowValidation(true, Entry(partialInputs, i), expected[i]) == Some(true))
                 && RowValidation(true, sumInput, multiplicand * multiplier) == Some(true)
  {
    var expected := ExpectedPartials(multiplicand, multiplier);
    forall i | 0 <= i < |expected|
      ensures RowValidation(true, Entry(partialInputs, i), expected[i])
              == Some(PartialMatches(Entry(partialInputs, i), expected[i]))
    {
      assert Filled(Entry(partialInputs, i));
    }
    assert Filled(sumInput);
    assert OrZero(RemoveWhitespace(sumInput)) == RemoveWhitespace(sumInput);
  }

  /** The same agreement between the corrected marks and the corrected verdict. */
  lemma {:induction false} MarksAgreeWithVerdictIntended(multiplicand: nat, multiplier: nat, partialInputs: map<int, string>,
                                                         sumInput: string, showPlaceholderZeros: bool)
    requires IsComplete(multiplier, partialInputs, sumInput)
    ensures var expected := ExpectedPartials(multiplicand, multiplier);
            IsCorrectIntended(multiplicand, multiplier, partialInputs, sumInput, showPlaceholderZeros)
            <==> (forall i :: 0 <= i < |expected| ==>
                    RowValidationIntended(true, Entry(partialInputs, i), expected[i], showPlaceholderZeros, i) == Some(true))
                 && RowValidationIntended(true, sumInput, multiplicand * multiplier, showPlaceholderZeros, 0) == Some(true)
  {
    var expected := ExpectedPartials(multiplicand, multiplier);
    forall i | 0 <= i < |expected|
      ensures RowValidationIntended(true, Entry(partialInputs, i), expected[i], showPlaceholderZeros, i)
              == Some(PartialMatchesIntended(Entry(partialInputs, i), expected[i], showPlaceholderZeros, i))
    {
      assert Filled(Entry(partialInputs, i));
    }
    assert Filled(sumInput);
    assert OrZero(RemoveWhitespace(sumInput)) == RemoveWhitespace(sumInput);
    IntendedWithoutZeros(sumInput, multiplicand * multiplier, showPlaceholderZeros, 0);
  }

  // ---------------------------------------------------------------------
  // The placeholder-zero check as written

  /** A row showing the positive value n followed by `shiftLeft` zeros, right-aligned to the row. */
  function ShownRow(n: nat, shiftLeft: nat, maxDigits: int): string
  {
    PadStart(NatToString(n) + Repeat('0', shiftLeft), maxDigits, ' ')
  }

  /** The stored form of a shown row parses to n, without its zeros. */
  lemma {:induction false} StoredParses(n: nat, shiftLeft: nat, maxDigits: int)
    requires shiftLeft > 0
    ensures ParseInt(OrZero(RemoveWhitespace(StripPlaceholderZeros(ShownRow(n, shiftLeft, maxDigits), true,
                                                                     shiftLeft, maxDigits)))) == Some(n)
  {
    NatToStringClean(n);
    var t := NatToString(n);
    var stored := StripPlaceholderZeros(ShownRow(n, shiftLeft, maxDigits), true, shiftLeft, maxDigits);
    StripOfShown(t, shiftLeft, maxDigits, maxDigits);
    assert stored == PadStart(t, maxDigits - shiftLeft, ' ');
    PaddedClean(t, maxDigits - shiftLeft);
    assert RemoveWhitespace(stored) == t;
    assert OrZero(t) == t;
    ParseIntOfNatToString(n);
  }

  /** A shown row of a positive value is rejected by the written check against the shifted value. */
  lemma {:induction false} ShownRowRejected(n: nat, shiftLeft: nat, maxDigits: int, expected: int)
    requires shiftLeft > 0 && n > 0 && expected == n * Pow10(shiftLeft)
    ensures !PartialMatches(StripPlaceholderZeros(ShownRow(n, shiftLeft, maxDigits), true, shiftLeft, maxDigits),
                            expected)
  {
    StoredParses(n, shiftLeft, maxDigits);
    ShiftedDiffers(n, shiftLeft);
  }

  /** Shifting a positive number by at least one place changes it. */
  lemma {:induction false} ShiftedDiffers(n: nat, shiftLeft: nat)
    requires n > 0 && shiftLeft > 0
    ensures n * Pow10(shiftLeft) != n
  {
    Pow10Grows(0, shiftLeft);
    MulLe(10, n, Pow10(shiftLeft));
  }

  /** The corrected check accepts a shown row against the shifted value. */
  lemma {:induction false} ShownRowAccepted(n: nat, shiftLeft: nat, maxDigits: int, expected: int)
    requires shiftLeft > 0 && expected == n * Pow10(shiftLeft)
    ensures PartialMatchesIntended(StripPlaceholderZeros(ShownRow(n, shiftLeft, maxDigits), true, shiftLeft, maxDigits),
                                   expected, true, shiftLeft)
  {
    StoredParses(n, shiftLeft, maxDigits);
  }

  /**
   * As written, a placeholder row that shows exactly its expected partial
   * (the multiplicand times the digit, then the row's zeros) is judged
   * incorrect whenever that partial is not zero: the row stores the digits
   * without the zeros but compares them with the shifted partial.
   */
  lemma {:induction false} PlaceholderRowRejectsItsPartial(multiplicand: nat, multiplier: nat, index: nat)
    requires 0 < index < NumDigits(multiplier)
    requires RowDigits(multiplicand, multiplier, index) > 0
    ensures var stored := StripPlaceholderZeros(ShownRow(RowDigits(multiplicand, multiplier, index), index,
                                                         MaxDigits(multiplicand, multiplier)),
                                                true, index, MaxDigits(multiplicand, multiplier));
            !PartialMatches(stored, ExpectedPartials(multiplicand, multiplier)[index])
  {
    var n := RowDigits(multiplicand, multiplier, index);
    var expected := ExpectedPartials(multiplicand, multiplier)[index];
    PartialAt(multiplicand, multiplier, index);
    ShownRowRejected(n, index, MaxDigits(multiplicand, multiplier), expected);
  }

  /**
   * With the corrected check the same row is accepted: the stored digits,
   * shifted back by the row's place, are the expected partial.
   */
  lemma {:induction false} PlaceholderRowAcceptsItsPartial(multiplicand: nat, multiplier: nat, index: nat, expected: int)
    requires 0 < index < NumDigits(multiplier)
    requires expected == ExpectedPartials(multiplicand, multiplier)[index]
    ensures var stored := StripPlaceholderZeros(ShownRow(RowDigits(multiplicand, multiplier, index), index,
                                                         MaxDigits(multiplicand, multiplier)),
                                                true, index, MaxDigits(multiplicand, multiplier));
            PartialMatchesIntended(stored, expected, true, index)
  {
    var n := RowDigits(multiplicand, multiplier, index);
    PartialAt(multiplicand, multiplier, index);
    ShownRowAccepted(n, index, MaxDigits(multiplicand, multiplier), expected);
  }

  /**
   * On the screen, as written: once a placeholder row holds what it shows
   * for its own nonzero partial, that row is marked incorrect and the
   * completed screen's verdict is false; the corrected mark is "correct".
   */
  lemma {:induction false} PlaceholderScreenRejected(multiplicand: nat, multiplier: nat, partialInputs: map<int, string>,
                                                     sumInput: string, index: nat)
    requires IsComplete(multiplier, partialInputs, sumInput)
    requires 0 < index < NumDigits(multiplier) && RowDigits(multiplicand, multiplier, index) > 0
    requires Entry(partialInputs, index)
             == StripPlaceholderZeros(ShownRow(RowDigits(multiplicand, multiplier, index), index,
                                               MaxDigits(multiplicand, multiplier)),
                                      true, index, MaxDigits(multiplicand, multiplier))
    ensures !IsCorrect(multiplicand, multiplier, partialInputs, sumInput)
    ensures var expected := ExpectedPartials(multiplicand, multiplier)[index];
            && RowValidation(true, Entry(partialInputs, index), expected) == Some(false)
            && RowValidationIntended(true, Entry(partialInputs, index), expected, true, index) == Some(true)
  {
    var expected := ExpectedPartials(multiplicand, multiplier)[index];
    PlaceholderRowRejectsItsPartial(multiplicand, multiplier, index);
    PlaceholderRowAcceptsItsPartial(multiplicand, multiplier, index, expected);
    assert Filled(Entry(partialInputs, index));
  }

  /** The digits a row of the classic algorithm holds before its placeholder zeros. */
  function RowDigits(multiplicand: nat, multiplier: nat, index: nat): nat
  {
    multiplicand * DigitAt(multiplier, index)
  }

  /** Partial `index` is the multiplicand times the digit, shifted `index` places. */
  lemma {:induction false} PartialAt(multiplicand: nat, multiplier: nat, index: nat)
    requires index < NumDigits(multiplier)
    ensures ExpectedPartials(multiplicand, multiplier)[index] == RowDigits(multiplicand, multiplier, index) * Pow10(index)
  {
  }
}
