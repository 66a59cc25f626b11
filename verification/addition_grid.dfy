/**
 * The logic of components/math/AdditionGrid/AdditionGrid.tsx, the column
 * addition screen that the grid and area-model methods end with: one digit
 * grid per row to add, an optional carry row and the sum row, all one
 * column wider than the expected sum; the spacer cells that right-align
 * each row; the place-value headers; the completion check and the
 * validation marks. Row values and the sum are the non-negative integers
 * the screen is given.
 */
module AdditionGridView {
  import opened Options
  import opened Digits
  import opened Text
  import DigitGrid

  /** A row to add: its expected value, its label (e.g. "10 × 20") and whether it is highlighted. */
  datatype AdditionRow = AdditionRow(value: nat, labelText: string, highlighted: bool)

  // ---------------------------------------------------------------------
  // Grid width and row alignment

  /** `maxDigits` (line 62): the number of digits of the expected sum. */
  function MaxDigits(expectedSum: nat): (w: nat)
    ensures w == NumDigits(expectedSum) && w >= 1
  {
    NatToStringDigits(expectedSum);
    |NatToString(expectedSum)|
  }

  /**
   * The spacers of a row grid (lines 167-174): only the leftmost cell when
   * every cell is shown, otherwise the cells left of the row's digits.
   */
  function RowSpacers(rowValue: nat, maxDigits: nat, showAllCells: bool): seq<int>
  {
    if showAllCells then [0]
    else
      var leadingSpacers := maxDigits + 1 - |NatToString(rowValue)|;
      seq(Count(leadingSpacers), i => i)
  }

  /**
   * Rows are right-aligned in their maxDigits + 1 cells: without
   * `showAllCells`, cell k takes input exactly when it is one of the last
   * NumDigits(rowValue) cells; with it, every cell but the leftmost does.
   */
  lemma {:induction false} RowRightAligned(rowValue: nat, maxDigits: nat, k: int)
    requires 0 <= k <= maxDigits
    ensures k !in RowSpacers(rowValue, maxDigits, false) <==> k >= maxDigits + 1 - NumDigits(rowValue)
    ensures k !in RowSpacers(rowValue, maxDigits, true) <==> k != 0
  {
    NatToStringDigits(rowValue);
    var s := RowSpacers(rowValue, maxDigits, false);
    if 0 <= k < |s| {
      assert s[k] == k;
    }
  }

  /**
   * A row no larger than the sum leaves the leftmost column, the one kept
   * for the sum's carry-out, a spacer whether or not all cells are shown.
   */
  lemma {:induction false} SummandLeavesLeftColumn(rowValue: nat, expectedSum: nat, showAllCells: bool)
    requires rowValue <= expectedSum
    ensures 0 in RowSpacers(rowValue, MaxDigits(expectedSum), showAllCells)
  {
    BelowPow10(expectedSum);
    DigitsOfBound(rowValue, NumDigits(expectedSum));
    RowRightAligned(rowValue, MaxDigits(expectedSum), 0);
  }

  /** The carry row's spacers (line 212): its last cell. */
  function CarrySpacers(maxDigits: nat): seq<int>
  {
    [maxDigits]
  }

  /**
   * The place value over each of the maxDigits + 1 columns (lines 154-155):
   * 10^(maxDigits − i) over column i.
   */
  function HeaderPlaces(maxDigits: nat): (r: seq<nat>)
    ensures |r| == maxDigits + 1
  {
    seq(maxDigits + 1, i requires 0 <= i <= maxDigits => Pow10(maxDigits - i))
  }

  /**
   * The headers fall strictly from left to right, and the carry row's only
   * spacer sits under the ones header: no carry is entered into the ones
   * column.
   */
  lemma {:induction false} HeadersDescend(maxDigits: nat, i: nat, j: nat, k: int)
    requires i < j <= maxDigits
    ensures HeaderPlaces(maxDigits)[i] > HeaderPlaces(maxDigits)[j]
    ensures 0 <= k <= maxDigits ==> (k in CarrySpacers(maxDigits) <==> HeaderPlaces(maxDigits)[k] == 1)
  {
    Pow10Grows(maxDigits - j, maxDigits - i);
    if 0 <= k <= maxDigits {
      assert HeaderPlaces(maxDigits)[k] == Pow10(maxDigits - k);
      if k < maxDigits {
        Pow10Grows(0, maxDigits - k);
      }
    }
  }

  /** What a row grid emits once its input cells hold the digits of n, right-aligned. */
  function Typed(n: nat, maxDigits: nat): string
  {
    PadStart(NatToString(n), maxDigits + 1, ' ')
  }

  /**
   * A right-aligned entry puts under header 10^p the digit of n at place p,
   * and a blank under the headers beyond n's digits.
   */
  lemma {:induction false} TypedUnderHeaders(n: nat, maxDigits: nat, p: nat)
    requires NumDigits(n) <= maxDigits + 1 && p <= maxDigits
    ensures |Typed(n, maxDigits)| == maxDigits + 1 && HeaderPlaces(maxDigits)[maxDigits - p] == Pow10(p)
    ensures Typed(n, maxDigits)[maxDigits - p] == if p < NumDigits(n) then DigitChar(DigitAt(n, p)) else ' '
  {
    if p < NumDigits(n) {
      TypedDigit(n, maxDigits, p);
      CharAtPlace(n, p);
    } else {
      TypedBlank(n, maxDigits, p);
    }
    HeaderAt(maxDigits, p);
  }

  /** Cell maxDigits - p of a right-aligned entry holds n's character for place p. */
  lemma {:induction false} TypedDigit(n: nat, maxDigits: nat, p: nat)
    requires NumDigits(n) <= maxDigits + 1 && p < NumDigits(n)
    ensures |NatToString(n)| == NumDigits(n)
    ensures Typed(n, maxDigits)[maxDigits - p] == NatToString(n)[NumDigits(n) - 1 - p]
  {
    DigitOfString(n, 0);
    PadStartFromRight(NatToString(n), maxDigits, ' ', p);
  }

  /** Beyond n's digits, a right-aligned entry is blank. */
  lemma {:induction false} TypedBlank(n: nat, maxDigits: nat, p: nat)
    requires NumDigits(n) <= p <= maxDigits
    ensures |Typed(n, maxDigits)| == maxDigits + 1 && Typed(n, maxDigits)[maxDigits - p] == ' '
  {
    DigitOfString(n, 0);
    PadStartFromRight(NatToString(n), maxDigits, ' ', p);
  }

  lemma {:induction false} HeaderAt(maxDigits: nat, p: nat)
    requires p <= maxDigits
    ensures HeaderPlaces(maxDigits)[maxDigits - p] == Pow10(p)
  {
  }

  /** A right-aligned entry is filled and reads back as n. */
  lemma {:induction false} TypedReadsBack(n: nat, maxDigits: nat)
    ensures Filled(Typed(n, maxDigits)) && ParseInt(RemoveWhitespace(Typed(n, maxDigits))) == Some(n)
  {
    NatToStringDigits(n);
    PaddedClean(NatToString(n), maxDigits + 1);
    ParseIntOfNatToString(n);
  }

  // ---------------------------------------------------------------------
  // Entries, completion and correctness

  /**
   * `getRowInput` (lines 107-112), also the value read by the completion
   * check (lines 67, 80): the parent's `rowInputValues` when supplied,
   * otherwise the grid's own entries; a missing entry is "".
   */
  function RowInput(rowInputValues: Option<map<int, string>>, inputs: map<int, string>, index: int): string
  {
    match rowInputValues
    case Some(external) => Entry(external, index)
    case None => Entry(inputs, index)
  }

  /** Lines 66-76: every row and the sum hold a non-whitespace character. */
  predicate IsComplete(rows: seq<AdditionRow>, rowInputValues: Option<map<int, string>>, inputs: map<int, string>,
                       sumInput: string)
  {
    (forall i :: 0 <= i < |rows| ==> Filled(RowInput(rowInputValues, inputs, i))) && Filled(sumInput)
  }

  /** Lines 79-87: every row parses to its value and the sum to the expected sum. */
  predicate IsCorrect(rows: seq<AdditionRow>, expectedSum: nat, rowInputValues: Option<map<int, string>>,
                      inputs: map<int, string>, sumInput: string)
  {
    && (forall i :: 0 <= i < |rows| ==>
          ParseInt(OrZero(RemoveWhitespace(RowInput(rowInputValues, inputs, i)))) == Some(rows[i].value))
    && ParseInt(RemoveWhitespace(sumInput)) == Some(expectedSum)
  }

  /**
   * When the parent supplies `rowInputValues`, the grid's own entries play
   * no part in what is shown, in completion or in the verdict.
   */
  lemma {:induction false} ExternalInputsTakePrecedence(rows: seq<AdditionRow>, expectedSum: nat, external: map<int, string>,
                                     inputs: map<int, string>, others: map<int, string>, sumInput: string)
    ensures forall i :: RowInput(Some(external), inputs, i) == RowInput(Some(external), others, i)
    ensures IsComplete(rows, Some(external), inputs, sumInput) == IsComplete(rows, Some(external), others, sumInput)
    ensures IsCorrect(rows, expectedSum, Some(external), inputs, sumInput)
            == IsCorrect(rows, expectedSum, Some(external), others, sumInput)
  {
  }

  /** Typing every row and the sum right-aligned into their grids completes the grid correctly. */
  lemma {:induction false} TypedAnswersAccepted(rows: seq<AdditionRow>, expectedSum: nat, rowInputValues: Option<map<int, string>>,
                             inputs: map<int, string>, sumInput: string)
    requires forall i :: 0 <= i < |rows| ==> RowInput(rowInputValues, inputs, i) == Typed(rows[i].value, MaxDigits(expectedSum))
    requires sumInput == Typed(expectedSum, MaxDigits(expectedSum))
    ensures IsComplete(rows, rowInputValues, inputs, sumInput)
    ensures IsCorrect(rows, expectedSum, rowInputValues, inputs, sumInput)
  {
    var w := MaxDigits(expectedSum);
    forall i | 0 <= i < |rows|
      ensures Filled(RowInput(rowInputValues, inputs, i))
      ensures ParseInt(OrZero(RemoveWhitespace(RowInput(rowInputValues, inputs, i)))) == Some(rows[i].value)
    {
      TypedReadsBack(rows[i].value, w);
    }
    TypedReadsBack(expectedSum, w);
  }

  // ---------------------------------------------------------------------
  // Validation marks

  /**
   * `getRowValidation` / `getSumValidation` (lines 131-144): no mark when
   * validation is off or the entry is blank, otherwise whether it parses
   * to the expected value.
   */
  function Mark(showValidation: bool, value: string, expected: nat): (mark: Option<bool>)
    ensures mark.None? <==> !showValidation || !Filled(value)
  {
    if !showValidation then None
    else
      var trimmed := RemoveWhitespace(value);
      if trimmed == "" then None else Some(ParseInt(trimmed) == Some(expected))
  }

  /**
   * With validation on, the marks tell the verdict: the grid is complete
   * exactly when every row and the sum carry a mark, and a complete grid
   * is correct exactly when every mark says correct.
   */
  lemma {:induction false} MarksAgreeWithVerdict(rows: seq<AdditionRow>, expectedSum: nat, rowInputValues: Option<map<int, string>>,
                              inputs: map<int, string>, sumInput: string)
    ensures IsComplete(rows, rowInputValues, inputs, sumInput)
            <==> (forall i :: 0 <= i < |rows| ==> Mark(true, RowInput(rowInputValues, inputs, i), rows[i].value).Some?)
                 && Mark(true, sumInput, expectedSum).Some?
    ensures IsComplete(rows, rowInputValues, inputs, sumInput) ==>
              (IsCorrect(rows, expectedSum, rowInputValues, inputs, sumInput)
               <==> (forall i :: 0 <= i < |rows| ==>
                       Mark(true, RowInput(rowInputValues, inputs, i), rows[i].value) == Some(true))
                    && Mark(true, sumInput, expectedSum) == Some(true))
  {
  }

  // ---------------------------------------------------------------------
  // Place-value labels

  /** s without its trailing '0' characters. */
  function DropTrailingZeros(s: string): (r: string)
    ensures |r| <= |s| && r == s[..|r|]
    ensures r == [] || r[|r| - 1] != '0'
    ensures forall i :: |r| <= i < |s| ==> s[i] == '0'
  {
    if s == [] || s[|s| - 1] != '0' then s else DropTrailingZeros(s[..|s| - 1])
  }

  /**
   * `${value / 10^k}` for a quotient of at most fifteen significant digits:
   * the integer part, then a fractional part only when the division is
   * not exact, written without trailing zeros.
   */
  function DecimalQuotient(value: nat, k: nat): string
  {
    DivModNat(value, Pow10(k));
    var q := value / Pow10(k);
    var r := value % Pow10(k);
    NatToString(q) + (if r == 0 then "" else "." + DropTrailingZeros(PadStart(NatToString(r), k, '0')))
  }

  /** `formatPlaceValue` (lines 123-128): billions, millions and thousands get a b, m or k suffix. */
  function FormatPlaceValue(value: nat): string
  {
    if value >= 1_000_000_000 then DecimalQuotient(value, 9) + "b"
    else if value >= 1_000_000 then DecimalQuotient(value, 6) + "m"
    else if value >= 1_000 then DecimalQuotient(value, 3) + "k"
    else NatToString(value)
  }

  /**
   * The last character of a label names its range: 'b' from a billion up,
   * 'm' from a million, 'k' from a thousand, and a digit below a thousand.
   */
  lemma {:induction false} FormatSuffix(value: nat)
    ensures var s := FormatPlaceValue(value);
            |s| > 0
            && (s[|s| - 1] == 'b' <==> value >= 1_000_000_000)
            && (s[|s| - 1] == 'm' <==> 1_000_000 <= value < 1_000_000_000)
            && (s[|s| - 1] == 'k' <==> 1_000 <= value < 1_000_000)
            && (IsDigitChar(s[|s| - 1]) <==> value < 1_000)
  {
    NatToStringDigits(value);
  }

  /** 10^j is written as a one followed by j zeros. */
  lemma {:induction false} PowerOfTenString(j: nat)
    ensures NatToString(Pow10(j)) == "1" + Repeat('0', j)
  {
    if j > 0 {
      PowerOfTenString(j - 1);
      assert Pow10(j) / 10 == Pow10(j - 1) && Pow10(j) % 10 == 0;
      assert ("1" + Repeat('0', j - 1)) + [DigitChar(0)] == "1" + Repeat('0', j);
    }
  }

  /** The scale a power of ten is labelled in: 9, 6, 3 or 0 zeros taken off. */
  function Scale(p: nat): nat
  {
    if p >= 9 then 9 else if p >= 6 then 6 else if p >= 3 then 3 else 0
  }

  function Suffix(p: nat): string
  {
    if p >= 9 then "b" else if p >= 6 then "m" else if p >= 3 then "k" else ""
  }

  /** A power of ten reaches a threshold power exactly when its exponent does. */
  lemma {:induction false} PowerThreshold(p: nat, t: nat)
    ensures Pow10(p) >= Pow10(t) <==> p >= t
  {
    if p >= t {
      Pow10Mono(t, p);
    } else {
      Pow10Grows(p, t);
    }
  }

  /** Dividing 10^p by 10^s with s <= p is exact and gives 10^(p − s). */
  lemma {:induction false} PowerQuotient(p: nat, s: nat)
    requires s <= p
    ensures Pow10(p) / Pow10(s) == Pow10(p - s) && Pow10(p) % Pow10(s) == 0
  {
    Pow10Add(p - s, s);
    ExactQuotient(Pow10(p - s), Pow10(s));
  }

  lemma {:induction false} ExactQuotient(a: nat, b: nat)
    requires b > 0
    ensures (a * b) / b == a && (a * b) % b == 0
  {
    var q := (a * b) / b;
    var r := (a * b) % b;
    assert (a - q) * b == r;
    MultipleBounds(a - q, b);
  }

  /** A nonzero multiple of b is at least b away from 0. */
  lemma {:induction false} MultipleBounds(x: int, b: nat)
    ensures x >= 1 ==> x * b >= b
    ensures x <= -1 ==> x * b <= -(b as int)
  {
    if x >= 1 {
      assert x * b == b + (x - 1) * b;
    } else if x <= -1 {
      assert x * b == -(b as int) - (-x - 1) * b;
    }
  }

  lemma {:induction false} DivModNat(a: nat, b: nat)
    requires b > 0
    ensures a / b >= 0 && 0 <= a % b < b
  {
  }

  /** 10^p divided by 10^s is written as a one and p − s zeros. */
  lemma {:induction false} ScaledPower(p: nat, s: nat)
    requires s <= p
    ensures DecimalQuotient(Pow10(p), s) == "1" + Repeat('0', p - s)
  {
    PowerQuotient(p, s);
    PowerOfTenString(p - s);
    assert NatToString(Pow10(p - s)) + "" == NatToString(Pow10(p - s));
  }

  /**
   * The header labels: 10^p is shown as a one, the zeros left over after
   * the scale, and the scale's suffix, e.g. 10^4 as "10k" and 10^10 as "10b".
   */
  lemma {:induction false} PowerLabel(p: nat)
    ensures FormatPlaceValue(Pow10(p)) == "1" + Repeat('0', p - Scale(p)) + Suffix(p)
  {
    assert Pow10(3) == 1_000 && Pow10(6) == 1_000_000 && Pow10(9) == 1_000_000_000;
    PowerThreshold(p, 9);
    PowerThreshold(p, 6);
    PowerThreshold(p, 3);
    if p >= 3 {
      ScaledPower(p, Scale(p));
    } else {
      PowerOfTenString(p);
      assert "1" + Repeat('0', p) + "" == "1" + Repeat('0', p);
    }
  }

  // ---------------------------------------------------------------------
  // The carry row

  /**
   * `handleCarryDigitChange` (lines 115-120): a carry entered in column k
   * moves focus to column k of the sum row; -1 when the cell was cleared.
   */
  function CarryFocus(index: int, value: string): (target: int)
    ensures target == -1 || target == index
  {
    if value != "" then index else -1
  }

  /**
   * Every carry input cell has a sum cell below it that can take focus:
   * the sum grid has the same width and no spacers.
   */
  lemma {:induction false} CarryFocusLandsInSum(maxDigits: nat, index: int, value: string)
    requires 0 <= index <= maxDigits && index !in CarrySpacers(maxDigits) && value != ""
    ensures DigitGrid.Focusable(CarryFocus(index, value), maxDigits + 1, [])
    ensures index < maxDigits
  {
  }

  // ---------------------------------------------------------------------
  // The screen's state

  /**
   * The grid's own row entries, the carry and sum grids' values, and the
   * `isComplete`/`isCorrect` state the completion effect sets.
   */
  class AdditionGridState {
    var inputs: map<int, string>
    var carryDigits: string
    var sumInput: string
    var isComplete: bool
    var isCorrect: Option<bool>

    /** The first render: nothing entered, incomplete, no verdict. */
    constructor()
      ensures inputs == map[] && carryDigits == "" && sumInput == ""
      ensures !isComplete && isCorrect == None
    {
      inputs := map[];
      carryDigits := "";
      sumInput := "";
      isComplete := false;
      isCorrect := None;
    }

    /**
     * `handleInputChange` (lines 98-104): a row edit goes to the parent when
     * it listens (`onRowInputChange`), otherwise into the grid's own entries.
     */
    method HandleInputChange(index: int, value: string, hasOnRowInputChange: bool) returns (forwarded: bool)
      modifies this
      ensures forwarded == hasOnRowInputChange
      ensures inputs == if hasOnRowInputChange then old(inputs) else old(inputs)[index := value]
      ensures carryDigits == old(carryDigits) && sumInput == old(sumInput)
      ensures isComplete == old(isComplete) && isCorrect == old(isCorrect)
    {
      forwarded := hasOnRowInputChange;
      if !hasOnRowInputChange {
        inputs := inputs[index := value];
      }
    }

    /** The sum grid's `onChange` (line 226). */
    method SetSumInput(value: string)
      modifies this
      ensures sumInput == value
      ensures inputs == old(inputs) && carryDigits == old(carryDigits)
      ensures isComplete == old(isComplete) && isCorrect == old(isCorrect)
    {
      sumInput := value;
    }

    /** The carry grid's `onChange` (line 210). */
    method SetCarryDigits(value: string)
      modifies this
      ensures carryDigits == value
      ensures inputs == old(inputs) && sumInput == old(sumInput)
      ensures isComplete == old(isComplete) && isCorrect == old(isCorrect)
    {
      carryDigits := value;
    }

    /**
     * The completion effect (lines 65-96): store whether the grid is
     * complete; when it is, store the verdict and report it to `onComplete`
     * every time the effect runs; otherwise clear the verdict.
     */
    method CheckCompletion(rows: seq<AdditionRow>, expectedSum: nat, rowInputValues: Option<map<int, string>>,
                           hasOnComplete: bool)
      returns (reported: Option<bool>)
      modifies this
      ensures isComplete == IsComplete(rows, rowInputValues, inputs, sumInput)
      ensures isCorrect == if isComplete then Some(IsCorrect(rows, expectedSum, rowInputValues, inputs, sumInput))
                           else None
      ensures reported == if isComplete && hasOnComplete then isCorrect else None
      ensures inputs == old(inputs) && carryDigits == old(carryDigits) && sumInput == old(sumInput)
    {
      var complete := IsComplete(rows, rowInputValues, inputs, sumInput);
      isComplete := complete;
      reported := None;
      if complete {
        var correct := IsCorrect(rows, expectedSum, rowInputValues, inputs, sumInput);
        isCorrect := Some(correct);
        if hasOnComplete {
          reported := Some(correct);
        }
      } else {
        isCorrect := None;
      }
    }
  }
}
