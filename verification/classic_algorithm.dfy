/**
 * lib/validators/multiplication-classic-algorithm.ts: the expected partial
 * products of the classic (long multiplication) algorithm, one per
 * multiplier digit, the validator and the completeness test.
 */
module ClassicAlgorithm {
  import opened Options
  import opened MathTypes
  import opened Digits
  import opened Validation

  datatype ClassicAlgorithmExpected = ClassicAlgorithmExpected(partials: seq<int>, sum: int)

  /** A student's entries; None is a null or undefined entry. The optional carries are never read. */
  datatype ClassicAlgorithmInputs = ClassicAlgorithmInputs(partials: seq<Option<int>>, sum: Option<int>)

  const OnlyMultiplication := "Classic Algorithm validator only supports multiplication"

  /** The decimal digits of n from the ones place up, zeros included. */
  function DigitsFromOnes(n: nat): seq<nat>
  {
    seq(NumDigits(n), i requires 0 <= i < NumDigits(n) => DigitAt(n, i))
  }

  /** What `getMultiplierDigits` returns: the digits ones first, or [0] when the loop never runs. */
  function MultiplierDigits(multiplier: int): seq<nat>
  {
    if multiplier > 0 then DigitsFromOnes(multiplier) else [0]
  }

  /** `getMultiplierDigits`: pushes n % 10 and divides by ten while n > 0. */
  method GetMultiplierDigits(multiplier: int) returns (digits: seq<nat>)
    ensures digits == MultiplierDigits(multiplier)
  {
    var found: seq<nat> := [];
    var n := multiplier;
    while n > 0
      invariant multiplier <= 0 ==> n == multiplier && |found| == 0
      invariant multiplier > 0 ==> n >= 0 && n == Shift(multiplier, |found|) && |found| <= NumDigits(multiplier)
      invariant multiplier > 0 ==> forall i :: 0 <= i < |found| ==> found[i] == DigitAt(multiplier, i)
      decreases n
    {
      ShiftStep(multiplier, |found|);
      ShiftPastDigits(multiplier, |found|);
      found := found + [n % 10];
      n := n / 10;
    }
    if multiplier > 0 {
      ShiftPastDigits(multiplier, |found|);
    }
    digits := if |found| > 0 then found else [0];
  }

  /** The `map` over the digits: the multiplicand times digit i, shifted i places. */
  function ClassicPartials(multiplicand: int, digits: seq<nat>): seq<int>
  {
    seq(|digits|, i requires 0 <= i < |digits| => multiplicand * digits[i] * Pow10(i))
  }

  function Expected(problem: Problem): ClassicAlgorithmExpected
  {
    ClassicAlgorithmExpected(ClassicPartials(problem.multiplicand, MultiplierDigits(problem.multiplier)),
                             problem.multiplicand * problem.multiplier)
  }

  /** `calculateExpectedClassicAlgorithm`: throws (Failure) for any operation but multiplication. */
  method CalculateExpectedClassicAlgorithm(problem: Problem) returns (r: Result<ClassicAlgorithmExpected, string>)
    ensures problem.operation != Multiplication ==> r == Failure(OnlyMultiplication)
    ensures problem.operation == Multiplication ==> r == Success(Expected(problem))
  {
    if problem.operation != Multiplication {
      return Failure(OnlyMultiplication);
    }
    var multiplierDigits := GetMultiplierDigits(problem.multiplier);
    var partials := ClassicPartials(problem.multiplicand, multiplierDigits);
    var sum := problem.multiplicand * problem.multiplier;
    return Success(ClassicAlgorithmExpected(partials, sum));
  }

  /**
   * For a multiplier >= 0 there is one partial per decimal digit of the
   * multiplier, zeros included, and partial i is the multiplicand times the
   * digit at place i times 10^i.
   */
  lemma {:induction false} ClassicPartialsShape(multiplicand: int, multiplier: nat)
    ensures var ps := ClassicPartials(multiplicand, MultiplierDigits(multiplier));
            |ps| == NumDigits(multiplier) == |NatToString(multiplier)|
            && forall i :: 0 <= i < |ps| ==> ps[i] == multiplicand * DigitAt(multiplier, i) * Pow10(i)
  {
    NatToStringDigits(multiplier);
  }

  /** For a multiplier >= 0 the partials add up to the product, which is `sum`. */
  lemma {:induction false} ClassicPartialsSum(multiplicand: int, multiplier: nat)
    ensures Sum(ClassicPartials(multiplicand, MultiplierDigits(multiplier))) == multiplicand * multiplier
  {
    var ps := ClassicPartials(multiplicand, MultiplierDigits(multiplier));
    if multiplier > 0 {
      ClassicPrefixSum(multiplicand, multiplier, NumDigits(multiplier));
      assert ps[..NumDigits(multiplier)] == ps;
      DigitSumIsValue(multiplier);
    } else {
      assert ps == [0];
      assert Sum([0]) == 0 + Sum([]);
    }
  }

  lemma {:induction false} ClassicPrefixSum(multiplicand: int, multiplier: nat, k: nat)
    requires multiplier > 0 && k <= NumDigits(multiplier)
    ensures var ps := ClassicPartials(multiplicand, MultiplierDigits(multiplier));
            Sum(ps[..k]) == multiplicand * DigitSum(multiplier, k)
  {
    var ps := ClassicPartials(multiplicand, MultiplierDigits(multiplier));
    if k == 0 {
      assert ps[..0] == [];
    } else {
      ClassicPrefixSum(multiplicand, multiplier, k - 1);
      assert ps[..k] == ps[..k - 1] + [ps[k - 1]];
      SumAppend(ps[..k - 1], [ps[k - 1]]);
      assert Sum([ps[k - 1]]) == ps[k - 1] + Sum([]);
      var d := DigitAt(multiplier, k - 1);
      assert ps[k - 1] == multiplicand * d * Pow10(k - 1);
      Spread(multiplicand, DigitSum(multiplier, k - 1), d, Pow10(k - 1));
    }
  }

  lemma {:induction false} Spread(m: int, a: int, d: int, p: int)
    ensures m * a + m * d * p == m * (a + d * p)
  {
    assert m * (a + d * p) == m * a + m * (d * p);
  }

  /** A multiplier of 0 (or less) gives the single partial 0. */
  lemma {:induction false} ClassicPartialsOfZeroMultiplier(multiplicand: int, multiplier: int)
    requires multiplier <= 0
    ensures ClassicPartials(multiplicand, MultiplierDigits(multiplier)) == [0]
  {
  }

  // ----- validation -----

  /** The student's entry at position i, None for null or for a position past the input. */
  function Entry(partials: seq<Option<int>>, i: nat): Option<int>
  {
    if i < |partials| then partials[i] else None
  }

  /** The error of expected position i, if any: "missing" or "incorrect". */
  function PartialError(expected: seq<int>, partials: seq<Option<int>>, i: nat): (errs: seq<ValidationError>)
    requires i < |expected|
    ensures |errs| <= 1
    ensures |errs| == 0 <==> Entry(partials, i) == Some(expected[i])
  {
    var userPartial := Entry(partials, i);
    var field := "partial-" + NatToString(i);
    if userPartial.None? then
      [ValidationError(field, Num(expected[i]), Absent, "Partial product " + NatToString(i + 1) + " is missing")]
    else if userPartial.value != expected[i] then
      [ValidationError(field, Num(expected[i]), Num(userPartial.value), "Partial product " + NatToString(i + 1) + " is incorrect")]
    else []
  }

  /**
   * A reported error is on field "partial-<i>"; a position the input lacks
   * or holds null is "missing", a different number "incorrect".
   */
  lemma {:induction false} PartialErrorKinds(expected: seq<int>, partials: seq<Option<int>>, i: nat)
    requires i < |expected|
    ensures var errs := PartialError(expected, partials, i);
            (|errs| > 0 ==> errs[0].field == "partial-" + NatToString(i) && errs[0].expected == Num(expected[i]))
            && (Entry(partials, i).None? ==>
                  |errs| > 0 && errs[0].actual == Absent
                  && errs[0].message == "Partial product " + NatToString(i + 1) + " is missing")
            && (Entry(partials, i).Some? && Entry(partials, i).value != expected[i] ==>
                  |errs| > 0 && errs[0].actual == Num(Entry(partials, i).value)
                  && errs[0].message == "Partial product " + NatToString(i + 1) + " is incorrect")
  {
  }

  /** The errors of expected positions 0 .. n-1, in order. */
  function PartialsErrors(expected: seq<int>, partials: seq<Option<int>>, n: nat): seq<ValidationError>
    requires n <= |expected|
  {
    if n == 0 then [] else PartialsErrors(expected, partials, n - 1) + PartialError(expected, partials, n - 1)
  }

  function ClassicErrors(expected: ClassicAlgorithmExpected, inputs: ClassicAlgorithmInputs): seq<ValidationError>
  {
    PartialsErrors(expected.partials, inputs.partials, |expected.partials|) + SumErrors(expected.sum, inputs.sum)
  }

  /** What `validateClassicAlgorithm` returns. */
  function ClassicVerdict(problem: Problem, inputs: ClassicAlgorithmInputs): ValidationResult
  {
    if problem.operation != Multiplication then OperationRejected(problem.operation, OnlyMultiplication)
    else Verdict(ClassicErrors(Expected(problem), inputs))
  }

  /** `validateClassicAlgorithm`: one check per expected position, then the sum. */
  method ValidateClassicAlgorithm(problem: Problem, inputs: ClassicAlgorithmInputs) returns (r: ValidationResult)
    ensures r == ClassicVerdict(problem, inputs)
  {
    if problem.operation != Multiplication {
      return OperationRejected(problem.operation, OnlyMultiplication);
    }
    var result := CalculateExpectedClassicAlgorithm(problem);
    var expected := result.value;
    var errors: seq<ValidationError> := [];
    var i := 0;
    while i < |expected.partials|
      invariant 0 <= i <= |expected.partials|
      invariant errors == PartialsErrors(expected.partials, inputs.partials, i)
    {
      errors := PushPartialError(expected.partials, inputs.partials, i, errors);
      i := i + 1;
    }
    errors := PushSumError(expected.sum, inputs.sum, errors);
    assert errors == ClassicErrors(expected, inputs);
    return ValidationResult(|errors| == 0, if |errors| > 0 then Some(errors) else None);
  }

  /** One pass of the validator's loop. */
  method PushPartialError(expected: seq<int>, partials: seq<Option<int>>, i: nat, errors: seq<ValidationError>)
    returns (out: seq<ValidationError>)
    requires i < |expected|
    ensures out == errors + PartialError(expected, partials, i)
  {
    out := errors;
    var userPartial := if i < |partials| then partials[i] else None;
    var expectedPartial := expected[i];
    if userPartial.None? {
      out := out + [ValidationError("partial-" + NatToString(i), Num(expectedPartial), Absent,
                                    "Partial product " + NatToString(i + 1) + " is missing")];
    } else if userPartial.value != expectedPartial {
      out := out + [ValidationError("partial-" + NatToString(i), Num(expectedPartial), Num(userPartial.value),
                                    "Partial product " + NatToString(i + 1) + " is incorrect")];
    }
  }

  lemma {:induction false} PartialsErrorsEmpty(expected: seq<int>, partials: seq<Option<int>>, n: nat)
    requires n <= |expected|
    ensures |PartialsErrors(expected, partials, n)| == 0 <==> forall i :: 0 <= i < n ==> Entry(partials, i) == Some(expected[i])
  {
    if n > 0 {
      PartialsErrorsEmpty(expected, partials, n - 1);
    }
  }

  /** The position errors read the entries at expected positions and nothing else. */
  lemma {:induction false} PartialsErrorsFrame(expected: seq<int>, partials: seq<Option<int>>, other: seq<Option<int>>, n: nat)
    requires n <= |expected|
    requires forall i :: 0 <= i < n ==> Entry(partials, i) == Entry(other, i)
    ensures PartialsErrors(expected, partials, n) == PartialsErrors(expected, other, n)
  {
    if n > 0 {
      PartialsErrorsFrame(expected, partials, other, n - 1);
      assert Entry(partials, n - 1) == Entry(other, n - 1);
    }
  }

  /** A non-multiplication problem gets exactly one error, on field "operation". */
  lemma {:induction false} ClassicRejectsOperation(problem: Problem, inputs: ClassicAlgorithmInputs)
    requires problem.operation != Multiplication
    ensures !ClassicVerdict(problem, inputs).isCorrect
    ensures ClassicVerdict(problem, inputs).errors
            == Some([ValidationError("operation", Text("multiplication"), Text(OperationName(problem.operation)), OnlyMultiplication)])
  {
  }

  /**
   * A multiplication is accepted exactly when every expected position holds
   * its partial and the sum is multiplicand × multiplier; entries past the
   * expected count are not looked at. `errors` is undefined then.
   */
  lemma {:induction false} ClassicCorrectIff(problem: Problem, inputs: ClassicAlgorithmInputs)
    requires problem.operation == Multiplication
    ensures var expected := ClassicPartials(problem.multiplicand, MultiplierDigits(problem.multiplier));
            ClassicVerdict(problem, inputs).isCorrect
            <==> |inputs.partials| >= |expected|
                 && (forall i :: 0 <= i < |expected| ==> inputs.partials[i] == Some(expected[i]))
                 && inputs.sum == Some(problem.multiplicand * problem.multiplier)
    ensures ClassicVerdict(problem, inputs).isCorrect <==> ClassicVerdict(problem, inputs).errors.None?
  {
    var e := Expected(problem);
    PartialsErrorsEmpty(e.partials, inputs.partials, |e.partials|);
    var positions := PartialsErrors(e.partials, inputs.partials, |e.partials|);
    var summed := SumErrors(e.sum, inputs.sum);
    assert ClassicErrors(e, inputs) == positions + summed;
    assert |positions + summed| == |positions| + |summed|;
    if forall i :: 0 <= i < |e.partials| ==> Entry(inputs.partials, i) == Some(e.partials[i]) {
      if |e.partials| > 0 {
        assert Entry(inputs.partials, |e.partials| - 1).Some?;
      }
    }
  }

  /** Extra entries past the expected count never change the verdict. */
  lemma {:induction false} ClassicIgnoresExtraEntries(problem: Problem, inputs: ClassicAlgorithmInputs, extra: seq<Option<int>>)
    requires |inputs.partials| >= |ClassicPartials(problem.multiplicand, MultiplierDigits(problem.multiplier))|
    ensures ClassicVerdict(problem, ClassicAlgorithmInputs(inputs.partials + extra, inputs.sum))
            == ClassicVerdict(problem, inputs)
  {
    var e := Expected(problem);
    PartialsErrorsFrame(e.partials, inputs.partials + extra, inputs.partials, |e.partials|);
  }

  /** Feeding the expected partials and the product back validates as correct. */
  lemma {:induction false} ClassicRoundTrip(problem: Problem)
    requires problem.operation == Multiplication
    ensures var expected := ClassicPartials(problem.multiplicand, MultiplierDigits(problem.multiplier));
            var inputs := ClassicAlgorithmInputs(seq(|expected|, i requires 0 <= i < |expected| => Some(expected[i])),
                                                 Some(problem.multiplicand * problem.multiplier));
            ClassicVerdict(problem, inputs) == ValidationResult(true, None)
  {
    var expected := ClassicPartials(problem.multiplicand, MultiplierDigits(problem.multiplier));
    var inputs := ClassicAlgorithmInputs(seq(|expected|, i requires 0 <= i < |expected| => Some(expected[i])),
                                         Some(problem.multiplicand * problem.multiplier));
    ClassicCorrectIff(problem, inputs);
  }

  // ----- completeness -----

  /**
   * `isClassicAlgorithmComplete` as written: throws for a non-multiplication
   * (through the calculator); otherwise every supplied entry sits at an
   * expected position and is non-null, and the sum is non-null. The number
   * of supplied entries is not compared with the expected count.
   */
  function IsClassicAlgorithmComplete(problem: Problem, inputs: ClassicAlgorithmInputs): (r: Result<bool, string>)
    ensures problem.operation != Multiplication <==> r == Failure(OnlyMultiplication)
  {
    if problem.operation != Multiplication then Failure(OnlyMultiplication)
    else
      var expected := ClassicPartials(problem.multiplicand, MultiplierDigits(problem.multiplier));
      Success((forall i :: 0 <= i < |inputs.partials| ==> i < |expected| && inputs.partials[i].Some?)
              && inputs.sum.Some?)
  }

  /**
   * As written, no partial products and a sum count as complete, although
   * every multiplication expects at least one partial product and the
   * validator reports each of them as missing.
   */
  lemma {:induction false} ClassicCompleteWithoutPartials(problem: Problem, sum: int)
    requires problem.operation == Multiplication
    ensures IsClassicAlgorithmComplete(problem, ClassicAlgorithmInputs([], Some(sum))) == Success(true)
    ensures !ClassicVerdict(problem, ClassicAlgorithmInputs([], Some(sum))).isCorrect
  {
    var inputs := ClassicAlgorithmInputs([], Some(sum));
    var e := Expected(problem);
    assert |e.partials| > 0;
    PartialErrorKinds(e.partials, [], 0);
    ClassicCorrectIff(problem, inputs);
  }

  /** Completeness as the doc comment states it: all fields filled, exactly the expected count. */
  function IsClassicAlgorithmCompleteIntended(problem: Problem, inputs: ClassicAlgorithmInputs): (r: Result<bool, string>)
    ensures problem.operation != Multiplication <==> r == Failure(OnlyMultiplication)
  {
    if problem.operation != Multiplication then Failure(OnlyMultiplication)
    else
      var expected := ClassicPartials(problem.multiplicand, MultiplierDigits(problem.multiplier));
      Success(|inputs.partials| == |expected| && (forall i :: 0 <= i < |inputs.partials| ==> inputs.partials[i].Some?)
              && inputs.sum.Some?)
  }

  /**
   * With the intended test, a complete solution has an entry at every
   * expected position, and an accepted solution without extra entries is
   * complete.
   */
  lemma {:induction false} ClassicCompleteIntendedFillsAll(problem: Problem, inputs: ClassicAlgorithmInputs)
    requires problem.operation == Multiplication
    ensures var expected := ClassicPartials(problem.multiplicand, MultiplierDigits(problem.multiplier));
            IsClassicAlgorithmCompleteIntended(problem, inputs) == Success(true) ==>
              forall i :: 0 <= i < |expected| ==> Entry(inputs.partials, i).Some?
    ensures var expected := ClassicPartials(problem.multiplicand, MultiplierDigits(problem.multiplier));
            ClassicVerdict(problem, inputs).isCorrect && |inputs.partials| == |expected| ==>
              IsClassicAlgorithmCompleteIntended(problem, inputs) == Success(true)
  {
    ClassicCorrectIff(problem, inputs);
  }

  /** As written, an accepted solution without extra entries is complete. */
  lemma {:induction false} ClassicCorrectIsComplete(problem: Problem, inputs: ClassicAlgorithmInputs)
    requires problem.operation == Multiplication
    ensures ClassicVerdict(problem, inputs).isCorrect
            && |inputs.partials| == |ClassicPartials(problem.multiplicand, MultiplierDigits(problem.multiplier))|
            ==> IsClassicAlgorithmComplete(problem, inputs) == Success(true)
  {
    ClassicCorrectIff(problem, inputs);
  }
}
