/**
 * lib/generators/problem-generator.ts: random multiplication problems by
 * difficulty. Every value of `Math.random()` is taken from an explicit
 * stream of draws, each an exact fraction in [0, 1); a generator that runs
 * out of draws answers OutOfDraws, which the source (with an endless
 * supply) never does. `Date.now()` is the string parameter `now`, and the
 * base-36 id suffix made from a draw is the function parameter `suffixOf`.
 */
module ProblemGenerator {
  import opened Options
  import opened MathTypes
  import opened Digits

  /** A value of `Math.random()`: num / den. */
  datatype Fraction = Fraction(num: nat, den: nat)

  type RandomDraw = f: Fraction | f.num < f.den witness Fraction(0, 1)

  /** What a generator returns, with the draws it left unused; or what it throws. */
  datatype Outcome<T> = Generated(value: T, rest: seq<RandomDraw>) | OutOfDraws | Thrown(message: string)

  datatype Range = Range(min: int, max: int)

  /** `GeneratorConfig` with its defaults: allowZeros true, allowLeadingZeros false, no custom range. */
  datatype GeneratorConfig = GeneratorConfig(allowZeros: bool, allowLeadingZeros: bool, customRange: Option<Range>)

  const DefaultConfig := GeneratorConfig(true, false, None)

  datatype DigitRange = DigitRange(minDigits: nat, maxDigits: nat)

  datatype Constraint = Constraint(multiplicand: DigitRange, multiplier: DigitRange)

  /** MULTIPLICATION_DIFFICULTY_CONSTRAINTS. */
  function Constraints(level: Level): (c: Constraint)
    ensures 1 <= c.multiplicand.minDigits <= c.multiplicand.maxDigits
    ensures 1 <= c.multiplier.minDigits <= c.multiplier.maxDigits
  {
    match level
    case Easy => Constraint(DigitRange(2, 2), DigitRange(1, 1))
    case Medium => Constraint(DigitRange(2, 2), DigitRange(2, 2))
    case Hard => Constraint(DigitRange(3, 3), DigitRange(2, 2))
    case Bonkers => Constraint(DigitRange(3, 4), DigitRange(3, 3))
  }

  /** `randomInt(min, max)`: floor(draw * (max - min + 1)) + min. */
  function RandomInt(min: int, max: int, draw: RandomDraw): (r: int)
    ensures min <= max ==> min <= r <= max
  {
    var r := (draw.num * (max - min + 1)) / draw.den + min;
    ScaledBelow(draw.num, draw.den, max - min + 1);
    r
  }

  lemma {:induction false} ScaledBelow(num: nat, den: nat, w: int)
    requires num < den
    ensures w > 0 ==> 0 <= (num * w) / den < w
  {
    if w > 0 {
      assert num * w < den * w;
    }
  }

  /** The two retry tests of `generateNumberWithDigits`. */
  predicate Rejected(n: int, config: GeneratorConfig)
  {
    (!config.allowLeadingZeros && IntToString(n)[0] == '0') || (!config.allowZeros && '0' in IntToString(n))
  }

  /** `rest` is what is left of `draws` after some were taken from its front. */
  predicate Suffix(rest: seq<RandomDraw>, draws: seq<RandomDraw>)
  {
    |rest| <= |draws| && rest == draws[|draws| - |rest|..]
  }

  lemma {:induction false} SuffixTrans(a: seq<RandomDraw>, b: seq<RandomDraw>, c: seq<RandomDraw>)
    requires Suffix(a, b) && Suffix(b, c)
    ensures Suffix(a, c)
  {
    assert c[|c| - |b|..][|b| - |a|..] == c[|c| - |a|..];
  }

  /** What a generated operand satisfies: the custom range, or the digit count and the zero rule. */
  predicate OperandFits(n: int, digits: DigitRange, config: GeneratorConfig)
  {
    match config.customRange
    case Some(range) => range.min <= range.max ==> range.min <= n <= range.max
    case None =>
      n >= 1 && digits.minDigits <= NumDigits(n) <= digits.maxDigits
      && (!config.allowZeros ==> '0' !in NatToString(n))
  }

  /** What every problem generated at this level with this configuration satisfies. */
  predicate GeneratedBy(level: Level, config: GeneratorConfig, p: Problem)
  {
    p.operation == Multiplication && p.difficulty == LevelName(level)
    && p.correctAnswer == p.multiplicand * p.multiplier
    && OperandFits(p.multiplicand, Constraints(level).multiplicand, config)
    && OperandFits(p.multiplier, Constraints(level).multiplier, config)
  }

  /**
   * `generateNumberWithDigits`: draws a digit count in [minDigits, maxDigits],
   * then draws in [10^(d-1), 10^d - 1] until a number passes the leading-zero
   * and zero tests. One draw is taken per attempt.
   */
  method GenerateNumberWithDigits(minDigits: nat, maxDigits: nat, config: GeneratorConfig, draws: seq<RandomDraw>)
    returns (out: Outcome<int>)
    requires 1 <= minDigits <= maxDigits
    ensures !out.Thrown?
    ensures out.Generated? ==>
              out.value >= 1 && minDigits <= NumDigits(out.value) <= maxDigits
              && !Rejected(out.value, config)
              && (!config.allowZeros ==> '0' !in NatToString(out.value))
              && Suffix(out.rest, draws) && |out.rest| < |draws|
    ensures config.allowZeros && |draws| >= 2 ==> out.Generated? && out.rest == draws[2..]
  {
    if |draws| == 0 {
      return OutOfDraws;
    }
    var numDigits := RandomInt(minDigits, maxDigits, draws[0]);
    var min := Pow10(numDigits - 1);
    var max := Pow10(numDigits) - 1;
    NumDigitsRange(min, numDigits);
    var remaining := draws[1..];
    while |remaining| > 0
      invariant Suffix(remaining, draws) && |remaining| < |draws|
      invariant config.allowZeros ==> remaining == draws[1..]
      decreases |remaining|
    {
      var number := RandomInt(min, max, remaining[0]);
      remaining := remaining[1..];
      NatToStringNoLeadingZero(number);
      if !Rejected(number, config) {
        NumDigitsRange(number, numDigits);
        return Generated(number, remaining);
      }
    }
    return OutOfDraws;
  }

  /**
   * Without a custom range the operands have the digit counts of the table:
   * easy 2 × 1, medium 2 × 2, hard 3 × 2, bonkers (3 or 4) × 3.
   */
  lemma {:induction false} GeneratedOperandRanges(level: Level, config: GeneratorConfig, p: Problem)
    requires GeneratedBy(level, config, p) && config.customRange.None?
    ensures level == Easy ==> 10 <= p.multiplicand <= 99 && 1 <= p.multiplier <= 9
    ensures level == Medium ==> 10 <= p.multiplicand <= 99 && 10 <= p.multiplier <= 99
    ensures level == Hard ==> 100 <= p.multiplicand <= 999 && 10 <= p.multiplier <= 99
    ensures level == Bonkers ==> 100 <= p.multiplicand <= 9999 && 100 <= p.multiplier <= 999
  {
    var c := Constraints(level);
    NumDigitsRange(p.multiplicand, NumDigits(p.multiplicand));
    NumDigitsRange(p.multiplier, NumDigits(p.multiplier));
    assert Pow10(1) == 10 && Pow10(2) == 100 && Pow10(3) == 1000 && Pow10(4) == 10000;
  }

  /**
   * `generateMultiplicationProblem`: two operands from the custom range or
   * from the table, then one draw for the id suffix.
   */
  method GenerateMultiplicationProblem(level: Level, config: GeneratorConfig, now: string,
                                       suffixOf: RandomDraw -> string, draws: seq<RandomDraw>)
    returns (out: Outcome<Problem>)
    ensures !out.Thrown?
    ensures out.Generated? ==> GeneratedBy(level, config, out.value) && Suffix(out.rest, draws) && |out.rest| < |draws|
    ensures out.Generated? ==> exists d: RandomDraw :: out.value.id == "gen-" + now + "-" + suffixOf(d)
  {
    var constraints := Constraints(level);
    var multiplicand: int;
    var multiplier: int;
    var remaining: seq<RandomDraw>;
    if config.customRange.Some? {
      if |draws| < 2 {
        return OutOfDraws;
      }
      multiplicand := RandomInt(config.customRange.value.min, config.customRange.value.max, draws[0]);
      multiplier := RandomInt(config.customRange.value.min, config.customRange.value.max, draws[1]);
      remaining := draws[2..];
    } else {
      var first := GenerateNumberWithDigits(constraints.multiplicand.minDigits, constraints.multiplicand.maxDigits, config, draws);
      if !first.Generated? {
        return OutOfDraws;
      }
      var second := GenerateNumberWithDigits(constraints.multiplier.minDigits, constraints.multiplier.maxDigits, config, first.rest);
      if !second.Generated? {
        return OutOfDraws;
      }
      multiplicand, multiplier := first.value, second.value;
      SuffixTrans(second.rest, first.rest, draws);
      remaining := second.rest;
    }
    if |remaining| == 0 {
      return OutOfDraws;
    }
    var correctAnswer := multiplicand * multiplier;
    var problem := Problem("gen-" + now + "-" + suffixOf(remaining[0]), Multiplication,
                           multiplicand, multiplier, LevelName(level), correctAnswer);
    SuffixTrans(remaining[1..], remaining, draws);
    return Generated(problem, remaining[1..]);
  }

  /** `generateMultiplicationProblems`: `count` problems of one difficulty (none for count <= 0). */
  method GenerateMultiplicationProblems(count: int, level: Level, config: GeneratorConfig, now: string,
                                        suffixOf: RandomDraw -> string, draws: seq<RandomDraw>)
    returns (out: Outcome<seq<Problem>>)
    ensures !out.Thrown?
    ensures out.Generated? ==>
              |out.value| == (if count > 0 then count else 0)
              && (forall k :: 0 <= k < |out.value| ==> GeneratedBy(level, config, out.value[k]))
              && Suffix(out.rest, draws)
  {
    var problems: seq<Problem> := [];
    var remaining := draws;
    var i := 0;
    while i < count
      invariant 0 <= i <= (if count > 0 then count else 0)
      invariant |problems| == i
      invariant forall k :: 0 <= k < |problems| ==> GeneratedBy(level, config, problems[k])
      invariant Suffix(remaining, draws)
      decreases count - i
    {
      var next := GenerateMultiplicationProblem(level, config, now, suffixOf, remaining);
      if !next.Generated? {
        return OutOfDraws;
      }
      SuffixTrans(next.rest, remaining, draws);
      problems := problems + [next.value];
      remaining := next.rest;
      i := i + 1;
    }
    return Generated(problems, remaining);
  }

  /** The message `generateProblem` throws for an operation it cannot generate. */
  function GenerationError(operation: string): string
  {
    if operation == "division" || operation == "fraction-decimal" || operation == "decimal-fraction" then
      "Problem generation for " + operation + " not yet implemented"
    else "Unknown operation: " + operation
  }

  /**
   * `generateProblem`: multiplication is generated, the other three known
   * operations and any other string throw. The operation is the run-time
   * string, so the default branch is reachable.
   */
  method GenerateProblem(operation: string, level: Level, config: GeneratorConfig, now: string,
                         suffixOf: RandomDraw -> string, draws: seq<RandomDraw>)
    returns (out: Outcome<Problem>)
    ensures operation != "multiplication" ==> out == Thrown(GenerationError(operation))
    ensures operation == "multiplication" ==> !out.Thrown?
    ensures out.Generated? ==> GeneratedBy(level, config, out.value) && Suffix(out.rest, draws)
  {
    if operation == "multiplication" {
      out := GenerateMultiplicationProblem(level, config, now, suffixOf, draws);
    } else if operation == "division" || operation == "fraction-decimal" || operation == "decimal-fraction" {
      out := Thrown("Problem generation for " + operation + " not yet implemented");
    } else {
      out := Thrown("Unknown operation: " + operation);
    }
  }

  /** A requested batch of `generateMixedProblems`. */
  datatype Batch = Batch(difficulty: Level, count: int)

  /** `count` copies of a level (none for count <= 0). */
  function Copies(level: Level, count: int): (r: seq<Level>)
    ensures |r| == (if count > 0 then count else 0)
    ensures forall k :: 0 <= k < |r| ==> r[k] == level
  {
    if count <= 0 then [] else Copies(level, count - 1) + [level]
  }

  /** The level of each problem `generateMixedProblems` returns, batch after batch in input order. */
  function BatchLevels(batches: seq<Batch>): seq<Level>
  {
    if |batches| == 0 then []
    else BatchLevels(batches[..|batches| - 1]) + Copies(batches[|batches| - 1].difficulty, batches[|batches| - 1].count)
  }

  /** The number of problems is the sum of the (positive) counts. */
  function TotalCount(batches: seq<Batch>): nat
  {
    if |batches| == 0 then 0
    else TotalCount(batches[..|batches| - 1]) + (var c := batches[|batches| - 1].count; if c > 0 then c else 0)
  }

  lemma {:induction false} BatchLevelsCount(batches: seq<Batch>)
    ensures |BatchLevels(batches)| == TotalCount(batches)
  {
    if |batches| > 0 {
      BatchLevelsCount(batches[..|batches| - 1]);
    }
  }

  /**
   * `generateMixedProblems`: the batches in input order, each `count`
   * problems of its difficulty. A non-multiplication operation throws at
   * the first problem requested, so only when some count is positive.
   */
  method GenerateMixedProblems(operation: string, batches: seq<Batch>, config: GeneratorConfig, now: string,
                               suffixOf: RandomDraw -> string, draws: seq<RandomDraw>)
    returns (out: Outcome<seq<Problem>>)
    ensures out.Thrown? <==> operation != "multiplication" && |BatchLevels(batches)| > 0
    ensures out.Thrown? ==> out.message == GenerationError(operation)
    ensures out.Generated? ==>
              |out.value| == |BatchLevels(batches)|
              && (forall k :: 0 <= k < |out.value| ==> GeneratedBy(BatchLevels(batches)[k], config, out.value[k]))
              && Suffix(out.rest, draws)
  {
    var problems: seq<Problem> := [];
    var remaining := draws;
    var b := 0;
    while b < |batches|
      invariant 0 <= b <= |batches|
      invariant |problems| == |BatchLevels(batches[..b])|
      invariant forall k :: 0 <= k < |problems| ==> GeneratedBy(BatchLevels(batches[..b])[k], config, problems[k])
      invariant operation != "multiplication" ==> |problems| == 0
      invariant Suffix(remaining, draws)
    {
      var batch := GenerateBatch(operation, batches[b], config, now, suffixOf, remaining);
      if batch.Thrown? {
        BatchLevelsGrow(batches, b);
        return Thrown(batch.message);
      }
      if batch.OutOfDraws? {
        return OutOfDraws;
      }
      BatchLevelsStep(batches, b);
      AppendFits(BatchLevels(batches[..b]), problems, Copies(batches[b].difficulty, batches[b].count), batch.value, config);
      SuffixTrans(batch.rest, remaining, draws);
      problems := problems + batch.value;
      remaining := batch.rest;
      b := b + 1;
    }
    assert batches[..b] == batches;
    return Generated(problems, remaining);
  }

  /** The inner loop of `generateMixedProblems`: `count` calls of `generateProblem`. */
  method GenerateBatch(operation: string, batch: Batch, config: GeneratorConfig, now: string,
                       suffixOf: RandomDraw -> string, draws: seq<RandomDraw>)
    returns (out: Outcome<seq<Problem>>)
    ensures out.Thrown? <==> operation != "multiplication" && batch.count > 0
    ensures out.OutOfDraws? ==> operation == "multiplication"
    ensures out.Thrown? ==> out.message == GenerationError(operation)
    ensures out.Generated? ==>
              |out.value| == |Copies(batch.difficulty, batch.count)|
              && (forall k :: 0 <= k < |out.value| ==> GeneratedBy(batch.difficulty, config, out.value[k]))
              && Suffix(out.rest, draws)
              && (operation != "multiplication" ==> |out.value| == 0)
  {
    var problems: seq<Problem> := [];
    var remaining := draws;
    var i := 0;
    while i < batch.count
      invariant 0 <= i <= (if batch.count > 0 then batch.count else 0)
      invariant |problems| == i
      invariant forall k :: 0 <= k < |problems| ==> GeneratedBy(batch.difficulty, config, problems[k])
      invariant operation != "multiplication" ==> i == 0
      invariant Suffix(remaining, draws)
      decreases batch.count - i
    {
      var next := GenerateProblem(operation, batch.difficulty, config, now, suffixOf, remaining);
      if next.Thrown? {
        return Thrown(next.message);
      }
      if next.OutOfDraws? {
        return OutOfDraws;
      }
      SuffixTrans(next.rest, remaining, draws);
      problems := problems + [next.value];
      remaining := next.rest;
      i := i + 1;
    }
    return Generated(problems, remaining);
  }

  /** Problems fitting two level lists, concatenated, fit the concatenated list. */
  lemma {:induction false} AppendFits(levels: seq<Level>, problems: seq<Problem>, more: seq<Level>, added: seq<Problem>, config: GeneratorConfig)
    requires |problems| == |levels| && |added| == |more|
    requires forall k :: 0 <= k < |problems| ==> GeneratedBy(levels[k], config, problems[k])
    requires forall k :: 0 <= k < |added| ==> GeneratedBy(more[k], config, added[k])
    ensures forall k :: 0 <= k < |problems + added| ==> GeneratedBy((levels + more)[k], config, (problems + added)[k])
  {
    forall k | 0 <= k < |problems + added|
      ensures GeneratedBy((levels + more)[k], config, (problems + added)[k])
    {
      if k >= |problems| {
        assert (levels + more)[k] == more[k - |levels|];
        assert (problems + added)[k] == added[k - |problems|];
      }
    }
  }

  lemma {:induction false} BatchLevelsStep(batches: seq<Batch>, b: nat)
    requires b < |batches|
    ensures BatchLevels(batches[..b + 1]) == BatchLevels(batches[..b]) + Copies(batches[b].difficulty, batches[b].count)
  {
    assert batches[..b + 1][..b] == batches[..b];
  }

  /** Levels of later batches only add to the list. */
  lemma {:induction false} BatchLevelsPrefix(batches: seq<Batch>, b: nat)
    requires b <= |batches|
    ensures |BatchLevels(batches[..b])| <= |BatchLevels(batches)|
    decreases |batches| - b
  {
    if b < |batches| {
      BatchLevelsPrefix(batches, b + 1);
      BatchLevelsStep(batches, b);
    } else {
      assert batches[..b] == batches;
    }
  }

  /** A batch with a positive count makes the level list non-empty. */
  lemma {:induction false} BatchLevelsGrow(batches: seq<Batch>, b: nat)
    requires b < |batches| && batches[b].count > 0
    ensures |BatchLevels(batches)| > 0
  {
    BatchLevelsStep(batches, b);
    BatchLevelsPrefix(batches, b + 1);
  }
}
