/** The problem, problem-state and validation records of types/math.ts. */
module MathTypes {
  import opened Options

  datatype Operation = Multiplication | Division | FractionDecimal | DecimalFraction

  /** The string literal of each operation. */
  function OperationName(op: Operation): string
  {
    match op
    case Multiplication => "multiplication"
    case Division => "division"
    case FractionDecimal => "fraction-decimal"
    case DecimalFraction => "decimal-fraction"
  }

  datatype Level = Easy | Medium | Hard | Bonkers

  /** The string literal of each difficulty level. */
  function LevelName(level: Level): string
  {
    match level
    case Easy => "easy"
    case Medium => "medium"
    case Hard => "hard"
    case Bonkers => "bonkers"
  }

  /**
   * A problem. `operands` is `[multiplicand, multiplier]`. Operands are
   * integers: a CSV row or a custom range can make them negative. The
   * difficulty is the string stored at run time, which a CSV row can set to
   * any lower-cased text.
   */
  datatype Problem = Problem(
    id: string,
    operation: Operation,
    multiplicand: int,
    multiplier: int,
    difficulty: string,
    correctAnswer: int)

  datatype SolvingMethod = ClassicAlgorithm | PartialProducts | AreaModel | LongDivision | ShortDivision

  /**
   * The saved `userInputs` record as the print view reads it. Row entries
   * are listed in index order; an absent key is None, an absent sum is "".
   */
  datatype SavedWork = SavedWork(
    inputs: Option<seq<string>>,
    partialInputs: Option<seq<string>>,
    additionInputs: Option<SavedAddition>,
    sumInput: string)

  datatype SavedAddition = SavedAddition(inputs: Option<seq<string>>, sumInput: string)

  /** A student's state on one problem; `isCorrect` is `boolean | null`. */
  datatype ProblemState = ProblemState(
    problemId: string,
    currentMethod: SolvingMethod,
    userInputs: SavedWork,
    isComplete: bool,
    isCorrect: Option<bool>)

  /** The `expected` / `actual` payload of a validation error. */
  datatype ErrValue = Num(n: int) | Absent | Text(s: string)

  datatype ValidationError = ValidationError(field: string, expected: ErrValue, actual: ErrValue, message: string)

  /** `errors` is undefined (None) exactly when the answer is correct. */
  datatype ValidationResult = ValidationResult(isCorrect: bool, errors: Option<seq<ValidationError>>)
}

/** The worksheet and progress records, with the shapes the code builds and reads. */
module WorksheetTypes {
  import opened Options
  import opened MathTypes

  datatype WorksheetSettings = WorksheetSettings(
    showMethodSelector: bool,
    allowedMethods: seq<SolvingMethod>,
    showHints: bool,
    showValidation: bool,
    showAllCells: bool,
    showPlaceholderZeros: bool)

  datatype SectionSettings = SectionSettings(showAllCells: bool, showPlaceholderZeros: bool)

  datatype WorksheetSection = WorksheetSection(
    id: string,
    title: string,
    problems: seq<Problem>,
    settings: Option<SectionSettings>)

  datatype Worksheet = Worksheet(
    id: string,
    title: string,
    description: Option<string>,
    sections: Option<seq<WorksheetSection>>,
    problems: seq<Problem>,
    createdAt: string,
    settings: WorksheetSettings)

  datatype SectionProgress = SectionProgress(
    sectionId: string,
    completed: nat,
    total: nat,
    completedAt: Option<string>)

  datatype WorksheetProgress = WorksheetProgress(
    worksheetId: string,
    problemStates: map<string, ProblemState>,
    currentProblemId: Option<string>,
    startedAt: string,
    sectionProgress: map<string, SectionProgress>)

  /** `state?.isComplete && state?.isCorrect === true` for the state stored under id. */
  predicate SolvedIn(states: map<string, ProblemState>, id: string)
  {
    id in states && states[id].isComplete && states[id].isCorrect == Some(true)
  }

  /** How many of the ids (with repetitions) are solved. */
  function CountSolved(states: map<string, ProblemState>, ids: seq<string>): (c: nat)
    ensures c <= |ids|
  {
    if ids == [] then 0
    else CountSolved(states, ids[..|ids| - 1]) + (if SolvedIn(states, ids[|ids| - 1]) then 1 else 0)
  }

  /** Every id is counted exactly when every id is solved. */
  lemma {:induction false} CountSolvedAll(states: map<string, ProblemState>, ids: seq<string>)
    ensures CountSolved(states, ids) == |ids| <==> forall i :: 0 <= i < |ids| ==> SolvedIn(states, ids[i])
  {
    if ids != [] {
      var init := ids[..|ids| - 1];
      CountSolvedAll(states, init);
      assert forall i :: 0 <= i < |init| ==> init[i] == ids[i];
      assert (forall i :: 0 <= i < |ids| ==> SolvedIn(states, ids[i]))
        <==> (forall i :: 0 <= i < |init| ==> SolvedIn(states, init[i])) && SolvedIn(states, ids[|ids| - 1]);
    }
  }

  /** `Math.round(100 * c / t)` for c >= 0 and t > 0 (halves round up). */
  function RoundPercent(c: nat, t: nat): (r: int)
    requires t > 0
    ensures t * (2 * r - 1) <= 200 * c < t * (2 * r + 1)
  {
    var r := (200 * c + t) / (2 * t);
    assert 2 * t * r <= 200 * c + t < 2 * t * r + 2 * t;
    r
  }

  /** A percentage of a part of a whole lies between 0 and 100. */
  lemma {:induction false} RoundPercentBounds(c: nat, t: nat)
    requires 0 < t && c <= t
    ensures 0 <= RoundPercent(c, t) <= 100
    ensures c == t ==> RoundPercent(c, t) == 100
    ensures c == 0 ==> RoundPercent(c, t) == 0
  {
    var r := RoundPercent(c, t);
    MulCancel(t, 2 * r - 1, 200);
    MulCancelStrict(t, 0, 2 * r + 1);
    if c == t {
      MulCancelStrict(t, 200, 2 * r + 1);
    }
    if c == 0 {
      MulCancel(t, 2 * r - 1, 0);
    }
  }

  lemma {:induction false} MulCancel(t: int, x: int, y: int)
    requires t > 0 && t * x <= t * y
    ensures x <= y
  {
  }

  lemma {:induction false} MulCancelStrict(t: int, x: int, y: int)
    requires t > 0 && t * x < t * y
    ensures x < y
  {
  }
}
