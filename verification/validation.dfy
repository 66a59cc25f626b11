/** The pieces the three multiplication validators share. */
module Validation {
  import opened Options
  import opened MathTypes

  /** The `expected` / `actual` payload for a user value that is a number, or null / undefined. */
  function Reported(v: Option<int>): (e: ErrValue)
    ensures e.Absent? <==> v.None?
    ensures v.Some? ==> e == Num(v.value)
  {
    if v.Some? then Num(v.value) else Absent
  }

  /**
   * The final-sum check: a null or undefined sum is "missing", a different
   * number is "incorrect", the expected number adds nothing.
   */
  function SumErrors(expectedSum: int, sum: Option<int>): (errs: seq<ValidationError>)
    ensures |errs| == 0 <==> sum == Some(expectedSum)
    ensures sum.None? ==> errs == [ValidationError("sum", Num(expectedSum), Absent, "Sum is missing")]
    ensures sum.Some? && sum.value != expectedSum ==>
              errs == [ValidationError("sum", Num(expectedSum), Num(sum.value), "Sum is incorrect")]
  {
    if sum.None? then [ValidationError("sum", Num(expectedSum), Absent, "Sum is missing")]
    else if sum.value != expectedSum then [ValidationError("sum", Num(expectedSum), Num(sum.value), "Sum is incorrect")]
    else []
  }

  /** The validators' final step: pushes the sum error, if any. */
  method PushSumError(expectedSum: int, sum: Option<int>, errors: seq<ValidationError>) returns (out: seq<ValidationError>)
    ensures out == errors + SumErrors(expectedSum, sum)
  {
    out := errors;
    if sum.None? {
      out := out + [ValidationError("sum", Num(expectedSum), Absent, "Sum is missing")];
    } else if sum.value != expectedSum {
      out := out + [ValidationError("sum", Num(expectedSum), Num(sum.value), "Sum is incorrect")];
    }
  }

  /** The result built from the collected errors: correct iff none, and `errors` undefined then. */
  function Verdict(errors: seq<ValidationError>): (r: ValidationResult)
    ensures r.isCorrect <==> |errors| == 0
    ensures r.errors.None? <==> r.isCorrect
    ensures r.errors.Some? ==> r.errors.value == errors
  {
    ValidationResult(|errors| == 0, if |errors| > 0 then Some(errors) else None)
  }

  /** The answer of a validator to a problem that is not a multiplication. */
  function OperationRejected(op: Operation, message: string): ValidationResult
  {
    ValidationResult(false, Some([ValidationError("operation", Text("multiplication"), Text(OperationName(op)), message)]))
  }
}
