/** The stage outcome shared by the `src/` pipeline code (`StageResult`). */
module RustlineTypes {
  datatype StageResult = Success | Failure | Unstable | Skipped

  predicate IsSuccess(r: StageResult) {
    r.Success?
  }

  predicate IsFailure(r: StageResult) {
    r.Failure?
  }

  predicate IsUnstable(r: StageResult) {
    r.Unstable?
  }

  predicate IsSkipped(r: StageResult) {
    r.Skipped?
  }

  /** The number of predicates that hold for `r`. */
  function HoldingPredicates(r: StageResult): nat {
    (if IsSuccess(r) then 1 else 0) + (if IsFailure(r) then 1 else 0)
    + (if IsUnstable(r) then 1 else 0) + (if IsSkipped(r) then 1 else 0)
  }

  /** Exactly one of the four predicates holds for every result. */
  lemma ExactlyOnePredicate(r: StageResult)
    ensures HoldingPredicates(r) == 1
    ensures IsSkipped(r) ==> !IsSuccess(r) && !IsFailure(r)
    ensures IsSuccess(r) <==> r == Success
  {
  }

  /** `Display`: the upper-case name of the result. */
  function Display(r: StageResult): (s: string)
    ensures |s| >= 7
  {
    match r
    case Success => "SUCCESS"
    case Failure => "FAILURE"
    case Unstable => "UNSTABLE"
    case Skipped => "SKIPPED"
  }

  /** Distinct results display differently, so the text identifies the result. */
  lemma DisplayInjective(a: StageResult, b: StageResult)
    requires Display(a) == Display(b)
    ensures a == b
  {
  }
}
