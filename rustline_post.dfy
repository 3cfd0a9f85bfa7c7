/** Post-conditions of the `src/` pipeline model: which run after a stage or pipeline, and their steps. */
module RustlinePost {
  import opened Wrappers
  import opened Strings
  import opened RustlineTypes
  import opened RustlineSteps

  datatype PostCondition =
    | Always(steps: seq<Step>)
    | OnSuccess(steps: seq<Step>)
    | OnFailure(steps: seq<Step>)
    | OnUnstable(steps: seq<Step>)
    | Changed(steps: seq<Step>)

  /** `PostCondition::steps`: the step list, whatever the variant. */
  function Steps(p: PostCondition): (r: seq<Step>)
    ensures p == Always(r) || p == OnSuccess(r) || p == OnFailure(r) || p == OnUnstable(r) || p == Changed(r)
  {
    p.steps
  }

  /** `should_execute(result, previous)`. */
  predicate ShouldExecute(p: PostCondition, result: StageResult, previous: Option<StageResult>) {
    match p
    case Always(_) => true
    case OnSuccess(_) => IsSuccess(result)
    case OnFailure(_) => IsFailure(result)
    case OnUnstable(_) => IsUnstable(result) || IsFailure(result)
    case Changed(_) => previous.None? || previous.value != result
  }

  /** The selection rule of each kind of post-condition, stated on the result values. */
  lemma ShouldExecuteRules(p: PostCondition, result: StageResult, previous: Option<StageResult>)
    ensures p.Always? ==> ShouldExecute(p, result, previous)
    ensures p.OnSuccess? ==> (ShouldExecute(p, result, previous) <==> result == Success)
    ensures p.OnFailure? ==> (ShouldExecute(p, result, previous) <==> result == Failure)
    ensures p.OnUnstable? ==> (ShouldExecute(p, result, previous) <==> result in {Unstable, Failure})
    ensures p.Changed? ==> (ShouldExecute(p, result, previous) <==> previous != Some(result))
  {
  }

  /** A skipped result triggers only Always and Changed post-conditions. */
  lemma SkippedTriggersOnlyAlwaysOrChanged(p: PostCondition, previous: Option<StageResult>)
    requires ShouldExecute(p, Skipped, previous)
    ensures p.Always? || p.Changed?
  {
  }

  /** `Display`: "<kind>(<n> steps)". */
  function Display(p: PostCondition): string {
    var kind := match p
      case Always(_) => "always"
      case OnSuccess(_) => "success"
      case OnFailure(_) => "failure"
      case OnUnstable(_) => "unstable"
      case Changed(_) => "changed";
    kind + "(" + NatToString(|p.steps|) + " steps)"
  }
}
