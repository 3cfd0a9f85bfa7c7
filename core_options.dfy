/** Pipeline and stage options of the `pipeliner-core` model: timeouts, retries, build discarding, triggers. */
module CoreOptions {
  import opened Wrappers
  import opened Durations

  datatype Timeout = DurationTimeout(duration: Duration) | Activity(duration: Duration)

  datatype Retry = Count(count: nat) | CountWithDelay(count: nat, delay: Duration)

  datatype BuildDiscarder = BuildDiscarder(
    maxBuilds: Option<nat>, daysToKeep: Option<nat>, daysToKeepSuccess: Option<nat>,
    daysToKeepFailure: Option<nat>, perBranch: Option<nat>)

  datatype FileFilter = Include(paths: seq<string>) | Exclude(paths: seq<string>)

  datatype TriggerFilter = TriggerFilter(includes: seq<string>, excludes: seq<string>, filePaths: Option<FileFilter>)

  datatype Trigger =
    | Cron(expression: string, acceptOnDays: seq<string>, filter: Option<TriggerFilter>)
    | PollScm(expression: string, filter: Option<TriggerFilter>)
    | Upstream(jobs: seq<string>, threshold: string)
    | Remote(token: Option<string>)
    | GithubPush(repository: Option<string>)
    | GitlabMergeRequest(onOpen: bool, onUpdate: bool, onClose: bool, targetBranch: Option<string>)
    | BitbucketPush(repository: Option<string>)

  /** The threshold an upstream trigger is deserialised with when none is given. */
  function DefaultThreshold(): (t: string)
    ensures t == "SUCCESS"
  {
    "SUCCESS"
  }

  datatype PipelineOptions = PipelineOptions(
    timeout: Option<Timeout>, retry: Option<Retry>, discarder: Option<BuildDiscarder>,
    quietPeriod: Option<Duration>, blockDownstream: bool, blockUpstream: bool,
    skipDefaultCheckout: bool, checkoutDir: Option<string>)

  datatype StageOptions = StageOptions(
    timeout: Option<Timeout>, retry: Option<Retry>, skipDefaultCheckout: bool,
    failFast: bool, continueOnFailure: bool, returnCurrentBuildStatus: bool)

  /** `PipelineOptions::new` (the derived `Default`): nothing set, every flag off. */
  function NewOptions(): (o: PipelineOptions)
    ensures o.timeout.None? && o.retry.None? && o.discarder.None? && o.quietPeriod.None?
    ensures !o.blockDownstream && !o.blockUpstream && !o.skipDefaultCheckout && o.checkoutDir.None?
  {
    PipelineOptions(None, None, None, None, false, false, false, None)
  }

  /** `with_timeout`: sets the timeout and nothing else. */
  function WithTimeout(o: PipelineOptions, t: Timeout): (r: PipelineOptions)
    ensures r.timeout == Some(t) && r == o.(timeout := r.timeout)
  {
    o.(timeout := Some(t))
  }

  /** `with_retry`: sets the retry and nothing else. */
  function WithRetry(o: PipelineOptions, retry: Retry): (r: PipelineOptions)
    ensures r.retry == Some(retry) && r == o.(retry := r.retry)
  {
    o.(retry := Some(retry))
  }

  /** `with_discarder`: sets the discarder and nothing else. */
  function WithDiscarder(o: PipelineOptions, d: BuildDiscarder): (r: PipelineOptions)
    ensures r.discarder == Some(d) && r == o.(discarder := r.discarder)
  {
    o.(discarder := Some(d))
  }

  /** `block_downstream`: raises that flag and nothing else. */
  function BlockDownstream(o: PipelineOptions): (r: PipelineOptions)
    ensures r.blockDownstream && r == o.(blockDownstream := true)
  {
    o.(blockDownstream := true)
  }

  /** `block_upstream`: raises that flag and nothing else. */
  function BlockUpstream(o: PipelineOptions): (r: PipelineOptions)
    ensures r.blockUpstream && r == o.(blockUpstream := true)
  {
    o.(blockUpstream := true)
  }

  /** `Timeout::duration(s)`: an overall timeout of s whole seconds. */
  function TimeoutSeconds(s: nat): (t: Timeout)
    ensures t.DurationTimeout? && DurationValue(t) == FromSecs(s)
  {
    DurationTimeout(FromSecs(s))
  }

  /** `Timeout::activity(s)`: an inactivity timeout of s whole seconds. */
  function ActivitySeconds(s: nat): (t: Timeout)
    ensures t.Activity? && DurationValue(t) == FromSecs(s)
  {
    Activity(FromSecs(s))
  }

  /** `Timeout::duration_value`: the stored duration, whichever the kind. */
  function DurationValue(t: Timeout): (d: Duration)
    ensures d == t.duration
  {
    match t
    case DurationTimeout(d) => d
    case Activity(d) => d
  }

  /** `Retry::count`. */
  function RetryCount(c: nat): (r: Retry)
    ensures r.Count? && r.count == c
  {
    Count(c)
  }

  /** `Retry::count_with_delay(c, s)`: c retries, s whole seconds apart. */
  function RetryCountWithDelay(c: nat, s: nat): (r: Retry)
    ensures r.CountWithDelay? && r.count == c && r.delay == FromSecs(s)
  {
    CountWithDelay(c, FromSecs(s))
  }

  /** `Retry::attempts`: the first attempt plus one per retry, whichever the kind. */
  function Attempts(r: Retry): (n: nat)
    ensures n == r.count + 1
    ensures n >= 1
  {
    match r
    case Count(c) => c + 1
    case CountWithDelay(c, _) => c + 1
  }

  /** The delay never changes the number of attempts. */
  lemma AttemptsIgnoresDelay(c: nat, s: nat)
    ensures Attempts(RetryCountWithDelay(c, s)) == Attempts(RetryCount(c)) == c + 1
  {
  }
}
