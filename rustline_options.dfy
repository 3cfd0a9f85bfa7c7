/** Pipeline triggers and options of the `src/` pipeline model, with their validation. */
module RustlineOptions {
  import opened Wrappers
  import opened Strings
  import opened Durations
  import opened RustlineErrors

  datatype Trigger =
    | CronSchedule(expression: string, timezone: Option<string>)
    | PollScm(interval: nat)
    | Upstream(project: string, threshold: string)
    | Manual

  /** `Trigger::cron`: no timezone. */
  function Cron(expression: string): (t: Trigger)
    ensures t == CronSchedule(expression, None)
  {
    CronSchedule(expression, None)
  }

  /** `Trigger::cron_with_timezone`. */
  function CronWithTimezone(expression: string, timezone: string): (t: Trigger)
    ensures t == CronSchedule(expression, Some(timezone))
  {
    CronSchedule(expression, Some(timezone))
  }

  /** `Trigger::upstream`: the threshold is "SUCCESS". */
  function UpstreamTrigger(project: string): (t: Trigger)
    ensures t == Upstream(project, "SUCCESS")
  {
    Upstream(project, "SUCCESS")
  }

  /**
   * `Trigger::validate`: a cron expression must be non-empty and split on
   * single spaces into 5 or 6 fields; a poll interval must be positive; an
   * upstream project must be named; a manual trigger is always valid.
   */
  function ValidateTrigger(t: Trigger): (r: Result<Unit, ValidationError>)
    ensures t.Manual? ==> r.Ok?
    ensures t.PollScm? ==> (r.Err? <==> t.interval == 0)
    ensures t.Upstream? ==> (r.Err? <==> t.project == "")
    ensures t.CronSchedule? && r.Err? ==> r.error.InvalidCronExpression?
  {
    match t
    case CronSchedule(expression, _) =>
      if expression == "" then Err(InvalidCronExpression("Cron expression cannot be empty"))
      else
        var parts := Split(expression, ' ');
        if |parts| != 5 && |parts| != 6 then
          Err(InvalidCronExpression("Invalid cron expression: " + expression))
        else Ok(Unit)
    case PollScm(interval) =>
      if interval == 0 then Err(InvalidCronExpression("Poll interval must be positive")) else Ok(Unit)
    case Upstream(project, _) =>
      if project == "" then Err(InvalidAgentType("Upstream project cannot be empty")) else Ok(Unit)
    case Manual => Ok(Unit)
  }

  /** A cron trigger is valid exactly when it is non-empty and holds four or five single spaces. */
  lemma CronValidIff(expression: string, timezone: Option<string>)
    ensures ValidateTrigger(CronSchedule(expression, timezone)).Ok?
      <==> expression != "" && (CountChar(expression, ' ') == 4 || CountChar(expression, ' ') == 5)
  {
    SplitCount(expression, ' ');
  }

  datatype BuildDiscarder = BuildDiscarder(numToKeep: nat, daysToKeep: Option<nat>)

  /** `BuildDiscarder::new`: no day limit. */
  function NewBuildDiscarder(n: nat): (b: BuildDiscarder)
    ensures b.numToKeep == n && b.daysToKeep.None?
  {
    BuildDiscarder(n, None)
  }

  /** `BuildDiscarder::with_days_to_keep`: only the day limit changes. */
  function WithDaysToKeep(b: BuildDiscarder, days: nat): (r: BuildDiscarder)
    ensures r.daysToKeep == Some(days) && r.numToKeep == b.numToKeep
  {
    b.(daysToKeep := Some(days))
  }

  /** `ValidateDuration::minutes`: m minutes as seconds. */
  function Minutes(m: nat): (d: Duration)
    ensures AsSecs(d) == m * 60 && d.nanos == 0
  {
    FromSecs(m * 60)
  }

  /** `ValidateDuration::seconds`. */
  function Seconds(s: nat): (d: Duration)
    ensures AsSecs(d) == s && d.nanos == 0
  {
    FromSecs(s)
  }

  datatype PipelineOptions = PipelineOptions(
    timeout: Option<Duration>, retry: Option<nat>, skipDefaultCheckout: bool,
    buildDiscarder: Option<BuildDiscarder>)

  /** `PipelineOptions::new`/`default`. */
  const DefaultOptions: PipelineOptions := PipelineOptions(None, None, false, None)

  /** `with_timeout`: only the timeout changes. */
  function WithTimeout(o: PipelineOptions, d: Duration): (r: PipelineOptions)
    ensures r.timeout == Some(d) && r.(timeout := o.timeout) == o
  {
    o.(timeout := Some(d))
  }

  /** `with_retry`: only the retry count changes. */
  function WithRetry(o: PipelineOptions, count: nat): (r: PipelineOptions)
    ensures r.retry == Some(count) && r.(retry := o.retry) == o
  {
    o.(retry := Some(count))
  }

  /** `with_skip_default_checkout`: only that flag changes. */
  function WithSkipDefaultCheckout(o: PipelineOptions, skip: bool): (r: PipelineOptions)
    ensures r.skipDefaultCheckout == skip && r.(skipDefaultCheckout := o.skipDefaultCheckout) == o
  {
    o.(skipDefaultCheckout := skip)
  }

  /** `with_build_discarder`: only the discarder changes. */
  function WithBuildDiscarder(o: PipelineOptions, b: BuildDiscarder): (r: PipelineOptions)
    ensures r.buildDiscarder == Some(b) && r.(buildDiscarder := o.buildDiscarder) == o
  {
    o.(buildDiscarder := Some(b))
  }

  /**
   * `PipelineOptions::validate`: a timeout under one whole second is
   * `InvalidTimeout{0}`, then a retry count of 0 is `InvalidRetryCount{0}`;
   * absent fields pass.
   */
  function ValidateOptions(o: PipelineOptions): (r: Result<Unit, ValidationError>)
    ensures r.Ok? <==> (o.timeout.None? || AsSecs(o.timeout.value) > 0) && o.retry != Some(0)
    ensures o.timeout.Some? && AsSecs(o.timeout.value) == 0 ==> r == Err(InvalidTimeout(0))
    ensures (o.timeout.None? || AsSecs(o.timeout.value) > 0) && o.retry == Some(0)
      ==> r == Err(InvalidRetryCount(0))
  {
    if o.timeout.Some? && AsSecs(o.timeout.value) == 0 then Err(InvalidTimeout(0))
    else if o.retry.Some? && o.retry.value == 0 then Err(InvalidRetryCount(o.retry.value))
    else Ok(Unit)
  }

  /** The default options validate. */
  lemma DefaultOptionsValid()
    ensures ValidateOptions(DefaultOptions).Ok?
  {
  }
}
