// `rustline lint`: scanners that look for questionable practice in the text
// of a pipeline program, the severity filter, and the text report.

module RustlineLint {
  import opened Wrappers
  import opened Strings
  import opened TextLines

  datatype LintSeverity = Info | Warning | Error

  /** The order the severity filter compares by. */
  function Rank(s: LintSeverity): (r: nat)
    ensures r <= 2
    ensures s == Info <==> r == 0
    ensures s == Error <==> r == 2
  {
    match s
    case Info => 0
    case Warning => 1
    case Error => 2
  }

  /** The `Display` text of a severity. */
  function SeverityText(s: LintSeverity): string {
    match s
    case Info => "info"
    case Warning => "warning"
    case Error => "error"
  }

  datatype LintMessage = LintMessage(
    code: string,
    message: string,
    line: nat,
    severity: LintSeverity,
    suggestion: Option<string>)

  datatype OutputFormat = PlainText | Json

  datatype LintConfig = LintConfig(minSeverity: LintSeverity, showSuggestions: bool, format: OutputFormat)

  const DefaultConfig := LintConfig(Info, false, PlainText)

  /** A match of the stage-header pattern: the stage's name and the offset the match starts at. */
  datatype StageMatch = StageMatch(name: string, start: nat)

  /**
   * What the scanners' regular expressions find in the text: the names of
   * all `stage!("X"` headers, the `stage!("X", steps!(` headers with their
   * offsets, and the names of the `stage!("X", steps!())` headers.
   */
  datatype LintCaptures = LintCaptures(stageNames: seq<string>, stageBlocks: seq<StageMatch>, emptyStages: seq<string>)

  /** A match found in `content` starts inside it. */
  predicate CapturesIn(content: string, caps: LintCaptures) {
    forall i :: 0 <= i < |caps.stageBlocks| ==> caps.stageBlocks[i].start <= |content|
  }

  // ---------------------------------------------------------------- P001

  predicate HasAgent(content: string) {
    Contains(content, "agent_any!") || Contains(content, "agent_none!") || Contains(content, "agent_docker!")
    || Contains(content, "agent_kubernetes!") || Contains(content, "agent_label!")
  }

  const MissingAgentMessage := LintMessage(
    "P001", "No agent specification found in pipeline", 1, Warning,
    Some("Add agent_any!() or agent_docker!() to specify where stages run"))

  /** A pipeline with stages but no agent macro anywhere gets one warning. */
  function CheckMissingAgent(content: string, stageNames: seq<string>): (r: seq<LintMessage>)
    ensures |r| <= 1
    ensures forall m :: m in r ==> m == MissingAgentMessage
  {
    if !Contains(content, "pipeline!") then []
    else if HasAgent(content) then []
    else if stageNames == [] then []
    else [MissingAgentMessage]
  }

  // ---------------------------------------------------------------- P002

  /** The at most 500 characters from the start of a stage header on. */
  function StageBlock(content: string, start: nat): (r: string)
    requires start <= |content|
    ensures |r| <= 500 && r <= content[start..]
    ensures |r| < 500 ==> start + |r| == |content|
  {
    content[start..start + if 500 < |content| - start then 500 else |content| - start]
  }

  /** The line number the timeout check reports: the number of lines before the match. */
  function TimeoutLineAsWritten(content: string, start: nat): nat
    requires start <= |content|
  {
    |StrLines(content[..start])|
  }

  /** The corrected reference for the line number: the 1-based number of the line the match starts on. */
  function StageLine(content: string, start: nat): (r: nat)
    requires start <= |content|
    ensures r >= 1
  {
    CountChar(content[..start], '\n') + 1
  }

  function TimeoutMessage(name: string, line: nat): LintMessage {
    LintMessage("P002", "Stage '" + name + "' may need a timeout", line, Info,
      Some("Add timeout!(<minutes>, sh!(...)) to prevent hanging stages"))
  }

  /** A stage whose block runs a shell step and sets no timeout. */
  predicate NeedsTimeout(content: string, s: StageMatch)
    requires s.start <= |content|
  {
    var block := StageBlock(content, s.start);
    !Contains(block, "timeout!") && Contains(block, "sh!")
  }

  function TimeoutFor(content: string, s: StageMatch): seq<LintMessage>
    requires s.start <= |content|
  {
    if NeedsTimeout(content, s) then [TimeoutMessage(s.name, TimeoutLineAsWritten(content, s.start))] else []
  }

  /** The timeout messages of the stages, in order. */
  function TimeoutMessages(content: string, stages: seq<StageMatch>): (r: seq<LintMessage>)
    requires forall i :: 0 <= i < |stages| ==> stages[i].start <= |content|
    ensures |r| <= |stages|
    ensures forall m :: m in r ==> m.code == "P002" && m.severity == Info
  {
    if stages == [] then []
    else TimeoutMessages(content, stages[..|stages| - 1]) + TimeoutFor(content, stages[|stages| - 1])
  }

  /** The timeout note for one stage: its block runs a shell step and sets no timeout. */
  method TimeoutStage(content: string, s: StageMatch) returns (found: seq<LintMessage>)
    requires s.start <= |content|
    ensures found == TimeoutFor(content, s)
  {
    var block := StageBlock(content, s.start);
    var hasTimeout := Contains(block, "timeout!");
    var hasSh := Contains(block, "sh!");
    found := [];
    if !hasTimeout && hasSh {
      var prefix := content[..s.start];
      var line := |StrLines(prefix)|;
      found := [TimeoutMessage(s.name, line)];
    }
  }

  method CheckTimeouts(content: string, stages: seq<StageMatch>) returns (msgs: seq<LintMessage>)
    requires forall i :: 0 <= i < |stages| ==> stages[i].start <= |content|
    ensures msgs == TimeoutMessages(content, stages)
  {
    msgs := [];
    var i := 0;
    while i < |stages|
      invariant 0 <= i <= |stages|
      invariant msgs == TimeoutMessages(content, stages[..i])
    {
      var found := TimeoutStage(content, stages[i]);
      assert stages[..i + 1][..i] == stages[..i];
      msgs := msgs + found;
      i := i + 1;
    }
    assert stages[..i] == stages;
  }

  // ------------------------------------------------ messages per line

  /** The messages a per-line check gives, `f(n, l)` for the line `l` numbered `n` from 1. */
  function PerLine(lines: seq<string>, f: (nat, string) -> seq<LintMessage>): seq<LintMessage> {
    if lines == [] then [] else PerLine(lines[..|lines| - 1], f) + f(|lines|, lines[|lines| - 1])
  }

  /** One more line's messages after those of the lines before it. */
  lemma PerLineStep(lines: seq<string>, f: (nat, string) -> seq<LintMessage>, i: nat)
    requires i < |lines|
    ensures PerLine(lines[..i + 1], f) == PerLine(lines[..i], f) + f(i + 1, lines[i])
  {
    assert lines[..i + 1][..i] == lines[..i];
  }

  /** A per-line check gives at most one message for a line, carrying that line's number. */
  ghost predicate OneAtLine(f: (nat, string) -> seq<LintMessage>) {
    forall n: nat, l: string :: |f(n, l)| <= 1 && (f(n, l) != [] ==> f(n, l)[0].line == n)
  }

  // ---------------------------------------------------------------- P003

  /** The commands that reach the network, in the order they are tried. */
  const Unreliable: seq<string> := ["git clone", "git fetch", "docker pull", "curl ", "wget ", "scp ", "ssh "]

  /** The index of the first pattern from `from` on that the line contains. */
  function FirstMatch(line: string, pats: seq<string>, from: nat): (r: Option<nat>)
    requires from <= |pats|
    ensures r.Some? ==>
      from <= r.value < |pats| && Contains(line, pats[r.value])
      && forall k :: from <= k < r.value ==> !Contains(line, pats[k])
    ensures r.None? ==> forall k :: from <= k < |pats| ==> !Contains(line, pats[k])
    decreases |pats| - from
  {
    if from == |pats| then None
    else if Contains(line, pats[from]) then Some(from)
    else FirstMatch(line, pats, from + 1)
  }

  /** A line running a quoted shell step without a retry around it. */
  predicate UnguardedShell(line: string) {
    (Contains(line, "sh!(\"") || Contains(line, "sh!('")) && !Contains(line, "retry!")
  }

  function RetryMessage(pattern: string, line: nat): LintMessage {
    LintMessage("P003", "Unreliable command '" + pattern + "' without retry", line, Info,
      Some("Consider wrapping with retry!(count, step)"))
  }

  function RetryFor(n: nat, line: string): seq<LintMessage> {
    if UnguardedShell(line) then
      match FirstMatch(line, Unreliable, 0)
      case Some(k) => [RetryMessage(Unreliable[k], n)]
      case None => []
    else []
  }

  /** The first unreliable pattern a line without a retry contains is the one reported. */
  lemma RetryForFirst(n: nat, line: string, j: nat)
    requires UnguardedShell(line) && j < |Unreliable| && Contains(line, Unreliable[j])
    requires forall k :: 0 <= k < j ==> !Contains(line, Unreliable[k])
    ensures RetryFor(n, line) == [RetryMessage(Unreliable[j], n)]
  {
    var r := FirstMatch(line, Unreliable, 0);
    assert r.Some? && r.value == j;
  }

  /** The retry suggestion for one line: the first unreliable pattern it contains, if any. */
  method RetryLine(n: nat, line: string) returns (found: seq<LintMessage>)
    ensures found == RetryFor(n, line)
  {
    found := [];
    if (Contains(line, "sh!(\"") || Contains(line, "sh!('")) && !Contains(line, "retry!") {
      var j := 0;
      while j < |Unreliable|
        invariant 0 <= j <= |Unreliable|
        invariant forall k :: 0 <= k < j ==> !Contains(line, Unreliable[k])
      {
        if Contains(line, Unreliable[j]) {
          RetryForFirst(n, line, j);
          return [RetryMessage(Unreliable[j], n)];
        }
        j := j + 1;
      }
      var r := FirstMatch(line, Unreliable, 0);
      assert r.None?;
    }
  }

  method CheckRetry(content: string) returns (msgs: seq<LintMessage>)
    ensures msgs == PerLine(StrLines(content), RetryFor)
  {
    var lines := StrLines(content);
    msgs := [];
    var i := 0;
    while i < |lines|
      invariant 0 <= i <= |lines|
      invariant msgs == PerLine(lines[..i], RetryFor)
    {
      var found := RetryLine(i + 1, lines[i]);
      PerLineStep(lines, RetryFor, i);
      msgs := msgs + found;
      i := i + 1;
    }
    assert lines[..i] == lines;
  }

  // ---------------------------------------------------------------- P004

  function EmptyStageMessage(name: string): LintMessage {
    LintMessage("P004", "Stage '" + name + "' has no steps", 1, Error, Some("Add at least one step to the stage"))
  }

  /** One error per stage declared with `steps!()`, in order. */
  method CheckEmptyStages(names: seq<string>) returns (msgs: seq<LintMessage>)
    ensures |msgs| == |names|
    ensures forall i :: 0 <= i < |names| ==> msgs[i] == EmptyStageMessage(names[i])
  {
    msgs := [];
    var i := 0;
    while i < |names|
      invariant 0 <= i <= |names|
      invariant |msgs| == i
      invariant forall k :: 0 <= k < i ==> msgs[k] == EmptyStageMessage(names[k])
    {
      msgs := msgs + [EmptyStageMessage(names[i])];
      i := i + 1;
    }
  }

  function EmptyStageMessages(names: seq<string>): (r: seq<LintMessage>)
    ensures |r| == |names|
  {
    seq(|names|, i requires 0 <= i < |names| => EmptyStageMessage(names[i]))
  }

  // ---------------------------------------------------------------- P005

  /** A line naming a password next to a string literal, longer than 20 bytes. */
  predicate LooksLikeSecret(line: string) {
    Contains(line, "password") && Contains(line, "\"") && Utf8Len(line) > 20
  }

  function SecretMessage(line: nat): LintMessage {
    LintMessage("P005", "Possible hardcoded password", line, Error,
      Some("Use environment variables or secrets management"))
  }

  function SecretFor(n: nat, line: string): seq<LintMessage> {
    if LooksLikeSecret(line) then [SecretMessage(n)] else []
  }

  method CheckHardcodedSecrets(content: string) returns (msgs: seq<LintMessage>)
    ensures msgs == PerLine(StrLines(content), SecretFor)
  {
    var lines := StrLines(content);
    msgs := [];
    var i := 0;
    while i < |lines|
      invariant 0 <= i <= |lines|
      invariant msgs == PerLine(lines[..i], SecretFor)
    {
      var line := lines[i];
      if Contains(line, "password") && Contains(line, "\"") && Utf8Len(line) > 20 {
        msgs := msgs + [SecretMessage(i + 1)];
      }
      PerLineStep(lines, SecretFor, i);
      i := i + 1;
    }
    assert lines[..i] == lines;
  }

  // ---------------------------------------------------------------- P007

  const PostMessage := LintMessage(
    "P007", "No post-conditions defined", 1, Info,
    Some("Add post!(always(...), success(...), failure(...)) for cleanup and notifications"))

  function CheckPostConditions(content: string): (r: seq<LintMessage>)
    ensures |r| <= 1
    ensures forall m :: m in r ==> m == PostMessage
  {
    if Contains(content, "pipeline!") && !Contains(content, "post!") then [PostMessage] else []
  }

  // ------------------------------------------------------------ the pass

  /** Every check's messages, in the order the checks run. */
  function LintAll(content: string, caps: LintCaptures): seq<LintMessage>
    requires CapturesIn(content, caps)
  {
    var lines := StrLines(content);
    CheckMissingAgent(content, caps.stageNames)
    + TimeoutMessages(content, caps.stageBlocks)
    + PerLine(lines, RetryFor)
    + EmptyStageMessages(caps.emptyStages)
    + PerLine(lines, SecretFor)
    + CheckPostConditions(content)
  }

  /** The messages of rank at least `min`, in their order. */
  function KeepAtLeast(msgs: seq<LintMessage>, min: LintSeverity): (r: seq<LintMessage>)
    ensures |r| <= |msgs|
  {
    if msgs == [] then []
    else
      var last := msgs[|msgs| - 1];
      KeepAtLeast(msgs[..|msgs| - 1], min) + if Rank(last.severity) >= Rank(min) then [last] else []
  }

  lemma KeepStep(msgs: seq<LintMessage>, min: LintSeverity, i: nat)
    requires i < |msgs|
    ensures KeepAtLeast(msgs[..i + 1], min)
      == KeepAtLeast(msgs[..i], min) + if Rank(msgs[i].severity) >= Rank(min) then [msgs[i]] else []
  {
    assert msgs[..i + 1][..i] == msgs[..i];
  }

  function Lint(content: string, caps: LintCaptures, config: LintConfig): seq<LintMessage>
    requires CapturesIn(content, caps)
  {
    KeepAtLeast(LintAll(content, caps), config.minSeverity)
  }

  /** `lint_pipeline` on the text of a file: all checks, then the severity filter. */
  method LintPipeline(content: string, caps: LintCaptures, config: LintConfig) returns (msgs: seq<LintMessage>)
    requires CapturesIn(content, caps)
    ensures msgs == Lint(content, caps, config)
  {
    var missing := CheckMissingAgent(content, caps.stageNames);
    var timeouts := CheckTimeouts(content, caps.stageBlocks);
    var retries := CheckRetry(content);
    var empty := CheckEmptyStages(caps.emptyStages);
    var secrets := CheckHardcodedSecrets(content);
    var post := CheckPostConditions(content);
    assert empty == EmptyStageMessages(caps.emptyStages);
    var all := missing + timeouts + retries + empty + secrets + post;
    assert all == LintAll(content, caps);
    msgs := Retain(all, config.minSeverity);
  }

  /** `messages.retain(..)` with the severity filter: keeps the messages of rank at least `min`. */
  method Retain(all: seq<LintMessage>, min: LintSeverity) returns (msgs: seq<LintMessage>)
    ensures msgs == KeepAtLeast(all, min)
  {
    msgs := [];
    var i := 0;
    while i < |all|
      invariant 0 <= i <= |all|
      invariant msgs == KeepAtLeast(all[..i], min)
    {
      if Rank(all[i].severity) >= Rank(min) {
        msgs := msgs + [all[i]];
      }
      KeepStep(all, min, i);
      i := i + 1;
    }
    assert all[..i] == all;
  }

  // ------------------------------------------------------------ the report

  const NoIssues := "No lint issues found."

  /** The two lines of one message: the headline and the indented suggestion. */
  function MessageLines(m: LintMessage): seq<string> {
    [m.code + ": " + m.message + " (line " + NatToString(m.line) + ") [" + SeverityText(m.severity) + "]",
     "  " + match m.suggestion case Some(s) => s case None => ""]
  }

  /** `format_lint_messages` in the text format. */
  method FormatText(msgs: seq<LintMessage>) returns (r: string)
    ensures msgs == [] ==> r == NoIssues
    ensures msgs != [] ==> r == Text(Flatten(msgs, MessageLines))
  {
    if msgs == [] {
      return NoIssues;
    }
    r := "";
    ghost var lines: seq<string> := [];
    var i := 0;
    while i < |msgs|
      invariant 0 <= i <= |msgs|
      invariant lines == Flatten(msgs[..i], MessageLines)
      invariant r == Text(lines)
    {
      var m := msgs[i];
      r, lines := PushLines(r, lines, MessageLines(m));
      FlattenSnoc(msgs, MessageLines, i);
      i := i + 1;
    }
    assert msgs[..i] == msgs;
  }
}
