// What `rustline lint` reports: the severity filter keeps exactly the
// messages of high enough rank, each check's code belongs to that check
// alone, the per-line checks give at most one message per line, and the
// text report gives two lines per message.

module RustlineLintProps {
  import opened Wrappers
  import opened Strings
  import opened TextLines
  import opened RustlineLint

  // ------------------------------------------------------- the filter

  /** The filter keeps a message exactly when it occurs and its rank is at least the minimum. */
  lemma {:induction false} KeepAtLeastMembers(msgs: seq<LintMessage>, min: LintSeverity)
    ensures forall m :: m in KeepAtLeast(msgs, min) <==> m in msgs && Rank(m.severity) >= Rank(min)
    decreases |msgs|
  {
    if msgs != [] {
      var init := msgs[..|msgs| - 1];
      KeepAtLeastMembers(init, min);
      assert msgs == init + [msgs[|msgs| - 1]];
    }
  }

  /** Filtering two runs of messages is filtering each: the kept messages stay in their order. */
  lemma {:induction false} KeepAtLeastAppend(a: seq<LintMessage>, b: seq<LintMessage>, min: LintSeverity)
    ensures KeepAtLeast(a + b, min) == KeepAtLeast(a, min) + KeepAtLeast(b, min)
    decreases |b|
  {
    if b == [] {
      assert a + b == a;
    } else {
      var init := b[..|b| - 1];
      assert (a + b)[..|a + b| - 1] == a + init;
      KeepAtLeastAppend(a, init, min);
    }
  }

  /** The default minimum, `Info`, keeps every message. */
  lemma {:induction false} KeepAtLeastInfo(msgs: seq<LintMessage>)
    ensures KeepAtLeast(msgs, Info) == msgs
    decreases |msgs|
  {
    if msgs != [] {
      KeepAtLeastInfo(msgs[..|msgs| - 1]);
      assert msgs == msgs[..|msgs| - 1] + [msgs[|msgs| - 1]];
    }
  }

  /** `lint_pipeline` reports exactly the found messages whose rank is at least the configured minimum. */
  lemma LintKeeps(content: string, caps: LintCaptures, config: LintConfig)
    requires CapturesIn(content, caps)
    ensures forall m :: (m in Lint(content, caps, config)
      <==> m in LintAll(content, caps) && Rank(m.severity) >= Rank(config.minSeverity))
  {
    KeepAtLeastMembers(LintAll(content, caps), config.minSeverity);
  }

  // ------------------------------------------------------ codes

  /** The messages carrying a code, in order. */
  function WithCode(msgs: seq<LintMessage>, code: string): (r: seq<LintMessage>)
    ensures |r| <= |msgs|
  {
    if msgs == [] then []
    else
      var last := msgs[|msgs| - 1];
      WithCode(msgs[..|msgs| - 1], code) + if last.code == code then [last] else []
  }

  lemma {:induction false} WithCodeAppend(a: seq<LintMessage>, b: seq<LintMessage>, code: string)
    ensures WithCode(a + b, code) == WithCode(a, code) + WithCode(b, code)
    decreases |b|
  {
    if b == [] {
      assert a + b == a;
    } else {
      var init := b[..|b| - 1];
      assert (a + b)[..|a + b| - 1] == a + init;
      WithCodeAppend(a, init, code);
    }
  }

  /** Every message of the list carries the code. */
  predicate Coded(msgs: seq<LintMessage>, code: string) {
    forall i :: 0 <= i < |msgs| ==> msgs[i].code == code
  }

  lemma {:induction false} WithCodeAll(msgs: seq<LintMessage>, code: string)
    requires Coded(msgs, code)
    ensures WithCode(msgs, code) == msgs
    decreases |msgs|
  {
    if msgs != [] {
      var init := msgs[..|msgs| - 1];
      WithCodeAll(init, code);
      assert msgs == init + [msgs[|msgs| - 1]];
    }
  }

  lemma {:induction false} WithCodeNone(msgs: seq<LintMessage>, code: string, other: string)
    requires Coded(msgs, other) && other != code
    ensures WithCode(msgs, code) == []
    decreases |msgs|
  {
    if msgs != [] {
      WithCodeNone(msgs[..|msgs| - 1], code, other);
    }
  }

  /** A list of one code contributes all or nothing to the messages of a code. */
  lemma WithCodeOf(msgs: seq<LintMessage>, other: string, code: string)
    requires Coded(msgs, other)
    ensures WithCode(msgs, code) == if other == code then msgs else []
  {
    if other == code {
      WithCodeAll(msgs, code);
    } else {
      WithCodeNone(msgs, code, other);
    }
  }

  /** The messages of a code in six lists of one code each. */
  lemma WithCodeSix(a: seq<LintMessage>, b: seq<LintMessage>, c: seq<LintMessage>,
                    d: seq<LintMessage>, e: seq<LintMessage>, f: seq<LintMessage>,
                    ca: string, cb: string, cc: string, cd: string, ce: string, cf: string, code: string)
    requires Coded(a, ca) && Coded(b, cb) && Coded(c, cc) && Coded(d, cd) && Coded(e, ce) && Coded(f, cf)
    ensures WithCode(a + b + c + d + e + f, code)
      == (if ca == code then a else []) + (if cb == code then b else []) + (if cc == code then c else [])
       + (if cd == code then d else []) + (if ce == code then e else []) + (if cf == code then f else [])
  {
    WithCodeAppend(a + b + c + d + e, f, code);
    WithCodeAppend(a + b + c + d, e, code);
    WithCodeAppend(a + b + c, d, code);
    WithCodeAppend(a + b, c, code);
    WithCodeAppend(a, b, code);
    WithCodeOf(a, ca, code);
    WithCodeOf(b, cb, code);
    WithCodeOf(c, cc, code);
    WithCodeOf(d, cd, code);
    WithCodeOf(e, ce, code);
    WithCodeOf(f, cf, code);
  }

  /** Every message of a per-line check carries the check's code. */
  lemma {:induction false} PerLineCode(lines: seq<string>, f: (nat, string) -> seq<LintMessage>, code: string)
    requires forall n: nat, l: string, m :: m in f(n, l) ==> m.code == code
    ensures forall m :: m in PerLine(lines, f) ==> m.code == code
    decreases |lines|
  {
    if lines != [] {
      PerLineCode(lines[..|lines| - 1], f, code);
    }
  }

  lemma RetryCode(lines: seq<string>)
    ensures Coded(PerLine(lines, RetryFor), "P003")
  {
    assert forall n: nat, l: string, m :: m in RetryFor(n, l) ==> m.code == "P003";
    PerLineCode(lines, RetryFor, "P003");
    var r := PerLine(lines, RetryFor);
    forall i | 0 <= i < |r| ensures r[i].code == "P003" { assert r[i] in r; }
  }

  lemma SecretCode(lines: seq<string>)
    ensures Coded(PerLine(lines, SecretFor), "P005")
  {
    assert forall n: nat, l: string, m :: m in SecretFor(n, l) ==> m.code == "P005";
    PerLineCode(lines, SecretFor, "P005");
    var r := PerLine(lines, SecretFor);
    forall i | 0 <= i < |r| ensures r[i].code == "P005" { assert r[i] in r; }
  }

  /** Each check's messages carry that check's code. */
  lemma PartsCoded(content: string, caps: LintCaptures)
    requires CapturesIn(content, caps)
    ensures var lines := StrLines(content);
      && Coded(CheckMissingAgent(content, caps.stageNames), "P001")
      && Coded(TimeoutMessages(content, caps.stageBlocks), "P002")
      && Coded(PerLine(lines, RetryFor), "P003")
      && Coded(EmptyStageMessages(caps.emptyStages), "P004")
      && Coded(PerLine(lines, SecretFor), "P005")
      && Coded(CheckPostConditions(content), "P007")
  {
    var lines := StrLines(content);
    var a := CheckMissingAgent(content, caps.stageNames);
    assert Coded(a, "P001") by {
      if a != [] { assert a[0] in a; }
    }
    var b := TimeoutMessages(content, caps.stageBlocks);
    assert Coded(b, "P002") by {
      forall i | 0 <= i < |b| ensures b[i].code == "P002" { assert b[i] in b; }
    }
    RetryCode(lines);
    SecretCode(lines);
    var f := CheckPostConditions(content);
    assert Coded(f, "P007") by {
      if f != [] { assert f[0] in f; }
    }
  }

  /** The messages of one code are those of the one check that reports it. */
  lemma WithCodeParts(content: string, caps: LintCaptures, code: string)
    requires CapturesIn(content, caps)
    ensures var lines := StrLines(content);
      WithCode(LintAll(content, caps), code)
      == (if code == "P001" then CheckMissingAgent(content, caps.stageNames) else [])
       + (if code == "P002" then TimeoutMessages(content, caps.stageBlocks) else [])
       + (if code == "P003" then PerLine(lines, RetryFor) else [])
       + (if code == "P004" then EmptyStageMessages(caps.emptyStages) else [])
       + (if code == "P005" then PerLine(lines, SecretFor) else [])
       + (if code == "P007" then CheckPostConditions(content) else [])
  {
    var lines := StrLines(content);
    PartsCoded(content, caps);
    WithCodeSix(CheckMissingAgent(content, caps.stageNames), TimeoutMessages(content, caps.stageBlocks),
      PerLine(lines, RetryFor), EmptyStageMessages(caps.emptyStages), PerLine(lines, SecretFor),
      CheckPostConditions(content), "P001", "P002", "P003", "P004", "P005", "P007", code);
  }

  /**
   * P001 is reported exactly when the text uses `pipeline!`, names no agent
   * macro and declares a stage, and then once, as a warning on line 1.
   */
  lemma MissingAgentReport(content: string, caps: LintCaptures)
    requires CapturesIn(content, caps)
    ensures WithCode(LintAll(content, caps), "P001")
      == if Contains(content, "pipeline!") && !HasAgent(content) && caps.stageNames != []
         then [MissingAgentMessage] else []
  {
    var a := CheckMissingAgent(content, caps.stageNames);
    WithCodeParts(content, caps, "P001");
    assert "P001" != "P002" && "P001" != "P003" && "P001" != "P004" && "P001" != "P005" && "P001" != "P007" by {
      assert "P001"[3] != "P002"[3] && "P001"[3] != "P003"[3] && "P001"[3] != "P004"[3];
      assert "P001"[3] != "P005"[3] && "P001"[3] != "P007"[3];
    }
    assert a + [] + [] + [] + [] + [] == a;
  }

  /** P007 is reported exactly once, as information on line 1, when `pipeline!` has no `post!`. */
  lemma PostConditionsReport(content: string, caps: LintCaptures)
    requires CapturesIn(content, caps)
    ensures WithCode(LintAll(content, caps), "P007")
      == if Contains(content, "pipeline!") && !Contains(content, "post!") then [PostMessage] else []
  {
    var f := CheckPostConditions(content);
    WithCodeParts(content, caps, "P007");
    assert "P007" != "P001" && "P007" != "P002" && "P007" != "P003" && "P007" != "P004" && "P007" != "P005" by {
      assert "P007"[3] != "P001"[3] && "P007"[3] != "P002"[3] && "P007"[3] != "P003"[3];
      assert "P007"[3] != "P004"[3] && "P007"[3] != "P005"[3];
    }
    assert [] + [] + [] + [] + [] + f == f;
  }

  /** The P004 messages are one error per stage declared with `steps!()`, naming it, in order. */
  lemma EmptyStagesReport(content: string, caps: LintCaptures)
    requires CapturesIn(content, caps)
    ensures WithCode(LintAll(content, caps), "P004") == EmptyStageMessages(caps.emptyStages)
  {
    var d := EmptyStageMessages(caps.emptyStages);
    WithCodeParts(content, caps, "P004");
    assert "P004" != "P001" && "P004" != "P002" && "P004" != "P003" && "P004" != "P005" && "P004" != "P007" by {
      assert "P004"[3] != "P001"[3] && "P004"[3] != "P002"[3] && "P004"[3] != "P003"[3];
      assert "P004"[3] != "P005"[3] && "P004"[3] != "P007"[3];
    }
    assert [] + [] + [] + d + [] + [] == d;
  }

  /** An empty stage is reported whatever the minimum severity, since it is an error. */
  lemma EmptyStageAlwaysReported(content: string, caps: LintCaptures, config: LintConfig, name: string)
    requires CapturesIn(content, caps) && name in caps.emptyStages
    ensures EmptyStageMessage(name) in Lint(content, caps, config)
  {
    var i :| 0 <= i < |caps.emptyStages| && caps.emptyStages[i] == name;
    var all := LintAll(content, caps);
    var lines := StrLines(content);
    var d := EmptyStageMessages(caps.emptyStages);
    assert d[i] == EmptyStageMessage(name);
    assert all == CheckMissingAgent(content, caps.stageNames) + TimeoutMessages(content, caps.stageBlocks)
      + PerLine(lines, RetryFor) + d + PerLine(lines, SecretFor) + CheckPostConditions(content);
    assert EmptyStageMessage(name) in all;
    KeepAtLeastMembers(all, config.minSeverity);
  }

  /** The stage `stage!("Empty", steps!())` of the empty-stage example is reported as P004 by default. */
  lemma EmptyStageExample(content: string, caps: LintCaptures)
    requires CapturesIn(content, caps) && caps.emptyStages == ["Empty"]
    ensures exists m :: m in Lint(content, caps, DefaultConfig) && m.code == "P004"
  {
    EmptyStageAlwaysReported(content, caps, DefaultConfig, "Empty");
    assert EmptyStageMessage("Empty").code == "P004";
  }

  // --------------------------------------------------- per-line checks

  /** A per-line check's messages come in increasing line order: at most one per line. */
  lemma {:induction false} PerLineOrdered(lines: seq<string>, f: (nat, string) -> seq<LintMessage>)
    requires OneAtLine(f)
    ensures forall k :: 0 <= k < |PerLine(lines, f)| ==> 1 <= PerLine(lines, f)[k].line <= |lines|
    ensures forall j, k :: 0 <= j < k < |PerLine(lines, f)| ==> PerLine(lines, f)[j].line < PerLine(lines, f)[k].line
    decreases |lines|
  {
    if lines != [] {
      var m := |lines|;
      var init := lines[..m - 1];
      PerLineOrdered(init, f);
      var a := PerLine(init, f);
      var b := f(m, lines[m - 1]);
      assert |b| <= 1 && (b != [] ==> b[0].line == m);
      var r := a + b;
      assert PerLine(lines, f) == r;
      assert forall k :: 0 <= k < |a| ==> 1 <= a[k].line <= m - 1;
      forall j, k | 0 <= j < k < |r|
        ensures r[j].line < r[k].line
      {
        if k < |a| {
          assert r[j] == a[j] && r[k] == a[k];
        } else {
          assert r[j] == a[j] && r[k] == b[0];
        }
      }
    }
  }

  /** Every line to which a per-line check gives a message is reported. */
  lemma {:induction false} PerLineComplete(lines: seq<string>, f: (nat, string) -> seq<LintMessage>)
    requires OneAtLine(f)
    ensures forall i :: 0 <= i < |lines| && f(i + 1, lines[i]) != [] ==>
      exists k :: 0 <= k < |PerLine(lines, f)| && PerLine(lines, f)[k].line == i + 1
    decreases |lines|
  {
    if lines != [] {
      var m := |lines|;
      var init := lines[..m - 1];
      PerLineComplete(init, f);
      var a := PerLine(init, f);
      var b := f(m, lines[m - 1]);
      assert |b| <= 1 && (b != [] ==> b[0].line == m);
      var r := a + b;
      assert PerLine(lines, f) == r;
      forall i | 0 <= i < m && f(i + 1, lines[i]) != []
        ensures exists k :: 0 <= k < |r| && r[k].line == i + 1
      {
        if i == m - 1 {
          assert r[|a|].line == i + 1;
        } else {
          assert init[i] == lines[i];
          var k :| 0 <= k < |a| && a[k].line == i + 1;
          assert r[k].line == i + 1;
        }
      }
    }
  }

  lemma RetryOneAtLine()
    ensures OneAtLine(RetryFor)
  {
    forall n: nat, l: string
      ensures |RetryFor(n, l)| <= 1 && (RetryFor(n, l) != [] ==> RetryFor(n, l)[0].line == n)
    {
    }
  }

  /** The line a retry message is given to runs an unguarded shell step with an unreliable command. */
  lemma RetryForGiven(n: nat, line: string, m: LintMessage)
    requires RetryFor(n, line) == [m]
    ensures UnguardedShell(line) && FirstMatch(line, Unreliable, 0).Some?
    ensures m == RetryMessage(Unreliable[FirstMatch(line, Unreliable, 0).value], n)
  {
  }

  lemma RetryForTaken(n: nat, line: string)
    requires UnguardedShell(line) && FirstMatch(line, Unreliable, 0).Some?
    ensures RetryFor(n, line) != []
  {
  }

  /** The retry check gives at most one message per line, in line order. */
  lemma RetryOnePerLine(lines: seq<string>)
    ensures forall j, k :: 0 <= j < k < |PerLine(lines, RetryFor)| ==>
      PerLine(lines, RetryFor)[j].line < PerLine(lines, RetryFor)[k].line
  {
    RetryOneAtLine();
    PerLineOrdered(lines, RetryFor);
  }

  /**
   * Each retry message is for a line running a quoted shell step without
   * `retry!`, and names the first unreliable command on that line. The
   * lines are those of the scanned text, `StrLines(content)`.
   */
  lemma {:induction false} RetrySound(lines: seq<string>)
    ensures forall m :: m in PerLine(lines, RetryFor) ==>
      1 <= m.line <= |lines|
      && UnguardedShell(lines[m.line - 1])
      && FirstMatch(lines[m.line - 1], Unreliable, 0).Some?
      && m == RetryMessage(Unreliable[FirstMatch(lines[m.line - 1], Unreliable, 0).value], m.line)
    decreases |lines|
  {
    if lines != [] {
      var n := |lines|;
      var init := lines[..n - 1];
      RetrySound(init);
      var a := PerLine(init, RetryFor);
      var b := RetryFor(n, lines[n - 1]);
      assert PerLine(lines, RetryFor) == a + b;
      forall m: LintMessage | m in a + b
        ensures 1 <= m.line <= n && UnguardedShell(lines[m.line - 1])
          && FirstMatch(lines[m.line - 1], Unreliable, 0).Some?
          && m == RetryMessage(Unreliable[FirstMatch(lines[m.line - 1], Unreliable, 0).value], m.line)
      {
        if m in a {
          assert init[m.line - 1] == lines[m.line - 1];
        } else {
          assert |b| <= 1;
          RetryForGiven(n, lines[n - 1], m);
        }
      }
    }
  }


  /** Every line running an unreliable command in an unguarded shell step is reported. */
  lemma RetryComplete(lines: seq<string>)
    ensures forall i :: (0 <= i < |lines| && UnguardedShell(lines[i])
      && FirstMatch(lines[i], Unreliable, 0).Some?) ==>
      exists m :: m in PerLine(lines, RetryFor) && m.line == i + 1
  {
    var r := PerLine(lines, RetryFor);
    RetryOneAtLine();
    PerLineComplete(lines, RetryFor);
    forall i | 0 <= i < |lines| && UnguardedShell(lines[i]) && FirstMatch(lines[i], Unreliable, 0).Some?
      ensures exists m :: m in r && m.line == i + 1
    {
      RetryForTaken(i + 1, lines[i]);
      var k :| 0 <= k < |r| && r[k].line == i + 1;
      assert r[k] in r;
    }
  }

  lemma SecretOneAtLine()
    ensures OneAtLine(SecretFor)
  {
    forall n: nat, l: string
      ensures |SecretFor(n, l)| <= 1 && (SecretFor(n, l) != [] ==> SecretFor(n, l)[0].line == n)
    {
    }
  }

  lemma SecretForGiven(n: nat, line: string, m: LintMessage)
    requires SecretFor(n, line) == [m]
    ensures LooksLikeSecret(line) && m == SecretMessage(n)
  {
  }

  lemma SecretForTaken(n: nat, line: string)
    requires LooksLikeSecret(line)
    ensures SecretFor(n, line) != []
  {
  }

  /** The password check gives at most one message per line, in line order. */
  lemma SecretOnePerLine(lines: seq<string>)
    ensures forall j, k :: 0 <= j < k < |PerLine(lines, SecretFor)| ==>
      PerLine(lines, SecretFor)[j].line < PerLine(lines, SecretFor)[k].line
  {
    SecretOneAtLine();
    PerLineOrdered(lines, SecretFor);
  }

  /**
   * Each password error is at a line that mentions "password", has a double
   * quote and is longer than 20 bytes. The lines are those of the scanned
   * text, `StrLines(content)`.
   */
  lemma {:induction false} SecretSound(lines: seq<string>)
    ensures forall m :: m in PerLine(lines, SecretFor) ==>
      1 <= m.line <= |lines| && LooksLikeSecret(lines[m.line - 1]) && m == SecretMessage(m.line)
    decreases |lines|
  {
    if lines != [] {
      var n := |lines|;
      var init := lines[..n - 1];
      SecretSound(init);
      var a := PerLine(init, SecretFor);
      var b := SecretFor(n, lines[n - 1]);
      assert PerLine(lines, SecretFor) == a + b;
      forall m: LintMessage | m in a + b
        ensures 1 <= m.line <= n && LooksLikeSecret(lines[m.line - 1]) && m == SecretMessage(m.line)
      {
        if m in a {
          assert init[m.line - 1] == lines[m.line - 1];
        } else {
          assert |b| <= 1;
          SecretForGiven(n, lines[n - 1], m);
        }
      }
    }
  }


  /** Every such line gets its error. */
  lemma SecretComplete(lines: seq<string>)
    ensures forall i :: 0 <= i < |lines| && LooksLikeSecret(lines[i]) ==>
      exists m :: m in PerLine(lines, SecretFor) && m.line == i + 1
  {
    var r := PerLine(lines, SecretFor);
    SecretOneAtLine();
    PerLineComplete(lines, SecretFor);
    forall i | 0 <= i < |lines| && LooksLikeSecret(lines[i])
      ensures exists m :: m in r && m.line == i + 1
    {
      SecretForTaken(i + 1, lines[i]);
      var k :| 0 <= k < |r| && r[k].line == i + 1;
      assert r[k] in r;
    }
  }

  // ------------------------------------------------------- timeouts

  /**
   * The timeout check reports each stage whose block runs a shell step and
   * sets no timeout, at the number of lines before the stage, and nothing
   * else.
   */
  lemma {:induction false} TimeoutReports(content: string, stages: seq<StageMatch>)
    requires forall i :: 0 <= i < |stages| ==> stages[i].start <= |content|
    ensures forall i :: 0 <= i < |stages| && NeedsTimeout(content, stages[i]) ==>
      TimeoutMessage(stages[i].name, TimeoutLineAsWritten(content, stages[i].start)) in TimeoutMessages(content, stages)
    ensures forall m :: m in TimeoutMessages(content, stages) ==>
      exists i :: 0 <= i < |stages| && NeedsTimeout(content, stages[i])
        && m == TimeoutMessage(stages[i].name, TimeoutLineAsWritten(content, stages[i].start))
    decreases |stages|
  {
    if stages != [] {
      var init := stages[..|stages| - 1];
      TimeoutReports(content, init);
      assert forall i :: 0 <= i < |init| ==> init[i] == stages[i];
    }
  }

  /**
   * The corrected line number counts the lines of the text up to and
   * including the match's first character.
   */
  lemma StageLineOfMatch(content: string, start: nat)
    requires start < |content| && content[start] != '\n'
    ensures StageLine(content, start) == |StrLines(content[..start + 1])|
  {
    var p := content[..start + 1];
    assert p == content[..start] + [content[start]];
    CountCharAppend(content[..start], [content[start]], '\n');
    SplitCount(p, '\n');
    SplitLastEmpty(p, '\n');
  }

  /** Away from the start of a line the reported line number is the stage's line. */
  lemma TimeoutLineInside(content: string, start: nat)
    requires 0 < start <= |content| && content[start - 1] != '\n'
    ensures TimeoutLineAsWritten(content, start) == StageLine(content, start)
  {
    var p := content[..start];
    SplitCount(p, '\n');
    SplitLastEmpty(p, '\n');
  }

  /**
   * A stage header at the very start of a line is reported one line too
   * early: the lines before it do not include its own line.
   */
  lemma TimeoutLineAtLineStart(content: string, start: nat)
    requires start <= |content| && (start == 0 || content[start - 1] == '\n')
    ensures TimeoutLineAsWritten(content, start) == StageLine(content, start) - 1
  {
    var p := content[..start];
    SplitCount(p, '\n');
    SplitLastEmpty(p, '\n');
  }

  /** A stage header opening the file is reported at line 0. */
  lemma TimeoutLineZero(content: string)
    ensures TimeoutLineAsWritten(content, 0) == 0 && StageLine(content, 0) == 1
  {
    TimeoutLineAtLineStart(content, 0);
  }

  // ------------------------------------------------------- the report

  /** The text report: two lines per message, the headline with code, text, line and severity, then the suggestion. */
  lemma ReportLayout(msgs: seq<LintMessage>)
    ensures |Flatten(msgs, MessageLines)| == 2 * |msgs|
    ensures forall i :: 0 <= i < |msgs| ==>
      var m := msgs[i];
      Flatten(msgs, MessageLines)[2 * i]
        == m.code + ": " + m.message + " (line " + NatToString(m.line) + ") [" + SeverityText(m.severity) + "]"
      && Flatten(msgs, MessageLines)[2 * i + 1] == "  " + (if m.suggestion.Some? then m.suggestion.value else "")
  {
    FlattenPairs(msgs, MessageLines);
  }
}
