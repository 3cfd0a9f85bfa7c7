// What `rustline doc` produces: the tag list round-trips through the
// Markdown tag line, the Markdown page's title, metadata and stage sections
// have the shape the renderer promises, and the HTML page has one line per
// Markdown line.

module RustlineDocProps {
  import opened Wrappers
  import opened Strings
  import opened TextLines
  import opened RustlineDoc

  // --------------------------------------------------------------- tags

  /** A tag as `trim` leaves it: no white space at either end. */
  predicate Trimmed(t: string) {
    |t| > 0 ==> !IsWhitespace(t[0]) && !IsWhitespace(t[|t| - 1])
  }

  /** Every parsed tag is trimmed and free of commas. */
  lemma TagsTrimmed(s: string)
    ensures forall i :: 0 <= i < |ParseTags(s)| ==> Trimmed(ParseTags(s)[i]) && ',' !in ParseTags(s)[i]
  {
    forall i | 0 <= i < |ParseTags(s)|
      ensures Trimmed(ParseTags(s)[i])
    {
      var u := TrimStart(Split(s, ',')[i]);
      var r := TrimEnd(u);
      assert ParseTags(s)[i] == r;
      if |r| > 0 {
        assert r[0] == u[0];
      }
    }
  }

  lemma TrimOfTrimmed(t: string)
    requires Trimmed(t)
    ensures Trim(t) == t
  {
    assert TrimStart(t) == t;
  }

  lemma TrimSpaced(t: string)
    requires Trimmed(t)
    ensures Trim(" " + t) == t
  {
    assert (" " + t)[1..] == t;
    assert TrimStart(" " + t) == TrimStart(t) == t;
  }

  /** The tags after the first, each with the space of the ", " separator in front. */
  function Spaced(tags: seq<string>): (r: seq<string>)
    ensures |r| == |tags|
  {
    seq(|tags|, i requires 0 <= i < |tags| => if i == 0 then tags[0] else " " + tags[i])
  }

  /** Joining with ", " is joining with "," after putting a space before each tag but the first. */
  lemma {:induction false} JoinSpaced(tags: seq<string>)
    requires |tags| >= 1
    ensures Join(tags, ", ") == Join(Spaced(tags), ",")
    decreases |tags|
  {
    if |tags| > 1 {
      var rest := tags[1..];
      JoinSpaced(rest);
      JoinShift(rest);
      var sp := Spaced(tags);
      assert sp[1..] == seq(|rest|, i requires 0 <= i < |rest| => " " + rest[i]);
    }
  }

  /** Joining tags each preceded by a space, with ",", is a space and the tags joined with ", ". */
  lemma {:induction false} JoinShift(ts: seq<string>)
    requires |ts| >= 1
    ensures Join(seq(|ts|, i requires 0 <= i < |ts| => " " + ts[i]), ",") == " " + Join(ts, ", ")
    ensures Join(ts, ", ") == ts[0] + (if |ts| > 1 then ", " + Join(ts[1..], ", ") else "")
    decreases |ts|
  {
    var sp := seq(|ts|, i requires 0 <= i < |ts| => " " + ts[i]);
    if |ts| > 1 {
      var rest := ts[1..];
      JoinShift(rest);
      assert sp[1..] == seq(|rest|, i requires 0 <= i < |rest| => " " + rest[i]);
      assert Join(sp, ",") == sp[0] + "," + Join(sp[1..], ",");
    }
  }

  /**
   * Splitting the Markdown tag list back, `Join(tags, ", ")`, gives the
   * tags again when they are trimmed and free of commas.
   */
  lemma TagsRoundTrip(tags: seq<string>)
    requires |tags| >= 1
    requires forall i :: 0 <= i < |tags| ==> Trimmed(tags[i]) && ',' !in tags[i]
    ensures ParseTags(Join(tags, ", ")) == tags
  {
    var sp := Spaced(tags);
    SplitOfJoinedTags(tags);
    var r := ParseTags(Join(tags, ", "));
    forall i | 0 <= i < |tags|
      ensures r[i] == tags[i]
    {
      assert r[i] == Trim(sp[i]);
      if i == 0 {
        TrimOfTrimmed(tags[0]);
      } else {
        TrimSpaced(tags[i]);
      }
    }
  }

  /** Splitting the ", "-joined tags at commas gives the spaced tags. */
  lemma SplitOfJoinedTags(tags: seq<string>)
    requires |tags| >= 1
    requires forall i :: 0 <= i < |tags| ==> ',' !in tags[i]
    ensures Split(Join(tags, ", "), ',') == Spaced(tags)
  {
    var sp := Spaced(tags);
    JoinSpaced(tags);
    assert forall i :: 0 <= i < |sp| ==> ',' !in sp[i];
    JoinSplit(sp, ',');
    assert [','] == ",";
  }

  // ----------------------------------------------------------- Markdown

  /** The page opens with the title heading, or the default one, and a blank line. */
  lemma MarkdownTitle(doc: PipelineDoc)
    ensures |MarkdownLines(doc)| >= 2
    ensures MarkdownLines(doc)[0] == "# " + (if doc.title.Some? then doc.title.value else DefaultTitle)
    ensures MarkdownLines(doc)[1] == ""
    ensures StartsWith(Text(MarkdownLines(doc)), "# " + (if doc.title.Some? then doc.title.value else DefaultTitle))
  {
    var md := MarkdownLines(doc);
    var head := "# " + (if doc.title.Some? then doc.title.value else DefaultTitle);
    assert md == [head] + md[1..];
    TextAppend([head], md[1..]);
    TextOne(head);
  }

  /** The section after the title and description is "## Metadata" exactly when there is an author or a tag. */
  lemma MetadataIff(doc: PipelineDoc)
    ensures var k := |TitleLines(doc.title) + DescriptionLines(doc.description)|;
      (k < |MarkdownLines(doc)| && MarkdownLines(doc)[k] == "## Metadata") <==> doc.author.Some? || doc.tags != []
  {
    var head := TitleLines(doc.title) + DescriptionLines(doc.description);
    var m := MetadataLines(doc.author, doc.tags);
    var rest := StagesLines(doc.stages) + EnvironmentLines(doc.environment);
    assert MarkdownLines(doc) == head + m + rest;
    if m == [] && rest != [] {
      assert (head + m + rest)[|head|] == rest[0];
      assert rest[0] == "## Stages" || rest[0] == "## Environment Variables";
    }
  }

  /** A stage gives its heading, a blank line and, only when it has steps, the step list. */
  lemma StageShape(stage: StageDoc)
    ensures StageDocLines(stage)[0] == "### " + stage.name && StageDocLines(stage)[1] == ""
    ensures stage.steps == [] <==> |StageDocLines(stage)| == 2
    ensures stage.steps != [] ==>
      |StageDocLines(stage)| == 5 + |stage.steps|
      && StageDocLines(stage)[2] == "#### Steps" && StageDocLines(stage)[3] == ""
      && (forall j :: 0 <= j < |stage.steps| ==> StageDocLines(stage)[4 + j] == StepLine(stage.steps[j]))
      && StageDocLines(stage)[4 + |stage.steps|] == ""
  {
    if stage.steps != [] {
      FlattenSingles(stage.steps, StepLines);
    }
  }

  /** A heading of the form "### name". */
  predicate StageHeading(l: string) {
    StartsWith(l, "### ")
  }

  lemma StepLineStart(step: StepDoc)
    ensures |StepLine(step)| >= 3 && StepLine(step)[..3] == "- `"
  {
  }

  /** No line of a stage after its heading looks like a stage heading. */
  lemma StageBodyNoHeading(stage: StageDoc)
    ensures forall j :: 1 <= j < |StageDocLines(stage)| ==> !StageHeading(StageDocLines(stage)[j])
  {
    var ls := StageDocLines(stage);
    if stage.steps != [] {
      StageShape(stage);
      forall j | 1 <= j < |ls|
        ensures !StageHeading(ls[j])
      {
        if 4 <= j < 4 + |stage.steps| {
          assert ls[j] == StepLine(stage.steps[j - 4]);
          StepLineStart(stage.steps[j - 4]);
          assert ls[j][0] == '-';
        } else if j == 2 {
          assert ls[j] == "#### Steps";
          assert ls[j][..4][3] == '#';
        } else {
          assert ls[j] == "";
        }
      }
    }
  }

  /** In the stages section each stage's "### name" heading starts its lines, in order. */
  lemma StageHeadingsAt(stages: seq<StageDoc>)
    requires stages != []
    ensures forall i :: 0 <= i < |stages| ==>
      2 + StartOf(stages, StageDocLines, i) < |StagesLines(stages)|
      && StagesLines(stages)[2 + StartOf(stages, StageDocLines, i)] == "### " + stages[i].name
  {
    forall i | 0 <= i < |stages|
      ensures 2 + StartOf(stages, StageDocLines, i) < |StagesLines(stages)|
      ensures StagesLines(stages)[2 + StartOf(stages, StageDocLines, i)] == "### " + stages[i].name
    {
      StageHeadingAt(stages, i);
    }
  }

  lemma StageHeadingAt(stages: seq<StageDoc>, i: nat)
    requires i < |stages|
    ensures 2 + StartOf(stages, StageDocLines, i) < |StagesLines(stages)|
    ensures StagesLines(stages)[2 + StartOf(stages, StageDocLines, i)] == "### " + stages[i].name
  {
    var body := Flatten(stages, StageDocLines);
    var k := StartOf(stages, StageDocLines, i);
    StageShape(stages[i]);
    FlattenStart(stages, StageDocLines, i);
    assert StagesLines(stages) == ["## Stages", ""] + body;
    assert (["## Stages", ""] + body)[2 + k] == body[k];
  }

  /** Every line of the stages section that looks like a stage heading is the heading of a stage. */
  lemma StageHeadingsOnly(stages: seq<StageDoc>)
    requires stages != []
    ensures forall k :: 0 <= k < |StagesLines(stages)| && StageHeading(StagesLines(stages)[k]) ==>
      exists i :: 0 <= i < |stages| && k == 2 + StartOf(stages, StageDocLines, i)
  {
    var body := Flatten(stages, StageDocLines);
    var sl := StagesLines(stages);
    assert sl == ["## Stages", ""] + body;
    forall x, j | x in stages && 1 <= j < |StageDocLines(x)|
      ensures !StageHeading(StageDocLines(x)[j])
    {
      StageBodyNoHeading(x);
    }
    forall k | 0 <= k < |sl| && StageHeading(sl[k])
      ensures exists i :: 0 <= i < |stages| && k == 2 + StartOf(stages, StageDocLines, i)
    {
      assert k >= 2 by {
        assert sl[0] == "## Stages" && sl[0][..4][2] == ' ';
        assert sl[1] == "";
      }
      assert sl[k] == body[k - 2];
      FlattenHeads(stages, StageDocLines, StageHeading, k - 2);
    }
  }

  // --------------------------------------------------------------- HTML

  /** A string without line feeds or carriage returns. */
  predicate NoBreak(s: string) {
    forall i :: 0 <= i < |s| ==> s[i] != '\n' && s[i] != '\r'
  }

  /** Lines none of which holds a line break. */
  predicate LinesNoBreak(ls: seq<string>) {
    forall i :: 0 <= i < |ls| ==> NoBreak(ls[i])
  }

  lemma LinesNoBreakAppend(a: seq<string>, b: seq<string>)
    requires LinesNoBreak(a) && LinesNoBreak(b)
    ensures LinesNoBreak(a + b)
  {
    assert forall i :: |a| <= i < |a + b| ==> (a + b)[i] == b[i - |a|];
  }

  lemma {:induction false} NoBreakJoin(parts: seq<string>, sep: string)
    requires NoBreak(sep) && forall i :: 0 <= i < |parts| ==> NoBreak(parts[i])
    ensures NoBreak(Join(parts, sep))
    decreases |parts|
  {
    if |parts| > 1 {
      NoBreakJoin(parts[1..], sep);
      var s := Join(parts[1..], sep);
      assert Join(parts, sep) == parts[0] + sep + s;
      assert NoBreak(parts[0]);
    }
  }

  /** The texts of a step are free of line breaks. */
  predicate StepNoBreaks(st: StepDoc) {
    NoBreak(st.stepType) && (st.description.Some? ==> NoBreak(st.description.value))
  }

  /** The texts of a stage are free of line breaks. */
  predicate StageNoBreaks(s: StageDoc) {
    NoBreak(s.name) && forall st :: st in s.steps ==> StepNoBreaks(st)
  }

  /** Every text the page is made of is free of line breaks. */
  predicate DocNoBreaks(doc: PipelineDoc) {
    (doc.title.Some? ==> NoBreak(doc.title.value))
    && (doc.description.Some? ==> NoBreak(doc.description.value))
    && (doc.author.Some? ==> NoBreak(doc.author.value))
    && (forall i :: 0 <= i < |doc.tags| ==> NoBreak(doc.tags[i]))
    && (forall s :: s in doc.stages ==> StageNoBreaks(s))
    && (forall i :: 0 <= i < |doc.environment| ==> NoBreak(doc.environment[i]))
  }

  lemma StepLineNoBreak(st: StepDoc)
    requires StepNoBreaks(st)
    ensures LinesNoBreak(StepLines(st))
  {
    var d := if st.description.Some? then ": " + st.description.value else "";
    assert NoBreak(d);
    assert StepLine(st) == "- `" + st.stepType + "`" + d;
  }

  lemma StageLinesNoBreak(s: StageDoc)
    requires StageNoBreaks(s)
    ensures LinesNoBreak(StageDocLines(s))
  {
    assert LinesNoBreak(["### " + s.name, ""]);
    if s.steps != [] {
      forall st | st in s.steps
        ensures LinesNoBreak(StepLines(st))
      {
        StepLineNoBreak(st);
      }
      FlattenAll(s.steps, StepLines, NoBreak);
      var f := Flatten(s.steps, StepLines);
      assert LinesNoBreak(["#### Steps", ""]);
      LinesNoBreakAppend(["#### Steps", ""], f);
      LinesNoBreakAppend(["#### Steps", ""] + f, [""]);
      LinesNoBreakAppend(["### " + s.name, ""], StepListLines(s.steps));
    }
  }

  lemma MetadataLinesNoBreak(author: Option<string>, tags: seq<string>)
    requires author.Some? ==> NoBreak(author.value)
    requires forall i :: 0 <= i < |tags| ==> NoBreak(tags[i])
    ensures LinesNoBreak(MetadataLines(author, tags))
  {
    if tags != [] {
      NoBreakJoin(tags, ", ");
    }
    assert LinesNoBreak(AuthorLines(author));
    assert LinesNoBreak(TagLines(tags));
    LinesNoBreakAppend(["## Metadata", ""], AuthorLines(author));
    LinesNoBreakAppend(["## Metadata", ""] + AuthorLines(author), TagLines(tags));
    LinesNoBreakAppend(["## Metadata", ""] + AuthorLines(author) + TagLines(tags), [""]);
  }

  lemma HeadLinesNoBreak(doc: PipelineDoc)
    requires DocNoBreaks(doc)
    ensures LinesNoBreak(TitleLines(doc.title) + DescriptionLines(doc.description) + MetadataLines(doc.author, doc.tags))
  {
    assert NoBreak(DefaultTitle);
    assert LinesNoBreak(TitleLines(doc.title));
    assert LinesNoBreak(DescriptionLines(doc.description));
    MetadataLinesNoBreak(doc.author, doc.tags);
    LinesNoBreakAppend(TitleLines(doc.title), DescriptionLines(doc.description));
    LinesNoBreakAppend(TitleLines(doc.title) + DescriptionLines(doc.description), MetadataLines(doc.author, doc.tags));
  }

  lemma StagesLinesNoBreak(stages: seq<StageDoc>)
    requires forall s :: s in stages ==> StageNoBreaks(s)
    ensures LinesNoBreak(StagesLines(stages))
  {
    if stages != [] {
      forall s, j | s in stages && 0 <= j < |StageDocLines(s)|
        ensures NoBreak(StageDocLines(s)[j])
      {
        StageLinesNoBreak(s);
      }
      FlattenAll(stages, StageDocLines, NoBreak);
      LinesNoBreakAppend(["## Stages", ""], Flatten(stages, StageDocLines));
    }
  }

  lemma EnvironmentLinesNoBreak(env: seq<string>)
    requires forall i :: 0 <= i < |env| ==> NoBreak(env[i])
    ensures LinesNoBreak(EnvironmentLines(env))
  {
    if env != [] {
      FlattenAll(env, EnvLines, NoBreak);
      LinesNoBreakAppend(["## Environment Variables", ""], Flatten(env, EnvLines));
      LinesNoBreakAppend(["## Environment Variables", ""] + Flatten(env, EnvLines), [""]);
    }
  }

  lemma TailLinesNoBreak(doc: PipelineDoc)
    requires DocNoBreaks(doc)
    ensures LinesNoBreak(StagesLines(doc.stages) + EnvironmentLines(doc.environment))
  {
    StagesLinesNoBreak(doc.stages);
    EnvironmentLinesNoBreak(doc.environment);
    LinesNoBreakAppend(StagesLines(doc.stages), EnvironmentLines(doc.environment));
  }

  /** With break-free texts, every Markdown line is break-free. */
  lemma MarkdownNoBreaks(doc: PipelineDoc)
    requires DocNoBreaks(doc)
    ensures LinesNoBreak(MarkdownLines(doc))
  {
    var head := TitleLines(doc.title) + DescriptionLines(doc.description) + MetadataLines(doc.author, doc.tags);
    var tail := StagesLines(doc.stages) + EnvironmentLines(doc.environment);
    HeadLinesNoBreak(doc);
    TailLinesNoBreak(doc);
    LinesNoBreakAppend(head, tail);
    assert MarkdownLines(doc) == head + tail;
  }

  /**
   * `render_html` gives one line per Markdown line: with break-free texts the
   * lines of the Markdown page are the lines pushed, and each becomes its
   * HTML line.
   */
  lemma HtmlPerMarkdownLine(doc: PipelineDoc)
    requires DocNoBreaks(doc)
    ensures |HtmlLines(Text(MarkdownLines(doc)))| == |MarkdownLines(doc)|
    ensures forall i :: 0 <= i < |MarkdownLines(doc)| ==>
      HtmlLines(Text(MarkdownLines(doc)))[i] == HtmlLine(MarkdownLines(doc)[i])
  {
    var md := MarkdownLines(doc);
    MarkdownNoBreaks(doc);
    assert forall i :: 0 <= i < |md| ==> PlainLine(md[i]);
    LinesOfText(md);
  }

  /** Headings become HTML headings of their level; blank lines become breaks. */
  lemma HtmlHeadings(t: string)
    ensures HtmlLine("# " + t) == "<h1>" + t + "</h1>"
    ensures HtmlLine("## " + t) == "<h2>" + t + "</h2>"
    ensures HtmlLine("### " + t) == "<h3>" + t + "</h3>"
    ensures HtmlLine("") == "<br/>"
  {
    assert ("# " + t)[2..] == t;
    assert ("## " + t)[3..] == t;
    assert ("### " + t)[4..] == t;
    assert !StartsWith("## " + t, "# ") by {
      assert ("## " + t)[1] == '#';
    }
    assert !StartsWith("### " + t, "# ") && !StartsWith("### " + t, "## ") by {
      assert ("### " + t)[1] == '#' && ("### " + t)[2] == '#';
    }
  }

  /** The HTML page opens with the title as an `h1` heading and a break. */
  lemma HtmlTitle(doc: PipelineDoc)
    requires DocNoBreaks(doc)
    ensures |HtmlLines(Text(MarkdownLines(doc)))| >= 2
    ensures HtmlLines(Text(MarkdownLines(doc)))[0]
      == "<h1>" + (if doc.title.Some? then doc.title.value else DefaultTitle) + "</h1>"
    ensures HtmlLines(Text(MarkdownLines(doc)))[1] == "<br/>"
  {
    HtmlPerMarkdownLine(doc);
    MarkdownTitle(doc);
    HtmlHeadings(if doc.title.Some? then doc.title.value else DefaultTitle);
  }
}
