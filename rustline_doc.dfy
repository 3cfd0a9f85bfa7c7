// `rustline doc`: the documentation of a pipeline program, gathered from
// its `//! rustline:` comments and stage declarations, rendered as Markdown
// or as HTML made from the Markdown line by line.

module RustlineDoc {
  import opened Wrappers
  import opened Strings
  import opened TextLines

  datatype StepDoc = StepDoc(stepType: string, description: Option<string>)

  datatype StageDoc = StageDoc(name: string, description: Option<string>, steps: seq<StepDoc>)

  datatype ParameterDoc = ParameterDoc(name: string, description: string)

  datatype PipelineDoc = PipelineDoc(
    title: Option<string>,
    description: Option<string>,
    author: Option<string>,
    tags: seq<string>,
    stages: seq<StageDoc>,
    parameters: seq<ParameterDoc>,
    environment: seq<string>)

  datatype DocFormat = Markdown | Json | Html

  /** A `stage!("name", steps!(` match: the name and the commands of the `sh!("..")` steps after it. */
  datatype StageCapture = StageCapture(name: string, commands: seq<string>)

  /**
   * What the extractors' regular expressions find: the title, description,
   * author and tag list comments, the stages, the `rustline:param` comments
   * and the `environment!("..")` names, each in the order they appear.
   */
  datatype DocCaptures = DocCaptures(
    title: Option<string>,
    description: Option<string>,
    author: Option<string>,
    tags: Option<string>,
    stages: seq<StageCapture>,
    parameters: seq<ParameterDoc>,
    environment: seq<string>)

  // ------------------------------------------------------------ parsing

  /** `tags.split(',').map(|s| s.trim())`. */
  function ParseTags(s: string): (r: seq<string>)
    ensures |r| == |Split(s, ',')| >= 1
    ensures forall i :: 0 <= i < |r| ==> ',' !in r[i]
  {
    var parts := Split(s, ',');
    seq(|parts|, i requires 0 <= i < |parts| => Trim(parts[i]))
  }

  /** A stage's documentation: its name and one `sh` step per command, described by the command. */
  function StageOf(c: StageCapture): StageDoc {
    StageDoc(c.name, None, seq(|c.commands|, i requires 0 <= i < |c.commands| => StepDoc("sh", Some(c.commands[i]))))
  }

  /** `extract_stages`: one stage per match, in order. */
  method ExtractStages(caps: seq<StageCapture>) returns (stages: seq<StageDoc>)
    ensures |stages| == |caps|
    ensures forall i :: 0 <= i < |caps| ==> stages[i] == StageOf(caps[i])
  {
    stages := [];
    var i := 0;
    while i < |caps|
      invariant 0 <= i <= |caps|
      invariant |stages| == i
      invariant forall k :: 0 <= k < i ==> stages[k] == StageOf(caps[k])
    {
      var steps: seq<StepDoc> := [];
      var j := 0;
      while j < |caps[i].commands|
        invariant 0 <= j <= |caps[i].commands|
        invariant |steps| == j
        invariant forall k :: 0 <= k < j ==> steps[k] == StepDoc("sh", Some(caps[i].commands[k]))
      {
        steps := steps + [StepDoc("sh", Some(caps[i].commands[j]))];
        j := j + 1;
      }
      stages := stages + [StageDoc(caps[i].name, None, steps)];
      i := i + 1;
    }
  }

  /** The documentation of the captured values. */
  function DocOf(caps: DocCaptures): PipelineDoc {
    PipelineDoc(caps.title, caps.description, caps.author,
      if caps.tags.Some? then ParseTags(caps.tags.value) else [],
      seq(|caps.stages|, i requires 0 <= i < |caps.stages| => StageOf(caps.stages[i])),
      caps.parameters, caps.environment)
  }

  /** `parse_pipeline_doc`: the captured values, with the tag list split. */
  method ParsePipelineDoc(caps: DocCaptures) returns (doc: PipelineDoc)
    ensures doc.title == caps.title && doc.description == caps.description && doc.author == caps.author
    ensures doc.tags == if caps.tags.Some? then ParseTags(caps.tags.value) else []
    ensures |doc.stages| == |caps.stages| && forall i :: 0 <= i < |caps.stages| ==> doc.stages[i] == StageOf(caps.stages[i])
    ensures doc.parameters == caps.parameters && doc.environment == caps.environment
    ensures doc == DocOf(caps)
  {
    var tags: seq<string> := [];
    if caps.tags.Some? {
      tags := ParseTags(caps.tags.value);
    }
    var stages := ExtractStages(caps.stages);
    doc := PipelineDoc(caps.title, caps.description, caps.author, tags, stages, caps.parameters, caps.environment);
  }

  // ----------------------------------------------------------- Markdown

  const DefaultTitle := "Pipeline Documentation"

  function TitleLines(title: Option<string>): seq<string> {
    ["# " + (if title.Some? then title.value else DefaultTitle), ""]
  }

  function DescriptionLines(description: Option<string>): seq<string> {
    if description.Some? then [description.value, ""] else []
  }

  function AuthorLines(author: Option<string>): seq<string> {
    if author.Some? then ["- **Author**: " + author.value] else []
  }

  function TagLines(tags: seq<string>): seq<string> {
    if tags != [] then ["- **Tags**: " + Join(tags, ", ")] else []
  }

  function MetadataLines(author: Option<string>, tags: seq<string>): seq<string> {
    if author.Some? || tags != [] then ["## Metadata", ""] + AuthorLines(author) + TagLines(tags) + [""] else []
  }

  function StepLine(step: StepDoc): string {
    "- `" + step.stepType + "`" + if step.description.Some? then ": " + step.description.value else ""
  }

  function StepLines(step: StepDoc): seq<string> {
    [StepLine(step)]
  }

  function StepListLines(steps: seq<StepDoc>): seq<string> {
    if steps != [] then ["#### Steps", ""] + Flatten(steps, StepLines) + [""] else []
  }

  function StageDocLines(stage: StageDoc): seq<string> {
    ["### " + stage.name, ""] + StepListLines(stage.steps)
  }

  function StagesLines(stages: seq<StageDoc>): seq<string> {
    if stages != [] then ["## Stages", ""] + Flatten(stages, StageDocLines) else []
  }

  function EnvLines(env: string): seq<string> {
    ["- `" + env + "`"]
  }

  function EnvironmentLines(environment: seq<string>): seq<string> {
    if environment != [] then ["## Environment Variables", ""] + Flatten(environment, EnvLines) + [""] else []
  }

  /** The lines of the Markdown page, section by section. */
  function MarkdownLines(doc: PipelineDoc): seq<string> {
    TitleLines(doc.title) + DescriptionLines(doc.description) + MetadataLines(doc.author, doc.tags)
    + StagesLines(doc.stages) + EnvironmentLines(doc.environment)
  }

  /** `output.push_str("- `type`")`, then `": desc"` when there is one, then the line feed. */
  method PushStepLine(text: string, ghost lines: seq<string>, step: StepDoc) returns (r: string, ghost all: seq<string>)
    requires text == Text(lines)
    ensures all == lines + StepLines(step) && r == Text(all)
  {
    r := text + "- `" + step.stepType + "`";
    if step.description.Some? {
      r := r + ": " + step.description.value;
    }
    r := r + "\n";
    all := lines + StepLines(step);
    TextAppend(lines, StepLines(step));
    TextOne(StepLine(step));
  }

  method PushStage(text: string, ghost lines: seq<string>, stage: StageDoc) returns (r: string, ghost all: seq<string>)
    requires text == Text(lines)
    ensures all == lines + StageDocLines(stage) && r == Text(all)
  {
    r, all := PushLines(text, lines, ["### " + stage.name, ""]);
    if stage.steps != [] {
      r, all := PushLines(r, all, ["#### Steps", ""]);
      ghost var before := all;
      var j := 0;
      while j < |stage.steps|
        invariant 0 <= j <= |stage.steps|
        invariant all == before + Flatten(stage.steps[..j], StepLines) && r == Text(all)
      {
        FlattenStep(before, stage.steps, StepLines, j);
        r, all := PushStepLine(r, all, stage.steps[j]);
        j := j + 1;
      }
      assert stage.steps[..j] == stage.steps;
      r, all := PushLines(r, all, [""]);
      assert all == lines + (["### " + stage.name, ""] + (["#### Steps", ""] + Flatten(stage.steps, StepLines) + [""]));
    } else {
      assert StageDocLines(stage) == ["### " + stage.name, ""];
    }
  }

  method PushMetadata(text: string, ghost lines: seq<string>, author: Option<string>, tags: seq<string>)
    returns (r: string, ghost all: seq<string>)
    requires text == Text(lines)
    ensures all == lines + MetadataLines(author, tags) && r == Text(all)
  {
    r, all := text, lines;
    if author.Some? || tags != [] {
      r, all := PushLines(r, all, ["## Metadata", ""]);
      if author.Some? {
        r, all := PushLines(r, all, ["- **Author**: " + author.value]);
      }
      if tags != [] {
        r, all := PushLines(r, all, ["- **Tags**: " + Join(tags, ", ")]);
      }
      r, all := PushLines(r, all, [""]);
      assert all == lines + (["## Metadata", ""] + AuthorLines(author) + TagLines(tags) + [""]);
    }
  }

  method PushStages(text: string, ghost lines: seq<string>, stages: seq<StageDoc>) returns (r: string, ghost all: seq<string>)
    requires text == Text(lines)
    ensures all == lines + StagesLines(stages) && r == Text(all)
  {
    r, all := text, lines;
    if stages != [] {
      r, all := PushLines(r, all, ["## Stages", ""]);
      ghost var before := all;
      var i := 0;
      while i < |stages|
        invariant 0 <= i <= |stages|
        invariant all == before + Flatten(stages[..i], StageDocLines) && r == Text(all)
      {
        FlattenStep(before, stages, StageDocLines, i);
        r, all := PushStage(r, all, stages[i]);
        i := i + 1;
      }
      assert stages[..i] == stages;
      Regroup3(lines, ["## Stages", ""], Flatten(stages, StageDocLines));
    }
  }

  method PushEnvironment(text: string, ghost lines: seq<string>, environment: seq<string>)
    returns (r: string, ghost all: seq<string>)
    requires text == Text(lines)
    ensures all == lines + EnvironmentLines(environment) && r == Text(all)
  {
    r, all := text, lines;
    if environment != [] {
      r, all := PushLines(r, all, ["## Environment Variables", ""]);
      ghost var before := all;
      var i := 0;
      while i < |environment|
        invariant 0 <= i <= |environment|
        invariant all == before + Flatten(environment[..i], EnvLines) && r == Text(all)
      {
        FlattenStep(before, environment, EnvLines, i);
        r, all := PushLines(r, all, ["- `" + environment[i] + "`"]);
        i := i + 1;
      }
      assert environment[..i] == environment;
      r, all := PushLines(r, all, [""]);
      Regroup4(lines, ["## Environment Variables", ""], Flatten(environment, EnvLines), [""]);
    }
  }

  /** `render_markdown`. */
  method RenderMarkdown(doc: PipelineDoc) returns (output: string)
    ensures output == Text(MarkdownLines(doc))
  {
    ghost var lines: seq<string> := [];
    if doc.title.Some? {
      output, lines := PushLines("", lines, ["# " + doc.title.value, ""]);
    } else {
      output, lines := PushLines("", lines, ["# " + DefaultTitle, ""]);
    }
    if doc.description.Some? {
      output, lines := PushLines(output, lines, [doc.description.value, ""]);
    }
    assert lines == TitleLines(doc.title) + DescriptionLines(doc.description);
    output, lines := PushMetadata(output, lines, doc.author, doc.tags);
    output, lines := PushStages(output, lines, doc.stages);
    output, lines := PushEnvironment(output, lines, doc.environment);
  }

  // --------------------------------------------------------------- HTML

  /** The HTML line for one Markdown line: headings by their marks, blank lines as breaks, the rest as paragraphs. */
  function HtmlLine(line: string): string {
    if StartsWith(line, "# ") then "<h1>" + line[2..] + "</h1>"
    else if StartsWith(line, "## ") then "<h2>" + line[3..] + "</h2>"
    else if StartsWith(line, "### ") then "<h3>" + line[4..] + "</h3>"
    else if Trim(line) == "" then "<br/>"
    else "<p>" + line + "</p>"
  }

  /** The HTML lines of a Markdown text: one per line of it. */
  function HtmlLines(markdown: string): (r: seq<string>)
    ensures |r| == |StrLines(markdown)|
  {
    var ls := StrLines(markdown);
    seq(|ls|, i requires 0 <= i < |ls| => HtmlLine(ls[i]))
  }

  /** `render_html`: the Markdown page, converted line by line. */
  method RenderHtml(doc: PipelineDoc) returns (html: string)
    ensures html == Text(HtmlLines(Text(MarkdownLines(doc))))
  {
    var markdown := RenderMarkdown(doc);
    var ls := StrLines(markdown);
    html := "";
    ghost var lines: seq<string> := [];
    var i := 0;
    while i < |ls|
      invariant 0 <= i <= |ls|
      invariant lines == HtmlLines(markdown)[..i] && html == Text(lines)
    {
      var out := HtmlLine(ls[i]);
      html, lines := PushLines(html, lines, [out]);
      HtmlLinesStep(markdown, i);
      i := i + 1;
    }
    assert HtmlLines(markdown)[..i] == HtmlLines(markdown);
  }

  /** The first `i + 1` HTML lines are the first `i` and the conversion of line `i`. */
  lemma HtmlLinesStep(markdown: string, i: nat)
    requires i < |StrLines(markdown)|
    ensures HtmlLines(markdown)[..i + 1] == HtmlLines(markdown)[..i] + [HtmlLine(StrLines(markdown)[i])]
  {
    var h := HtmlLines(markdown);
    assert h[..i + 1] == h[..i] + [h[i]];
  }

  /** `generate_doc` for the two text formats; JSON output is serde's. */
  method GenerateDoc(caps: DocCaptures, format: DocFormat) returns (r: Option<string>)
    ensures format == Markdown ==> r == Some(Text(MarkdownLines(DocOf(caps))))
    ensures format == Html ==> r == Some(Text(HtmlLines(Text(MarkdownLines(DocOf(caps))))))
    ensures format == Json ==> r == None
  {
    var doc := ParsePipelineDoc(caps);
    match format {
      case Markdown =>
        var md := RenderMarkdown(doc);
        r := Some(md);
      case Html =>
        var h := RenderHtml(doc);
        r := Some(h);
      case Json =>
        r := None;
    }
  }
}
