/**
 * Texts made of whole lines: the renderers of this model push complete
 * lines, each ended by a line feed, onto an accumulating string. A text is
 * described by its list of lines, and `Text` gives the string.
 */
module TextLines {
  import opened Strings

  /** The string of a list of lines, each followed by "\n". */
  function Text(lines: seq<string>): (r: string)
    ensures |r| >= |lines|
  {
    if lines == [] then "" else Text(lines[..|lines| - 1]) + lines[|lines| - 1] + "\n"
  }

  /** Appending lines appends their text. */
  lemma {:induction false} TextAppend(a: seq<string>, b: seq<string>)
    ensures Text(a + b) == Text(a) + Text(b)
    decreases |b|
  {
    if b == [] {
      assert a + b == a;
    } else {
      var init := b[..|b| - 1];
      assert (a + b)[..|a + b| - 1] == a + init;
      assert (a + b)[|a + b| - 1] == b[|b| - 1];
      TextAppend(a, init);
    }
  }

  /** The text of one line. */
  lemma TextOne(line: string)
    ensures Text([line]) == line + "\n"
  {
    assert [line][..0] == [];
  }

  /** A text is its lines joined by line feeds, with a final line feed. */
  lemma {:induction false} TextJoin(lines: seq<string>)
    ensures Text(lines) == Join(lines + [""], "\n")
    decreases |lines|
  {
    if lines == [] {
    } else if |lines| == 1 {
      TextOne(lines[0]);
      assert lines + [""] == [lines[0], ""];
      assert [lines[0], ""][1..] == [""];
    } else {
      var rest := lines[1..];
      assert lines == [lines[0]] + rest;
      TextAppend([lines[0]], rest);
      TextOne(lines[0]);
      TextJoin(rest);
      assert (lines + [""])[1..] == rest + [""];
    }
  }

  /**
   * Splitting a text at its line feeds gives its lines back, followed by
   * the empty piece after the last line feed, when no line holds a line feed.
   */
  lemma TextSplit(lines: seq<string>)
    requires forall i :: 0 <= i < |lines| ==> '\n' !in lines[i]
    ensures Split(Text(lines), '\n') == lines + [""]
  {
    var pieces := lines + [""];
    forall i | 0 <= i < |pieces|
      ensures '\n' !in pieces[i]
    {
      if i < |lines| {
        assert pieces[i] == lines[i];
      }
    }
    TextJoin(lines);
    JoinSplit(pieces, '\n');
  }

  /** The lines of `b` start at line `|a|` of `a + b + c`, and their text right after the text of `a`. */
  lemma TextAt(a: seq<string>, b: seq<string>, c: seq<string>)
    ensures (a + b + c)[|a|..|a| + |b|] == b
    ensures OccursAt(Text(a + b + c), Text(b), |Text(a)|)
  {
    TextAppend(a + b, c);
    TextAppend(a, b);
    var t := Text(a) + Text(b) + Text(c);
    assert t[|Text(a)|..|Text(a)| + |Text(b)|] == Text(b);
  }

  /**
   * `text.push_str(..)` of whole lines. The lines of the text so far are
   * carried alongside as a ghost value, so that a renderer's result can be
   * stated as the text of its list of lines.
   */
  method PushLines(text: string, ghost lines: seq<string>, more: seq<string>) returns (r: string, ghost all: seq<string>)
    requires text == Text(lines)
    ensures all == lines + more && r == Text(all)
  {
    r := text + Text(more);
    all := lines + more;
    TextAppend(lines, more);
  }

  /** Lines pushed in three runs are the first run followed by the other two. */
  lemma Regroup3(a: seq<string>, b: seq<string>, c: seq<string>)
    ensures a + b + c == a + (b + c)
  {
  }

  /** Lines pushed in four runs are the first run followed by the other three. */
  lemma Regroup4(a: seq<string>, b: seq<string>, c: seq<string>, d: seq<string>)
    ensures a + b + c + d == a + (b + c + d)
  {
  }

  /** Lines pushed in five runs are the first run followed by the other four. */
  lemma Regroup(a: seq<string>, b: seq<string>, c: seq<string>, d: seq<string>, e: seq<string>)
    ensures a + b + c + d + e == a + (b + c + d + e)
  {
  }

  /** Lines pushed in six runs are the first run followed by the other five. */
  lemma Regroup5(a: seq<string>, b: seq<string>, c: seq<string>, d: seq<string>, e: seq<string>, f: seq<string>)
    ensures a + b + c + d + e + f == a + (b + c + d + e + f)
  {
  }

  /** The lines of each item of a list, one item after the other. */
  function Flatten<T>(xs: seq<T>, f: T -> seq<string>): seq<string> {
    if xs == [] then [] else Flatten(xs[..|xs| - 1], f) + f(xs[|xs| - 1])
  }

  /** Flattening a list followed by more items is flattening each part. */
  lemma {:induction false} FlattenAppend<T>(a: seq<T>, b: seq<T>, f: T -> seq<string>)
    ensures Flatten(a + b, f) == Flatten(a, f) + Flatten(b, f)
    decreases |b|
  {
    if b == [] {
      assert a + b == a;
    } else {
      var init := b[..|b| - 1];
      assert (a + b)[..|a + b| - 1] == a + init;
      assert (a + b)[|a + b| - 1] == b[|b| - 1];
      FlattenAppend(a, init, f);
    }
  }

  /** The lines of item `i` follow the lines of the items before it. */
  lemma FlattenAt<T>(xs: seq<T>, f: T -> seq<string>, i: nat)
    requires i < |xs|
    ensures Flatten(xs, f) == Flatten(xs[..i], f) + f(xs[i]) + Flatten(xs[i + 1..], f)
  {
    assert xs == xs[..i + 1] + xs[i + 1..];
    FlattenAppend(xs[..i + 1], xs[i + 1..], f);
    FlattenSnoc(xs, f, i);
  }

  /** Extending the list by one item extends the lines by that item's lines. */
  lemma FlattenSnoc<T>(xs: seq<T>, f: T -> seq<string>, i: nat)
    requires i < |xs|
    ensures Flatten(xs[..i + 1], f) == Flatten(xs[..i], f) + f(xs[i])
  {
    assert xs[..i + 1][..i] == xs[..i];
  }

  /** One more item after a prefix of lines. */
  lemma FlattenStep<T>(before: seq<string>, xs: seq<T>, f: T -> seq<string>, i: nat)
    requires i < |xs|
    ensures before + Flatten(xs[..i + 1], f) == before + Flatten(xs[..i], f) + f(xs[i])
  {
    FlattenSnoc(xs, f, i);
  }

  /** Every line of the flattening satisfies what every item's lines satisfy. */
  lemma {:induction false} FlattenAll<T>(xs: seq<T>, f: T -> seq<string>, p: string -> bool)
    requires forall x, k :: x in xs && 0 <= k < |f(x)| ==> p(f(x)[k])
    ensures forall k :: 0 <= k < |Flatten(xs, f)| ==> p(Flatten(xs, f)[k])
    decreases |xs|
  {
    if xs != [] {
      FlattenAll(xs[..|xs| - 1], f, p);
    }
  }

  /** Flattening with two functions that agree on every item gives the same lines. */
  lemma {:induction false} FlattenSame<T>(xs: seq<T>, f: T -> seq<string>, g: T -> seq<string>)
    requires forall x :: x in xs ==> f(x) == g(x)
    ensures Flatten(xs, f) == Flatten(xs, g)
    decreases |xs|
  {
    if xs != [] {
      FlattenSame(xs[..|xs| - 1], f, g);
    }
  }

  /** Where the lines of item `i` begin in the flattening. */
  function StartOf<T>(xs: seq<T>, f: T -> seq<string>, i: nat): nat
    requires i <= |xs|
  {
    |Flatten(xs[..i], f)|
  }

  /** The lines of item `i` begin at `StartOf(xs, f, i)`. */
  lemma FlattenStart<T>(xs: seq<T>, f: T -> seq<string>, i: nat)
    requires i < |xs| && |f(xs[i])| >= 1
    ensures StartOf(xs, f, i) < |Flatten(xs, f)| && Flatten(xs, f)[StartOf(xs, f, i)] == f(xs[i])[0]
  {
    FlattenAt(xs, f, i);
  }

  /**
   * When no item's lines hold a head line after their first line, every
   * head line of the flattening is where some item's lines begin.
   */
  lemma {:induction false} FlattenHeads<T>(xs: seq<T>, f: T -> seq<string>, isHead: string -> bool, k: nat)
    requires forall x, j :: x in xs && 1 <= j < |f(x)| ==> !isHead(f(x)[j])
    requires k < |Flatten(xs, f)| && isHead(Flatten(xs, f)[k])
    ensures exists i :: 0 <= i < |xs| && k == StartOf(xs, f, i)
    decreases |xs|
  {
    var n := |xs|;
    var init := xs[..n - 1];
    assert Flatten(xs, f) == Flatten(init, f) + f(xs[n - 1]);
    if k < |Flatten(init, f)| {
      assert Flatten(xs, f)[k] == Flatten(init, f)[k];
      FlattenHeads(init, f, isHead, k);
      var i :| 0 <= i < |init| && k == StartOf(init, f, i);
      assert xs[..i] == init[..i];
      assert k == StartOf(xs, f, i);
    } else {
      var j := k - |Flatten(init, f)|;
      assert Flatten(xs, f)[k] == f(xs[n - 1])[j];
      assert xs[n - 1] in xs;
      assert j == 0;
      assert k == StartOf(xs, f, n - 1);
    }
  }

  /** `for x in xs { text.push_str(..) }`, pushing the lines of each item in turn. */
  method PushEach<T>(text: string, ghost lines: seq<string>, xs: seq<T>, f: T -> seq<string>)
    returns (r: string, ghost all: seq<string>)
    requires text == Text(lines)
    ensures all == lines + Flatten(xs, f) && r == Text(all)
  {
    r, all := text, lines;
    var i := 0;
    while i < |xs|
      invariant 0 <= i <= |xs|
      invariant all == lines + Flatten(xs[..i], f) && r == Text(all)
    {
      FlattenSnoc(xs, f, i);
      r, all := PushLines(r, all, f(xs[i]));
      i := i + 1;
    }
    assert xs[..i] == xs;
  }

  lemma SliceMiddle(a: seq<string>, b: seq<string>, c: seq<string>)
    ensures (a + b + c)[|a|..|a| + |b|] == b
  {
  }

  /** Items rendered by `f`, each but the last followed by a blank line (`g`). */
  function Separated<T>(xs: seq<T>, f: T -> seq<string>, g: T -> seq<string>): seq<string> {
    if xs == [] then [] else Flatten(xs[..|xs| - 1], g) + f(xs[|xs| - 1])
  }

  /** The layout of `Separated`: item `i` at its start, one blank line before the next, the last item at the end. */
  lemma SeparatedLayout<T>(xs: seq<T>, f: T -> seq<string>, g: T -> seq<string>, i: nat)
    requires forall x :: g(x) == f(x) + [""]
    requires i < |xs|
    ensures StartOf(xs[..|xs| - 1], g, i) + |f(xs[i])| <= |Separated(xs, f, g)|
    ensures Separated(xs, f, g)[StartOf(xs[..|xs| - 1], g, i)..StartOf(xs[..|xs| - 1], g, i) + |f(xs[i])|] == f(xs[i])
    ensures i + 1 < |xs| ==> (StartOf(xs[..|xs| - 1], g, i + 1) == StartOf(xs[..|xs| - 1], g, i) + |f(xs[i])| + 1
      && StartOf(xs[..|xs| - 1], g, i + 1) <= |Separated(xs, f, g)|
      && Separated(xs, f, g)[StartOf(xs[..|xs| - 1], g, i + 1) - 1] == "")
    ensures i + 1 == |xs| ==> StartOf(xs[..|xs| - 1], g, i) + |f(xs[i])| == |Separated(xs, f, g)|
  {
    var n := |xs|;
    var init := xs[..n - 1];
    var all := Separated(xs, f, g);
    if i < n - 1 {
      FlattenAt(init, g, i);
      FlattenSnoc(init, g, i);
      assert init[i] == xs[i];
      var before, after := Flatten(init[..i], g), Flatten(init[i + 1..], g) + f(xs[n - 1]);
      assert all == before + f(xs[i]) + ([""] + after);
      SliceMiddle(before, f(xs[i]), [""] + after);
    } else {
      assert init[..i] == init;
      SliceMiddle(Flatten(init, g), f(xs[i]), []);
    }
  }

  /** Each item starts with its first line, and the last line is the last item's last line. */
  lemma SeparatedEnds<T>(xs: seq<T>, f: T -> seq<string>, g: T -> seq<string>, i: nat)
    requires forall x :: g(x) == f(x) + [""]
    requires forall x :: |f(x)| >= 1
    requires i < |xs|
    ensures StartOf(xs[..|xs| - 1], g, i) < |Separated(xs, f, g)|
    ensures Separated(xs, f, g)[StartOf(xs[..|xs| - 1], g, i)] == f(xs[i])[0]
    ensures Separated(xs, f, g)[|Separated(xs, f, g)| - 1] == f(xs[|xs| - 1])[|f(xs[|xs| - 1])| - 1]
  {
    var all := Separated(xs, f, g);
    SeparatedLayout(xs, f, g, i);
    var st := StartOf(xs[..|xs| - 1], g, i);
    assert all[st] == all[st..st + |f(xs[i])|][0];
    var last := |xs| - 1;
    SeparatedLayout(xs, f, g, last);
    var ls := StartOf(xs[..|xs| - 1], g, last);
    var k := |f(xs[last])| - 1;
    assert all[ls + k] == all[ls..ls + k + 1][k];
  }


  /** When every item gives one line, the flattening is those lines in order. */
  lemma {:induction false} FlattenSingles<T>(xs: seq<T>, f: T -> seq<string>)
    requires forall x :: |f(x)| == 1
    ensures |Flatten(xs, f)| == |xs|
    ensures forall i :: 0 <= i < |xs| ==> Flatten(xs, f)[i] == f(xs[i])[0]
    decreases |xs|
  {
    if xs != [] {
      var init := xs[..|xs| - 1];
      FlattenSingles(init, f);
      assert forall i :: 0 <= i < |init| ==> init[i] == xs[i];
    }
  }

  /** When every item gives two lines, item `i` gives lines `2 * i` and `2 * i + 1`. */
  lemma {:induction false} FlattenPairs<T>(xs: seq<T>, f: T -> seq<string>)
    requires forall x :: |f(x)| == 2
    ensures |Flatten(xs, f)| == 2 * |xs|
    ensures forall i :: 0 <= i < |xs| ==>
      Flatten(xs, f)[2 * i] == f(xs[i])[0] && Flatten(xs, f)[2 * i + 1] == f(xs[i])[1]
    decreases |xs|
  {
    if xs != [] {
      var init := xs[..|xs| - 1];
      FlattenPairs(init, f);
      assert forall i :: 0 <= i < |init| ==> init[i] == xs[i];
    }
  }

  /** The lines of a one-item list are that item's lines. */
  lemma FlattenOne<T>(x: T, f: T -> seq<string>)
    ensures Flatten([x], f) == f(x)
  {
    assert [x][..0] == [];
  }

  /** A line without the carriage return of a "\r\n" ending. */
  function StripCr(p: string): (r: string)
    ensures |r| <= |p|
  {
    if |p| > 0 && p[|p| - 1] == '\r' then p[..|p| - 1] else p
  }

  /**
   * The lines among the pieces between line feeds: a final empty piece is
   * dropped, and each piece that a line feed ends loses one carriage return.
   */
  function LinesOfPieces(parts: seq<string>): (r: seq<string>)
    requires |parts| >= 1
    ensures |r| == if parts[|parts| - 1] == "" then |parts| - 1 else |parts|
  {
    var n := |parts|;
    if parts[n - 1] == "" then seq(n - 1, i requires 0 <= i < n - 1 => StripCr(parts[i]))
    else seq(n, i requires 0 <= i < n => if i < n - 1 then StripCr(parts[i]) else parts[i])
  }

  /** Rust `s.lines()`. */
  function StrLines(s: string): (r: seq<string>)
    ensures |r| <= |Split(s, '\n')|
  {
    LinesOfPieces(Split(s, '\n'))
  }

  /** A line that `str::lines` gives back unchanged: no line feed, no final carriage return. */
  predicate PlainLine(l: string) {
    '\n' !in l && (|l| == 0 || l[|l| - 1] != '\r')
  }

  /** The lines of the text of plain lines are those lines. */
  lemma LinesOfText(lines: seq<string>)
    requires forall i :: 0 <= i < |lines| ==> PlainLine(lines[i])
    ensures StrLines(Text(lines)) == lines
  {
    TextSplit(lines);
    PiecesOfPlainLines(lines);
  }

  /** Plain lines followed by the empty piece after the last line feed give back those lines. */
  lemma PiecesOfPlainLines(lines: seq<string>)
    requires forall i :: 0 <= i < |lines| ==> PlainLine(lines[i])
    ensures LinesOfPieces(lines + [""]) == lines
  {
    var p := lines + [""];
    assert p[|p| - 1] == "";
    var r := LinesOfPieces(p);
    forall i | 0 <= i < |lines| ensures r[i] == lines[i] {
      assert p[i] == lines[i];
    }
  }
}
