/** Rendering of an issue's labels for the pull-request description
    (`Jira.getLabelsForDisplay`): each label becomes an HTML link titled with
    its name, and the links are joined by `", "`. */
module Labels {
  import opened Issue

  /** `<a href="URL" title="NAME">NAME</a>` for one label. */
  function LabelMarkup(l: Label): string {
    "<a href=\"" + l.url + "\" title=\"" + l.name + "\">" + l.name + "</a>"
  }

  /** The markup of every label, in order. */
  function Markups(labels: seq<Label>): (ms: seq<string>)
    ensures |ms| == |labels|
    ensures forall i :: 0 <= i < |labels| ==> ms[i] == LabelMarkup(labels[i])
  {
    seq(|labels|, i requires 0 <= i < |labels| => LabelMarkup(labels[i]))
  }

  /** `parts.join(sep)`: the parts in order, `sep` between neighbours. */
  function Join(parts: seq<string>, sep: string): string
    decreases |parts|
  {
    if |parts| == 0 then ""
    else if |parts| == 1 then parts[0]
    else parts[0] + sep + Join(parts[1..], sep)
  }

  /** Joining one more part adds the separator and the part at the end. */
  lemma {:induction false} JoinAppend(parts: seq<string>, p: string, sep: string)
    requires |parts| >= 1
    ensures Join(parts + [p], sep) == Join(parts, sep) + sep + p
    decreases |parts|
  {
    if |parts| == 1 {
      assert (parts + [p])[1..] == [p];
    } else {
      assert (parts + [p])[1..] == parts[1..] + [p];
      JoinAppend(parts[1..], p, sep);
    }
  }

  /** Joining two non-empty runs of parts puts one separator between them. */
  lemma {:induction false} JoinConcat(a: seq<string>, b: seq<string>, sep: string)
    requires |a| >= 1 && |b| >= 1
    ensures Join(a + b, sep) == Join(a, sep) + sep + Join(b, sep)
    decreases |b|
  {
    if |b| == 1 {
      JoinAppend(a, b[0], sep);
      assert b == [b[0]];
    } else {
      var b' := b[..|b| - 1];
      var last := b[|b| - 1];
      assert b == b' + [last];
      assert a + b == (a + b') + [last];
      JoinAppend(a + b', last, sep);
      JoinConcat(a, b', sep);
      JoinAppend(b', last, sep);
    }
  }

  /** `getLabelsForDisplay`: the label links joined by `", "`, built left to
      right as `labels.map(...).join(', ')` does. */
  method GetLabelsForDisplay(labels: seq<Label>) returns (r: string)
    ensures r == Join(Markups(labels), ", ")
  {
    r := "";
    var i := 0;
    while i < |labels|
      invariant 0 <= i <= |labels|
      invariant r == Join(Markups(labels[..i]), ", ")
    {
      assert Markups(labels[..i + 1]) == Markups(labels[..i]) + [LabelMarkup(labels[i])];
      if i > 0 {
        JoinAppend(Markups(labels[..i]), LabelMarkup(labels[i]), ", ");
        r := r + ", ";
      }
      r := r + LabelMarkup(labels[i]);
      i := i + 1;
    }
    assert labels[..i] == labels;
  }

  /** No labels render as the empty string; one label as its link alone. */
  lemma EmptyAndSingle(l: Label)
    ensures Join(Markups([]), ", ") == ""
    ensures Join(Markups([l]), ", ") == "<a href=\"" + l.url + "\" title=\"" + l.name + "\">" + l.name + "</a>"
  {
  }

  /** Rendering a concatenation of label lists joins the two renderings
      with `", "`. */
  lemma RenderConcat(a: seq<Label>, b: seq<Label>)
    requires |a| >= 1 && |b| >= 1
    ensures Join(Markups(a + b), ", ") == Join(Markups(a), ", ") + ", " + Join(Markups(b), ", ")
  {
    assert Markups(a + b) == Markups(a) + Markups(b);
    JoinConcat(Markups(a), Markups(b), ", ");
  }

  // ---------------------------------------------------------------------
  // No whitespace beyond the fixed template

  /** Number of occurrences of `c` in `s`. */
  function Count(s: string, c: char): nat {
    if s == [] then 0 else (if s[0] == c then 1 else 0) + Count(s[1..], c)
  }

  lemma {:induction false} CountConcat(a: string, b: string, c: char)
    ensures Count(a + b, c) == Count(a, c) + Count(b, c)
    decreases |a|
  {
    if a == [] {
      assert a + b == b;
    } else {
      assert (a + b)[1..] == a[1..] + b;
      CountConcat(a[1..], b, c);
    }
  }

  /** The spaces inside the labels' own names and URLs: a label's name
      appears twice in its link, its URL once. */
  function FieldSpaces(labels: seq<Label>): nat {
    if labels == [] then 0
    else 2 * Count(labels[0].name, ' ') + Count(labels[0].url, ' ') + FieldSpaces(labels[1..])
  }

  /** One link holds two spaces of its own (`<a href` and `" title`) plus
      those of its name and URL. */
  lemma MarkupSpaces(l: Label)
    ensures Count(LabelMarkup(l), ' ') == 2 + 2 * Count(l.name, ' ') + Count(l.url, ' ')
  {
    var a := "<a href=\"";
    var b := "\" title=\"";
    var c := "\">";
    var d := "</a>";
    assert LabelMarkup(l) == a + l.url + b + l.name + c + l.name + d;
    CountConcat(a, l.url, ' ');
    CountConcat(a + l.url, b, ' ');
    CountConcat(a + l.url + b, l.name, ' ');
    CountConcat(a + l.url + b + l.name, c, ' ');
    CountConcat(a + l.url + b + l.name + c, l.name, ' ');
    CountConcat(a + l.url + b + l.name + c + l.name, d, ' ');
    assert Count(a, ' ') == 1;
    assert Count(b, ' ') == 1;
    assert Count(c, ' ') == 0;
    assert Count(d, ' ') == 0;
  }

  /** The rendering holds no space beyond two per link, one per separator
      and those inside the names and URLs. */
  lemma {:induction false} RenderSpaces(labels: seq<Label>)
    requires |labels| >= 1
    ensures Count(Join(Markups(labels), ", "), ' ') == 3 * |labels| - 1 + FieldSpaces(labels)
    decreases |labels|
  {
    MarkupSpaces(labels[0]);
    if |labels| > 1 {
      var rest := labels[1..];
      assert Markups(labels) == [LabelMarkup(labels[0])] + Markups(rest);
      assert Markups(labels)[1..] == Markups(rest);
      RenderSpaces(rest);
      CountConcat(LabelMarkup(labels[0]), ", ", ' ');
      CountConcat(LabelMarkup(labels[0]) + ", ", Join(Markups(rest), ", "), ' ');
      assert Count(", ", ' ') == 1;
    }
  }

  /** Two labels render as their two links around one `", "`. */
  lemma TwoLabels(a: Label, b: Label)
    ensures Join(Markups([a, b]), ", ") == LabelMarkup(a) + ", " + LabelMarkup(b)
  {
    assert Markups([a, b]) == [LabelMarkup(a), LabelMarkup(b)];
    assert Markups([a, b])[1..] == [LabelMarkup(b)];
  }

  /** The first label of the `getLabelsForDisplay()` test, as a link. */
  lemma FirstTestLink()
    ensures LabelMarkup(Label("one", "url-one")) == "<a href=\"url-one\" title=\"one\">one</a>"
  {
  }

  /** The second label of the `getLabelsForDisplay()` test, as a link. */
  lemma SecondTestLink()
    ensures LabelMarkup(Label("two", "url-two")) == "<a href=\"url-two\" title=\"two\">two</a>"
  {
  }

  /** The two labels of the `getLabelsForDisplay()` test (lines 101-106). */
  lemma TwoLabelsVector()
    ensures Join(Markups([Label("one", "url-one"), Label("two", "url-two")]), ", ")
      == "<a href=\"url-one\" title=\"one\">one</a>" + ", " + "<a href=\"url-two\" title=\"two\">two</a>"
  {
    TwoLabels(Label("one", "url-one"), Label("two", "url-two"));
    FirstTestLink();
    SecondTestLink();
  }
}
