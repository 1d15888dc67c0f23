/** The metrics parser: one value by exact name out of exposition text. */
module Scrape {
  import opened Backends
  import opened Text

  /** Parsing a number is a parameter. */
  type NumberParser = string -> Option<real>

  /** The value one line gives for `name`, if it is a sample of that name. */
  function LineValue(parse: NumberParser, line: string, name: string): Option<real> {
    if TrimStart(line) != "" && TrimStart(line)[0] == '#' then None
    else ContentValue(parse, Trim(line), name)
  }

  function ContentValue(parse: NumberParser, line: string, name: string): Option<real> {
    match if line == "" then None else StripPrefix(line, name)
    case None => None
    case Some(after) =>
      if after == "" || !(after[0] == '{' || IsWhitespace(after[0])) then None
      else
        match ValueText(after)
        case None => None
        case Some(text) => parse(text)
  }

  /** What follows the label block, or the name when there is none. */
  function ValueText(after: string): Option<string> {
    if '{' in after then
      var labels := after[IndexOf(after, '{')..];
      if '}' in labels then Some(Trim(labels[IndexOf(labels, '}') + 1..])) else None
    else Some(Trim(after))
  }

  function FirstValue(parse: NumberParser, lines: seq<string>, name: string): Option<real> {
    if lines == [] then None
    else
      match LineValue(parse, lines[0], name)
      case Some(x) => Some(x)
      case None => FirstValue(parse, lines[1..], name)
  }

  /** `str::lines`: a final unterminated line counts, an empty one does not. */
  function AllLines(text: string): seq<string> {
    if Rest(text) == "" then Lines(text) else Lines(text) + [Rest(text)]
  }

  /** One turn of the loop: `None` where the line is skipped. */
  method SampleValue(parse: NumberParser, line: string, name: string) returns (value: Option<real>)
    ensures value == LineValue(parse, line, name)
  {
    var start := TrimStart(line);
    if start != "" && start[0] == '#' {
      return None;
    }
    var line := Trim(line);
    if line == "" {
      return None;
    }
    var after := StripPrefix(line, name);
    if after == None || after.value == "" {
      return None;
    }
    var first := after.value[0];
    if !(first == '{' || IsWhitespace(first)) {
      return None;
    }
    var valueText := ValueText(after.value);
    if valueText == None {
      return None;
    }
    value := parse(valueText.value);
  }

  method MetricValue(parse: NumberParser, text: string, name: string) returns (value: Option<real>)
    ensures value == FirstValue(parse, AllLines(text), name)
  {
    hide LineValue, AllLines;
    var lines := AllLines(text);
    for i := 0 to |lines|
      invariant FirstValue(parse, lines, name) == FirstValue(parse, lines[i..], name)
    {
      assert lines[i..][0] == lines[i] && lines[i..][1..] == lines[i + 1..];
      var parsed := SampleValue(parse, lines[i], name);
      if parsed.Some? {
        return parsed;
      }
    }
    return None;
  }

  method CounterValue(parse: NumberParser, text: string, name: string) returns (value: Option<real>)
    ensures value == CounterOf(parse, text, name)
  {
    value := MetricValue(parse, text, name);
    if value == None {
      value := MetricValue(parse, text, name + "_total");
    }
  }

  function CounterOf(parse: NumberParser, text: string, name: string): Option<real> {
    match FirstValue(parse, AllLines(text), name)
    case Some(x) => Some(x)
    case None => FirstValue(parse, AllLines(text), name + "_total")
  }

  // ----- print, then parse

  datatype Entry =
    | Comment(text: string)
    | Sample(name: string, labels: Option<string>, value: string)

  function Render(e: Entry): string {
    match e
    case Comment(text) => "#" + text + "\n"
    case Sample(name, None, value) => name + " " + value + "\n"
    case Sample(name, Some(labels), value) => name + "{" + labels + "} " + value + "\n"
  }

  function RenderAll(entries: seq<Entry>): string {
    if entries == [] then "" else Render(entries[0]) + RenderAll(entries[1..])
  }

  /** A metric name: non-empty, no whitespace and no opening brace, not a comment. */
  predicate CleanName(name: string) {
    name != "" && name[0] != '#' && forall i | 0 <= i < |name| :: name[i] != '{' && !IsWhitespace(name[i])
  }

  predicate CleanValue(value: string) {
    && value != "" && !IsWhitespace(value[0]) && !IsWhitespace(value[|value| - 1])
    && '\n' !in value && '{' !in value
  }

  ghost predicate Clean(parse: NumberParser, e: Entry) {
    match e
    case Comment(text) => '\n' !in text
    case Sample(name, labels, value) =>
      && CleanName(name) && CleanValue(value) && parse(value).Some?
      && (labels.Some? ==> '}' !in labels.value && '\n' !in labels.value)
  }

  /** The reference answer: the first sample of exactly that name. */
  function FirstNamed(parse: NumberParser, entries: seq<Entry>, name: string): Option<real> {
    if entries == [] then None
    else if entries[0].Sample? && entries[0].name == name then parse(entries[0].value)
    else FirstNamed(parse, entries[1..], name)
  }

  lemma TrimCore(core: string, left: string)
    requires core != "" && !IsWhitespace(core[0]) && !IsWhitespace(core[|core| - 1])
    requires left == "" || left == " "
    ensures Trim(left + core) == core && TrimStart(core + "\n") == core + "\n" && Trim(core + "\n") == core
  {
    assert (left + core)[|left|..] == core;
    assert (core + "\n")[..|core|] == core;
    assert TrimEnd(core) == core;
    assert left == "" ==> left + core == core;
  }

  /** The part of a sample line after the name. */
  function Tail(labels: Option<string>, value: string): string {
    match labels
    case None => " " + value
    case Some(l) => "{" + l + "} " + value
  }

  lemma TailValue(labels: Option<string>, value: string)
    requires CleanValue(value) && (labels.Some? ==> '}' !in labels.value)
    ensures ValueText(Tail(labels, value)) == Some(value)
  {
    var after := Tail(labels, value);
    TrimCore(value, " ");
    match labels
    case None =>
      assert '{' !in after;
    case Some(l) =>
      FirstIndex(after, '{', 0);
      assert after[0..] == after;
      assert after[..|l| + 1] == "{" + l;
      FirstIndex(after, '}', |l| + 1);
      assert after[|l| + 2..] == " " + value;
  }

  /** Surrounding a sample with its line leaves its content. */
  lemma LineOfCore(parse: NumberParser, n: string, tail: string, name: string)
    requires CleanName(n) && tail != "" && !IsWhitespace(tail[|tail| - 1])
    ensures LineValue(parse, n + tail + "\n", name) == ContentValue(parse, n + tail, name)
  {
    var core := n + tail;
    assert core[0] == n[0];
    TrimCore(core, "");
  }

  /** On a rendered sample line a lookup succeeds exactly for its own name; names
      that merely extend the one asked for, or are extended by it, never match. */
  lemma SampleLineValue(parse: NumberParser, e: Entry, name: string)
    requires e.Sample? && Clean(parse, e) && CleanName(name)
    ensures LineValue(parse, Render(e), name) == if e.name == name then parse(e.value) else None
  {
    hide LineValue, ValueText, IsWhitespace;
    var tail := Tail(e.labels, e.value);
    var core := e.name + tail;
    assert Render(e) == core + "\n";
    SpaceIsWhitespace();
    LineOfCore(parse, e.name, tail, name);
    if e.name == name {
      assert core[|name|..] == tail;
      TailValue(e.labels, e.value);
    } else if name <= core {
      PrefixOfName(e.name, tail, name);
      assert core[|name|..][0] == e.name[|name|];
    }
  }

  lemma SpaceIsWhitespace()
    ensures IsWhitespace(' ') && IsWhitespace('\n')
  {
  }

  lemma PrefixOfName(n: string, tail: string, name: string)
    requires CleanName(name) && name <= n + tail && name != n
    requires tail != "" && (tail[0] == '{' || IsWhitespace(tail[0]))
    ensures |name| < |n|
  {
    var core := n + tail;
    assert core[|n|] == tail[0] && core[..|n|] == n;
    if |name| >= |n| {
      assert false;
    }
  }

  lemma CommentLineValue(parse: NumberParser, e: Entry, name: string)
    requires e.Comment?
    ensures LineValue(parse, Render(e), name) == None
  {
    assert TrimStart(Render(e)) == Render(e);
  }

  function RenderedLines(entries: seq<Entry>): (lines: seq<string>)
    ensures |lines| == |entries|
  {
    seq(|entries|, i requires 0 <= i < |entries| => Render(entries[i]))
  }

  lemma RenderIsLine(parse: NumberParser, e: Entry)
    requires Clean(parse, e)
    ensures IsLine(Render(e))
  {
    var line := Render(e);
    match e
    case Comment(text) =>
      assert line[..|line| - 1] == "#" + text;
    case Sample(name, labels, value) =>
      assert line[..|line| - 1] == name + Tail(labels, value);
      assert forall i | 0 <= i < |name| :: name[i] != '\n';
  }

  lemma {:induction false} JoinRendered(entries: seq<Entry>)
    ensures Join(RenderedLines(entries)) == RenderAll(entries)
  {
    if entries == [] {
    } else {
      JoinRendered(entries[1..]);
      assert RenderedLines(entries)[1..] == RenderedLines(entries[1..]);
    }
  }

  lemma LinesOfRendered(parse: NumberParser, entries: seq<Entry>)
    requires forall i | 0 <= i < |entries| :: Clean(parse, entries[i])
    ensures AllLines(RenderAll(entries)) == RenderedLines(entries)
  {
    forall i | 0 <= i < |entries| ensures IsLine(RenderedLines(entries)[i]) {
      RenderIsLine(parse, entries[i]);
    }
    JoinRendered(entries);
    PartitionUnique(RenderedLines(entries), "");
    assert RenderAll(entries) + "" == RenderAll(entries);
  }

  lemma {:induction false} FirstValueOfRendered(parse: NumberParser, entries: seq<Entry>, name: string)
    requires CleanName(name) && forall i | 0 <= i < |entries| :: Clean(parse, entries[i])
    ensures FirstValue(parse, RenderedLines(entries), name) == FirstNamed(parse, entries, name)
  {
    if entries == [] {
    } else {
      assert RenderedLines(entries)[1..] == RenderedLines(entries[1..]);
      FirstValueOfRendered(parse, entries[1..], name);
      if entries[0].Sample? {
        SampleLineValue(parse, entries[0], name);
        assert Clean(parse, entries[0]);
      } else {
        CommentLineValue(parse, entries[0], name);
      }
    }
  }

  /** Round trip: parsing printed metrics returns the first sample of exactly the
      name asked for, and nothing when there is none. */
  lemma ParseRendered(parse: NumberParser, entries: seq<Entry>, name: string)
    requires CleanName(name) && forall i | 0 <= i < |entries| :: Clean(parse, entries[i])
    ensures FirstValue(parse, AllLines(RenderAll(entries)), name) == FirstNamed(parse, entries, name)
  {
    LinesOfRendered(parse, entries);
    FirstValueOfRendered(parse, entries, name);
  }

  /** A counter is read under its bare name or its `_total` name only; a sibling
      such as `_created` is never taken for it. */
  lemma CounterOfRendered(parse: NumberParser, entries: seq<Entry>, name: string)
    requires CleanName(name) && forall i | 0 <= i < |entries| :: Clean(parse, entries[i])
    ensures CounterOf(parse, RenderAll(entries), name) ==
            if FirstNamed(parse, entries, name).Some? then FirstNamed(parse, entries, name)
            else FirstNamed(parse, entries, name + "_total")
  {
    hide AllLines, RenderAll, FirstValue, FirstNamed, CleanValue;
    ParseRendered(parse, entries, name);
    ParseRendered(parse, entries, name + "_total");
  }

  /** The label block must not contain a closing brace. If no number contains
      one, a labelled sample is read exactly when that holds. */
  lemma LabelsReadIff(parse: NumberParser, name: string, labels: string, value: string)
    requires CleanName(name) && CleanValue(value) && parse(value).Some? && '}' !in value
    requires forall s: string :: '}' in s ==> parse(s) == None
    ensures LineValue(parse, Render(Sample(name, Some(labels), value)), name) == parse(value) <==> '}' !in labels
  {
    hide LineValue, IsWhitespace, ValueText, Trim;
    var tail := Tail(Some(labels), value);
    var core := name + tail;
    assert Render(Sample(name, Some(labels), value)) == core + "\n";
    LineOfCore(parse, name, tail, name);
    assert core[|name|..] == tail;
    if '}' !in labels {
      TailValue(Some(labels), value);
    } else {
      BraceInLabels(labels, value);
    }
  }

  lemma BraceInLabels(labels: string, value: string)
    requires '}' in labels
    ensures ValueText(Tail(Some(labels), value)).Some? && '}' in ValueText(Tail(Some(labels), value)).value
  {
    var tail := Tail(Some(labels), value);
    var i := IndexOf(labels, '}');
    FirstIndex(tail, '{', 0);
    assert tail[0..] == tail && tail[..i + 1] == "{" + labels[..i];
    FirstIndex(tail, '}', i + 1);
    var left := labels[i + 1..] + ("} " + value);
    assert tail == "{" + labels + ("} " + value);
    DropInto("{", labels, "} " + value, i + 1);
    TrimKeeps(left, |labels| - i - 1);
  }

  lemma DropInto(a: string, b: string, c: string, i: nat)
    requires i <= |b|
    ensures (a + b + c)[|a| + i..] == b[i..] + c
  {
  }

  /** Trimming never removes a character that is not whitespace. */
  lemma TrimKeeps(s: string, i: nat)
    requires i < |s| && s[i] == '}'
    ensures '}' in Trim(s)
  {
    TrimStartKeeps(s, i);
    var t := TrimStart(s);
    var j :| 0 <= j < |t| && t[j] == '}';
    TrimEndKeeps(t, j);
  }

  lemma {:induction false} TrimStartKeeps(s: string, i: nat)
    requires i < |s| && s[i] == '}'
    ensures '}' in TrimStart(s)
  {
    if !IsWhitespace(s[0]) {
    } else {
      TrimStartKeeps(s[1..], i - 1);
    }
  }

  lemma {:induction false} TrimEndKeeps(s: string, i: nat)
    requires i < |s| && s[i] == '}'
    ensures '}' in TrimEnd(s)
  {
    if !IsWhitespace(s[|s| - 1]) {
    } else {
      TrimEndKeeps(s[..|s| - 1], i);
    }
  }
}
