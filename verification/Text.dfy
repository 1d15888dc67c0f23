/** Text as the router handles it: whitespace, trimming and lines. */
module Text {
  import opened Backends

  /** The Unicode White_Space property. */
  predicate IsWhitespace(c: char) {
    var n := c as int;
    || 0x9 <= n <= 0xD || n == 0x20 || n == 0x85 || n == 0xA0 || n == 0x1680
    || 0x2000 <= n <= 0x200A || n == 0x2028 || n == 0x2029 || n == 0x202F || n == 0x205F || n == 0x3000
  }

  /** The 25 characters with that property, one by one. */
  lemma WhitespaceIs(c: char)
    ensures IsWhitespace(c) <==> c as int in {
              0x9, 0xA, 0xB, 0xC, 0xD, 0x20, 0x85, 0xA0, 0x1680,
              0x2000, 0x2001, 0x2002, 0x2003, 0x2004, 0x2005, 0x2006, 0x2007, 0x2008, 0x2009, 0x200A,
              0x2028, 0x2029, 0x202F, 0x205F, 0x3000}
  {
  }

  function TrimStart(s: string): string {
    if s != "" && IsWhitespace(s[0]) then TrimStart(s[1..]) else s
  }

  function TrimEnd(s: string): string {
    if s != "" && IsWhitespace(s[|s| - 1]) then TrimEnd(s[..|s| - 1]) else s
  }

  function Trim(s: string): string {
    TrimEnd(TrimStart(s))
  }

  /** Trimming ignores trailing whitespace that was already dropped. */
  lemma {:induction false} TrimOfTrimEnd(s: string)
    ensures Trim(TrimEnd(s)) == Trim(s)
  {
    if s == "" || !IsWhitespace(s[|s| - 1]) {
    } else {
      TrimOfTrimEnd(s[..|s| - 1]);
      TrimDropsLast(s);
    }
  }

  lemma {:induction false} TrimDropsLast(s: string)
    requires s != "" && IsWhitespace(s[|s| - 1])
    ensures Trim(s) == Trim(s[..|s| - 1])
  {
    var init := s[..|s| - 1];
    if init == "" {
      assert s[1..] == "";
    } else if IsWhitespace(s[0]) {
      TrimDropsLast(s[1..]);
      assert s[1..][..|s[1..]| - 1] == init[1..];
    } else {
      assert TrimStart(s) == s && TrimStart(init) == init;
    }
  }

  lemma TrimTwice(s: string)
    ensures Trim(Trim(s)) == Trim(s)
  {
    TrimEndEnds(TrimStart(s));
    TrimStartStarts(s);
    TrimEndIsPrefix(TrimStart(s));
  }

  lemma {:induction false} TrimEndEnds(s: string)
    ensures TrimEnd(s) == "" || !IsWhitespace(TrimEnd(s)[|TrimEnd(s)| - 1])
  {
    if s == "" || !IsWhitespace(s[|s| - 1]) {
    } else {
      TrimEndEnds(s[..|s| - 1]);
    }
  }

  lemma {:induction false} TrimStartStarts(s: string)
    ensures TrimStart(s) == "" || !IsWhitespace(TrimStart(s)[0])
  {
    if s == "" || !IsWhitespace(s[0]) {
    } else {
      TrimStartStarts(s[1..]);
    }
  }

  lemma {:induction false} TrimEndIsPrefix(s: string)
    ensures TrimEnd(s) <= s
  {
    if s == "" || !IsWhitespace(s[|s| - 1]) {
    } else {
      TrimEndIsPrefix(s[..|s| - 1]);
    }
  }

  /** A head that ends in no whitespace stays when the end is trimmed. */
  lemma {:induction false} TrimEndKeepsHead(head: string, s: string)
    requires head != "" && !IsWhitespace(head[|head| - 1])
    ensures TrimEnd(head + s) == head + TrimEnd(s)
  {
    if s == "" {
      assert head + s == head;
    } else if !IsWhitespace(s[|s| - 1]) {
      assert (head + s)[|head + s| - 1] == s[|s| - 1];
    } else {
      assert (head + s)[..|head + s| - 1] == head + s[..|s| - 1];
      TrimEndKeepsHead(head, s[..|s| - 1]);
    }
  }

  function StripPrefix(s: string, prefix: string): Option<string> {
    if prefix <= s then Some(s[|prefix|..]) else None
  }

  function GetOr<T>(o: Option<T>, default: T): T {
    match o
    case Some(v) => v
    case None => default
  }

  // ----- lines

  function IndexOf(text: string, c: char): (i: nat)
    requires c in text
    ensures i < |text| && text[i] == c && c !in text[..i]
  {
    if text[0] == c then 0
    else
      var i := IndexOf(text[1..], c);
      assert text[..i + 1] == [text[0]] + text[1..][..i];
      i + 1
  }

  /** The newline-terminated lines of a text, terminators included. */
  function Lines(text: string): seq<string>
    decreases |text|
  {
    if '\n' !in text then []
    else
      var i := IndexOf(text, '\n');
      [text[..i + 1]] + Lines(text[i + 1..])
  }

  /** What follows the last newline. */
  function Rest(text: string): string
    decreases |text|
  {
    if '\n' !in text then text else Rest(text[IndexOf(text, '\n') + 1..])
  }

  function Join(lines: seq<string>): string {
    if lines == [] then "" else lines[0] + Join(lines[1..])
  }

  /** One newline, at the end. */
  ghost predicate IsLine(line: string) {
    line != "" && line[|line| - 1] == '\n' && '\n' !in line[..|line| - 1]
  }

  /** Lines and rest are the one way to cut a text into single lines and a
      newline-free remainder. */
  lemma LinesPartition(text: string)
    ensures Join(Lines(text)) + Rest(text) == text
    ensures forall k | 0 <= k < |Lines(text)| :: IsLine(Lines(text)[k])
    ensures '\n' !in Rest(text)
  {
    LinesJoin(text);
    LinesAreLines(text);
  }

  lemma {:induction false} LinesJoin(text: string)
    ensures Join(Lines(text)) + Rest(text) == text
    decreases |text|
  {
    hide IndexOf;
    if '\n' !in text {
    } else {
      var i := IndexOf(text, '\n');
      var head, tail := text[..i + 1], text[i + 1..];
      var lines, rest := Lines(tail), Rest(tail);
      LinesJoin(tail);
      JoinCons(head, lines);
      Glue(head, Join(lines), rest, tail, text);
    }
  }

  lemma Glue(a: string, b: string, c: string, tail: string, text: string)
    requires tail == b + c && text == a + tail
    ensures (a + b) + c == text
  {
  }

  lemma {:induction false} LinesAreLines(text: string)
    ensures forall k | 0 <= k < |Lines(text)| :: IsLine(Lines(text)[k])
    ensures '\n' !in Rest(text)
    decreases |text|
  {
    hide IndexOf;
    if '\n' !in text {
    } else {
      var i := IndexOf(text, '\n');
      LinesAreLines(text[i + 1..]);
      assert text[..i + 1][..i] == text[..i];
      assert IsLine(text[..i + 1]);
    }
  }

  lemma JoinCons(head: string, lines: seq<string>)
    ensures Join([head] + lines) == head + Join(lines)
  {
    assert ([head] + lines)[1..] == lines;
  }

  lemma {:induction false} PartitionUnique(lines: seq<string>, rest: string)
    requires forall k | 0 <= k < |lines| :: IsLine(lines[k])
    requires '\n' !in rest
    ensures Lines(Join(lines) + rest) == lines && Rest(Join(lines) + rest) == rest
  {
    var text := Join(lines) + rest;
    if lines == [] {
    } else {
      var line, tail := lines[0], Join(lines[1..]) + rest;
      assert text == line + tail;
      assert text[|line| - 1] == '\n';
      FirstIndex(text, '\n', |line| - 1);
      assert text[..|line|] == line && text[|line|..] == tail;
      PartitionUnique(lines[1..], rest);
    }
  }

  lemma FirstIndex(text: string, c: char, i: nat)
    requires i < |text| && text[i] == c && c !in text[..i]
    ensures IndexOf(text, c) == i
  {
    var j := IndexOf(text, c);
    assert forall k | 0 <= k < i :: text[..i][k] == text[k];
    assert forall k | 0 <= k < j :: text[..j][k] == text[k];
  }

  /** Feeding more text completes the buffered partial line first. */
  lemma LinesOfMore(a: string, b: string)
    ensures Lines(a + b) == Lines(a) + Lines(Rest(a) + b)
    ensures Rest(a + b) == Rest(Rest(a) + b)
  {
    hide Lines, Rest, Join, IsLine;
    var more := Rest(a) + b;
    var la, lm, r := Lines(a), Lines(more), Rest(more);
    LinesPartition(a);
    LinesPartition(more);
    JoinConcat(la, lm);
    assert a + b == Join(la) + more;
    assert Join(la) + (Join(lm) + r) == (Join(la) + Join(lm)) + r;
    PartitionUnique(la + lm, r);
  }

  lemma Associate(x: string, y: string, z: string)
    ensures x + (y + z) == x + y + z
  {
  }

  lemma {:induction false} JoinConcat(a: seq<string>, b: seq<string>)
    ensures Join(a + b) == Join(a) + Join(b)
  {
    if a == [] {
      assert a + b == b;
    } else {
      JoinConcat(a[1..], b);
      assert (a + b)[1..] == a[1..] + b;
      Associate(a[0], Join(a[1..]), Join(b));
    }
  }
}
