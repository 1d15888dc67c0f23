/** Prompt token counting. */
module Tokens {
  import opened Machine
  import opened Text
  import Cost
  import Utf8

  const U32_MAX: uint32 := U32_MOD - 1

  datatype TokenCounterKind = Whitespace | CharsPerToken

  datatype TokenCounter = TokenCounter(kind: TokenCounterKind, charsPerToken: real) {
    /** What config validation guarantees. */
    ghost predicate Validated() {
      charsPerToken > 0.0
    }

    function Count(text: string): uint32
      requires charsPerToken > 0.0
    {
      if Trim(text) == "" then 0
      else
        var n := match kind
                 case Whitespace => |Words(text)|
                 case CharsPerToken => Ceil(|Utf8.Encode(text)| as real / charsPerToken);
        if n < 1 then 1 else if n > U32_MAX then U32_MAX else n
    }
  }

  function Ceil(x: real): int {
    -((-x).Floor)
  }

  /** Length of the run of non-whitespace at the start. */
  function RunLength(s: string): (n: nat)
    ensures n <= |s| && (s != "" && !IsWhitespace(s[0]) ==> n > 0)
  {
    if s == "" || IsWhitespace(s[0]) then 0 else 1 + RunLength(s[1..])
  }

  /** `split_whitespace`. */
  function Words(s: string): seq<string>
    decreases |s|
  {
    if s == "" then []
    else if IsWhitespace(s[0]) then Words(s[1..])
    else
      var n := RunLength(s);
      [s[..n]] + Words(s[n..])
  }

  /** Whether a word begins at position `i`: the character-level reading of the
      word count. */
  predicate StartsWord(s: string, i: nat)
    requires i < |s|
  {
    !IsWhitespace(s[i]) && (i == 0 || IsWhitespace(s[i - 1]))
  }

  function WordStarts(s: string): nat {
    if s == "" then 0
    else WordStarts(s[..|s| - 1]) + (if StartsWord(s, |s| - 1) then 1 else 0)
  }

  /** A word is lost where two texts meet mid-word. */
  predicate Merges(a: string, b: string) {
    a != "" && b != "" && !IsWhitespace(a[|a| - 1]) && !IsWhitespace(b[0])
  }

  lemma {:induction false} StartsOfConcat(a: string, b: string)
    ensures WordStarts(a + b) == WordStarts(a) + WordStarts(b) - (if Merges(a, b) then 1 else 0)
  {
    if b == "" {
      assert a + b == a;
    } else {
      var init := b[..|b| - 1];
      StartsOfConcat(a, init);
      assert (a + b)[..|a + b| - 1] == a + init;
    }
  }

  lemma {:induction false} RunIsOneWord(s: string, n: nat)
    requires n <= RunLength(s)
    ensures WordStarts(s[..n]) == if n == 0 then 0 else 1
    ensures forall i | 0 <= i < n :: !IsWhitespace(s[i])
  {
    RunHasNoSpace(s);
    if n == 0 {
    } else {
      RunIsOneWord(s, n - 1);
      assert s[..n][..n - 1] == s[..n - 1];
    }
  }

  lemma {:induction false} RunHasNoSpace(s: string)
    ensures forall i | 0 <= i < RunLength(s) :: !IsWhitespace(s[i])
    ensures RunLength(s) < |s| ==> IsWhitespace(s[RunLength(s)])
  {
    if s == "" || IsWhitespace(s[0]) {
    } else {
      RunHasNoSpace(s[1..]);
    }
  }

  /** Splitting and counting beginnings agree. */
  lemma {:induction false} WordsAreStarts(s: string)
    ensures |Words(s)| == WordStarts(s)
    decreases |s|
  {
    if s == "" {
    } else {
      var n := if IsWhitespace(s[0]) then 1 else RunLength(s);
      var head, tail := s[..n], s[n..];
      assert s == head + tail;
      WordsAreStarts(tail);
      StartsOfConcat(head, tail);
      if IsWhitespace(s[0]) {
        assert head[..0] == "";
      } else {
        RunHasNoSpace(s);
        RunIsOneWord(s, n);
      }
    }
  }

  /** Joining two texts bare loses exactly one word when it merges two, and none
      otherwise; joining them with a space never does. */
  lemma WordCountOfConcat(a: string, b: string)
    ensures |Words(a + b)| == |Words(a)| + |Words(b)| - (if Merges(a, b) then 1 else 0)
    ensures |Words(a + " " + b)| == |Words(a)| + |Words(b)|
  {
    WordsAreStarts(a + b);
    WordsAreStarts(a + " " + b);
    WordsAreStarts(a);
    WordsAreStarts(b);
    StartsOfConcat(a, b);
    StartsOfConcat(a + " ", b);
    StartsOfConcat(a, " ");
    assert " "[..0] == "" && WordStarts(" ") == 0;
  }

  predicate Blank(s: string) {
    forall i | 0 <= i < |s| :: IsWhitespace(s[i])
  }

  lemma {:induction false} TrimStartBlank(s: string)
    ensures TrimStart(s) == "" <==> Blank(s)
    ensures TrimStart(s) != "" ==> !IsWhitespace(TrimStart(s)[0])
  {
    if s == "" || !IsWhitespace(s[0]) {
    } else {
      TrimStartBlank(s[1..]);
      assert Blank(s) <==> Blank(s[1..]) by {
        assert forall i | 1 <= i < |s| :: s[i] == s[1..][i - 1];
      }
    }
  }

  lemma {:induction false} TrimEndKeepsStart(s: string)
    requires s != "" && !IsWhitespace(s[0])
    ensures TrimEnd(s) != ""
  {
    if !IsWhitespace(s[|s| - 1]) {
    } else {
      TrimEndKeepsStart(s[..|s| - 1]);
    }
  }

  lemma {:induction false} NoWordsIffBlank(s: string)
    ensures Words(s) == [] <==> Blank(s)
    decreases |s|
  {
    if s == "" || !IsWhitespace(s[0]) {
    } else {
      NoWordsIffBlank(s[1..]);
      assert Blank(s) <==> Blank(s[1..]) by {
        assert forall i | 1 <= i < |s| :: s[i] == s[1..][i - 1];
      }
    }
  }

  /** Only blank text counts as nothing, under either counter, so a prompt that
      holds anything is never free. */
  lemma CountIsZeroIffBlank(counter: TokenCounter, text: string)
    requires counter.Validated()
    ensures counter.Count(text) == 0 <==> Blank(text)
  {
    TrimStartBlank(text);
    if TrimStart(text) != "" {
      TrimEndKeepsStart(TrimStart(text));
    }
  }

  function Saturate(n: nat): uint32 {
    if n > U32_MAX then U32_MAX else n
  }

  /** The whitespace counter is the word count, saturated. */
  lemma WhitespaceCountsWords(counter: TokenCounter, text: string)
    requires counter.Validated() && counter.kind == Whitespace
    ensures counter.Count(text) == Saturate(|Words(text)|)
  {
    CountIsZeroIffBlank(counter, text);
    NoWordsIffBlank(text);
  }

  /** `n` is the least whole number of tokens of `per` bytes covering `bytes`. */
  ghost predicate Covers(n: int, bytes: real, per: real) {
    (n - 1) as real * per < bytes <= n as real * per
  }

  /** The calibrated counter is the least number of tokens that covers the bytes
      of the text, unless it saturates. */
  lemma CharsCountCovers(counter: TokenCounter, text: string)
    requires counter.Validated() && counter.kind == CharsPerToken && !Blank(text)
    requires counter.Count(text) < U32_MAX
    ensures Covers(counter.Count(text), |Utf8.Encode(text)| as real, counter.charsPerToken)
  {
    hide Ceil, Covers, Blank;
    CountIsZeroIffBlank(counter, text);
    NonEmptyEncodes(text);
    CeilCovers(|Utf8.Encode(text)|, counter.charsPerToken);
  }

  lemma NonEmptyEncodes(text: string)
    requires !Blank(text)
    ensures |Utf8.Encode(text)| > 0
  {
  }

  lemma CeilCovers(bytes: nat, per: real)
    requires per > 0.0 && bytes > 0
    ensures Covers(Ceil(bytes as real / per), bytes as real, per)
    ensures Ceil(bytes as real / per) >= 1
  {
    var x := bytes as real / per;
    var n := Ceil(x);
    assert x * per == bytes as real;
    ScaleStrict(per, (n - 1) as real, x, (n - 1) as real * per, bytes as real);
    ScaleWeak(per, x, n as real, bytes as real, n as real * per);
    Positive(n as real, per);
  }

  lemma ScaleStrict(k: real, a: real, b: real, ka: real, kb: real)
    requires k > 0.0 && a < b && ka == a * k && kb == b * k
    ensures ka < kb
  {
    assert (b - a) * k > 0.0;
  }

  lemma ScaleWeak(k: real, a: real, b: real, ka: real, kb: real)
    requires k > 0.0 && a <= b && ka == a * k && kb == b * k
    ensures ka <= kb
  {
    Cost.MulMono(k, a, b);
  }

  lemma Positive(n: real, k: real)
    requires k > 0.0
    ensures n * k > 0.0 ==> n > 0.0
  {
    if n <= 0.0 {
      Cost.MulMono(k, n, 0.0);
    }
  }
}
