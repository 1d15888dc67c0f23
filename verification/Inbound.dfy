/** From request body to request features. */
module Inbound {
  import opened Machine
  import opened Backends
  import opened Tokens
  import Estimator
  import Routes
  import Sse

  type Json = Sse.Json

  /** The text contents of the messages, in order. */
  function Contents(messages: seq<Json>): seq<string> {
    if messages == [] then []
    else
      var rest := Contents(messages[..|messages| - 1]);
      match messages[|messages| - 1].Get("content")
      case Some(Str(text)) => rest + [text]
      case _ => rest
  }

  /** The text a message contributes: the string under `content`, if there is one. */
  function TextsOf(message: Json): seq<string> {
    match message.Get("content")
    case Some(Str(text)) => [text]
    case _ => []
  }

  /** Every message contributes its text, in order. */
  lemma {:induction false} ContentsOfConcat(a: seq<Json>, b: seq<Json>)
    ensures Contents(a + b) == Contents(a) + Contents(b)
  {
    if b == [] {
      assert a + b == a;
    } else {
      assert (a + b)[..|a + b| - 1] == a + b[..|b| - 1];
      ContentsOfConcat(a, b[..|b| - 1]);
    }
  }

  lemma ContentsOfOne(message: Json)
    ensures Contents([message]) == TextsOf(message)
  {
    assert [message][..0] == [];
  }

  function CountAll(counter: TokenCounter, contents: seq<string>): nat
    requires counter.charsPerToken > 0.0
  {
    if contents == [] then 0
    else CountAll(counter, contents[..|contents| - 1]) + counter.Count(contents[|contents| - 1])
  }

  function PromptTokens(v: Json, counter: TokenCounter): uint32
    requires counter.charsPerToken > 0.0
  {
    match v.Get("messages")
    case Some(Array(messages)) => Saturate(CountAll(counter, Contents(messages)))
    case _ =>
      match v.Get("prompt")
      case Some(Str(text)) => counter.Count(text)
      case _ => 0
  }

  method CountPromptTokens(v: Json, counter: TokenCounter) returns (total: uint32)
    requires counter.Validated()
    ensures total == PromptTokens(v, counter)
  {
    match v.Get("messages")
    case Some(Array(messages)) =>
      total := 0;
      for i := 0 to |messages|
        invariant total == Saturate(CountAll(counter, Contents(messages[..i])))
      {
        assert messages[..i + 1][..i] == messages[..i];
        match messages[i].Get("content") {
          case Some(Str(text)) =>
            var before := Contents(messages[..i]);
            assert (before + [text])[..|before|] == before;
            total := Saturate(total + counter.Count(text));
          case _ =>
        }
      }
      assert messages[..|messages|] == messages;
    case _ =>
      match v.Get("prompt") {
        case Some(Str(text)) => total := counter.Count(text);
        case _ => total := 0;
      }
  }

  function JoinWithSpaces(contents: seq<string>): string {
    if contents == [] then ""
    else JoinWithSpaces(contents[..|contents| - 1]) + " " + contents[|contents| - 1]
  }

  /** Counting message by message equals counting all contents joined by spaces,
      up to saturation. */
  lemma PerMessageCountIsJoinedCount(counter: TokenCounter, contents: seq<string>)
    requires counter.Validated() && counter.kind == Whitespace
    ensures Saturate(CountAll(counter, contents)) == Saturate(|Words(JoinWithSpaces(contents))|)
  {
    SaturatedSum(counter, contents);
    WordsOfJoined(contents);
  }

  function WordsOfAll(contents: seq<string>): nat {
    if contents == [] then 0
    else WordsOfAll(contents[..|contents| - 1]) + |Words(contents[|contents| - 1])|
  }

  lemma {:induction false} WordsOfJoined(contents: seq<string>)
    ensures |Words(JoinWithSpaces(contents))| == WordsOfAll(contents)
  {
    if contents == [] {
    } else {
      WordsOfJoined(contents[..|contents| - 1]);
      WordCountOfConcat(JoinWithSpaces(contents[..|contents| - 1]), contents[|contents| - 1]);
    }
  }

  lemma {:induction false} SaturatedSum(counter: TokenCounter, contents: seq<string>)
    requires counter.Validated() && counter.kind == Whitespace
    ensures Saturate(CountAll(counter, contents)) == Saturate(WordsOfAll(contents))
  {
    if contents == [] {
    } else {
      SaturatedSum(counter, contents[..|contents| - 1]);
      WhitespaceCountsWords(counter, contents[|contents| - 1]);
    }
  }

  /** The prompt tokens of a request, under whitespace counting: the words of all
      message texts joined by spaces, or of the prompt string where there are no
      messages, or none. */
  lemma PromptTokensOfRequest(v: Json, counter: TokenCounter)
    requires counter.Validated() && counter.kind == Whitespace
    ensures v.Get("messages").Some? && v.Get("messages").value.Array? ==>
              PromptTokens(v, counter) == Saturate(|Words(JoinWithSpaces(Contents(v.Get("messages").value.items)))|)
    ensures !(v.Get("messages").Some? && v.Get("messages").value.Array?) ==>
              PromptTokens(v, counter) ==
              if v.Get("prompt").Some? && v.Get("prompt").value.Str? then
                Saturate(|Words(v.Get("prompt").value.s)|)
              else 0
  {
    hide Words;
    if v.Get("messages").Some? && v.Get("messages").value.Array? {
      PerMessageCountIsJoinedCount(counter, Contents(v.Get("messages").value.items));
    } else if v.Get("prompt").Some? && v.Get("prompt").value.Str? {
      WhitespaceCountsWords(counter, v.Get("prompt").value.s);
    }
  }

  /** No text of the request holds anything but whitespace. */
  predicate NothingToCount(v: Json) {
    match v.Get("messages")
    case Some(Array(messages)) =>
      forall i | 0 <= i < |messages| ::
        (match messages[i].Get("content")
         case Some(Str(text)) => Blank(text)
         case _ => true)
    case _ =>
      match v.Get("prompt")
      case Some(Str(text)) => Blank(text)
      case _ => true
  }

  lemma CountsNothingIff(v: Json, counter: TokenCounter)
    requires counter.Validated()
    ensures PromptTokens(v, counter) == 0 <==> NothingToCount(v)
  {
    match v.Get("messages")
    case Some(Array(messages)) => CountAllIsZeroIff(messages, counter);
    case _ =>
      match v.Get("prompt")
      case Some(Str(text)) => CountIsZeroIffBlank(counter, text);
      case _ =>
  }

  lemma {:induction false} CountAllIsZeroIff(messages: seq<Json>, counter: TokenCounter)
    requires counter.Validated()
    ensures CountAll(counter, Contents(messages)) == 0 <==>
            forall i | 0 <= i < |messages| ::
              (match messages[i].Get("content")
               case Some(Str(text)) => Blank(text)
               case _ => true)
  {
    if messages == [] {
    } else {
      var before, last := messages[..|messages| - 1], messages[|messages| - 1];
      CountAllIsZeroIff(before, counter);
      assert forall i | 0 <= i < |before| :: before[i] == messages[i];
      match last.Get("content")
      case Some(Str(text)) =>
        CountIsZeroIffBlank(counter, text);
        var texts := Contents(before);
        assert (texts + [text])[..|texts|] == texts;
      case _ =>
    }
  }

  // ----- features

  datatype Features = Features(model: string, promptTokens: uint32, expectedOutputTokens: uint32, streaming: bool)

  datatype InboundError = Malformed | MissingModel | EmptyPrompt

  datatype Result<+T> = Ok(value: T) | Err(error: InboundError)

  /** `as_u64().map(|n| n as u32)`. */
  function MaxTokens(v: Json): Option<uint32> {
    match v.Get("max_tokens")
    case Some(m) => m.AsU32()
    case None => None
  }

  /** `body` is the parsed request, if it parsed. */
  function FeaturesOf(body: Option<Json>, view: Routes.View, counter: TokenCounter): Result<Features>
    requires counter.charsPerToken > 0.0
  {
    match body
    case None => Err(Malformed)
    case Some(v) =>
      match v.Get("model")
      case Some(Str(model)) =>
        var promptTokens := PromptTokens(v, counter);
        if promptTokens == 0 then Err(EmptyPrompt)
        else
          var key := Routes.RouteKey(model, Routes.PromptBucket(promptTokens));
          var streaming := match v.Get("stream")
                           case Some(Bool(b)) => b
                           case _ => false;
          Ok(Features(model, promptTokens, Routes.Resolve(view, key, MaxTokens(v)), streaming))
      case _ => Err(MissingModel)
  }

  /** A body the router can route: it parses, names a model and has text to count. */
  predicate IsUsable(body: Option<Json>) {
    && body.Some? && body.value.Get("model").Some? && body.value.Get("model").value.Str?
    && !NothingToCount(body.value)
  }

  /** What the features of a request say, and which error the others get. */
  lemma FeaturesReadRequest(body: Option<Json>, view: Routes.View, counter: TokenCounter)
    requires counter.Validated()
    ensures var r := FeaturesOf(body, view, counter);
            && (r.Ok? <==> IsUsable(body))
            && (r == Err(Malformed) <==> body == None)
            && (r == Err(MissingModel) <==>
                  body.Some? && !(body.value.Get("model").Some? && body.value.Get("model").value.Str?))
            && (r.Ok? ==>
                  && r.value.model == body.value.Get("model").value.s
                  && r.value.promptTokens == PromptTokens(body.value, counter) > 0
                  && (r.value.streaming <==> body.value.Get("stream") == Some(Sse.Bool(true))))
  {
    hide Routes.Resolve, PromptTokens, NothingToCount;
    if body.Some? {
      CountsNothingIff(body.value, counter);
    }
  }

  method BuildFeatures(body: Option<Json>, hists: Routes.RouteHistograms, counter: TokenCounter)
    returns (r: Result<Features>)
    requires counter.Validated()
    ensures r == FeaturesOf(body, hists.Contents(), counter)
  {
    if body == None {
      return Err(Malformed);
    }
    var v := body.value;
    match v.Get("model") {
      case Some(Str(model)) =>
        var promptTokens := CountPromptTokens(v, counter);
        if promptTokens == 0 {
          return Err(EmptyPrompt);
        }
        var streaming := match v.Get("stream")
                         case Some(Bool(b)) => b
                         case _ => false;
        var key := Routes.RouteKey(model, Routes.PromptBucket(promptTokens));
        var expected := hists.Estimate(key, MaxTokens(v));
        return Ok(Features(model, promptTokens, expected, streaming));
      case _ =>
        return Err(MissingModel);
    }
  }

  /** A request that gets past the features charges for its prompt and for at
      least one token of output. */
  lemma FeaturesAreCharged(body: Option<Json>, view: Routes.View, counter: TokenCounter)
    requires counter.Validated() && FeaturesOf(body, view, counter).Ok?
    ensures var f := FeaturesOf(body, view, counter).value; f.promptTokens >= 1 && f.expectedOutputTokens >= 1
  {
    hide Routes.Resolve;
    var v := body.value;
    var key := Routes.RouteKey(v.Get("model").value.s, Routes.PromptBucket(PromptTokens(v, counter)));
    Routes.ResolvedIsPositive(view, key, MaxTokens(v));
  }

  /** An explicit limit is meant as an exact bound on the output. It is carried
      into the estimate exactly when it fits 32 bits; above that its high bits
      are dropped and the request is under-charged. */
  lemma MaxTokensKeptIff(view: Routes.View, key: Routes.RouteKey, v: Json, n: nat)
    requires v.Get("max_tokens") == Some(Sse.Whole(n)) && n < 0x1_0000_0000_0000_0000
    ensures Routes.Resolve(view, key, MaxTokens(v)) == (if n == 0 then 1 else n) <==> n < U32_MOD
    ensures n >= U32_MOD ==> Routes.Resolve(view, key, MaxTokens(v)) < n
  {
  }

  // ----- estimates come from the route

  /** The route a response feeds. */
  function RouteOf(f: Features): Routes.RouteKey {
    Routes.RouteKey(f.model, Routes.PromptBucket(f.promptTokens))
  }

  /** The same model and prompts of the same size class. */
  ghost predicate SameRoute(f: Features, g: Features) {
    f.model == g.model && Routes.SameRange(f.promptTokens, g.promptTokens)
  }

  lemma SameKeyIff(f: Features, g: Features)
    requires f.promptTokens > 0 && g.promptTokens > 0
    ensures RouteOf(f) == RouteOf(g) <==> SameRoute(f, g)
  {
    Routes.SameBucketIff(f.promptTokens, g.promptTokens);
  }

  /** One completion count observed for a served request. */
  datatype Served = Served(features: Features, obs: Estimator.Observation)

  ghost predicate Positive(served: seq<Served>) {
    forall i | 0 <= i < |served| :: served[i].features.promptTokens > 0
  }

  function FeedsOf(served: seq<Served>): (feeds: seq<Routes.Feed>)
    ensures |feeds| == |served|
  {
    seq(|served|, i requires 0 <= i < |served| => Routes.Feed(RouteOf(served[i].features), served[i].obs))
  }

  /** What was observed for requests of the same model and size class, in order. */
  ghost function HistoryOf(served: seq<Served>, f: Features): seq<Estimator.Observation> {
    if served == [] then []
    else
      var rest, last := HistoryOf(served[..|served| - 1], f), served[|served| - 1];
      if SameRoute(last.features, f) then rest + [last.obs] else rest
  }

  lemma {:induction false} HistoryIsRoute(served: seq<Served>, f: Features)
    requires Positive(served) && f.promptTokens > 0
    ensures Routes.Of(FeedsOf(served), RouteOf(f)) == HistoryOf(served, f)
  {
    hide RouteOf, SameRoute;
    if served == [] {
    } else {
      var before, last := served[..|served| - 1], served[|served| - 1];
      HistoryIsRoute(before, f);
      SameKeyIff(last.features, f);
      assert FeedsOf(served)[..|before|] == FeedsOf(before);
    }
  }

  /** The estimate a request gets, after any requests served before it: its own
      limit if it sets one; else the rounded mean of what was observed for requests
      of the same model and size class, and for no others; else the default. */
  lemma EstimateComesFromRoute(decay: real, served: seq<Served>, v: Json, counter: TokenCounter)
    requires 0.0 < decay <= 1.0 && counter.Validated() && Positive(served) && IsUsable(Some(v))
    ensures var r := FeaturesOf(Some(v), Routes.FeedAll(decay, FeedsOf(served)), counter);
            && r.Ok?
            && var e, hist := r.value.expectedOutputTokens, HistoryOf(served, r.value);
               && (MaxTokens(v).Some? ==> e == if MaxTokens(v).value == 0 then 1 else MaxTokens(v).value)
               && (MaxTokens(v).None? && hist == [] ==> e == 128)
               && (MaxTokens(v).None? && hist != [] ==>
                     var mean := Estimator.WeightedSum(decay, hist, |hist|);
                     && (mean < 0.5 ==> e == 1)
                     && (mean >= 0.5 ==> e as real - 0.5 <= mean < e as real + 0.5))
  {
    var feeds := FeedsOf(served);
    var view := Routes.FeedAll(decay, feeds);
    FeaturesReadRequest(Some(v), view, counter);
    var f := FeaturesOf(Some(v), view, counter).value;
    HistoryIsRoute(served, f);
    assert f.expectedOutputTokens == Routes.Resolve(view, RouteOf(f), MaxTokens(v)) by {
      hide Routes.Resolve;
    }
    hide FeaturesOf, RouteOf, Estimator.WeightedSum, HistoryOf, Routes.FeedAll;
    if MaxTokens(v).None? {
      if HistoryOf(served, f) == [] {
        Routes.UnseenRouteGetsDefault(decay, feeds, RouteOf(f));
      } else {
        Routes.ResolvedIsRoundedMean(decay, feeds, RouteOf(f));
      }
    }
  }

  /** The loop closes: after a response that reports one count on a route nothing has
      fed, a request for the same model with a prompt of the same size class and no
      limit is given exactly that count. */
  lemma EstimateIsLearned(decay: real, served: seq<Served>, f: Features, count: uint32, clock: nat -> nat, v: Json,
                          counter: TokenCounter)
    requires 0.0 < decay <= 1.0 && counter.Validated() && Positive(served) && f.promptTokens > 0
    requires HistoryOf(served, f) == [] && count > 0
    requires IsUsable(Some(v)) && MaxTokens(v) == None && v.Get("model") == Some(Sse.Str(f.model))
    requires Routes.SameRange(f.promptTokens, PromptTokens(v, counter))
    ensures var view := Routes.FedFrom(decay, Routes.FeedAll(decay, FeedsOf(served)), RouteOf(f), [count], clock, 0);
            var r := FeaturesOf(Some(v), view, counter);
            r.Ok? && r.value.expectedOutputTokens == count
  {
    var obs := Estimator.Observation(count, clock(0));
    var more := served + [Served(f, obs)];
    hide FeaturesOf, PromptTokens, IsUsable, RouteOf, HistoryOf, Routes.FeedAll, Routes.FedFrom, Routes.AsFeeds,
         Estimator.WeightedSum;
    Routes.ResponseExtendsHistory(decay, FeedsOf(served), RouteOf(f), [count], clock);
    OneMoreServed(served, f, count, clock);
    EstimateComesFromRoute(decay, more, v, counter);
    FeaturesReadRequest(Some(v), Routes.FeedAll(decay, FeedsOf(more)), counter);
    var g := FeaturesOf(Some(v), Routes.FeedAll(decay, FeedsOf(more)), counter).value;
    LearnedHistory(served, f, g, obs);
    Estimator.FirstWeight(decay, [obs]);
    NearestToWhole(g.expectedOutputTokens, count);
  }

  lemma OneMoreServed(served: seq<Served>, f: Features, count: uint32, clock: nat -> nat)
    ensures FeedsOf(served) + Routes.AsFeeds(RouteOf(f), [count], clock)
            == FeedsOf(served + [Served(f, Estimator.Observation(count, clock(0)))])
  {
  }

  lemma LearnedHistory(served: seq<Served>, f: Features, g: Features, obs: Estimator.Observation)
    requires Positive(served) && f.promptTokens > 0 && g.promptTokens > 0 && SameRoute(f, g)
    requires HistoryOf(served, f) == []
    ensures HistoryOf(served + [Served(f, obs)], g) == [obs]
  {
    SameHistory(served, f, g);
    assert (served + [Served(f, obs)])[..|served|] == served;
  }

  lemma NearestToWhole(e: uint32, n: uint32)
    ensures e as real - 0.5 <= n as real < e as real + 0.5 ==> e == n
  {
  }

  lemma SameHistory(served: seq<Served>, f: Features, g: Features)
    requires Positive(served) && f.promptTokens > 0 && g.promptTokens > 0 && SameRoute(f, g)
    ensures HistoryOf(served, g) == HistoryOf(served, f)
  {
    SameKeyIff(f, g);
    HistoryIsRoute(served, f);
    HistoryIsRoute(served, g);
  }
}
