/** The streaming relay: a partial-line buffer fed by arbitrary frames that
    drives the lease and the accounting of one response. */
module Relay {
  import opened Machine
  import opened Cost
  import opened Backends
  import opened Lease
  import opened Text
  import opened Observe
  import Routes
  import Sse
  import Utf8

  type Parser = string -> Option<Sse.Json>

  // ----- accounting

  /** Everything the relay updates as it reads. `observed` and `audits` are what
      it passed to the length estimator and to the ratio metrics, in order. */
  datatype Account = Account(
    contents: uint32,
    lease: LeaseState,
    observed: seq<uint32>,
    audits: seq<(uint32, uint32)>,
    firstToken: bool,
    sawError: bool,
    sawDoneOrError: bool)

  function OnFrame(acc: Account, f: Option<Sse.Frame>): Account {
    match f
    case Some(Content(_)) =>
      acc.(contents := WrapU32(acc.contents + 1), lease := Observed(acc.lease, 1), firstToken := true)
    case Some(Usage(p, c)) =>
      acc.(audits := acc.audits + [(p, c)], observed := if c > 0 then acc.observed + [c] else acc.observed)
    case Some(Error(_)) => acc.(sawError := true, sawDoneOrError := true)
    case Some(Done) => acc.(sawDoneOrError := true)
    case _ => acc
  }

  /** One pass over whole lines: the reference the incremental relay is held to. */
  function OnLines(parse: Parser, acc: Account, lines: seq<string>): Account {
    if lines == [] then acc
    else OnFrame(OnLines(parse, acc, lines[..|lines| - 1]), Sse.FrameOf(parse, lines[|lines| - 1]))
  }

  lemma {:induction false} OnLinesConcat(parse: Parser, acc: Account, a: seq<string>, b: seq<string>)
    ensures OnLines(parse, acc, a + b) == OnLines(parse, OnLines(parse, acc, a), b)
  {
    if b == [] {
      assert a + b == a;
    } else {
      assert (a + b)[..|a + b| - 1] == a + b[..|b| - 1];
      OnLinesConcat(parse, acc, a, b[..|b| - 1]);
    }
  }

  // ----- frames

  datatype BodyFrame = Data(bytes: seq<Utf8.byte>) | Trailers

  datatype Polled = Pending | End | Failed | Ready(frame: BodyFrame)

  /** The text a frame contributes: bytes that are not UTF-8 on their own are
      forwarded but not read. */
  function TextOf(f: BodyFrame): string {
    match f
    case Trailers => ""
    case Data(bytes) => GetOr(Utf8.FromUtf8(bytes), "")
  }

  class CountingSseBody {
    const parse: Parser
    const backend: Backend
    const lease: CostLease
    const statusIsSuccess: bool
    const metrics: Metrics
    const routeHists: Routes.RouteHistograms
    const route: Routes.RouteKey
    // What the clock reads at each of this body's estimator updates.
    const clock: nat -> nat
    ghost const start: Account
    ghost var fed: string
    var lineBuf: string
    var contentTokens: uint32
    var observed: seq<uint32>
    var audits: seq<(uint32, uint32)>
    var firstToken: bool
    var sawErrorFrame: bool
    var sawDoneOrError: bool

    function View(): Account
      reads this, lease
    {
      Account(contentTokens, lease.State(), observed, audits, firstToken, sawErrorFrame, sawDoneOrError)
    }

    /** The body stands where one pass over all complete lines fed so far would
        put it, and buffers exactly the unfinished one. */
    ghost predicate Valid()
      reads this, lease
    {
      && lease.backend == backend
      && View() == OnLines(parse, start, Lines(fed)) && lineBuf == Rest(fed)
    }

    constructor (parse: Parser, lease: CostLease, statusIsSuccess: bool, metrics: Metrics,
                 routeHists: Routes.RouteHistograms, route: Routes.RouteKey, clock: nat -> nat)
      ensures Valid() && fed == "" && this.lease == lease && this.parse == parse
      ensures this.statusIsSuccess == statusIsSuccess && this.metrics == metrics
      ensures this.routeHists == routeHists && this.route == route && this.clock == clock
      ensures start == Account(0, lease.State(), [], [], false, false, false)
    {
      this.parse := parse;
      this.lease := lease;
      this.backend := lease.backend;
      this.statusIsSuccess := statusIsSuccess;
      this.metrics := metrics;
      this.routeHists := routeHists;
      this.route := route;
      this.clock := clock;
      start := Account(0, lease.State(), [], [], false, false, false);
      fed, lineBuf := "", "";
      contentTokens, observed, audits := 0, [], [];
      firstToken, sawErrorFrame, sawDoneOrError := false, false, false;
    }

    /** The route store has taken the updates made since it held `view` and the
        body had made those in `counts`. */
    ghost predicate FedStore(view: Routes.View, counts: seq<uint32>)
      reads this`observed, routeHists, routeHists.inner.Values
    {
      && routeHists.Valid() && counts <= observed
      && routeHists.Contents() == Routes.FedFrom(routeHists.decay, view, route, observed, clock, |counts|)
    }

    lemma NothingFed(view: Routes.View, counts: seq<uint32>)
      requires routeHists.Valid() && view == routeHists.Contents() && counts == observed
      ensures FedStore(view, counts)
    {
    }

    method FeedStore(completionTokens: uint32)
      requires routeHists.Valid()
      modifies this`observed, routeHists, routeHists.inner.Values
      ensures observed == old(observed) + (if completionTokens > 0 then [completionTokens] else [])
      ensures FedStore(old(routeHists.Contents()), old(observed))
      ensures fresh(routeHists.inner.Values - old(routeHists.inner.Values))
    {
      hide Routes.Updated, Routes.FedFrom;
      NothingFed(routeHists.Contents(), observed);
      if completionTokens > 0 {
        Routes.FedOneMore(routeHists.decay, routeHists.Contents(), route, observed, completionTokens, clock);
        routeHists.Observe(route, completionTokens, clock(|observed|));
        observed := observed + [completionTokens];
      }
    }

    method CountToken()
      requires lease.backend == backend
      modifies this`contentTokens, this`firstToken, lease, backend
      ensures contentTokens == WrapU32(old(contentTokens) + 1) && firstToken
      ensures lease.State() == Observed(old(lease.State()), 1)
      ensures backend.Reading() == AddKv(old(backend.Reading()), lease.charged - old(lease.charged))
    {
      hide Observed;
      contentTokens := WrapU32(contentTokens + 1);
      lease.ObserveTokens(1);
      if !firstToken {
        firstToken := true;
      }
    }

    method Dispatch(f: Option<Sse.Frame>)
      requires lease.backend == backend && routeHists.Valid()
      modifies this`contentTokens, this`observed, this`audits, this`firstToken, this`sawErrorFrame,
               this`sawDoneOrError, lease, backend, routeHists, routeHists.inner.Values
      ensures FedStore(old(routeHists.Contents()), old(observed))
      ensures fresh(routeHists.inner.Values - old(routeHists.inner.Values))
      ensures View() == OnFrame(old(View()), f)
      ensures backend.Reading() == AddKv(old(backend.Reading()), lease.charged - old(lease.charged))
    {
      hide Observed, Routes.Updated, Routes.FedFrom, AddKv;
      NothingFed(routeHists.Contents(), observed);
      NoRecharge(backend.Reading());
      match f
      case Some(Content(_)) => CountToken();
      case Some(Usage(promptTokens, completionTokens)) =>
        audits := audits + [(promptTokens, completionTokens)];
        FeedStore(completionTokens);
      case Some(Error(_)) =>
        sawErrorFrame := true;
        sawDoneOrError := true;
      case Some(Done) =>
        sawDoneOrError := true;
      case _ =>
    }

    /** Takes one complete line off the buffer. */
    method ConsumeLine()
      requires '\n' in lineBuf && lease.backend == backend && routeHists.Valid()
      modifies this`lineBuf, this`contentTokens, this`observed, this`audits, this`firstToken, this`sawErrorFrame,
               this`sawDoneOrError, lease, backend, routeHists, routeHists.inner.Values
      ensures |lineBuf| < |old(lineBuf)| && Rest(lineBuf) == Rest(old(lineBuf))
      ensures OnLines(parse, View(), Lines(lineBuf)) == OnLines(parse, old(View()), Lines(old(lineBuf)))
      ensures FedStore(old(routeHists.Contents()), old(observed))
      ensures fresh(routeHists.inner.Values - old(routeHists.inner.Values))
      ensures backend.Reading() == AddKv(old(backend.Reading()), lease.charged - old(lease.charged))
    {
      hide OnFrame, OnLines, Lines, Rest, Routes.FedFrom, AddKv;
      var pos := IndexOf(lineBuf, '\n');
      var line := lineBuf[..pos + 1];
      FirstLine(parse, View(), lineBuf);
      lineBuf := lineBuf[pos + 1..];
      Dispatch(Sse.FrameOf(parse, line));
    }

    /** Takes complete lines off the buffer until only a partial one is left. */
    method ConsumeLines()
      requires lease.backend == backend && routeHists.Valid()
      modifies this`lineBuf, this`contentTokens, this`observed, this`audits, this`firstToken, this`sawErrorFrame,
               this`sawDoneOrError, lease, backend, routeHists, routeHists.inner.Values
      ensures FedStore(old(routeHists.Contents()), old(observed))
      ensures fresh(routeHists.inner.Values - old(routeHists.inner.Values))
      ensures View() == OnLines(parse, old(View()), Lines(old(lineBuf)))
      ensures lineBuf == Rest(old(lineBuf))
      ensures backend.Reading() == AddKv(old(backend.Reading()), lease.charged - old(lease.charged))
    {
      hide OnLines, Lines, Rest, Routes.FedFrom, AddKv;
      ghost var reading, charged, view, counts := backend.Reading(), lease.charged, routeHists.Contents(), observed;
      NothingFed(view, counts);
      NoRecharge(reading);
      while '\n' in lineBuf
        invariant OnLines(parse, View(), Lines(lineBuf)) == OnLines(parse, old(View()), Lines(old(lineBuf)))
        invariant Rest(lineBuf) == Rest(old(lineBuf))
        invariant backend.Reading() == AddKv(reading, lease.charged - charged)
        invariant FedStore(view, counts) && fresh(routeHists.inner.Values - old(routeHists.inner.Values))
        decreases |lineBuf|
      {
        ghost var before, fedBefore := lease.charged, observed;
        ConsumeLine();
        RechargeTwice(reading, charged, before, lease.charged);
        Routes.FedInTwoParts(routeHists.decay, view, route, fedBefore, observed, clock, |counts|);
      }
      NoLineLeft(parse, View(), lineBuf);
    }

    /** Appends text to the buffer and consumes the lines it completes. */
    method ReadText(text: string)
      requires Valid() && routeHists.Valid()
      modifies this, lease, backend, routeHists, routeHists.inner.Values
      ensures Valid() && fed == old(fed) + text
      ensures FedStore(old(routeHists.Contents()), old(observed))
      ensures fresh(routeHists.inner.Values - old(routeHists.inner.Values))
      ensures backend.Reading() == AddKv(old(backend.Reading()), lease.charged - old(lease.charged))
    {
      hide OnLines, Lines, Rest, FedStore, AddKv, Routes.RouteHistograms.Contents;
      LinesOfMore(fed, text);
      OnLinesConcat(parse, start, Lines(fed), Lines(lineBuf + text));
      fed := fed + text;
      lineBuf := lineBuf + text;
      ConsumeLines();
    }

    /** Handles what the inner body returned and passes it on unchanged. The route
        store takes one update per positive completion count among the new lines. */
    method PollFrame(polled: Polled) returns (forwarded: Polled)
      requires Valid() && routeHists.Valid()
      modifies this, lease, backend, routeHists, routeHists.inner.Values
      ensures FedStore(old(routeHists.Contents()), old(observed))
      ensures fresh(routeHists.inner.Values - old(routeHists.inner.Values))
      ensures Valid() && forwarded == polled
      ensures fed == old(fed) + (if polled.Ready? then TextOf(polled.frame) else "")
      ensures backend.Reading() == AddKv(old(backend.Reading()), lease.charged - old(lease.charged))
    {
      hide OnLines, Lines, Rest, Routes.FedFrom, AddKv, Utf8.FromUtf8;
      NothingFed(routeHists.Contents(), observed);
      NoRecharge(backend.Reading());
      forwarded := polled;
      if polled.Ready? && polled.frame.Data? {
        var text := Utf8.FromUtf8(polled.frame.bytes);
        if text.Some? {
          ReadText(text.value);
        }
      }
    }

    /** The body is dropped: one result is recorded, then the lease released. */
    method Drop()
      requires Valid() && !lease.released
      modifies metrics, lease, backend
      ensures metrics.results == old(metrics.results) + [!sawErrorFrame && statusIsSuccess]
      ensures metrics.backendErrors == old(metrics.backendErrors) +
              (if sawErrorFrame then ["in_band_error"] else if !statusIsSuccess then ["http_status"] else [])
      ensures metrics.saturated == old(metrics.saturated)
      ensures lease.State() == Closed(old(lease.State()))
      ensures backend.Reading() == AddKv(AddInflight(old(backend.Reading()), -1), -old(lease.charged))
    {
      var failed := sawErrorFrame || !statusIsSuccess;
      if failed {
        var kind := if sawErrorFrame then "in_band_error" else "http_status";
        metrics.backendErrors := metrics.backendErrors + [kind];
      }
      metrics.results := metrics.results + [!failed];
      lease.Release();
    }
  }

  lemma FirstLine(parse: Parser, acc: Account, text: string)
    requires '\n' in text
    ensures var i := IndexOf(text, '\n');
            && Rest(text) == Rest(text[i + 1..])
            && OnLines(parse, acc, Lines(text)) ==
               OnLines(parse, OnFrame(acc, Sse.FrameOf(parse, text[..i + 1])), Lines(text[i + 1..]))
  {
    hide IndexOf, OnFrame, Sse.FrameOf;
    var i := IndexOf(text, '\n');
    var line, rest := text[..i + 1], Lines(text[i + 1..]);
    assert Lines(text) == [line] + rest;
    hide Lines, Rest;
    OnLinesConcat(parse, acc, [line], rest);
    OneLine(parse, acc, line);
  }

  lemma OneLine(parse: Parser, acc: Account, line: string)
    ensures OnLines(parse, acc, [line]) == OnFrame(acc, Sse.FrameOf(parse, line))
  {
    hide OnFrame, Sse.FrameOf;
    assert [line][..0] == [];
    assert OnLines(parse, acc, []) == acc;
  }

  lemma NoLineLeft(parse: Parser, acc: Account, text: string)
    requires '\n' !in text
    ensures OnLines(parse, acc, Lines(text)) == acc && Rest(text) == text
  {
  }

  // ----- chunking

  /** The text a sequence of frames feeds to the parser. */
  function Fed(frames: seq<BodyFrame>): string {
    if frames == [] then "" else Fed(frames[..|frames| - 1]) + TextOf(frames[|frames| - 1])
  }

  /** The frames among what the inner body returned. */
  function FramesOf(polls: seq<Polled>): seq<BodyFrame> {
    if polls == [] then []
    else
      var rest, last := FramesOf(polls[..|polls| - 1]), polls[|polls| - 1];
      if last.Ready? then rest + [last.frame] else rest
  }

  lemma FedByOneMorePoll(polls: seq<Polled>, i: nat)
    requires i < |polls|
    ensures Fed(FramesOf(polls[..i + 1]))
            == Fed(FramesOf(polls[..i])) + (if polls[i].Ready? then TextOf(polls[i].frame) else "")
  {
    assert polls[..i + 1][..i] == polls[..i];
    var rest := FramesOf(polls[..i]);
    if polls[i].Ready? {
      assert (rest + [polls[i].frame])[..|rest|] == rest;
    }
  }

  function BytesOf(f: BodyFrame): seq<Utf8.byte> {
    match f
    case Trailers => []
    case Data(bytes) => bytes
  }

  /** The bytes the client receives for them. */
  function Bytes(frames: seq<BodyFrame>): seq<Utf8.byte> {
    if frames == [] then []
    else
      Bytes(frames[..|frames| - 1]) + BytesOf(frames[|frames| - 1])
  }

  ghost predicate WholeCharacters(f: BodyFrame) {
    f.Data? ==> Utf8.FromUtf8(f.bytes).Some?
  }

  /** The incremental relay as a fold: account and line buffer after the frames. */
  function Relayed(parse: Parser, acc: Account, frames: seq<BodyFrame>): (Account, string) {
    if frames == [] then (acc, "")
    else
      var (before, buf) := Relayed(parse, acc, frames[..|frames| - 1]);
      var text := buf + TextOf(frames[|frames| - 1]);
      (OnLines(parse, before, Lines(text)), Rest(text))
  }

  /** However the fed text was cut into frames, the relay ends where one pass
      over its lines ends, holding exactly the unfinished last line. */
  lemma {:induction false} ChunkingIndependent(parse: Parser, acc: Account, frames: seq<BodyFrame>)
    ensures Relayed(parse, acc, frames) == (OnLines(parse, acc, Lines(Fed(frames))), Rest(Fed(frames)))
  {
    if frames == [] {
    } else {
      var before, last := frames[..|frames| - 1], frames[|frames| - 1];
      ChunkingIndependent(parse, acc, before);
      LinesOfMore(Fed(before), TextOf(last));
      OnLinesConcat(parse, acc, Lines(Fed(before)), Lines(Rest(Fed(before)) + TextOf(last)));
    }
  }

  /** The whole response text reaches the parser exactly when every frame holds
      whole characters. A frame cut inside a character is lost to the accounting,
      together with everything else in it. */
  lemma FedIsResponseIff(frames: seq<BodyFrame>, text: string)
    requires Utf8.FromUtf8(Bytes(frames)) == Some(text)
    ensures Fed(frames) == text <==> forall i | 0 <= i < |frames| :: WholeCharacters(frames[i])
  {
    Utf8.EncodeDecoded(Bytes(frames));
    FedLength(frames);
    AllWholeIff(frames);
    if forall i | 0 <= i < |frames| :: WholeCharacters(frames[i]) {
      FedEncodes(frames);
      Utf8.DecodeEncoded(Fed(frames));
      Utf8.DecodeEncoded(text);
    }
  }

  lemma {:induction false} FedEncodes(frames: seq<BodyFrame>)
    requires forall i | 0 <= i < |frames| :: WholeCharacters(frames[i])
    ensures Utf8.Encode(Fed(frames)) == Bytes(frames)
  {
    if frames == [] {
    } else {
      var before, last := frames[..|frames| - 1], frames[|frames| - 1];
      FedEncodes(before);
      Utf8.EncodeConcat(Fed(before), TextOf(last));
      assert WholeCharacters(last);
      if last.Data? {
        Utf8.EncodeDecoded(last.bytes);
      }
    }
  }

  ghost predicate AllWhole(frames: seq<BodyFrame>) {
    frames == [] || (AllWhole(frames[..|frames| - 1]) && WholeCharacters(frames[|frames| - 1]))
  }

  lemma {:induction false} AllWholeIff(frames: seq<BodyFrame>)
    ensures AllWhole(frames) <==> forall i | 0 <= i < |frames| :: WholeCharacters(frames[i])
  {
    if frames == [] {
    } else {
      var before := frames[..|frames| - 1];
      AllWholeIff(before);
      assert forall i | 0 <= i < |before| :: frames[i] == before[i];
    }
  }

  /** A frame that does not decode makes the fed text strictly shorter. */
  lemma {:induction false} FedLength(frames: seq<BodyFrame>)
    ensures |Utf8.Encode(Fed(frames))| <= |Bytes(frames)|
    ensures AllWhole(frames) || |Utf8.Encode(Fed(frames))| < |Bytes(frames)|
  {
    hide TextOf, BytesOf, WholeCharacters, Utf8.Encode;
    if frames == [] {
      EncodeNothing();
    } else {
      var before, last := frames[..|frames| - 1], frames[|frames| - 1];
      FedLength(before);
      Utf8.EncodeConcat(Fed(before), TextOf(last));
      FrameLength(last);
    }
  }

  lemma EncodeNothing()
    ensures Utf8.Encode("") == []
  {
  }

  lemma FrameLength(f: BodyFrame)
    ensures |Utf8.Encode(TextOf(f))| <= |BytesOf(f)|
    ensures |Utf8.Encode(TextOf(f))| == |BytesOf(f)| ==> WholeCharacters(f)
  {
    if f.Data? {
      Utf8.EncodeDecoded(f.bytes);
      assert f.bytes == [] ==> Utf8.FromUtf8(f.bytes) == Some("");
    }
  }

  /** Whole-character cuts of the same bytes feed the parser the same text. */
  lemma SameBytesSameText(f: seq<BodyFrame>, g: seq<BodyFrame>)
    requires Bytes(f) == Bytes(g)
    requires forall i | 0 <= i < |f| :: WholeCharacters(f[i])
    requires forall i | 0 <= i < |g| :: WholeCharacters(g[i])
    ensures Fed(f) == Fed(g)
  {
    FedEncodes(f);
    FedEncodes(g);
    Utf8.DecodeEncoded(Fed(f));
    Utf8.DecodeEncoded(Fed(g));
  }

  /** Two ways to cut one response at character boundaries are accounted alike. */
  lemma SameResponseSameAccount(parse: Parser, acc: Account, f: seq<BodyFrame>, g: seq<BodyFrame>, text: string)
    requires Utf8.FromUtf8(Bytes(f)) == Some(text) && Bytes(g) == Bytes(f)
    requires forall i | 0 <= i < |f| :: WholeCharacters(f[i])
    requires forall i | 0 <= i < |g| :: WholeCharacters(g[i])
    ensures Relayed(parse, acc, f) == Relayed(parse, acc, g) == (OnLines(parse, acc, Lines(text)), Rest(text))
  {
    FedIsResponseIff(f, text);
    FedIsResponseIff(g, text);
    ChunkingIndependent(parse, acc, f);
    ChunkingIndependent(parse, acc, g);
  }

  /** A text sent in two frames that cut one of its characters. */
  function Cut(a: string, c: char, k: nat, b: string): seq<BodyFrame>
    requires 0 < k < |Utf8.EncodeChar(c)|
  {
    [Data(Utf8.Encode(a) + Utf8.EncodeChar(c)[..k]), Data(Utf8.EncodeChar(c)[k..] + Utf8.Encode(b))]
  }

  /** A cut inside a character loses everything in both frames: wherever the cut
      falls and whatever the frames carry, the relay is left as if it had not
      seen them, while the client gets the same bytes as from one whole frame. */
  lemma CutCharacterLosesBothFrames(parse: Parser, acc: Account, before: seq<BodyFrame>, a: string, c: char, k: nat,
                                    b: string)
    requires 0 < k < |Utf8.EncodeChar(c)|
    ensures Bytes(before + Cut(a, c, k, b)) == Bytes(before + [Data(Utf8.Encode(a + [c] + b))])
    ensures Fed(before + [Data(Utf8.Encode(a + [c] + b))]) == Fed(before) + (a + [c] + b)
    ensures Relayed(parse, acc, before + Cut(a, c, k, b)) == Relayed(parse, acc, before)
  {
    hide OnLines, Lines, Rest, Fed, Bytes, Relayed, Utf8.Encode, Utf8.EncodeChar, Utf8.FromUtf8;
    var whole, first, second := Data(Utf8.Encode(a + [c] + b)), Cut(a, c, k, b)[0], Cut(a, c, k, b)[1];
    Utf8.CutCharacterIsUnreadable(a, c, k, Utf8.Encode(b));
    Utf8.DecodeEncoded(a + [c] + b);
    OneMoreFrame(before, whole);
    OneMoreFrame(before, first);
    OneMoreFrame(before + [first], second);
    assert before + [first] + [second] == before + Cut(a, c, k, b);
    CutBytes(a, c, k, b);
    assert Fed(before + Cut(a, c, k, b)) == Fed(before);
    ChunkingIndependent(parse, acc, before);
    ChunkingIndependent(parse, acc, before + Cut(a, c, k, b));
    Reassemble(Bytes(before), first.bytes, second.bytes, whole.bytes);
  }

  lemma CutBytes(a: string, c: char, k: nat, b: string)
    requires 0 < k < |Utf8.EncodeChar(c)|
    ensures Cut(a, c, k, b)[0].bytes + Cut(a, c, k, b)[1].bytes == Utf8.Encode(a + [c] + b)
  {
    hide Utf8.Encode, Utf8.EncodeChar;
    EncodeAround(a, c, b);
    var code := Utf8.EncodeChar(c);
    assert code[..k] + code[k..] == code;
  }

  lemma Reassemble(before: seq<Utf8.byte>, x: seq<Utf8.byte>, y: seq<Utf8.byte>, xy: seq<Utf8.byte>)
    requires x + y == xy
    ensures before + x + y == before + xy
  {
  }

  lemma OneMoreFrame(frames: seq<BodyFrame>, f: BodyFrame)
    ensures Fed(frames + [f]) == Fed(frames) + TextOf(f)
    ensures Bytes(frames + [f]) == Bytes(frames) + BytesOf(f)
  {
    assert (frames + [f])[..|frames|] == frames;
  }

  lemma EncodeAround(a: string, c: char, b: string)
    ensures Utf8.Encode(a + [c] + b) == Utf8.Encode(a) + Utf8.EncodeChar(c) + Utf8.Encode(b)
  {
    Utf8.EncodeConcat(a + [c], b);
    Utf8.EncodeConcat(a, [c]);
    assert [c][1..] == "" && Utf8.Encode("") == [];
    assert Utf8.Encode([c]) == Utf8.EncodeChar(c);
  }

  const ACCENTED := '\U{00E9}'
  const OPENING := "{\"choices\":[{\"delta\":{\"content\":\""
  const CLOSING := "\"}}]}"
  const EVENT_TEXT := OPENING + [ACCENTED] + CLOSING

  /** `{"choices":[{"delta":{"content":"..."}}]}` */
  function ContentEvent(text: string): Sse.Json {
    var delta := Sse.Object(map["content" := Sse.Str(text)]);
    Sse.Object(map["choices" := Sse.Array([Sse.Object(map["delta" := delta])])])
  }

  /** A one-event response with an accented letter in its token, cut inside the
      letter: the uncut response counts one token, the cut one none. */
  lemma SplitCharacterLosesToken(parse: Parser, acc: Account)
    requires parse(EVENT_TEXT) == Some(ContentEvent([ACCENTED]))
    ensures |Utf8.EncodeChar(ACCENTED)| == 2
    ensures var whole := [Data(Utf8.Encode(Sse.EventLine(EVENT_TEXT)))];
            var cut := Cut("data: " + OPENING, ACCENTED, 1, CLOSING + "\n");
            && Bytes(cut) == Bytes(whole)
            && Relayed(parse, acc, whole).0.contents == WrapU32(acc.contents + 1)
            && Relayed(parse, acc, cut) == (acc, "")
  {
    hide Sse.FrameOf, Fed, Bytes, Lines, Rest, Relayed, Utf8.Encode;
    var a, b, line := "data: " + OPENING, CLOSING + "\n", Sse.EventLine(EVENT_TEXT);
    assert a + [ACCENTED] + b == line;
    CutCharacterLosesBothFrames(parse, acc, [], a, ACCENTED, 1, b);
    assert [] + Cut(a, ACCENTED, 1, b) == Cut(a, ACCENTED, 1, b);
    var whole := [Data(Utf8.Encode(line))];
    assert [] + whole == whole;
    ChunkingIndependent(parse, acc, whole);
    NothingRelayed(parse, acc);
    assert Fed(whole) == line;
    PlainEvent();
    OneEvent(parse, acc, EVENT_TEXT);
    LineEffect(parse, acc, line);
    Sse.EventOfEventLine(parse, EVENT_TEXT);
    ContentEventIsToken([ACCENTED]);
    hide Sse.EventOf, OnFrame;
    assert IsTokenLine(parse, line);
  }

  lemma NothingRelayed(parse: Parser, acc: Account)
    ensures Relayed(parse, acc, []) == (acc, "") && Fed([]) == ""
  {
  }

  lemma PlainEvent()
    ensures Sse.IsPlain(EVENT_TEXT)
  {
    assert EVENT_TEXT[0] == '{' && EVENT_TEXT[|EVENT_TEXT| - 1] == '}';
  }

  lemma ContentEventIsToken(text: string)
    requires text != ""
    ensures var o := ContentEvent(text); Sse.FirstDelta(o).Some? && Sse.IsToken(Sse.FirstDelta(o).value)
  {
  }

  /** One event line makes one frame. */
  lemma OneEvent(parse: Parser, acc: Account, text: string)
    requires Sse.IsPlain(text)
    ensures OnLines(parse, acc, Lines(Sse.EventLine(text))) == OnFrame(acc, Sse.FrameOf(parse, Sse.EventLine(text)))
  {
    hide Sse.FrameOf, OnFrame, OnLines, Lines;
    EventLines(text);
    OneLine(parse, acc, Sse.EventLine(text));
  }

  lemma EventLines(text: string)
    requires Sse.IsPlain(text)
    ensures IsLine(Sse.EventLine(text)) && Lines(Sse.EventLine(text)) == [Sse.EventLine(text)]
  {
    var line := Sse.EventLine(text);
    assert line[..|line| - 1] == "data: " + text;
    assert IsLine(line);
    PartitionUnique([line], "");
    assert Join([line]) + "" == line;
  }

  // ----- what one pass computes

  // What lines say, read off the events they carry.

  predicate IsErrorLine(parse: Parser, line: string) {
    match Sse.EventOf(parse, line)
    case Some(o) => o.Get("error").Some?
    case None => false
  }

  predicate IsDoneLine(line: string) {
    Sse.Payload(line) == "[DONE]"
  }

  predicate IsTokenLine(parse: Parser, line: string) {
    match Sse.EventOf(parse, line)
    case Some(o) => Sse.FirstDelta(o).Some? && Sse.IsToken(Sse.FirstDelta(o).value)
    case None => false
  }

  /** The token counts a line reports, if it reports usage. */
  function UsageOf(parse: Parser, line: string): Option<(uint32, uint32)> {
    match Sse.EventOf(parse, line)
    case Some(o) =>
      if Sse.IsUsage(o) then Some((Sse.Stored(o, "prompt_tokens"), Sse.Stored(o, "completion_tokens"))) else None
    case None => None
  }

  /** What one line does to the account: each kind of line moves its own fields
      and leaves the others. */
  lemma LineEffect(parse: Parser, acc: Account, line: string)
    ensures var end := OnFrame(acc, Sse.FrameOf(parse, line));
            && (IsErrorLine(parse, line) ==> end == acc.(sawError := true, sawDoneOrError := true))
            && (IsDoneLine(line) ==> end == acc.(sawDoneOrError := true))
            && (IsTokenLine(parse, line) ==>
                  end == acc.(contents := WrapU32(acc.contents + 1), lease := Observed(acc.lease, 1),
                              firstToken := true))
            && (UsageOf(parse, line).Some? ==>
                  var u := UsageOf(parse, line).value;
                  end == acc.(audits := acc.audits + [u],
                              observed := acc.observed + (if u.1 > 0 then [u.1] else [])))
            && (IsErrorLine(parse, line) || IsDoneLine(line) || IsTokenLine(parse, line)
                || UsageOf(parse, line).Some? || end == acc)
    ensures IsErrorLine(parse, line) ==>
              !IsDoneLine(line) && !IsTokenLine(parse, line) && UsageOf(parse, line) == None
    ensures IsDoneLine(line) ==> !IsTokenLine(parse, line) && UsageOf(parse, line) == None
    ensures IsTokenLine(parse, line) ==> UsageOf(parse, line) == None
  {
    Sse.FrameReadsLine(parse, line);
    if Sse.EventOf(parse, line).Some? {
      Sse.ClassifyReadsEvent(Sse.EventOf(parse, line).value);
    }
    hide Sse.EventOf, Sse.FrameOf, Sse.Payload, Sse.Classify, Sse.IsToken, Sse.IsUsage, Sse.FirstDelta, Sse.HasText,
         Sse.Stored, Sse.ErrorText, Observed;
  }

  function CountContents(parse: Parser, lines: seq<string>): nat {
    if lines == [] then 0
    else CountContents(parse, lines[..|lines| - 1]) + (if IsTokenLine(parse, lines[|lines| - 1]) then 1 else 0)
  }

  lemma {:induction false} CountContentsConcat(parse: Parser, a: seq<string>, b: seq<string>)
    ensures CountContents(parse, a + b) == CountContents(parse, a) + CountContents(parse, b)
  {
    hide IsTokenLine;
    if b == [] {
      assert a + b == a;
    } else {
      assert (a + b)[..|a + b| - 1] == a + b[..|b| - 1];
      CountContentsConcat(parse, a, b[..|b| - 1]);
    }
  }

  /** After any lines the lease has observed one token per content frame. */
  lemma {:induction false} AccountOfLines(parse: Parser, acc: Account, lines: seq<string>)
    ensures var end, n := OnLines(parse, acc, lines), CountContents(parse, lines);
            && end.contents == WrapU32(acc.contents + n)
            && end.lease == ObservedAll(acc.lease, Ones(n))
            && end.firstToken == (acc.firstToken || n > 0)
  {
    hide Sse.FrameOf, OnFrame, Observed, IsTokenLine, IsErrorLine, IsDoneLine, UsageOf;
    if lines == [] {
    } else {
      var before := lines[..|lines| - 1];
      LineEffect(parse, OnLines(parse, acc, before), lines[|lines| - 1]);
      var n := CountContents(parse, before);
      AccountOfLines(parse, acc, before);
      assert Ones(n + 1)[..n] == Ones(n);
      WrapAdds(acc.contents + n, 1);
    }
  }

  lemma ObservingKeepsOpen()
    ensures forall n: uint32, l :: Observed(l, n).released == l.released
  {
  }

  lemma {:induction false} ReadingKeepsLeaseOpen(parse: Parser, acc: Account, lines: seq<string>)
    ensures OnLines(parse, acc, lines).lease.released == acc.lease.released
  {
    hide Sse.FrameOf, Observed;
    if lines == [] {
    } else {
      assert forall n: uint32, l :: Observed(l, n).released == l.released by {
        ObservingKeepsOpen();
      }
      ReadingKeepsLeaseOpen(parse, acc, lines[..|lines| - 1]);
    }
  }

  /** Whatever the response, a lease under `PromptPlusOutput` covers the prompt
      and every content frame relayed so far, within 49 tokens of it once the
      estimate is overrun. */
  lemma ReservationCoversResponse(parse: Parser, acc: Account, lines: seq<string>)
    requires acc.lease == Opened(PromptPlusOutput, acc.lease.prompt, acc.lease.oHat)
    requires CountContents(parse, lines) + RECHARGE_STEP <= U32_MOD
    ensures var lease, n := OnLines(parse, acc, lines).lease, CountContents(parse, lines);
            acc.lease.prompt + n <= lease.charged <= acc.lease.prompt + MaxInt(acc.lease.oHat, n + RECHARGE_STEP - 1)
  {
    hide CountContents, OnLines, ObservedAll, Sum, Steps;
    var n := CountContents(parse, lines);
    AccountOfLines(parse, acc, lines);
    SumOfOnes(n);
    ProjectionTracksStream(acc.lease, Ones(n));
    ReservationCoversStream(acc.lease, Ones(n), 0);
  }

  /** The response counts as failed exactly if some line was an error frame, and
      as ended exactly if some line was an error or the end marker, wherever
      they stood. */
  lemma {:induction false} FlagsOfLines(parse: Parser, acc: Account, lines: seq<string>)
    ensures OnLines(parse, acc, lines).sawError <==>
            (acc.sawError || exists line | line in lines :: IsErrorLine(parse, line))
    ensures OnLines(parse, acc, lines).sawDoneOrError <==>
            (acc.sawDoneOrError || exists line | line in lines :: IsErrorLine(parse, line) || IsDoneLine(line))
  {
    hide Sse.FrameOf, OnFrame, Observed, IsTokenLine, IsErrorLine, IsDoneLine, UsageOf;
    if lines == [] {
    } else {
      var before, last := lines[..|lines| - 1], lines[|lines| - 1];
      FlagsOfLines(parse, acc, before);
      LineEffect(parse, OnLines(parse, acc, before), last);
      assert lines == before + [last];
      var was, now := OnLines(parse, acc, before), OnLines(parse, acc, lines);
      assert now.sawError == (was.sawError || IsErrorLine(parse, last));
      assert now.sawDoneOrError == (was.sawDoneOrError || IsErrorLine(parse, last) || IsDoneLine(last));
    }
  }

  /** The token counts reported by the usage frames, in order. */
  function Usages(parse: Parser, lines: seq<string>): seq<(uint32, uint32)> {
    if lines == [] then []
    else
      var rest := Usages(parse, lines[..|lines| - 1]);
      match UsageOf(parse, lines[|lines| - 1])
      case Some(u) => rest + [u]
      case None => rest
  }

  function Completions(usages: seq<(uint32, uint32)>): seq<uint32> {
    if usages == [] then []
    else
      var rest, c := Completions(usages[..|usages| - 1]), usages[|usages| - 1].1;
      if c > 0 then rest + [c] else rest
  }

  /** Every usage frame is audited, and the estimator is fed exactly the positive
      completion counts. */
  lemma {:induction false} UsagesOfLines(parse: Parser, acc: Account, lines: seq<string>)
    ensures OnLines(parse, acc, lines).audits == acc.audits + Usages(parse, lines)
    ensures OnLines(parse, acc, lines).observed == acc.observed + Completions(Usages(parse, lines))
  {
    hide Sse.FrameOf, OnFrame, Observed, IsTokenLine, IsErrorLine, IsDoneLine, UsageOf;
    if lines == [] {
    } else {
      var before, last := lines[..|lines| - 1], lines[|lines| - 1];
      UsagesOfLines(parse, acc, before);
      LineEffect(parse, OnLines(parse, acc, before), last);
      if UsageOf(parse, last).Some? {
        CompletionsOfMore(Usages(parse, before), UsageOf(parse, last).value);
      }
    }
  }

  lemma CompletionsOfMore(usages: seq<(uint32, uint32)>, u: (uint32, uint32))
    ensures Completions(usages + [u]) == Completions(usages) + (if u.1 > 0 then [u.1] else [])
  {
    assert (usages + [u])[..|usages|] == usages;
  }

  // ----- responses written as events

  /** A response that sends these texts, one event line each. */
  function StreamOf(texts: seq<string>): string {
    if texts == [] then "" else StreamOf(texts[..|texts| - 1]) + Sse.EventLine(texts[|texts| - 1])
  }

  function EventLinesOf(texts: seq<string>): (lines: seq<string>)
    ensures |lines| == |texts|
  {
    seq(|texts|, i requires 0 <= i < |texts| => Sse.EventLine(texts[i]))
  }

  lemma {:induction false} LinesOfStream(texts: seq<string>)
    requires forall i | 0 <= i < |texts| :: Sse.IsPlain(texts[i])
    ensures Lines(StreamOf(texts)) == EventLinesOf(texts) && Rest(StreamOf(texts)) == ""
  {
    hide Lines, Rest, Sse.EventLine, Sse.IsPlain;
    if texts == [] {
      NoLines();
    } else {
      var before, last := texts[..|texts| - 1], texts[|texts| - 1];
      LinesOfStream(before);
      EventLines(last);
      NoRestAfterLine(last);
      LinesOfMore(StreamOf(before), Sse.EventLine(last));
      assert "" + Sse.EventLine(last) == Sse.EventLine(last);
      assert EventLinesOf(texts) == EventLinesOf(before) + [Sse.EventLine(last)];
    }
  }

  lemma NoLines()
    ensures Lines("") == [] && Rest("") == ""
  {
  }

  lemma NoRestAfterLine(text: string)
    requires Sse.IsPlain(text)
    ensures Rest(Sse.EventLine(text)) == ""
  {
    EventLines(text);
    PartitionUnique([Sse.EventLine(text)], "");
    assert Join([Sse.EventLine(text)]) + "" == Sse.EventLine(text);
  }

  /** The JSON of a text: the end marker is none. */
  function EventIn(parse: Parser, text: string): Option<Sse.Json> {
    if text == "[DONE]" then None else parse(text)
  }

  /** The counts under `prompt_tokens` and `completion_tokens` of the usage events. */
  function UsagesIn(parse: Parser, texts: seq<string>): seq<(uint32, uint32)> {
    if texts == [] then []
    else
      var rest := UsagesIn(parse, texts[..|texts| - 1]);
      match EventIn(parse, texts[|texts| - 1])
      case Some(o) =>
        if Sse.IsUsage(o) then rest + [(Sse.Stored(o, "prompt_tokens"), Sse.Stored(o, "completion_tokens"))] else rest
      case None => rest
  }

  /** Read line by line, a response fails exactly if one of its texts is the JSON of
      an object with an `error`, and reports exactly the usage its texts hold. */
  lemma {:induction false} StreamReadsEvents(parse: Parser, texts: seq<string>)
    requires forall i | 0 <= i < |texts| :: Sse.IsPlain(texts[i])
    ensures (exists line | line in EventLinesOf(texts) :: IsErrorLine(parse, line)) <==>
            exists i | 0 <= i < |texts| ::
              EventIn(parse, texts[i]).Some? && EventIn(parse, texts[i]).value.Get("error").Some?
    ensures Usages(parse, EventLinesOf(texts)) == UsagesIn(parse, texts)
  {
    hide Sse.EventOf, Sse.EventLine, Sse.IsPlain, EventIn;
    forall i | 0 <= i < |texts|
      ensures Sse.EventOf(parse, EventLinesOf(texts)[i]) == EventIn(parse, texts[i])
    {
      EventInLine(parse, texts[i]);
    }
    if texts == [] {
    } else {
      var before := texts[..|texts| - 1];
      StreamReadsEvents(parse, before);
      assert EventLinesOf(texts)[..|before|] == EventLinesOf(before);
    }
    forall i | 0 <= i < |texts|
      ensures EventLinesOf(texts)[i] in EventLinesOf(texts)
    {
    }
  }

  lemma EventInLine(parse: Parser, text: string)
    requires Sse.IsPlain(text)
    ensures Sse.EventOf(parse, Sse.EventLine(text)) == EventIn(parse, text)
  {
    Sse.EventOfEventLine(parse, text);
  }

  /** The whole account after one event line, read off the JSON of its text. */
  lemma EventEffect(parse: Parser, acc: Account, text: string)
    requires Sse.IsPlain(text)
    ensures var end, o := OnLines(parse, acc, Lines(Sse.EventLine(text))), EventIn(parse, text);
            && (text == "[DONE]" ==> end == acc.(sawDoneOrError := true))
            && (text != "[DONE]" && o.None? ==> end == acc)
            && (o.Some? && o.value.Get("error").Some? ==> end == acc.(sawError := true, sawDoneOrError := true))
            && (o.Some? && Sse.IsUsage(o.value) ==>
                  var p, c := Sse.Stored(o.value, "prompt_tokens"), Sse.Stored(o.value, "completion_tokens");
                  end == acc.(audits := acc.audits + [(p, c)],
                              observed := acc.observed + (if c > 0 then [c] else [])))
            && (o.Some? && Sse.FirstDelta(o.value).Some? && Sse.IsToken(Sse.FirstDelta(o.value).value) ==>
                  end == acc.(contents := WrapU32(acc.contents + 1), lease := Observed(acc.lease, 1),
                              firstToken := true))
  {
    var line := Sse.EventLine(text);
    OneEvent(parse, acc, text);
    LineEffect(parse, acc, line);
    EventInLine(parse, text);
    Sse.PayloadOfEventLine(text);
    hide OnLines, Lines, OnFrame, Sse.FrameOf, Sse.EventOf, Sse.Payload, Observed;
  }
}
