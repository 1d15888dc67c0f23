/** The request handler, run by itself: from body to response, with every early
    exit. What interleaving and cancellation add is the fleet machine's subject. */
module Router {
  import opened Machine
  import opened Backends
  import opened Lease
  import opened Observe
  import opened PressureStrategy
  import Balance
  import Gate
  import Inbound
  import Relay
  import Routes
  import Sse
  import Text
  import Tokens

  datatype Status = PayloadTooLarge | BadRequest | ServiceUnavailable | BadGateway

  /** What arrives from outside: the body read, and what upstream does. */
  datatype BodyRead = TooLarge | Complete(json: Option<Inbound.Json>)

  datatype Upstream = RebuildFails | ConnectFails | Answers(success: bool)

  class RouterState {
    const snap: Snapshot
    const strategy: Pressure
    const routeHists: Routes.RouteHistograms
    const counter: Tokens.TokenCounter
    const parse: Relay.Parser
    const metrics: Metrics

    constructor (snap: Snapshot, strategy: Pressure, routeHists: Routes.RouteHistograms,
                 counter: Tokens.TokenCounter, parse: Relay.Parser, metrics: Metrics)
      ensures this.snap == snap && this.strategy == strategy && this.routeHists == routeHists
      ensures this.counter == counter && this.parse == parse && this.metrics == metrics
    {
      this.snap := snap;
      this.strategy := strategy;
      this.routeHists := routeHists;
      this.counter := counter;
      this.parse := parse;
      this.metrics := metrics;
    }

    ghost predicate Valid() {
      && snap.Valid() && strategy.Validated() && counter.Validated()
      && forall i, j | 0 <= i < j < |snap.backends| :: snap.backends[i] != snap.backends[j]
    }

    ghost function FeaturesOf(read: BodyRead): Inbound.Result<Inbound.Features>
      requires Valid()
      reads routeHists, routeHists.inner.Values
    {
      match read
      case TooLarge => Inbound.Err(Inbound.Malformed)
      case Complete(json) => Inbound.FeaturesOf(json, routeHists.Contents(), counter)
    }

    /** The request can be routed: its body was read and it holds model and text. */
    predicate Usable(read: BodyRead) {
      read.Complete? && Inbound.IsUsable(read.json)
    }

    /** A response streams: nothing stands in its way. */
    predicate Streamable(read: BodyRead, upstream: Upstream) {
      Usable(read) && snap.healthy != [] && upstream.Answers?
    }

    lemma FeaturesIff(read: BodyRead)
      requires Valid()
      ensures FeaturesOf(read).Ok? <==> Usable(read)
    {
      if read.Complete? {
        Inbound.FeaturesReadRequest(read.json, routeHists.Contents(), counter);
      }
    }

    ghost function RequestOf(read: BodyRead): Request
      requires Valid() && FeaturesOf(read).Ok?
      reads routeHists, routeHists.inner.Values
    {
      Request(FeaturesOf(read).value.promptTokens, FeaturesOf(read).value.expectedOutputTokens)
    }

    /** The route whose estimator the response will feed. */
    ghost function RouteOf(read: BodyRead): Routes.RouteKey
      requires Valid() && FeaturesOf(read).Ok?
      reads routeHists, routeHists.inner.Values
    {
      Inbound.RouteOf(FeaturesOf(read).value)
    }

    /** Runs the strategy, counting a dispatch that fell through the gate. */
    method Decide(req: Request, draw: nat) returns (id: nat)
      requires Valid() && snap.healthy != []
      modifies metrics`saturated
      ensures strategy.Decide(snap.Loads(), snap.healthy, req, draw) == Some(id) && id < |snap.backends|
      ensures metrics.saturated == old(metrics.saturated) +
              (if strategy.FellThrough(snap.Loads(), snap.healthy, req) then 1 else 0)
    {
      hide Pressure.Decide, Pressure.FellThrough, Pressure.Candidates, Pressure.Scores, Gate.Admits;
      ghost var loads := snap.Loads();
      var trace := new DecisionTrace();
      var picked := strategy.Pick(snap, req, draw, trace);
      assert snap.Loads() == loads;
      PickCorrect(strategy, loads, snap.healthy, req, draw);
      if trace.fellThrough {
        metrics.saturated := metrics.saturated + 1;
      }
      id := picked.value;
      assert snap.Loads() == loads;
    }

    /** Opens the lease before connecting; hands it to the response body, or drops
        it on the spot when upstream cannot be reached. */
    method Connect(backend: Backend, req: Request, upstream: Upstream, route: Routes.RouteKey, clock: nat -> nat)
      returns (body: Relay.CountingSseBody?)
      modifies metrics`backendErrors, backend
      ensures metrics.backendErrors ==
              old(metrics.backendErrors) + (if upstream.ConnectFails? then ["connect"] else [])
      ensures body != null <==> upstream.Answers?
      ensures body == null ==> backend.Reading() == old(backend.Reading())
      ensures body != null ==>
              && fresh(body) && fresh(body.lease) && body.Valid() && body.fed == ""
              && body.metrics == metrics && body.backend == backend
              && body.start.lease == body.lease.State() && body.start.observed == [] && !body.start.sawError
              && body.statusIsSuccess == upstream.success
              && body.parse == parse && body.routeHists == routeHists && body.route == route && body.clock == clock
              && body.lease.State() == Opened(strategy.kvModel, req.promptTokens, req.expectedOutputTokens)
              && backend.Reading() == AddKv(AddInflight(old(backend.Reading()), 1), body.lease.charged)
    {
      ghost var before := backend.Reading();
      var lease := new CostLease.Open(backend, req.promptTokens, req.expectedOutputTokens, strategy.kvModel);
      match upstream {
        case Answers(success) =>
          body := new Relay.CountingSseBody(parse, lease, success, metrics, routeHists, route, clock);
        case RebuildFails =>
          AddThenRemove(before, lease.charged);
          lease.Release();
          body := null;
        case ConnectFails =>
          metrics.backendErrors := metrics.backendErrors + ["connect"];
          AddThenRemove(before, lease.charged);
          lease.Release();
          body := null;
      }
    }

    /** `None` with a body to stream, or the error status. Whatever the exit, a
        request that is refused leaves every counter as it found it, and one that
        streams has charged exactly the backend the strategy decided on. */
    method HandleInner(read: BodyRead, draw: nat, upstream: Upstream, clock: nat -> nat)
      returns (refused: Option<Status>, body: Relay.CountingSseBody?)
      requires Valid()
      modifies metrics, snap.backends
      ensures refused == Some(PayloadTooLarge) <==> read.TooLarge?
      ensures refused == Some(BadRequest) <==> read.Complete? && !Inbound.IsUsable(read.json)
      ensures refused == Some(ServiceUnavailable) <==> Usable(read) && snap.healthy == []
      ensures refused == Some(BadGateway) <==> Usable(read) && snap.healthy != [] && !upstream.Answers?
      ensures (refused == None <==> Streamable(read, upstream)) && (refused == None <==> body != null)
      ensures metrics.results == old(metrics.results)
      ensures metrics.backendErrors == old(metrics.backendErrors) +
              (if Usable(read) && snap.healthy != [] && upstream.ConnectFails? then ["connect"] else [])
      ensures !Usable(read) || snap.healthy == [] ==> metrics.saturated == old(metrics.saturated)
      ensures Usable(read) && snap.healthy != [] ==>
              && old(FeaturesOf(read)).Ok?
              && metrics.saturated == old(metrics.saturated) +
                 (if strategy.FellThrough(old(snap.Loads()), snap.healthy, old(RequestOf(read))) then 1 else 0)
      ensures refused != None ==> snap.Loads() == old(snap.Loads())
      ensures refused == None ==>
              && old(FeaturesOf(read)).Ok? && Streams(body) && fresh(body) && fresh(body.lease)
              && body.route == old(RouteOf(read)) && body.clock == clock
              && upstream.Answers? && body.statusIsSuccess == upstream.success
      ensures refused == None ==>
              var req := old(RequestOf(read));
              var id := strategy.Decide(old(snap.Loads()), snap.healthy, req, draw);
              && id != None && id.value < |snap.backends| && body.backend == snap.backends[id.value]
              && body.lease.State() == Opened(strategy.kvModel, req.promptTokens, req.expectedOutputTokens)
              && snap.Loads() == Balance.Dispatched(old(snap.Loads()), id.value, strategy.NeedKv(req))
    {
      hide Inbound.FeaturesOf, Pressure.Decide, Pressure.FellThrough, Inbound.IsUsable;
      FeaturesIff(read);
      if read.TooLarge? {
        return Some(PayloadTooLarge), null;
      }
      var features := Inbound.BuildFeatures(read.json, routeHists, counter);
      if features.Err? {
        return Some(BadRequest), null;
      }
      if snap.healthy == [] {
        return Some(ServiceUnavailable), null;
      }
      var req := Request(features.value.promptTokens, features.value.expectedOutputTokens);
      var route := Inbound.RouteOf(features.value);
      ghost var before := snap.Loads();
      var id := Decide(req, draw);
      assert snap.Loads() == before;
      body := Connect(snap.backends[id], req, upstream, route, clock);
      assert forall i | 0 <= i < |snap.backends| && i != id :: snap.backends[i].Reading() == before[i];
      if body == null {
        refused := Some(BadGateway);
        assert snap.Loads() == before;
      } else {
        refused := None;
        assert snap.Loads() == Balance.Dispatched(before, id, strategy.NeedKv(req));
      }
    }

    /** A fresh body that owns an open lease. */
    ghost predicate Streams(body: Relay.CountingSseBody?)
      reads if body == null then {} else {body, body.lease}
    {
      && body != null && body.Valid() && body.fed == "" && body.metrics == metrics
      && body.start.lease == body.lease.State() && !body.lease.released
      && body.start.observed == [] && !body.start.sawError && body.parse == parse && body.routeHists == routeHists
    }

    /** Some line of the response is an error frame. */
    ghost predicate ReportsError(polls: seq<Relay.Polled>) {
      exists line | line in Text.Lines(Relay.Fed(Relay.FramesOf(polls))) :: Relay.IsErrorLine(parse, line)
    }

    /** The completion counts a response reports over these polls. */
    ghost function Reported(polls: seq<Relay.Polled>): seq<uint32> {
      Relay.Completions(Relay.Usages(parse, Text.Lines(Relay.Fed(Relay.FramesOf(polls)))))
    }

    /** The entry point: an error status becomes a response, and counts as a
        failed request at once. */
    method Handle(read: BodyRead, draw: nat, upstream: Upstream, clock: nat -> nat)
      returns (refused: Option<Status>, body: Relay.CountingSseBody?)
      requires Valid()
      modifies metrics, snap.backends
      ensures refused == Some(PayloadTooLarge) <==> read.TooLarge?
      ensures refused == Some(BadRequest) <==> read.Complete? && !Inbound.IsUsable(read.json)
      ensures refused == Some(ServiceUnavailable) <==> Usable(read) && snap.healthy == []
      ensures refused == Some(BadGateway) <==> Usable(read) && snap.healthy != [] && !upstream.Answers?
      ensures (refused == None <==> Streamable(read, upstream)) && (refused == None <==> body != null)
      ensures metrics.results == old(metrics.results) + (if refused == None then [] else [false])
      ensures refused != None ==> snap.Loads() == old(snap.Loads())
      ensures refused == None ==>
              && Streams(body) && fresh(body) && fresh(body.lease)
              && old(FeaturesOf(read)).Ok? && body.route == old(RouteOf(read)) && body.clock == clock
              && upstream.Answers? && body.statusIsSuccess == upstream.success
              && exists id | 0 <= id < |snap.backends| ::
                   && body.backend == snap.backends[id]
                   && snap.Loads() == Balance.Dispatched(old(snap.Loads()), id, body.lease.charged)
    {
      hide Inbound.FeaturesOf, Inbound.IsUsable, Pressure.Decide, Pressure.FellThrough;
      refused, body := HandleInner(read, draw, upstream, clock);
      if refused != None {
        ghost var loads := snap.Loads();
        metrics.results := metrics.results + [false];
        assert snap.Loads() == loads;
      }
    }

    lemma NothingReported()
      ensures Relay.Completions(Relay.Usages(parse, Text.Lines(""))) == []
      ensures Relay.Fed(Relay.FramesOf([])) == ""
    {
    }

    /** The client reads the response up to some point. */
    method Read(body: Relay.CountingSseBody, polls: seq<Relay.Polled>)
      requires Streams(body) && routeHists.Valid()
      modifies body, body.lease, body.backend, routeHists, routeHists.inner.Values
      ensures body.Valid() && body.fed == Relay.Fed(Relay.FramesOf(polls))
      ensures body.backend.Reading() == AddKv(old(body.backend.Reading()), body.lease.charged - old(body.lease.charged))
      ensures fresh(routeHists.inner.Values - old(routeHists.inner.Values))
      ensures body.FedStore(old(routeHists.Contents()), [])
    {
      hide AddKv, Relay.OnLines, Text.Lines, Routes.FedFrom, Relay.Fed, Relay.FramesOf, Relay.TextOf, Relay.Usages;
      ghost var reading, charged, view := body.backend.Reading(), body.lease.charged, routeHists.Contents();
      NoRecharge(reading);
      Relay.UsagesOfLines(parse, body.start, Text.Lines(body.fed));
      NothingReported();
      body.NothingFed(view, []);
      assert polls[..0] == [];
      for i := 0 to |polls|
        invariant body.Valid() && body.backend.Reading() == AddKv(reading, body.lease.charged - charged)
        invariant body.fed == Relay.Fed(Relay.FramesOf(polls[..i]))
        invariant body.FedStore(view, []) && fresh(routeHists.inner.Values - old(routeHists.inner.Values))
      {
        ghost var before, counts := body.lease.charged, body.observed;
        var forwarded := body.PollFrame(polls[i]);
        RechargeTwice(reading, charged, before, body.lease.charged);
        Relay.FedByOneMorePoll(polls, i);
        Routes.FedInTwoParts(routeHists.decay, view, body.route, counts, body.observed, body.clock, 0);
      }
      assert polls[..|polls|] == polls;
    }

    lemma AccountOfResponse(start: Relay.Account, polls: seq<Relay.Polled>)
      requires start.observed == [] && !start.sawError
      ensures var end := Relay.OnLines(parse, start, Text.Lines(Relay.Fed(Relay.FramesOf(polls))));
              && end.observed == Reported(polls) && end.sawError == ReportsError(polls)
              && end.lease.released == start.lease.released
    {
      hide Relay.OnLines, Text.Lines, Relay.Fed, Relay.FramesOf, Relay.Usages, Relay.Completions;
      var lines := Text.Lines(Relay.Fed(Relay.FramesOf(polls)));
      Relay.UsagesOfLines(parse, start, lines);
      Relay.FlagsOfLines(parse, start, lines);
      Relay.ReadingKeepsLeaseOpen(parse, start, lines);
    }

    /** The client reads the response to some point and drops it. The result is a
        success exactly for a success status and no error frame, and the route store
        has taken exactly the completion counts the response reported. */
    method Stream(body: Relay.CountingSseBody, polls: seq<Relay.Polled>)
      requires Streams(body) && routeHists.Valid()
      modifies metrics, body, body.lease, body.backend, routeHists, routeHists.inner.Values
      ensures metrics.results == old(metrics.results) + [body.statusIsSuccess && !ReportsError(polls)]
      ensures body.backend.Reading() == AddKv(AddInflight(old(body.backend.Reading()), -1), -old(body.lease.charged))
      ensures routeHists.Contents() == Routes.FedFrom(routeHists.decay, old(routeHists.Contents()), body.route,
                                                      Reported(polls), body.clock, 0)
    {
      hide AddKv, AddInflight, Relay.OnLines, Text.Lines, Routes.FedFrom, Relay.Fed, Relay.FramesOf, Closed,
           Reported, ReportsError;
      ghost var reading, charged := body.backend.Reading(), body.lease.charged;
      Read(body, polls);
      AccountOfResponse(body.start, polls);
      RemoveAfterRecharges(reading, charged, body.lease.charged);
      body.Drop();
    }

    /** A response written as event lines, however it is framed, counts as failed
        exactly if one of its texts is the JSON of an object with an `error`, and
        reports exactly the completion counts of its usage events. */
    lemma ResponseReadsEvents(polls: seq<Relay.Polled>, texts: seq<string>)
      requires Relay.Fed(Relay.FramesOf(polls)) == Relay.StreamOf(texts)
      requires forall i | 0 <= i < |texts| :: Sse.IsPlain(texts[i])
      ensures ReportsError(polls) <==>
              exists i | 0 <= i < |texts| ::
                Relay.EventIn(parse, texts[i]).Some? && Relay.EventIn(parse, texts[i]).value.Get("error").Some?
      ensures Reported(polls) == Relay.Completions(Relay.UsagesIn(parse, texts))
    {
      hide Relay.Fed, Relay.FramesOf, Relay.StreamOf, Relay.EventIn, Relay.Usages, Relay.Completions, Text.Lines;
      Relay.LinesOfStream(texts);
      Relay.StreamReadsEvents(parse, texts);
    }

    /** One whole exchange, alone: whatever arrives, whatever upstream does and
        however the response is framed, every counter ends where it started, one
        result is recorded, a success exactly when a response with a success status
        streamed without an error frame, and the route store has taken what a
        streamed response reported, or nothing. */
    method Exchange(read: BodyRead, draw: nat, upstream: Upstream, polls: seq<Relay.Polled>, clock: nat -> nat)
      requires Valid() && routeHists.Valid()
      modifies metrics, snap.backends, routeHists, routeHists.inner.Values
      ensures metrics.results == old(metrics.results) +
              [Streamable(read, upstream) && upstream.success && !ReportsError(polls)]
      ensures snap.Loads() == old(snap.Loads())
      ensures !Streamable(read, upstream) ==> routeHists.Contents() == old(routeHists.Contents())
      ensures Streamable(read, upstream) ==>
              && old(FeaturesOf(read)).Ok?
              && routeHists.Contents() == Routes.FedFrom(routeHists.decay, old(routeHists.Contents()),
                                                         old(RouteOf(read)), Reported(polls), clock, 0)
    {
      hide Inbound.FeaturesOf, AddKv, AddInflight, Routes.FedFrom, Streams, Reported, ReportsError, RouteOf,
           Routes.RouteHistograms.Contents, Inbound.IsUsable;
      ghost var before, view := snap.Loads(), routeHists.Contents();
      var refused, body := Handle(read, draw, upstream, clock);
      assert routeHists.Contents() == view;
      if refused == None {
        ghost var id: nat :| id < |snap.backends| && body.backend == snap.backends[id] &&
          snap.Loads() == Balance.Dispatched(before, id, body.lease.charged);
        ghost var held := snap.Loads();
        AddThenRemove(before[id], body.lease.charged);
        Stream(body, polls);
        assert forall i | 0 <= i < |snap.backends| && i != id :: snap.backends[i].Reading() == held[i];
        assert snap.Loads() == before;
      }
    }
  }
}
