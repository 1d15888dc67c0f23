/** The router refines the load generator: on a common run of events the two
    ledgers stay equal, and the two policies choose from the same backends. */
module Refinement {
  import opened Machine
  import opened Cost
  import opened Backends
  import opened Lease
  import opened Selection
  import opened PressureStrategy
  import Gate
  import LoadGen
  import Relay
  import Sse
  import Sums
  import Text

  // ----- the generator's policy

  function PyOccupancy(cfg: LoadGen.Config, s: LoadGen.State, b: nat): real
    requires b < |s.inFlight| == |s.kvProj|
  {
    MaxReal(s.inFlight[b] as real / cfg.maxNumSeqs as real, s.kvProj[b] / cfg.kvCapacity as real)
  }

  function PyScore(cfg: LoadGen.Config, s: LoadGen.State, b: nat): real
    requires b < |s.inFlight| == |s.kvProj| && cfg.theta < 1.0
  {
    var u := PyOccupancy(cfg, s, b);
    if u < cfg.theta then u
    else
      var over := (u - cfg.theta) / (1.0 - cfg.theta);
      u + cfg.penalty * (over * over)
  }

  function PyScores(cfg: LoadGen.Config, s: LoadGen.State): (r: seq<real>)
    requires |s.inFlight| == |s.kvProj| && cfg.theta < 1.0
    ensures |r| == |s.inFlight|
  {
    seq(|s.inFlight|, b requires 0 <= b < |s.inFlight| => PyScore(cfg, s, b))
  }

  predicate PyAdmits(cfg: LoadGen.Config, s: LoadGen.State, b: nat, kvNew: nat)
    requires b < |s.inFlight| == |s.kvProj|
  {
    if s.inFlight[b] >= cfg.maxNumSeqs then false
    else s.kvProj[b] + kvNew as real <= cfg.sigma * cfg.kvCapacity as real
  }

  function PyEligible(cfg: LoadGen.Config, s: LoadGen.State, kvNew: nat, n: nat): (ids: seq<nat>)
    requires n <= |s.inFlight| == |s.kvProj|
    ensures forall i | 0 <= i < |ids| :: ids[i] < n
  {
    if n == 0 then []
    else
      var rest := PyEligible(cfg, s, kvNew, n - 1);
      if PyAdmits(cfg, s, n - 1, kvNew) then rest + [n - 1] else rest
  }

  function Range(n: nat): (ids: seq<nat>)
    ensures |ids| == n && forall i | 0 <= i < n :: ids[i] == i
  {
    seq(n, i requires i >= 0 => i)
  }

  /** The backends `choose_backend` draws from under the pressure policy. */
  function PyCandidates(cfg: LoadGen.Config, s: LoadGen.State, kvNew: nat): seq<nat>
    requires |s.inFlight| == |s.kvProj| && cfg.theta < 1.0
  {
    var eligible := PyEligible(cfg, s, kvNew, |s.inFlight|);
    TieList(if eligible == [] then Range(|s.inFlight|) else eligible, PyScores(cfg, s))
  }

  // ----- the router on the same events

  datatype Router = Router(loads: seq<Load>, leases: seq<(nat, LeaseState)>)

  /** What `CostLease::open`, `observe_tokens(1)` and drop do. */
  function Step(cfg: LoadGen.Config, r: Router, e: LoadGen.Event): Router {
    match e
    case Dispatch(b, p, oHat) =>
      if b < |r.loads| && p < U32_MOD && oHat < U32_MOD then
        var l := Opened(cfg.kvModel, p, oHat);
        Router(r.loads[b := AddKv(AddInflight(r.loads[b], 1), l.charged)], r.leases + [(b, l)])
      else r
    case Token(i) =>
      if i < |r.leases| && r.leases[i].0 < |r.loads| then
        var (b, l) := r.leases[i];
        var l' := Observed(l, 1);
        Router(r.loads[b := AddKv(r.loads[b], l'.charged - l.charged)], r.leases[i := (b, l')])
      else r
    case Finish(i) =>
      if i < |r.leases| && r.leases[i].0 < |r.loads| then
        var (b, l) := r.leases[i];
        Router(r.loads[b := AddKv(AddInflight(r.loads[b], -1), -l.charged)], r.leases[i := (b, Closed(l))])
      else r
  }

  ghost predicate SameTask(cfg: LoadGen.Config, t: LoadGen.Task, l: (nat, LeaseState)) {
    && l.0 == t.backend
    && (t.live ==>
          && t.p < U32_MOD && t.oHat < U32_MOD && t.c < U32_MOD
          && l.1 == LeaseState(cfg.kvModel, t.p, t.oHat, t.c, t.kvHeld, false))
    && (!t.live ==> l.1.released)
  }

  ghost predicate SameLoad(cfg: LoadGen.Config, s: LoadGen.State, b: nat, l: Load)
    requires b < |s.inFlight| == |s.kvProj|
  {
    && l.caps == Caps(cfg.kvCapacity, cfg.maxNumSeqs)
    && l.inflight == s.inFlight[b] && l.kvProjected as real == s.kvProj[b]
  }

  ghost predicate Related(cfg: LoadGen.Config, s: LoadGen.State, r: Router) {
    && LoadGen.Shaped(s) && |r.loads| == |s.inFlight| && |r.leases| == |s.tasks|
    && (forall b | 0 <= b < |r.loads| :: SameLoad(cfg, s, b, r.loads[b]))
    && forall i | 0 <= i < |r.leases| :: SameTask(cfg, s.tasks[i], r.leases[i])
  }

  /** The numbers fit the router's machine integers; the generator's are unbounded. */
  ghost predicate InWidth(s: LoadGen.State) {
    && (forall b | 0 <= b < |s.inFlight| :: s.inFlight[b] < U32_MOD)
    && (forall b | 0 <= b < |s.kvProj| :: s.kvProj[b] < I64_HALF as real)
    && forall i | 0 <= i < |s.tasks| :: s.tasks[i].p < U32_MOD && s.tasks[i].oHat < U32_MOD && s.tasks[i].c < U32_MOD
  }

  lemma StepRefines(cfg: LoadGen.Config, s: LoadGen.State, r: Router, e: LoadGen.Event)
    requires LoadGen.Ledger(cfg, s) && Related(cfg, s, r) && LoadGen.Enabled(s, e)
    requires InWidth(s) && InWidth(LoadGen.Step(cfg, s, e))
    ensures Related(cfg, LoadGen.Step(cfg, s, e), Step(cfg, r, e))
  {
    var s', r' := LoadGen.Step(cfg, s, e), Step(cfg, r, e);
    LoadGen.StepKeepsLedger(cfg, s, e);
    TasksRefine(cfg, s, r, e);
    forall b | 0 <= b < |r'.loads| ensures SameLoad(cfg, s', b, r'.loads[b]) {
      assert SameLoad(cfg, s, b, r.loads[b]);
      LoadRefines(cfg, s, r, e, b);
    }
  }

  lemma TasksRefine(cfg: LoadGen.Config, s: LoadGen.State, r: Router, e: LoadGen.Event)
    requires LoadGen.Ledger(cfg, s) && Related(cfg, s, r) && LoadGen.Enabled(s, e)
    requires InWidth(s) && InWidth(LoadGen.Step(cfg, s, e))
    ensures var s', r' := LoadGen.Step(cfg, s, e), Step(cfg, r, e);
            && |r'.leases| == |s'.tasks| && |r'.loads| == |r.loads|
            && forall i | 0 <= i < |r'.leases| :: SameTask(cfg, s'.tasks[i], r'.leases[i])
  {
    if e.Token? {
      assert LoadGen.Step(cfg, s, e).tasks[e.task] == LoadGen.TokenTask(cfg, s.tasks[e.task]);
      TokenRefines(cfg, s.tasks[e.task], r.leases[e.task]);
    } else if e.Dispatch? {
      assert LoadGen.Step(cfg, s, e).tasks[|s.tasks|].p == e.p;
    }
  }

  lemma TokenRefines(cfg: LoadGen.Config, t: LoadGen.Task, l: (nat, LeaseState))
    requires t.live && SameTask(cfg, t, l) && LoadGen.TaskOk(cfg, t)
    requires LoadGen.TokenTask(cfg, t).oHat < U32_MOD && t.c + 1 < U32_MOD
    ensures SameTask(cfg, LoadGen.TokenTask(cfg, t), (l.0, Observed(l.1, 1)))
  {
  }

  lemma LoadRefines(cfg: LoadGen.Config, s: LoadGen.State, r: Router, e: LoadGen.Event, b: nat)
    requires LoadGen.Ledger(cfg, s) && Related(cfg, s, r) && LoadGen.Enabled(s, e)
    requires LoadGen.Ledger(cfg, LoadGen.Step(cfg, s, e)) && b < |r.loads| == |Step(cfg, r, e).loads|
    requires InWidth(s) && InWidth(LoadGen.Step(cfg, s, e))
    ensures SameLoad(cfg, LoadGen.Step(cfg, s, e), b, Step(cfg, r, e).loads[b])
  {
    hide LoadGen.Ledger, LoadGen.KvtsRemaining, Observed, AddKv, AddInflight;
    var s', l := LoadGen.Step(cfg, s, e), r.loads[b];
    assert SameLoad(cfg, s, b, l);
    CountersNonNegative(cfg, s', b);
    LoadStays(l);
    match e
    case Dispatch(c, p, oHat) =>
      assert s'.tasks[|s.tasks|].p == p && s'.tasks[|s.tasks|].oHat == oHat;
      if b == c {
        LoadFollows(cfg, s, s', b, l, 1, LoadGen.KvFor(p, oHat, cfg.kvModel));
      }
    case Token(i) =>
      var t := s.tasks[i];
      assert SameTask(cfg, t, r.leases[i]);
      assert s'.tasks[i] == LoadGen.TokenTask(cfg, t);
      TaskHolds(cfg, s, i);
      TokenRefines(cfg, t, r.leases[i]);
      if b == t.backend {
        LoadFollows(cfg, s, s', b, l, 0, LoadGen.TokenTask(cfg, t).kvHeld - t.kvHeld);
      }
    case Finish(i) =>
      var t := s.tasks[i];
      var held: int := t.kvHeld;
      assert SameTask(cfg, t, r.leases[i]);
      LoadGen.ClampsAreInert(cfg, s, i);
      if b == t.backend {
        LoadFollows(cfg, s, s', b, l, -1, -held);
      }
  }

  /** Machine counters that stay in range move as the generator's do. */
  lemma LoadFollows(cfg: LoadGen.Config, s: LoadGen.State, s': LoadGen.State, b: nat, l: Load, slots: int, kv: int)
    requires b < |s.inFlight| == |s.kvProj| && |s'.inFlight| == |s'.kvProj| == |s.inFlight|
    requires SameLoad(cfg, s, b, l)
    requires s'.inFlight[b] == s.inFlight[b] + slots && s'.kvProj[b] == s.kvProj[b] + kv as real
    requires 0 <= s'.inFlight[b] < U32_MOD && 0.0 <= s'.kvProj[b] < I64_HALF as real
    ensures SameLoad(cfg, s', b, AddKv(AddInflight(l, slots), kv))
  {
    assert (l.kvProjected + kv) as real == s'.kvProj[b];
  }

  lemma LoadStays(l: Load)
    ensures AddInflight(l, 0) == l
  {
  }

  lemma TaskHolds(cfg: LoadGen.Config, s: LoadGen.State, i: nat)
    requires LoadGen.Ledger(cfg, s) && i < |s.tasks|
    ensures LoadGen.TaskOk(cfg, s.tasks[i])
  {
  }

  lemma CountersNonNegative(cfg: LoadGen.Config, s: LoadGen.State, b: nat)
    requires LoadGen.Ledger(cfg, s) && b < |s.inFlight|
    ensures s.inFlight[b] >= 0 && s.kvProj[b] >= 0.0
  {
    assert LoadGen.Accounted(cfg, s, b);
    Sums.TotalZero(s.tasks, LoadGen.LiveOn(b));
    Sums.TotalZero(s.tasks, LoadGen.HeldOn(b));
  }

  // ----- the decision

  function RouterPolicy(cfg: LoadGen.Config): Pressure {
    Pressure(cfg.theta, cfg.penalty, cfg.sigma, cfg.kvModel)
  }

  lemma SameAdmits(cfg: LoadGen.Config, s: LoadGen.State, r: Router, b: nat, kvNew: nat)
    requires Related(cfg, s, r) && b < |r.loads| && cfg.sigma >= 0.0
    ensures PyAdmits(cfg, s, b, kvNew) == Gate.Admits(r.loads[b], kvNew, cfg.sigma)
  {
    assert SameLoad(cfg, s, b, r.loads[b]);
    Gate.CeilingIsExact(r.loads[b].caps, cfg.sigma, r.loads[b].kvProjected + kvNew);
  }

  lemma {:induction false} SameEligible(cfg: LoadGen.Config, s: LoadGen.State, r: Router, kvNew: nat, n: nat)
    requires Related(cfg, s, r) && n <= |r.loads| && cfg.sigma >= 0.0
    ensures PyEligible(cfg, s, kvNew, n) == Gate.EligibleIds(Range(n), r.loads, kvNew, cfg.sigma)
  {
    hide Gate.Admits, PyAdmits;
    if n == 0 {
    } else {
      assert Range(n)[..n - 1] == Range(n - 1);
      SameEligible(cfg, s, r, kvNew, n - 1);
      SameAdmits(cfg, s, r, n - 1, kvNew);
    }
  }

  lemma SameScore(cfg: LoadGen.Config, s: LoadGen.State, r: Router, b: nat)
    requires LoadGen.Ledger(cfg, s) && Related(cfg, s, r) && b < |r.loads| && RouterPolicy(cfg).Validated()
    ensures PyOccupancy(cfg, s, b) == Occupancy(r.loads[b])
    ensures PyScore(cfg, s, b) == PressureScore(Occupancy(r.loads[b]), cfg.theta, cfg.penalty)
  {
    assert SameLoad(cfg, s, b, r.loads[b]);
    CountersNonNegative(cfg, s, b);
    SameFormula(PyOccupancy(cfg, s, b), cfg.theta, cfg.penalty);
  }

  lemma SameFormula(u: real, theta: real, penalty: real)
    requires 0.0 < theta < 1.0
    ensures var over := (u - theta) / (1.0 - theta); penalty * (over * over) == penalty * over * over
  {
  }

  /** On related states both policies draw from the same backends, in the same
      order, for every request. */
  lemma SameCandidates(cfg: LoadGen.Config, s: LoadGen.State, r: Router, req: Request)
    requires LoadGen.Ledger(cfg, s) && Related(cfg, s, r) && RouterPolicy(cfg).Validated()
    ensures ValidIds(Range(|r.loads|), r.loads)
    ensures PyCandidates(cfg, s, LoadGen.KvFor(req.promptTokens, req.expectedOutputTokens, cfg.kvModel))
            == RouterPolicy(cfg).Ties(r.loads, Range(|r.loads|), req)
  {
    hide PyScore, PressureScore, Occupancy, TieList, PyEligible, Gate.EligibleIds, LoadGen.Ledger;
    var n := |r.loads|;
    var need := RouterPolicy(cfg).NeedKv(req);
    SameEligible(cfg, s, r, need, n);
    forall b | 0 <= b < n ensures PyScores(cfg, s)[b] == RouterPolicy(cfg).Scores(r.loads)[b] {
      SameScore(cfg, s, r, b);
    }
    assert PyScores(cfg, s) == RouterPolicy(cfg).Scores(r.loads);
  }

  // ----- which frames count as tokens

  /** Python truthiness of a JSON value. */
  predicate Truthy(v: Sse.Json) {
    match v
    case Null => false
    case Bool(b) => b
    case Whole(n) => n != 0
    case Fractional(x) => x != 0.0
    case Str(s) => s != ""
    case Array(items) => items != []
    case Object(fields) => fields != map[]
  }

  /** The shapes the generator can index into without raising. */
  predicate WellShaped(o: Sse.Json) {
    && o.Object?
    && match o.Get("choices")
       case Some(Array(choices)) =>
         choices != [] ==>
           && choices[0].Object?
           && (choices[0].Get("delta").Some? ==> choices[0].Get("delta").value.Object?)
       case Some(v) => !Truthy(v)
       case None => true
  }

  /** The generator's reading of one event: does it count as a token? */
  predicate PyCounts(o: Sse.Json)
    requires WellShaped(o)
  {
    if o.Get("error").Some? then false
    else
      match o.Get("choices")
      case Some(Array(choices)) =>
        if choices == [] then false
        else
          var delta := Text.GetOr(choices[0].Get("delta"), Sse.Object(map[]));
          Truthy(Text.GetOr(delta.Get("content"), Sse.Str("")))
      case _ => false
  }

  predicate RouterCounts(o: Sse.Json) {
    match Sse.Classify(Sse.JsonLine(o))
    case Some(Content(_)) => true
    case _ => false
  }

  /** A delta with content that is true to Python, but next to a role or not text. */
  predicate IsDisputed(delta: Sse.Json) {
    && Truthy(Text.GetOr(delta.Get("content"), Sse.Null))
    && (delta.Get("role").Some? || !Sse.HasText(delta))
  }

  lemma RouterCountsIff(o: Sse.Json)
    ensures RouterCounts(o) <==> Sse.FirstDelta(o).Some? && Sse.IsToken(Sse.FirstDelta(o).value)
  {
    Sse.ClassifyReadsEvent(o);
  }

  /** Router and generator read an event differently exactly when its first delta
      is disputed, and then it is the generator that counts it. */
  lemma EventsCountAlikeIff(o: Sse.Json)
    requires WellShaped(o)
    ensures RouterCounts(o) ==> PyCounts(o)
    ensures RouterCounts(o) != PyCounts(o) <==> Sse.FirstDelta(o).Some? && IsDisputed(Sse.FirstDelta(o).value)
  {
  }

  /** The generator reads only lines that start with the prefix, the marker that
      ends a stream is no event, and empty text is no JSON. */
  function PyEventOf(parse: string -> Option<Sse.Json>, line: string): Option<Sse.Json> {
    if !(Sse.PREFIX <= line) then None
    else
      var d := Text.Trim(line[|Sse.PREFIX|..]);
      if d == "" || d == "[DONE]" then None else parse(d)
  }

  predicate PyCountsLine(parse: string -> Option<Sse.Json>, line: string)
    requires PyEventOf(parse, line).Some? ==> WellShaped(PyEventOf(parse, line).value)
  {
    PyEventOf(parse, line).Some? && PyCounts(PyEventOf(parse, line).value)
  }

  predicate RouterCountsLine(parse: string -> Option<Sse.Json>, line: string) {
    match Sse.FrameOf(parse, line)
    case Some(Content(_)) => true
    case _ => false
  }

  /** On raw lines there is one more dispute: the router also reads a line that
      has whitespace before the prefix or no prefix at all. The two count a line
      differently exactly when it has the prefix in front and a disputed event, or
      does not and carries a token. */
  lemma LinesCountAlikeIff(parse: string -> Option<Sse.Json>, line: string)
    requires PyEventOf(parse, line).Some? ==> WellShaped(PyEventOf(parse, line).value)
    ensures RouterCountsLine(parse, line) != PyCountsLine(parse, line) <==>
            match Sse.EventOf(parse, line)
            case None => false
            case Some(o) =>
              Sse.FirstDelta(o).Some? &&
              (if Sse.PREFIX <= line then IsDisputed(Sse.FirstDelta(o).value) else Sse.IsToken(Sse.FirstDelta(o).value))
  {
    RouterReadsEvent(parse, line);
    if Sse.PREFIX <= line {
      SameEvent(parse, line);
    }
    if Sse.EventOf(parse, line).Some? {
      var o := Sse.EventOf(parse, line).value;
      RouterCountsIff(o);
      if Sse.PREFIX <= line {
        EventsCountAlikeIff(o);
      }
    }
  }

  lemma RouterReadsEvent(parse: string -> Option<Sse.Json>, line: string)
    ensures RouterCountsLine(parse, line) <==>
            Sse.EventOf(parse, line).Some? && RouterCounts(Sse.EventOf(parse, line).value)
  {
    hide Sse.Payload;
  }

  /** Behind the prefix both sides parse the same text. */
  lemma SameEvent(parse: string -> Option<Sse.Json>, line: string)
    requires Sse.PREFIX <= line
    ensures Sse.EventOf(parse, line) == PyEventOf(parse, line)
  {
    var rest := line[|Sse.PREFIX|..];
    assert line == Sse.PREFIX + rest;
    Sse.PayloadOfData(rest);
    hide Sse.Payload, Text.Trim;
    Text.TrimTwice(rest);
  }

  // An opening event that brings its role and its first text together.
  const OPENING_DELTA := Sse.Object(map["role" := Sse.Str("assistant"), "content" := Sse.Str("Hi")])
  const OPENING_EVENT :=
    Sse.Object(map["choices" := Sse.Array([Sse.Object(map["delta" := OPENING_DELTA])])])

  /** Such an event is a token to the generator and none to the router. */
  lemma OpeningEventIsDisputed()
    ensures WellShaped(OPENING_EVENT) && PyCounts(OPENING_EVENT) && !RouterCounts(OPENING_EVENT)
  {
    assert Sse.FirstDelta(OPENING_EVENT) == Some(OPENING_DELTA);
    EventsCountAlikeIff(OPENING_EVENT);
  }

  /** A bare event is a token to the router and nothing to the generator. */
  lemma BareEventIsDisputed(parse: string -> Option<Sse.Json>, text: string, token: string)
    requires Sse.IsPlain(text) && text != "[DONE]" && !(Sse.PREFIX <= text) && token != ""
    requires parse(text) == Some(Relay.ContentEvent(token))
    ensures RouterCountsLine(parse, text) && !PyCountsLine(parse, text)
  {
    Sse.PayloadOfPlain(text);
    RouterReadsEvent(parse, text);
    var delta := Sse.Object(map["content" := Sse.Str(token)]);
    assert Sse.FirstDelta(Relay.ContentEvent(token)) == Some(delta);
    RouterCountsIff(Relay.ContentEvent(token));
  }

  // ----- whole runs

  function RouterAfter(cfg: LoadGen.Config, r: Router, events: seq<LoadGen.Event>): Router
    decreases |events|
  {
    if events == [] then r else RouterAfter(cfg, Step(cfg, r, events[0]), events[1..])
  }

  ghost predicate InWidthRun(cfg: LoadGen.Config, s: LoadGen.State, events: seq<LoadGen.Event>)
    decreases |events|
  {
    InWidth(s) &&
    (events == [] ||
     (&& LoadGen.Shaped(s) && LoadGen.Enabled(s, events[0])
      && InWidthRun(cfg, LoadGen.Step(cfg, s, events[0]), events[1..])))
  }

  lemma {:induction false} RunsRefine(cfg: LoadGen.Config, s: LoadGen.State, r: Router, events: seq<LoadGen.Event>,
                                      end: LoadGen.State)
    requires LoadGen.Ledger(cfg, s) && Related(cfg, s, r)
    requires LoadGen.IsRun(cfg, s, events, end) && InWidthRun(cfg, s, events)
    ensures Related(cfg, end, RouterAfter(cfg, r, events)) && LoadGen.Ledger(cfg, end)
    decreases |events|
  {
    if events == [] {
    } else {
      StepRefines(cfg, s, r, events[0]);
      LoadGen.StepKeepsLedger(cfg, s, events[0]);
      RunsRefine(cfg, LoadGen.Step(cfg, s, events[0]), Step(cfg, r, events[0]), events[1..], end);
    }
  }

  function Idle(cfg: LoadGen.Config, backends: nat): Router {
    Router(seq(backends, _ => Load(Caps(cfg.kvCapacity, cfg.maxNumSeqs), 0, 0)), [])
  }

  lemma StartIsRelated(cfg: LoadGen.Config, backends: nat)
    ensures Related(cfg, LoadGen.Start(backends), Idle(cfg, backends))
  {
  }

  /** From idle, after any common run within machine widths, the router's counters
      equal the generator's and every decision is drawn from the same list. */
  lemma RouterMatchesGenerator(cfg: LoadGen.Config, backends: nat, events: seq<LoadGen.Event>, end: LoadGen.State,
                               req: Request)
    requires RouterPolicy(cfg).Validated()
    requires LoadGen.IsRun(cfg, LoadGen.Start(backends), events, end)
    requires InWidthRun(cfg, LoadGen.Start(backends), events)
    ensures var r := RouterAfter(cfg, Idle(cfg, backends), events);
            && |r.loads| == |end.inFlight| == |end.kvProj|
            && (forall b | 0 <= b < |r.loads| ::
                  r.loads[b].inflight == end.inFlight[b] && r.loads[b].kvProjected as real == end.kvProj[b])
            && ValidIds(Range(|r.loads|), r.loads)
            && PyCandidates(cfg, end, LoadGen.KvFor(req.promptTokens, req.expectedOutputTokens, cfg.kvModel))
               == RouterPolicy(cfg).Ties(r.loads, Range(|r.loads|), req)
  {
    hide PyCandidates, Pressure.Ties, RouterAfter, InWidthRun, LoadGen.IsRun, LoadGen.Ledger;
    StartIsRelated(cfg, backends);
    LoadGen.StartIsAccounted(cfg, backends);
    RunsRefine(cfg, LoadGen.Start(backends), Idle(cfg, backends), events, end);
    var r := RouterAfter(cfg, Idle(cfg, backends), events);
    SameCandidates(cfg, end, r, req);
    assert forall b | 0 <= b < |r.loads| :: SameLoad(cfg, end, b, r.loads[b]);
  }

  // ----- the closed loop

  /** What drives both sides: a request with the random draw its tie-break will use,
      a token of a stream, or the end of one. */
  datatype Command = Arrive(req: Request, draw: nat) | MoreTokens(task: nat) | EndOf(task: nat)

  /** The event the generator makes of a command, its own choice of backend
      included. `None` if it has no backend to draw from, or the task has ended. */
  ghost function PyEvent(cfg: LoadGen.Config, s: LoadGen.State, c: Command): Option<LoadGen.Event>
    requires LoadGen.Shaped(s) && cfg.theta < 1.0
    ensures PyEvent(cfg, s, c).Some? ==> LoadGen.Enabled(s, PyEvent(cfg, s, c).value)
  {
    match c
    case Arrive(req, draw) =>
      var from := PyCandidates(cfg, s, LoadGen.KvFor(req.promptTokens, req.expectedOutputTokens, cfg.kvModel));
      if from == [] then None
      else
        CandidatesAreBackends(cfg, s, LoadGen.KvFor(req.promptTokens, req.expectedOutputTokens, cfg.kvModel));
        Some(LoadGen.Dispatch(DrawFrom(from, draw), req.promptTokens, req.expectedOutputTokens))
    case MoreTokens(i) => if i < |s.tasks| && s.tasks[i].live then Some(LoadGen.Token(i)) else None
    case EndOf(i) => if i < |s.tasks| && s.tasks[i].live then Some(LoadGen.Finish(i)) else None
  }

  lemma CandidatesAreBackends(cfg: LoadGen.Config, s: LoadGen.State, kvNew: nat)
    requires |s.inFlight| == |s.kvProj| && cfg.theta < 1.0
    ensures forall id | id in PyCandidates(cfg, s, kvNew) :: id < |s.inFlight|
  {
    hide PyScores;
    var eligible := PyEligible(cfg, s, kvNew, |s.inFlight|);
    var pool := if eligible == [] then Range(|s.inFlight|) else eligible;
    forall id | id in PyCandidates(cfg, s, kvNew) ensures id < |s.inFlight| {
      TieListIsArgmin(pool, PyScores(cfg, s), id);
    }
  }

  /** The event the router makes of it, by its strategy over all backends. */
  function RouterEvent(cfg: LoadGen.Config, r: Router, c: Command): Option<LoadGen.Event>
    requires 0.0 < cfg.theta < 1.0
  {
    match c
    case Arrive(req, draw) =>
      assert ValidIds(Range(|r.loads|), r.loads);
      (match RouterPolicy(cfg).Decide(r.loads, Range(|r.loads|), req, draw)
       case None => None
       case Some(id) => Some(LoadGen.Dispatch(id, req.promptTokens, req.expectedOutputTokens)))
    case MoreTokens(i) => if i < |r.leases| && !r.leases[i].1.released then Some(LoadGen.Token(i)) else None
    case EndOf(i) => if i < |r.leases| && !r.leases[i].1.released then Some(LoadGen.Finish(i)) else None
  }

  ghost function PyNext(cfg: LoadGen.Config, s: LoadGen.State, c: Command): LoadGen.State
    requires LoadGen.Shaped(s) && cfg.theta < 1.0
  {
    match PyEvent(cfg, s, c)
    case None => s
    case Some(e) => LoadGen.Step(cfg, s, e)
  }

  function RouterNext(cfg: LoadGen.Config, r: Router, c: Command): Router
    requires 0.0 < cfg.theta < 1.0
  {
    match RouterEvent(cfg, r, c)
    case None => r
    case Some(e) => Step(cfg, r, e)
  }

  /** The events each side makes of a script, in order. */
  ghost function PyPlay(cfg: LoadGen.Config, s: LoadGen.State, script: seq<Command>): seq<Option<LoadGen.Event>>
    requires cfg.theta < 1.0
    decreases |script|
  {
    if script == [] || !LoadGen.Shaped(s) then []
    else [PyEvent(cfg, s, script[0])] + PyPlay(cfg, PyNext(cfg, s, script[0]), script[1..])
  }

  function RouterPlay(cfg: LoadGen.Config, r: Router, script: seq<Command>): seq<Option<LoadGen.Event>>
    requires 0.0 < cfg.theta < 1.0
    decreases |script|
  {
    if script == [] then []
    else [RouterEvent(cfg, r, script[0])] + RouterPlay(cfg, RouterNext(cfg, r, script[0]), script[1..])
  }

  ghost predicate InWidthScript(cfg: LoadGen.Config, s: LoadGen.State, script: seq<Command>)
    requires cfg.theta < 1.0
    decreases |script|
  {
    InWidth(s) &&
    (script == [] || (LoadGen.Shaped(s) && InWidthScript(cfg, PyNext(cfg, s, script[0]), script[1..])))
  }

  lemma SameEventOf(cfg: LoadGen.Config, s: LoadGen.State, r: Router, c: Command)
    requires LoadGen.Ledger(cfg, s) && Related(cfg, s, r) && RouterPolicy(cfg).Validated()
    ensures PyEvent(cfg, s, c) == RouterEvent(cfg, r, c)
  {
    hide PyCandidates, Pressure.Ties, LoadGen.Ledger;
    match c
    case Arrive(req, draw) => SameCandidates(cfg, s, r, req);
    case MoreTokens(i) => assert i < |r.leases| ==> SameTask(cfg, s.tasks[i], r.leases[i]);
    case EndOf(i) => assert i < |r.leases| ==> SameTask(cfg, s.tasks[i], r.leases[i]);
  }

  lemma {:induction false} PlaysAlike(cfg: LoadGen.Config, s: LoadGen.State, r: Router, script: seq<Command>)
    requires LoadGen.Ledger(cfg, s) && Related(cfg, s, r) && RouterPolicy(cfg).Validated()
    requires InWidthScript(cfg, s, script)
    ensures PyPlay(cfg, s, script) == RouterPlay(cfg, r, script)
    decreases |script|
  {
    hide PyEvent, RouterEvent, LoadGen.Ledger, InWidth, LoadGen.Step, Step;
    if script == [] {
    } else {
      SameEventOf(cfg, s, r, script[0]);
      if PyEvent(cfg, s, script[0]).Some? {
        var e := PyEvent(cfg, s, script[0]).value;
        WidthAhead(cfg, PyNext(cfg, s, script[0]), script[1..]);
        StepRefines(cfg, s, r, e);
        LoadGen.StepKeepsLedger(cfg, s, e);
      }
      PlaysAlike(cfg, PyNext(cfg, s, script[0]), RouterNext(cfg, r, script[0]), script[1..]);
    }
  }

  lemma WidthAhead(cfg: LoadGen.Config, s: LoadGen.State, script: seq<Command>)
    requires cfg.theta < 1.0 && InWidthScript(cfg, s, script)
    ensures InWidth(s)
  {
  }

  /** The closed loop: fed the same requests, draws, tokens and ends, router and
      generator send every request of the whole run to the same backend. */
  lemma SameDispatches(cfg: LoadGen.Config, backends: nat, script: seq<Command>)
    requires RouterPolicy(cfg).Validated() && InWidthScript(cfg, LoadGen.Start(backends), script)
    ensures PyPlay(cfg, LoadGen.Start(backends), script) == RouterPlay(cfg, Idle(cfg, backends), script)
  {
    StartIsRelated(cfg, backends);
    LoadGen.StartIsAccounted(cfg, backends);
    PlaysAlike(cfg, LoadGen.Start(backends), Idle(cfg, backends), script);
  }
}
