/** The whole router as interleaved steps. Every request runs one handler, and
    a handler touches the shared counters with one atomic operation at a time:
    two loads per backend at the gate, two adds to open its lease, one add per
    recharge, two subtractions on drop. Any number of handlers interleave in
    any order. */
module Fleet {
  import opened Machine
  import opened Cost
  import opened Backends
  import opened Lease
  import Gate

  datatype Config = Config(caps: seq<Caps>, sigma: real, model: KvModel) {
    /** What config validation guarantees of the admission ceiling. */
    ghost predicate Validated() {
      0.0 < sigma <= 1.0
    }
  }

  /** Where a handler stands. `b` is the chosen backend; `admitted` says that it
      passed the gate, as opposed to a fall-through dispatch. */
  datatype Phase =
    | Reading                                            // awaiting the request body
    | Scanning(at: nat, kvLoaded: bool, kvOk: set<nat>, slotOk: set<nat>)
    | Chosen(b: nat, admitted: bool)                     // decision made, no counter touched
    | HalfOpen(b: nat, admitted: bool)                   // slot added, KV not yet
    | Connecting(b: nat, admitted: bool)                 // awaiting the upstream response
    | Streaming(b: nat, admitted: bool)                  // the response body owns the lease
    | Recharging(b: nat, admitted: bool, delta: int)     // new charge noted, not yet added
    | Dropping(b: nat, admitted: bool, owesError: bool)  // release about to start
    | HalfReleased(b: nat, admitted: bool, owesError: bool)
    | Failing                                            // about to build the error response
    | Done

  /** One run of the handler. `contents`, `opens`, `releases` and `results` count
      content frames, lease opens, lease releases and recorded request results. */
  datatype Handler = Handler(
    healthy: seq<nat>,
    prompt: uint32,
    oHat0: uint32,
    phase: Phase,
    lease: LeaseState,
    contents: nat,
    opens: nat,
    releases: nat,
    results: nat,
    responded: bool)

  datatype Action =
    | Reject            // body too large, malformed, or nothing healthy
    | Cancel            // the client goes away while the handler awaits
    | Begin             // body read: start the gate scan
    | GateLoad          // the gate's next atomic load
    | Choose(id: nat)   // the strategy returns this backend
    | Atomic            // the next atomic counter update of an open, recharge or drop
    | UpstreamFails     // request rebuild or connect error
    | Respond           // upstream answered; the body takes the lease
    | Content           // the relay sees a content frame
    | DropBody          // the response body is dropped
    | ReplyError        // the error response is built

  datatype Effect = Quiet | Slots(b: nat, d: int) | Tokens(b: nat, d: int)

  datatype State = State(live: seq<Load>, handlers: seq<Handler>)

  function Apply(live: seq<Load>, e: Effect): (r: seq<Load>)
    ensures |r| == |live| && forall i | 0 <= i < |live| :: r[i].caps == live[i].caps
  {
    match e
    case Quiet => live
    case Slots(b, d) => if b < |live| then live[b := AddInflight(live[b], d)] else live
    case Tokens(b, d) => if b < |live| then live[b := AddKv(live[b], d)] else live
  }

  function NeedKv(cfg: Config, h: Handler): nat {
    cfg.model.Project(h.prompt, h.oHat0)
  }

  /** One step of one handler: its next local state and the single counter
      update it makes, or `None` when the action is not enabled. */
  function StepHandler(cfg: Config, live: seq<Load>, h: Handler, a: Action): Option<(Handler, Effect)> {
    match (h.phase, a)
    case (Reading, Reject) => Some((h.(phase := Failing), Quiet))
    case (Reading, Cancel) => Some((h.(phase := Done), Quiet))
    case (Reading, Begin) =>
      if h.healthy == [] then None
      else Some((h.(phase := Scanning(0, false, {}, {})), Quiet))
    case (Scanning(at, kvLoaded, kvOk, slotOk), GateLoad) => StepGate(cfg, live, h, at, kvLoaded, kvOk, slotOk)
    case (Scanning(at, kvLoaded, kvOk, slotOk), Choose(id)) =>
      var eligible := kvOk * slotOk;
      if at < |h.healthy| || id !in h.healthy || (eligible != {} && id !in eligible) then None
      else Some((h.(phase := Chosen(id, eligible != {})), Quiet))
    case (Chosen(b, admitted), Atomic) =>
      Some((h.(phase := HalfOpen(b, admitted), opens := h.opens + 1), Slots(b, 1)))
    case (HalfOpen(b, admitted), Atomic) =>
      Some((h.(phase := Connecting(b, admitted)), Tokens(b, h.lease.charged)))
    case (Connecting(b, admitted), UpstreamFails) => Some((h.(phase := Dropping(b, admitted, true)), Quiet))
    case (Connecting(b, admitted), Cancel) => Some((h.(phase := Dropping(b, admitted, false)), Quiet))
    case (Connecting(b, admitted), Respond) =>
      Some((h.(phase := Streaming(b, admitted), responded := true), Quiet))
    case (Streaming(b, admitted), Content) =>
      var lease := Observed(h.lease, 1);
      var delta := lease.charged - h.lease.charged;
      var phase := if delta == 0 then Streaming(b, admitted) else Recharging(b, admitted, delta);
      Some((h.(phase := phase, lease := lease, contents := h.contents + 1), Quiet))
    case (Recharging(b, admitted, delta), Atomic) =>
      Some((h.(phase := Streaming(b, admitted)), Tokens(b, delta)))
    case (Streaming(b, admitted), DropBody) =>
      Some((h.(phase := Dropping(b, admitted, false), results := h.results + 1), Quiet))
    case (Dropping(b, admitted, owesError), Atomic) =>
      Some((h.(phase := HalfReleased(b, admitted, owesError), releases := h.releases + 1), Slots(b, -1)))
    case (HalfReleased(b, admitted, owesError), Atomic) =>
      Some((h.(phase := if owesError then Failing else Done, lease := Closed(h.lease)),
            Tokens(b, -h.lease.charged)))
    case (Failing, ReplyError) =>
      Some((h.(phase := Done, results := h.results + 1, responded := true), Quiet))
    case _ => None
  }

  /** The gate loads the KV counter of the next healthy backend, then its slots. */
  function StepGate(cfg: Config, live: seq<Load>, h: Handler, at: nat, kvLoaded: bool, kvOk: set<nat>,
                    slotOk: set<nat>): Option<(Handler, Effect)>
  {
    if at >= |h.healthy| || h.healthy[at] >= |live| then None
    else
      var id := h.healthy[at];
      if !kvLoaded then
        var ok := Gate.KvFits(live[id], NeedKv(cfg, h), cfg.sigma);
        Some((h.(phase := Scanning(at, true, if ok then kvOk + {id} else kvOk, slotOk)), Quiet))
      else
        var ok := Gate.SlotFree(live[id]);
        Some((h.(phase := Scanning(at + 1, false, kvOk, if ok then slotOk + {id} else slotOk)), Quiet))
  }

  /** One move of the machine: handler `who` takes action `what`. */
  datatype Move = Move(who: nat, what: Action)

  function Next(cfg: Config, s: State, m: Move): Option<State> {
    if m.who >= |s.handlers| then None
    else
      match StepHandler(cfg, s.live, s.handlers[m.who], m.what)
      case None => None
      case Some((h, e)) => Some(State(Apply(s.live, e), s.handlers[m.who := h]))
  }

  function After(cfg: Config, s: State, moves: seq<Move>): Option<State> {
    if moves == [] then Some(s)
    else
      match After(cfg, s, moves[..|moves| - 1])
      case None => None
      case Some(mid) => Next(cfg, mid, moves[|moves| - 1])
  }

  ghost predicate Fresh(cfg: Config, h: Handler) {
    && h.phase == Reading && h.lease == Opened(cfg.model, h.prompt, h.oHat0)
    && h.contents == h.opens == h.releases == h.results == 0 && !h.responded
    && forall i | 0 <= i < |h.healthy| :: h.healthy[i] < |cfg.caps|
  }

  /** All counters at zero, any number of requests about to arrive. */
  ghost predicate Init(cfg: Config, s: State) {
    && |s.live| == |cfg.caps|
    && (forall b | 0 <= b < |s.live| :: s.live[b] == Load(cfg.caps[b], 0, 0))
    && forall r | 0 <= r < |s.handlers| :: Fresh(cfg, s.handlers[r])
  }

  // ----- what one handler has put on the counters so far

  predicate HoldsSlot(h: Handler, b: nat) {
    match h.phase
    case HalfOpen(c, _) => c == b
    case Connecting(c, _) => c == b
    case Streaming(c, _) => c == b
    case Recharging(c, _, _) => c == b
    case Dropping(c, _, _) => c == b
    case _ => false
  }

  function SlotsOn(h: Handler, b: nat): int {
    if HoldsSlot(h, b) then 1 else 0
  }

  function KvOn(h: Handler, b: nat): int {
    match h.phase
    case Connecting(c, _) => if c == b then h.lease.charged else 0
    case Streaming(c, _) => if c == b then h.lease.charged else 0
    case Recharging(c, _, delta) => if c == b then h.lease.charged - delta else 0
    case Dropping(c, _, _) => if c == b then h.lease.charged else 0
    case HalfReleased(c, _, _) => if c == b then h.lease.charged else 0
    case _ => 0
  }

  /** 1 while the handler's lease is anywhere between open and released on `b`. */
  function LiveOn(h: Handler, b: nat): int {
    if HoldsSlot(h, b) || (h.phase.HalfReleased? && h.phase.b == b) then 1 else 0
  }

  function SlotsAt(b: nat): Handler -> int { (h: Handler) => SlotsOn(h, b) }
  function KvAt(b: nat): Handler -> int { (h: Handler) => KvOn(h, b) }
  function LiveAt(b: nat): Handler -> int { (h: Handler) => LiveOn(h, b) }

  // ----- invariants of one handler

  function LeaseAfter(cfg: Config, h: Handler, contents: nat): LeaseState {
    ObservedAll(Opened(cfg.model, h.prompt, h.oHat0), Ones(contents))
  }

  /** The four counts that say which effects a handler has had. */
  ghost predicate Counts(h: Handler, opens: nat, releases: nat, results: nat, responded: bool) {
    h.opens == opens && h.releases == releases && h.results == results && h.responded == responded
  }

  ghost predicate Bookkeeping(h: Handler) {
    match h.phase
    case Reading => Counts(h, 0, 0, 0, false)
    case Scanning(_, _, _, _) => Counts(h, 0, 0, 0, false)
    case Chosen(_, _) => Counts(h, 0, 0, 0, false)
    case HalfOpen(_, _) => Counts(h, 1, 0, 0, false)
    case Connecting(_, _) => Counts(h, 1, 0, 0, false)
    case Streaming(_, _) => Counts(h, 1, 0, 0, true)
    case Recharging(_, _, _) => Counts(h, 1, 0, 0, true)
    case Dropping(_, _, owesError) => Counts(h, 1, 0, if h.responded then 1 else 0, h.responded && !owesError)
    case HalfReleased(_, _, owesError) => Counts(h, 1, 1, if h.responded then 1 else 0, h.responded && !owesError)
    case Failing => h.opens == h.releases <= 1 && h.results == 0 && !h.responded
    case Done => h.opens == h.releases <= 1 && h.results == (if h.responded then 1 else 0)
  }

  /** Until release the lease is the opened one after `contents` single tokens;
      a recharge in flight differs from it by the delta not yet added. */
  ghost predicate LeaseOk(cfg: Config, h: Handler) {
    match h.phase
    case Failing => true
    case Done => true
    case Reading => h.contents == 0 && h.lease == LeaseAfter(cfg, h, 0)
    case Scanning(_, _, _, _) => h.contents == 0 && h.lease == LeaseAfter(cfg, h, 0)
    case Chosen(b, _) => b < |cfg.caps| && h.contents == 0 && h.lease == LeaseAfter(cfg, h, 0)
    case HalfOpen(b, _) => b < |cfg.caps| && h.contents == 0 && h.lease == LeaseAfter(cfg, h, 0)
    case Connecting(b, _) => b < |cfg.caps| && h.contents == 0 && h.lease == LeaseAfter(cfg, h, 0)
    case Recharging(b, _, delta) =>
      && b < |cfg.caps| && h.contents > 0 && h.lease == LeaseAfter(cfg, h, h.contents)
      && h.lease.charged - delta == LeaseAfter(cfg, h, h.contents - 1).charged
    case phase => phase.b < |cfg.caps| && h.lease == LeaseAfter(cfg, h, h.contents)
  }

  ghost predicate ScanOk(h: Handler, at: nat, kvLoaded: bool, kvOk: set<nat>) {
    && h.healthy != [] && at <= |h.healthy| && (kvLoaded ==> at < |h.healthy|)
    && forall id | id in kvOk :: id in h.healthy
  }

  ghost predicate HandlerOk(cfg: Config, h: Handler) {
    && (forall i | 0 <= i < |h.healthy| :: h.healthy[i] < |cfg.caps|)
    && (h.phase.Scanning? ==> ScanOk(h, h.phase.at, h.phase.kvLoaded, h.phase.kvOk))
    && Bookkeeping(h) && LeaseOk(cfg, h)
  }

  function EffectSlots(e: Effect, b: nat): int {
    if e.Slots? && e.b == b then e.d else 0
  }

  function EffectKv(e: Effect, b: nat): int {
    if e.Tokens? && e.b == b then e.d else 0
  }

  /** The counter update of a step is exactly the change in what the handler
      holds. */
  lemma StepIsAccounted(cfg: Config, live: seq<Load>, h: Handler, a: Action, b: nat)
    requires StepHandler(cfg, live, h, a).Some?
    ensures var (h', e) := StepHandler(cfg, live, h, a).value;
            && SlotsOn(h', b) - SlotsOn(h, b) == EffectSlots(e, b)
            && KvOn(h', b) - KvOn(h, b) == EffectKv(e, b)
  {
    hide Observed, Gate.KvFits;
  }

  /** What a handler keeps for its whole life. */
  ghost predicate SameRequest(h: Handler, h': Handler) {
    h'.healthy == h.healthy && h'.prompt == h.prompt && h'.oHat0 == h.oHat0
  }

  lemma StepKeepsRequest(cfg: Config, live: seq<Load>, h: Handler, a: Action)
    requires StepHandler(cfg, live, h, a).Some?
    ensures var h' := StepHandler(cfg, live, h, a).value.0;
            SameRequest(h, h') && h'.contents == h.contents + (if a.Content? then 1 else 0)
  {
    hide Observed, Gate.KvFits, Gate.SlotFree;
  }

  lemma LeaseOfRequest(cfg: Config, h: Handler, h': Handler)
    requires SameRequest(h, h')
    ensures forall n: nat :: LeaseAfter(cfg, h', n) == LeaseAfter(cfg, h, n)
  {
  }

  lemma StepKeepsHandler(cfg: Config, live: seq<Load>, h: Handler, a: Action)
    requires |live| == |cfg.caps| && HandlerOk(cfg, h) && StepHandler(cfg, live, h, a).Some?
    ensures HandlerOk(cfg, StepHandler(cfg, live, h, a).value.0)
  {
    hide Observed, LeaseAfter, Gate.KvFits, Gate.SlotFree;
    StepKeepsRequest(cfg, live, h, a);
    LeaseOfRequest(cfg, h, StepHandler(cfg, live, h, a).value.0);
    if a.Content? {
      NextLease(cfg, h);
    }
  }

  lemma NextLease(cfg: Config, h: Handler)
    ensures LeaseAfter(cfg, h, h.contents + 1) == Observed(LeaseAfter(cfg, h, h.contents), 1)
  {
    assert Ones(h.contents + 1)[..h.contents] == Ones(h.contents);
  }

  /** A handler is cancelled only at its two awaits, before the body is read and
      before upstream answers; a body is dropped only while it streams. Everything
      else it does once begun it carries through. */
  lemma GivesWayOnlyAtAwaits(cfg: Config, live: seq<Load>, h: Handler)
    ensures StepHandler(cfg, live, h, Cancel).Some? <==> h.phase.Reading? || h.phase.Connecting?
    ensures StepHandler(cfg, live, h, DropBody).Some? <==> h.phase.Streaming?
    ensures StepHandler(cfg, live, h, Reject).Some? <==> h.phase.Reading?
    ensures StepHandler(cfg, live, h, Respond).Some? <==> h.phase.Connecting?
    ensures StepHandler(cfg, live, h, UpstreamFails).Some? <==> h.phase.Connecting?
    ensures h.phase.Done? ==> forall a :: StepHandler(cfg, live, h, a) == None
  {
    hide Observed, Gate.KvFits, Gate.SlotFree;
  }
}
