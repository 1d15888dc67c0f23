/** How far concurrent decisions can overshoot the admission ceiling. The gate
    reads the counters and the lease opens later, so decisions that are in
    between do not see each other. */
module FleetAdmission {
  import opened Machine
  import opened Cost
  import opened Sums
  import opened Lease
  import opened Fleet
  import opened FleetLedger
  import Gate

  /** The two limits of the gate. */
  datatype Resource = Kv | Slot

  function Limit(cfg: Config, res: Resource, caps: Caps): int {
    if res.Kv? then Gate.Ceiling(caps, cfg.sigma) else caps.maxNumSeqs
  }

  function Counter(res: Resource, l: Load): int {
    if res.Kv? then l.kvProjected else l.inflight
  }

  /** What an admitted request takes of a limit: its initial charge, or one slot. */
  function Weight(cfg: Config, res: Resource, h: Handler): nat {
    if res.Kv? then NeedKv(cfg, h) else 1
  }

  /** Passed the gate's read on `b`, not yet added to the counter of `b`. */
  predicate IsPending(res: Resource, h: Handler, b: nat) {
    match h.phase
    case Scanning(_, _, kvOk, slotOk) => b in (if res.Kv? then kvOk else slotOk)
    case Chosen(c, admitted) => c == b && admitted
    case HalfOpen(c, admitted) => c == b && admitted && res.Kv?
    case _ => false
  }

  /** Admitted to `b` and counted there. */
  predicate IsHeld(res: Resource, h: Handler, b: nat) {
    match h.phase
    case HalfOpen(c, admitted) => c == b && admitted && res.Slot?
    case Connecting(c, admitted) => c == b && admitted
    case Streaming(c, admitted) => c == b && admitted
    case Recharging(c, admitted, _) => c == b && admitted
    case Dropping(c, admitted, _) => c == b && admitted
    case HalfReleased(c, admitted, _) => c == b && admitted && res.Kv?
    case _ => false
  }

  function Pending(cfg: Config, res: Resource, h: Handler, b: nat): int {
    if IsPending(res, h, b) then Weight(cfg, res, h) else 0
  }

  function Held(cfg: Config, res: Resource, h: Handler, b: nat): int {
    if IsHeld(res, h, b) then Weight(cfg, res, h) else 0
  }

  /** Between the gate's first read and the opened lease. */
  function Deciding(h: Handler): int {
    if h.phase.Scanning? || h.phase.Chosen? || h.phase.HalfOpen? then 1 else 0
  }

  function PendingAt(cfg: Config, res: Resource, b: nat): Handler -> int {
    (h: Handler) => Pending(cfg, res, h, b)
  }

  function HeldAt(cfg: Config, res: Resource, b: nat): Handler -> int {
    (h: Handler) => Held(cfg, res, h, b)
  }

  function ClaimAt(cfg: Config, res: Resource, b: nat): Handler -> int {
    (h: Handler) => Pending(cfg, res, h, b) + Held(cfg, res, h, b)
  }

  function DecidingAll(): Handler -> int {
    (h: Handler) => Deciding(h)
  }

  /** At most `k` decisions under way, none projecting more than `m` tokens, and
      no machine width in sight: fewer than 2^30 live leases per backend and
      streams shorter than 2^32 - 50 frames. */
  ghost predicate Modest(cfg: Config, s: State, k: nat, m: nat) {
    && Total(s.handlers, DecidingAll()) <= k
    && (forall i | 0 <= i < |s.handlers| :: NeedKv(cfg, s.handlers[i]) <= m)
    && (forall i | 0 <= i < |s.handlers| :: s.handlers[i].contents + RECHARGE_STEP <= U32_MOD)
    && forall b | 0 <= b < |s.live| :: Total(s.handlers, LiveAt(b)) < LIVE_LIMIT
  }

  function Most(res: Resource, m: nat): nat {
    if res.Kv? then m else 1
  }

  ghost predicate WithinOvershoot(cfg: Config, s: State, res: Resource, b: nat, k: nat, m: nat)
    requires b < |s.live| && k > 0
  {
    Total(s.handlers, ClaimAt(cfg, res, b)) <= Limit(cfg, res, s.live[b].caps) + (k - 1) * Most(res, m)
  }

  // ----- one step

  /** A step never raises a claim, except a successful read at the gate. */
  lemma ClaimMoves(cfg: Config, live: seq<Load>, h: Handler, a: Action, res: Resource, b: nat)
    requires StepHandler(cfg, live, h, a).Some? && b < |live|
    ensures var h', claim := StepHandler(cfg, live, h, a).value.0, ClaimAt(cfg, res, b);
            || claim(h') <= claim(h)
            || (&& h.phase.Scanning? && claim(h) == 0 && claim(h') == Weight(cfg, res, h)
                && Counter(res, live[b]) + Weight(cfg, res, h) <= Limit(cfg, res, live[b].caps))
  {
    hide Observed, Gate.Ceiling;
  }

  /** A live lease never holds less than its initial charge. */
  lemma ChargeCoversNeed(cfg: Config, h: Handler, contents: nat)
    requires contents + RECHARGE_STEP <= U32_MOD
    ensures NeedKv(cfg, h) <= LeaseAfter(cfg, h, contents).charged
  {
    SumOfOnes(contents);
    ReservationCoversStream(Opened(cfg.model, h.prompt, h.oHat0), Ones(contents), 0);
  }

  lemma HeldIsCounted(cfg: Config, h: Handler, b: nat)
    requires HandlerOk(cfg, h) && h.contents + RECHARGE_STEP <= U32_MOD
    ensures Held(cfg, Kv, h, b) <= KvOn(h, b)
    ensures Held(cfg, Slot, h, b) <= SlotsOn(h, b)
  {
    ChargeCoversNeed(cfg, h, h.contents);
    if h.phase.Recharging? {
      ChargeCoversNeed(cfg, h, h.contents - 1);
    }
    HoldsWithinLimits(cfg, h, b);
  }

  lemma HeldWithinCounter(cfg: Config, s: State, res: Resource, b: nat, k: nat, m: nat)
    requires Ledger(cfg, s) && Modest(cfg, s, k, m) && b < |s.live|
    ensures Total(s.handlers, HeldAt(cfg, res, b)) <= Counter(res, s.live[b])
  {
    CountersAreExact(cfg, s, b);
    forall i | 0 <= i < |s.handlers|
      ensures HeldAt(cfg, res, b)(s.handlers[i]) <= (if res.Kv? then KvAt(b) else SlotsAt(b))(s.handlers[i])
    {
      HeldIsCounted(cfg, s.handlers[i], b);
    }
    TotalMono(s.handlers, HeldAt(cfg, res, b), if res.Kv? then KvAt(b) else SlotsAt(b));
  }

  /** The other decisions under way can hold at most `k - 1` unopened claims. */
  lemma OthersPending(cfg: Config, s: State, res: Resource, b: nat, k: nat, m: nat, r: nat)
    requires Modest(cfg, s, k, m) && r < |s.handlers| && k > 0
    requires s.handlers[r].phase.Scanning? && Pending(cfg, res, s.handlers[r], b) == 0
    ensures Total(s.handlers, PendingAt(cfg, res, b)) <= (k - 1) * Most(res, m)
  {
    var idle := s.handlers[r].(phase := Done);
    var others := s.handlers[r := idle];
    TotalUpdate(s.handlers, PendingAt(cfg, res, b), r, idle);
    TotalUpdate(s.handlers, DecidingAll(), r, idle);
    TotalWithin(others, PendingAt(cfg, res, b), DecidingAll(), Most(res, m));
    ScaleMono(Most(res, m), Total(others, DecidingAll()), k - 1);
  }

  lemma ScaleMono(c: nat, x: int, y: int)
    requires x <= y
    ensures c * x <= y * c
  {
  }

  lemma StepKeepsOvershoot(cfg: Config, s: State, mv: Move, res: Resource, b: nat, k: nat, m: nat)
    requires Ledger(cfg, s) && Modest(cfg, s, k, m) && Next(cfg, s, mv).Some? && b < |s.live| && k > 0
    requires WithinOvershoot(cfg, s, res, b, k, m)
    ensures WithinOvershoot(cfg, Next(cfg, s, mv).value, res, b, k, m)
  {
    hide StepHandler, HandlerOk, Gate.Ceiling;
    var h := s.handlers[mv.who];
    var h' := StepHandler(cfg, s.live, h, mv.what).value.0;
    var claim := ClaimAt(cfg, res, b);
    ClaimMoves(cfg, s.live, h, mv.what, res, b);
    TotalUpdate(s.handlers, claim, mv.who, h');
    if claim(h') > claim(h) {
      HeldWithinCounter(cfg, s, res, b, k, m);
      OthersPending(cfg, s, res, b, k, m, mv.who);
      TotalAdds(s.handlers, claim, PendingAt(cfg, res, b), HeldAt(cfg, res, b));
    }
  }

  // ----- whole runs

  /** Every state the run passes through is modest. */
  ghost predicate ModestRun(cfg: Config, s: State, moves: seq<Move>, k: nat, m: nat) {
    After(cfg, s, moves).Some? && Modest(cfg, After(cfg, s, moves).value, k, m)
    && (moves == [] || ModestRun(cfg, s, moves[..|moves| - 1], k, m))
  }

  lemma {:induction false} OvershootAlways(cfg: Config, s: State, moves: seq<Move>, res: Resource, b: nat, k: nat,
                                           m: nat)
    requires cfg.Validated() && Init(cfg, s) && ModestRun(cfg, s, moves, k, m) && b < |cfg.caps| && k > 0
    ensures Ledger(cfg, After(cfg, s, moves).value)
    ensures WithinOvershoot(cfg, After(cfg, s, moves).value, res, b, k, m)
  {
    hide WithinOvershoot, Modest, StepHandler;
    LedgerAlways(cfg, s, moves);
    if moves == [] {
      NothingClaimedAtFirst(cfg, s, res, b, k, m);
    } else {
      var before := moves[..|moves| - 1];
      OvershootAlways(cfg, s, before, res, b, k, m);
      StepKeepsOvershoot(cfg, After(cfg, s, before).value, moves[|moves| - 1], res, b, k, m);
    }
  }

  lemma NothingClaimedAtFirst(cfg: Config, s: State, res: Resource, b: nat, k: nat, m: nat)
    requires cfg.Validated() && Init(cfg, s) && b < |cfg.caps| && k > 0
    ensures WithinOvershoot(cfg, s, res, b, k, m)
  {
    forall i | 0 <= i < |s.handlers| ensures ClaimAt(cfg, res, b)(s.handlers[i]) == 0 {
      assert Fresh(cfg, s.handlers[i]);
    }
    TotalZero(s.handlers, ClaimAt(cfg, res, b));
    Gate.CeilingIsExact(s.live[b].caps, cfg.sigma, 0);
    ScaleMono(Most(res, m), 0, k - 1);
  }

  // ----- what else is on the KV counter

  /** The own initial charge of a request that was dispatched past the gate. */
  function FallThrough(cfg: Config, h: Handler, b: nat): int {
    if HoldsKv(h, b) && !h.phase.admitted then NeedKv(cfg, h) else 0
  }

  /** What recharges add for a stream of `contents` frames: whole steps for the
      overrun past the estimate, and nothing where only the prompt is charged. */
  function Overrun(cfg: Config, h: Handler, contents: nat): nat {
    if cfg.model.PromptOnly? then 0 else RECHARGE_STEP * Steps(contents - h.oHat0)
  }

  /** A recharge that is noted but not yet added belongs to the last frame. */
  function Growth(cfg: Config, h: Handler, b: nat): int {
    if !HoldsKv(h, b) then 0
    else if h.phase.Recharging? && h.contents > 0 then Overrun(cfg, h, h.contents - 1)
    else Overrun(cfg, h, h.contents)
  }

  function FallThroughAt(cfg: Config, b: nat): Handler -> int {
    (h: Handler) => FallThrough(cfg, h, b)
  }

  function GrowthAt(cfg: Config, b: nat): Handler -> int {
    (h: Handler) => Growth(cfg, h, b)
  }

  function InitialAt(cfg: Config, b: nat): Handler -> int {
    (h: Handler) => Held(cfg, Kv, h, b) + FallThrough(cfg, h, b)
  }

  /** A lease holds its initial charge and its own recharges, nothing else. */
  lemma ChargeIsNeedPlusOverrun(cfg: Config, h: Handler, contents: nat)
    requires contents + RECHARGE_STEP <= U32_MOD
    ensures LeaseAfter(cfg, h, contents).charged == NeedKv(cfg, h) + Overrun(cfg, h, contents)
    ensures Overrun(cfg, h, contents) <= MaxInt(0, contents + RECHARGE_STEP - 1 - h.oHat0)
  {
    var l := Opened(cfg.model, h.prompt, h.oHat0);
    hide ObservedAll;
    SumOfOnes(contents);
    ProjectionTracksStream(l, Ones(contents));
    ChargeIsProjection(l, Ones(contents));
  }

  lemma KvIsChargesPlusGrowth(cfg: Config, h: Handler, b: nat)
    requires HandlerOk(cfg, h) && h.contents + RECHARGE_STEP <= U32_MOD
    ensures KvOn(h, b) == Held(cfg, Kv, h, b) + FallThrough(cfg, h, b) + Growth(cfg, h, b)
    ensures 0 <= Growth(cfg, h, b) <= MaxInt(0, h.contents + RECHARGE_STEP - 1 - h.oHat0)
    ensures cfg.model.PromptOnly? ==> Growth(cfg, h, b) == 0
  {
    hide LeaseAfter, Overrun, NeedKv;
    ChargeIsNeedPlusOverrun(cfg, h, h.contents);
    if h.contents > 0 {
      ChargeIsNeedPlusOverrun(cfg, h, h.contents - 1);
    }
    NoGrowthOnPromptOnly(cfg, h);
  }

  lemma NoGrowthOnPromptOnly(cfg: Config, h: Handler)
    ensures cfg.model.PromptOnly? ==> forall n: nat :: Overrun(cfg, h, n) == 0
  {
  }

  /** The admission theorem. With at most `k` decisions under way at once, the
      admitted leases of a backend hold at most its ceiling plus `k - 1` more
      requests' worth, in tokens and in slots, in every reachable state. Its KV
      counter is exactly those initial charges, the own initial charges of
      fall-through dispatches, and the recharge steps of streams past their
      estimate. */
  lemma AdmissionOvershoot(cfg: Config, s: State, moves: seq<Move>, b: nat, k: nat, m: nat)
    requires cfg.Validated() && Init(cfg, s) && ModestRun(cfg, s, moves, k, m) && b < |cfg.caps| && k > 0
    ensures var end := After(cfg, s, moves).value;
            var ceiling := Gate.Ceiling(cfg.caps[b], cfg.sigma);
            var admitted, past := Total(end.handlers, HeldAt(cfg, Kv, b)), Total(end.handlers, FallThroughAt(cfg, b));
            && admitted <= ceiling + (k - 1) * m
            && Total(end.handlers, HeldAt(cfg, Slot, b)) <= cfg.caps[b].maxNumSeqs + (k - 1)
            && b < |end.live|
            && end.live[b].kvProjected == admitted + past + Total(end.handlers, GrowthAt(cfg, b))
  {
    hide Gate.Ceiling, After;
    var end := After(cfg, s, moves).value;
    HeldWithinOvershoot(cfg, s, moves, Kv, b, k, m);
    HeldWithinOvershoot(cfg, s, moves, Slot, b, k, m);
    CountersAreExact(cfg, end, b);
    KvIsSplit(cfg, end, b, k, m);
  }

  lemma KvIsSplit(cfg: Config, s: State, b: nat, k: nat, m: nat)
    requires Ledger(cfg, s) && Modest(cfg, s, k, m)
    ensures Total(s.handlers, KvAt(b)) == Total(s.handlers, HeldAt(cfg, Kv, b))
            + Total(s.handlers, FallThroughAt(cfg, b)) + Total(s.handlers, GrowthAt(cfg, b))
  {
    hide Held, FallThrough, Growth, KvOn, HandlerOk;
    forall i | 0 <= i < |s.handlers|
      ensures KvAt(b)(s.handlers[i]) == InitialAt(cfg, b)(s.handlers[i]) + GrowthAt(cfg, b)(s.handlers[i])
    {
      KvIsChargesPlusGrowth(cfg, s.handlers[i], b);
    }
    TotalAdds(s.handlers, KvAt(b), InitialAt(cfg, b), GrowthAt(cfg, b));
    TotalAdds(s.handlers, InitialAt(cfg, b), HeldAt(cfg, Kv, b), FallThroughAt(cfg, b));
  }

  lemma HeldWithinOvershoot(cfg: Config, s: State, moves: seq<Move>, res: Resource, b: nat, k: nat, m: nat)
    requires cfg.Validated() && Init(cfg, s) && ModestRun(cfg, s, moves, k, m) && b < |cfg.caps| && k > 0
    ensures var end := After(cfg, s, moves).value;
            && Ledger(cfg, end) && Total(end.handlers, LiveAt(b)) < LIVE_LIMIT
            && Total(end.handlers, HeldAt(cfg, res, b)) <= Limit(cfg, res, cfg.caps[b]) + (k - 1) * Most(res, m)
  {
    hide Gate.Ceiling, After;
    var end := After(cfg, s, moves).value;
    OvershootAlways(cfg, s, moves, res, b, k, m);
    TotalAdds(end.handlers, ClaimAt(cfg, res, b), PendingAt(cfg, res, b), HeldAt(cfg, res, b));
    TotalZero(end.handlers, PendingAt(cfg, res, b));
  }

  /** One decision at a time never passes the ceiling. */
  lemma SequentialDecisionsRespectCeiling(cfg: Config, s: State, moves: seq<Move>, b: nat, m: nat)
    requires cfg.Validated() && Init(cfg, s) && ModestRun(cfg, s, moves, 1, m) && b < |cfg.caps|
    ensures var end := After(cfg, s, moves).value;
            && Total(end.handlers, HeldAt(cfg, Kv, b)) as real <= cfg.sigma * cfg.caps[b].kvCapacityTokens as real
            && Total(end.handlers, HeldAt(cfg, Slot, b)) <= cfg.caps[b].maxNumSeqs
  {
    hide Gate.Ceiling, After;
    AdmissionOvershoot(cfg, s, moves, b, 1, m);
    Gate.CeilingIsExact(cfg.caps[b], cfg.sigma, Total(After(cfg, s, moves).value.handlers, HeldAt(cfg, Kv, b)));
  }
}
