/** Conservation: in every reachable state of the interleaved machine the shared
    counters are the sums of what the handlers hold. */
module FleetLedger {
  import opened Machine
  import opened Cost
  import opened Backends
  import opened Sums
  import opened Lease
  import opened Fleet

  ghost predicate Ledger(cfg: Config, s: State) {
    && |s.live| == |cfg.caps|
    && (forall b | 0 <= b < |s.live| :: s.live[b].caps == cfg.caps[b])
    && (forall r | 0 <= r < |s.handlers| :: HandlerOk(cfg, s.handlers[r]))
    && forall b | 0 <= b < |s.live| :: Accounted(s, b)
  }

  /** Both counters equal what is held on the backend, up to wrap-around. */
  ghost predicate Accounted(s: State, b: nat)
    requires b < |s.live|
  {
    && s.live[b].inflight == WrapU32(Total(s.handlers, SlotsAt(b)))
    && s.live[b].kvProjected == WrapI64(Total(s.handlers, KvAt(b)))
  }

  lemma StepKeepsLedger(cfg: Config, s: State, m: Move)
    requires Ledger(cfg, s) && Next(cfg, s, m).Some?
    ensures Ledger(cfg, Next(cfg, s, m).value)
  {
    hide StepHandler, HandlerOk, Apply;
    var h := s.handlers[m.who];
    var (h', e) := StepHandler(cfg, s.live, h, m.what).value;
    StepKeepsHandler(cfg, s.live, h, m.what);
    forall b | 0 <= b < |s.live|
      ensures Accounted(Next(cfg, s, m).value, b)
    {
      assert Accounted(s, b);
      StepIsAccounted(cfg, s.live, h, m.what, b);
      StepMovesTotals(s.handlers, m.who, h', b);
      CounterFollows(s.live, e, b, Total(s.handlers, SlotsAt(b)), Total(s.handlers, KvAt(b)));
    }
  }

  lemma StepMovesTotals(hs: seq<Handler>, i: nat, h: Handler, b: nat)
    requires i < |hs|
    ensures Total(hs[i := h], SlotsAt(b)) == Total(hs, SlotsAt(b)) - SlotsOn(hs[i], b) + SlotsOn(h, b)
    ensures Total(hs[i := h], KvAt(b)) == Total(hs, KvAt(b)) - KvOn(hs[i], b) + KvOn(h, b)
  {
    TotalUpdate(hs, SlotsAt(b), i, h);
    TotalUpdate(hs, KvAt(b), i, h);
  }

  lemma CounterFollows(live: seq<Load>, e: Effect, b: nat, slots: int, kv: int)
    requires b < |live| && live[b].inflight == WrapU32(slots) && live[b].kvProjected == WrapI64(kv)
    ensures Apply(live, e)[b].inflight == WrapU32(slots + EffectSlots(e, b))
    ensures Apply(live, e)[b].kvProjected == WrapI64(kv + EffectKv(e, b))
  {
    WrapAdds(slots, EffectSlots(e, b));
    WrapAdds(kv, EffectKv(e, b));
  }

  /** The ledger theorem: every interleaving, any number of requests and
      backends, no bound on how many have come and gone. */
  lemma {:induction false} LedgerAlways(cfg: Config, s: State, moves: seq<Move>)
    requires Init(cfg, s) && After(cfg, s, moves).Some?
    ensures Ledger(cfg, After(cfg, s, moves).value)
  {
    if moves == [] {
      forall r | 0 <= r < |s.handlers| ensures HandlerOk(cfg, s.handlers[r]) {
        assert Fresh(cfg, s.handlers[r]);
      }
      forall b | 0 <= b < |s.live| ensures Accounted(s, b) {
        assert forall r | 0 <= r < |s.handlers| :: Fresh(cfg, s.handlers[r]);
        TotalZero(s.handlers, SlotsAt(b));
        TotalZero(s.handlers, KvAt(b));
      }
    } else {
      var before := moves[..|moves| - 1];
      LedgerAlways(cfg, s, before);
      StepKeepsLedger(cfg, After(cfg, s, before).value, moves[|moves| - 1]);
    }
  }

  // ----- exact counters

  const LIVE_LIMIT := 0x4000_0000
  const CHARGE_LIMIT := 2 * U32_MOD - 2

  lemma HoldsWithinLimits(cfg: Config, h: Handler, b: nat)
    requires HandlerOk(cfg, h)
    ensures 0 <= SlotsOn(h, b) <= LiveOn(h, b)
    ensures 0 <= KvOn(h, b) <= CHARGE_LIMIT * LiveOn(h, b)
  {
    ChargeIsProjection(Opened(cfg.model, h.prompt, h.oHat0), Ones(h.contents));
    if h.contents > 0 {
      ChargeIsProjection(Opened(cfg.model, h.prompt, h.oHat0), Ones(h.contents - 1));
    }
  }

  /** With fewer than 2^30 live leases on a backend its counters are exact, never
      negative, and have room for the gate's addition of one more request. */
  lemma CountersAreExact(cfg: Config, s: State, b: nat)
    requires Ledger(cfg, s) && b < |s.live| && Total(s.handlers, LiveAt(b)) < LIVE_LIMIT
    ensures s.live[b].inflight == Total(s.handlers, SlotsAt(b))
    ensures s.live[b].kvProjected == Total(s.handlers, KvAt(b)) >= 0
    ensures s.live[b].kvProjected + CHARGE_LIMIT < I64_HALF
  {
    forall i | 0 <= i < |s.handlers|
      ensures 0 <= SlotsOn(s.handlers[i], b) <= LiveOn(s.handlers[i], b)
      ensures 0 <= KvOn(s.handlers[i], b) <= CHARGE_LIMIT * LiveOn(s.handlers[i], b)
    {
      HoldsWithinLimits(cfg, s.handlers[i], b);
    }
    TotalWithin(s.handlers, SlotsAt(b), LiveAt(b), 1);
    TotalWithin(s.handlers, KvAt(b), LiveAt(b), CHARGE_LIMIT);
    assert Accounted(s, b);
    FitsWithoutWrap(Total(s.handlers, SlotsAt(b)), Total(s.handlers, KvAt(b)), Total(s.handlers, LiveAt(b)));
  }

  lemma FitsWithoutWrap(slots: int, kv: int, live: int)
    requires 0 <= slots <= live < LIVE_LIMIT && 0 <= kv <= CHARGE_LIMIT * live
    ensures WrapU32(slots) == slots && WrapI64(kv) == kv && kv + CHARGE_LIMIT < I64_HALF
  {
  }

  /** Inside an open, a recharge or a release, between two of its counter
      updates. */
  predicate MidCall(h: Handler, b: nat) {
    (h.phase.HalfOpen? || h.phase.Recharging? || h.phase.HalfReleased?) && h.phase.b == b
  }

  /** The charge of a lease that is open on `b`. */
  function ChargeOn(h: Handler, b: nat): int {
    if HoldsSlot(h, b) then h.lease.charged else 0
  }

  function ChargeAt(b: nat): Handler -> int { (h: Handler) => ChargeOn(h, b) }

  /** When no lease is mid-call the counters are the number of open leases and
      the sum of their charges, so nothing in flight means nothing charged. */
  lemma QuiescentLedger(cfg: Config, s: State, b: nat)
    requires Ledger(cfg, s) && b < |s.live| && Total(s.handlers, LiveAt(b)) < LIVE_LIMIT
    requires forall i | 0 <= i < |s.handlers| :: !MidCall(s.handlers[i], b)
    ensures s.live[b].inflight == Total(s.handlers, SlotsAt(b))
    ensures s.live[b].kvProjected == Total(s.handlers, ChargeAt(b))
    ensures s.live[b].inflight == 0 ==> s.live[b].kvProjected == 0
  {
    CountersAreExact(cfg, s, b);
    forall i | 0 <= i < |s.handlers| ensures KvOn(s.handlers[i], b) == ChargeOn(s.handlers[i], b) {
      assert !MidCall(s.handlers[i], b);
    }
    TotalSame(s.handlers, KvAt(b), ChargeAt(b));
    TotalZero(s.handlers, SlotsAt(b));
    if s.live[b].inflight == 0 {
      forall i | 0 <= i < |s.handlers| ensures KvOn(s.handlers[i], b) == 0 {
        assert SlotsAt(b)(s.handlers[i]) == 0;
        assert !MidCall(s.handlers[i], b);
      }
      TotalWithin(s.handlers, KvAt(b), SlotsAt(b), 0);
    }
  }

  /** Charged on `b` and not yet given back. */
  predicate HoldsKv(h: Handler, b: nat) {
    match h.phase
    case Connecting(c, _) => c == b
    case Streaming(c, _) => c == b
    case Recharging(c, _, _) => c == b
    case Dropping(c, _, _) => c == b
    case HalfReleased(c, _, _) => c == b
    case _ => false
  }

  /** The check loads `inflight` in the state after `n` moves and the KV counter
      some moves later, and fires on zero and non-zero. */
  ghost predicate CheckPasses(cfg: Config, s: State, moves: seq<Move>, n: nat, b: nat)
    requires n <= |moves| && After(cfg, s, moves[..n]).Some? && After(cfg, s, moves).Some?
  {
    var first, second := After(cfg, s, moves[..n]).value.live, After(cfg, s, moves).value.live;
    b < |first| && b < |second| && (first[b].inflight != 0 || second[b].kvProjected == 0)
  }

  /** With non-empty prompts the quiescent check passes exactly when something was
      in flight at its first load, or no lease is charged at its second. Neither
      follows from the other: leases come and go between the loads, and a release
      gives back its slot before its charge. */
  lemma CheckPassesIff(cfg: Config, s: State, moves: seq<Move>, n: nat, b: nat)
    requires Init(cfg, s) && After(cfg, s, moves).Some? && n <= |moves| && After(cfg, s, moves[..n]).Some?
    requires b < |cfg.caps| && Total(After(cfg, s, moves[..n]).value.handlers, LiveAt(b)) < LIVE_LIMIT
    requires Total(After(cfg, s, moves).value.handlers, LiveAt(b)) < LIVE_LIMIT
    requires forall i | 0 <= i < |After(cfg, s, moves).value.handlers| ::
               After(cfg, s, moves).value.handlers[i].prompt > 0
    ensures var first, second := After(cfg, s, moves[..n]).value.handlers, After(cfg, s, moves).value.handlers;
            CheckPasses(cfg, s, moves, n, b) <==>
            || (exists i | 0 <= i < |first| :: HoldsSlot(first[i], b))
            || forall i | 0 <= i < |second| :: !HoldsKv(second[i], b)
  {
    hide After;
    LedgerAlways(cfg, s, moves[..n]);
    LedgerAlways(cfg, s, moves);
    InFlightIff(cfg, After(cfg, s, moves[..n]).value, b);
    ChargedIff(cfg, After(cfg, s, moves).value, b);
  }

  lemma InFlightIff(cfg: Config, s: State, b: nat)
    requires Ledger(cfg, s) && b < |s.live| && Total(s.handlers, LiveAt(b)) < LIVE_LIMIT
    ensures s.live[b].inflight != 0 <==> exists i | 0 <= i < |s.handlers| :: HoldsSlot(s.handlers[i], b)
  {
    CountersAreExact(cfg, s, b);
    TotalZero(s.handlers, SlotsAt(b));
    assert forall i | 0 <= i < |s.handlers| :: SlotsAt(b)(s.handlers[i]) == 0 <==> !HoldsSlot(s.handlers[i], b);
  }

  lemma ChargedIff(cfg: Config, s: State, b: nat)
    requires Ledger(cfg, s) && b < |s.live| && Total(s.handlers, LiveAt(b)) < LIVE_LIMIT
    requires forall i | 0 <= i < |s.handlers| :: s.handlers[i].prompt > 0
    ensures s.live[b].kvProjected == 0 <==> forall i | 0 <= i < |s.handlers| :: !HoldsKv(s.handlers[i], b)
  {
    CountersAreExact(cfg, s, b);
    forall i | 0 <= i < |s.handlers|
      ensures KvAt(b)(s.handlers[i]) >= 0
      ensures KvAt(b)(s.handlers[i]) == 0 <==> !HoldsKv(s.handlers[i], b)
    {
      ChargedIsPositive(cfg, s.handlers[i], b);
    }
    TotalZero(s.handlers, KvAt(b));
  }

  lemma ChargedIsPositive(cfg: Config, h: Handler, b: nat)
    requires HandlerOk(cfg, h) && h.prompt > 0
    ensures KvOn(h, b) >= 0
    ensures KvOn(h, b) == 0 <==> !HoldsKv(h, b)
  {
    ChargeIsProjection(Opened(cfg.model, h.prompt, h.oHat0), Ones(h.contents));
    if h.contents > 0 {
      ChargeIsProjection(Opened(cfg.model, h.prompt, h.oHat0), Ones(h.contents - 1));
    }
  }

  /** Read in one state, the check holds exactly when something is in flight or no
      lease stands between the two subtractions of its release. */
  lemma SnapshotCheckIff(cfg: Config, s: State, moves: seq<Move>, b: nat)
    requires Init(cfg, s) && After(cfg, s, moves).Some?
    requires b < |cfg.caps| && Total(After(cfg, s, moves).value.handlers, LiveAt(b)) < LIVE_LIMIT
    requires forall i | 0 <= i < |After(cfg, s, moves).value.handlers| ::
               After(cfg, s, moves).value.handlers[i].prompt > 0
    ensures var end := After(cfg, s, moves).value;
            moves[..|moves|] == moves && b < |end.live| &&
            (CheckPasses(cfg, s, moves, |moves|, b) <==>
             end.live[b].inflight > 0 ||
             forall i | 0 <= i < |end.handlers| ::
               !(end.handlers[i].phase.HalfReleased? && end.handlers[i].phase.b == b))
  {
    hide After;
    assert moves[..|moves|] == moves;
    LedgerAlways(cfg, s, moves);
    CheckPassesIff(cfg, s, moves, |moves|, b);
    InFlightIff(cfg, After(cfg, s, moves).value, b);
  }

  /** Once every lease is gone both counters are back to zero, whatever happened
      before and however often they wrapped. */
  lemma DrainedIsZero(cfg: Config, s: State, b: nat)
    requires Ledger(cfg, s) && b < |s.live|
    requires forall i | 0 <= i < |s.handlers| :: LiveOn(s.handlers[i], b) == 0
    ensures s.live[b].inflight == 0 && s.live[b].kvProjected == 0
  {
    TotalZero(s.handlers, SlotsAt(b));
    TotalZero(s.handlers, KvAt(b));
    assert Accounted(s, b);
  }

  // ----- a run that reaches the gap

  lemma Extend(cfg: Config, s: State, moves: seq<Move>, m: Move)
    requires After(cfg, s, moves).Some?
    ensures After(cfg, s, moves + [m]) == Next(cfg, After(cfg, s, moves).value, m)
  {
    assert (moves + [m])[..|moves|] == moves;
  }

  /** Handler 0 can act: the run grows by one move and only its state and the
      live counters change. */
  lemma Act(cfg: Config, s: State, moves: seq<Move>, a: Action) returns (longer: seq<Move>, h: Handler, e: Effect)
    requires After(cfg, s, moves).Some? && |After(cfg, s, moves).value.handlers| == 1
    requires var mid := After(cfg, s, moves).value; StepHandler(cfg, mid.live, mid.handlers[0], a).Some?
    ensures var mid := After(cfg, s, moves).value;
            && StepHandler(cfg, mid.live, mid.handlers[0], a) == Some((h, e))
            && After(cfg, s, longer) == Some(State(Apply(mid.live, e), [h]))
  {
    var mid := After(cfg, s, moves).value;
    longer := moves + [Move(0, a)];
    Extend(cfg, s, moves, Move(0, a));
    var r := StepHandler(cfg, mid.live, mid.handlers[0], a).value;
    h, e := r.0, r.1;
    assert mid.handlers[0 := h] == [h];
  }

  /** One request, cancelled while it connects: after the first subtraction
      nothing is in flight but its tokens are still charged. */
  lemma CheckCanFail(cfg: Config, s: State) returns (moves: seq<Move>)
    requires |cfg.caps| == 1 && |s.handlers| == 1 && Init(cfg, s)
    requires s.handlers[0].healthy == [0] && s.handlers[0].prompt > 0
    ensures After(cfg, s, moves).Some?
    ensures var end := After(cfg, s, moves).value;
            |end.live| == 1 && end.live[0].inflight == 0 && end.live[0].kvProjected > 0
  {
    var h, e;
    moves, h := ReachConnecting(cfg, s);
    hide After;
    moves, h, e := Act(cfg, s, moves, Cancel);
    moves, h, e := Act(cfg, s, moves, Atomic);
  }

  /** It fires between two quiet states too: nothing is in flight at the first
      load, and a lease opens, undisturbed, before the second. */
  lemma CheckCanFailBetweenLoads(cfg: Config, s: State) returns (moves: seq<Move>)
    requires |cfg.caps| == 1 && |s.handlers| == 1 && Init(cfg, s)
    requires s.handlers[0].healthy == [0] && s.handlers[0].prompt > 0
    ensures After(cfg, s, moves[..0]) == Some(s) && After(cfg, s, moves).Some?
    ensures !MidCall(s.handlers[0], 0)
    ensures |After(cfg, s, moves).value.handlers| == 1 && !MidCall(After(cfg, s, moves).value.handlers[0], 0)
    ensures !CheckPasses(cfg, s, moves, 0, 0)
  {
    var h;
    moves, h := ReachConnecting(cfg, s);
    assert moves[..0] == [];
    assert Fresh(cfg, s.handlers[0]);
  }

  lemma ReachConnecting(cfg: Config, s: State) returns (moves: seq<Move>, h: Handler)
    requires |cfg.caps| == 1 && |s.handlers| == 1 && Init(cfg, s) && s.handlers[0].healthy == [0]
    ensures h.phase.Connecting? && h.phase.b == 0
    ensures After(cfg, s, moves) == Some(State([Load(cfg.caps[0], 1, s.handlers[0].lease.charged)], [h]))
  {
    var e;
    moves, h := ReachChosen(cfg, s);
    hide After;
    var charge := s.handlers[0].lease.charged;
    FirstCharge(cfg, s, charge);
    moves, h, e := Act(cfg, s, moves, Atomic);
    moves, h, e := Act(cfg, s, moves, Atomic);
  }

  lemma FirstCharge(cfg: Config, s: State, charge: int)
    requires |cfg.caps| == 1 && |s.handlers| == 1 && Init(cfg, s) && charge == s.handlers[0].lease.charged
    ensures Apply(s.live, Slots(0, 1)) == [Load(cfg.caps[0], 1, 0)]
    ensures Apply([Load(cfg.caps[0], 1, 0)], Tokens(0, charge)) == [Load(cfg.caps[0], 1, charge)]
  {
    assert Fresh(cfg, s.handlers[0]);
    assert WrapI64(charge) == charge;
  }

  lemma ReachChosen(cfg: Config, s: State) returns (moves: seq<Move>, h: Handler)
    requires |cfg.caps| == 1 && |s.handlers| == 1 && Init(cfg, s) && s.handlers[0].healthy == [0]
    ensures After(cfg, s, moves) == Some(State(s.live, [h]))
    ensures h.phase.Chosen? && h.phase.b == 0 && h.lease == s.handlers[0].lease
  {
    var e;
    assert Fresh(cfg, s.handlers[0]);
    moves := [];
    assert After(cfg, s, moves) == Some(s);
    hide After;
    moves, h, e := Act(cfg, s, moves, Begin);
    moves, h, e := Act(cfg, s, moves, GateLoad);
    moves, h, e := Act(cfg, s, moves, GateLoad);
    var eligible := h.phase.kvOk * h.phase.slotOk;
    assert forall id | id in eligible :: id == 0;
    moves, h, e := Act(cfg, s, moves, Choose(0));
  }
}
