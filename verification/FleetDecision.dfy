/** The strategy inside the fleet: when no counter changes during a decision,
    the gate's individual loads see what the strategy's gate computes, and the
    backend the strategy returns is one the machine can choose. */
module FleetDecision {
  import opened Cost
  import opened Backends
  import opened Fleet
  import FleetLedger
  import Gate
  import PressureStrategy

  function KvReads(cfg: Config, live: seq<Load>, h: Handler, n: nat): set<nat>
    requires ValidIds(h.healthy, live) && n <= |h.healthy|
  {
    set i | 0 <= i < n && Gate.KvFits(live[h.healthy[i]], NeedKv(cfg, h), cfg.sigma) :: h.healthy[i]
  }

  function SlotReads(live: seq<Load>, h: Handler, n: nat): set<nat>
    requires ValidIds(h.healthy, live) && n <= |h.healthy|
  {
    set i | 0 <= i < n && Gate.SlotFree(live[h.healthy[i]]) :: h.healthy[i]
  }

  /** The handler after the gate has read the first `n` healthy backends. */
  function Scanned(cfg: Config, live: seq<Load>, h: Handler, n: nat): Handler
    requires ValidIds(h.healthy, live) && n <= |h.healthy|
  {
    h.(phase := Scanning(n, false, KvReads(cfg, live, h, n), SlotReads(live, h, n)))
  }

  /** Two loads read one more backend. */
  lemma TwoLoadsReadOne(cfg: Config, live: seq<Load>, h: Handler, n: nat)
    requires ValidIds(h.healthy, live) && n < |h.healthy|
    ensures var mid := StepHandler(cfg, live, Scanned(cfg, live, h, n), GateLoad);
            && mid.Some? && mid.value.1 == Quiet
            && StepHandler(cfg, live, mid.value.0, GateLoad) == Some((Scanned(cfg, live, h, n + 1), Quiet))
  {
    hide Gate.KvFits, Gate.SlotFree;
    var id := h.healthy[n];
    var kvOk, slotOk := Gate.KvFits(live[id], NeedKv(cfg, h), cfg.sigma), Gate.SlotFree(live[id]);
    assert KvReads(cfg, live, h, n + 1) == if kvOk then KvReads(cfg, live, h, n) + {id} else KvReads(cfg, live, h, n);
    assert SlotReads(live, h, n + 1) == if slotOk then SlotReads(live, h, n) + {id} else SlotReads(live, h, n);
  }

  /** The decision the strategy makes is enabled, with the fall-through it reports. */
  lemma PickIsEnabled(cfg: Config, p: PressureStrategy.Pressure, live: seq<Load>, h: Handler, draw: nat)
    requires p.Validated() && p.sigma == cfg.sigma && p.kvModel == cfg.model
    requires ValidIds(h.healthy, live) && h.healthy != []
    ensures var req := PressureStrategy.Request(h.prompt, h.oHat0);
            var id := p.Decide(live, h.healthy, req, draw);
            && id.Some?
            && StepHandler(cfg, live, Scanned(cfg, live, h, |h.healthy|), Choose(id.value))
               == Some((h.(phase := Chosen(id.value, !p.FellThrough(live, h.healthy, req))), Quiet))
  {
    hide PressureStrategy.Pressure.Decide, Gate.Admits, Gate.EligibleIds, KvReads, SlotReads;
    var req := PressureStrategy.Request(h.prompt, h.oHat0);
    PassedIsEligible(cfg, live, h);
    PickedIsEligible(p, live, h.healthy, req, draw);
    var passed := KvReads(cfg, live, h, |h.healthy|) * SlotReads(live, h, |h.healthy|);
    var eligible := Gate.EligibleIds(h.healthy, live, NeedKv(cfg, h), cfg.sigma);
    assert eligible != [] ==> eligible[0] in passed;
    assert passed != {} ==> exists j :: j in passed;
  }

  lemma PickedIsEligible(p: PressureStrategy.Pressure, live: seq<Load>, healthy: seq<nat>,
                         req: PressureStrategy.Request, draw: nat)
    requires p.Validated() && ValidIds(healthy, live) && healthy != []
    ensures var id, eligible := p.Decide(live, healthy, req, draw),
                                Gate.EligibleIds(healthy, live, p.NeedKv(req), p.sigma);
            id.Some? && id.value in healthy && (eligible != [] ==> id.value in eligible)
  {
    hide PressureStrategy.Pressure.Decide, Gate.Admits;
    PressureStrategy.PickCorrect(p, live, healthy, req, draw);
    var eligible := Gate.EligibleIds(healthy, live, p.NeedKv(req), p.sigma);
    assert eligible != [] ==> eligible[0] in eligible;
  }

  lemma PassedIsEligible(cfg: Config, live: seq<Load>, h: Handler)
    requires ValidIds(h.healthy, live)
    ensures forall id :: id in KvReads(cfg, live, h, |h.healthy|) * SlotReads(live, h, |h.healthy|) <==>
                         id in Gate.EligibleIds(h.healthy, live, NeedKv(cfg, h), cfg.sigma)
    ensures forall id | id in KvReads(cfg, live, h, |h.healthy|) * SlotReads(live, h, |h.healthy|) ::
              id in h.healthy && Gate.Admits(live[id], NeedKv(cfg, h), cfg.sigma)
  {
    hide Gate.KvFits, Gate.SlotFree;
  }

  // ----- the whole decision as a run

  /** A quiet action of handler `r` extends a run and changes that handler alone. */
  lemma ActQuietly(cfg: Config, s: State, moves: seq<Move>, r: nat, a: Action, h: Handler) returns (longer: seq<Move>)
    requires After(cfg, s, moves).Some? && r < |After(cfg, s, moves).value.handlers|
    requires var mid := After(cfg, s, moves).value; StepHandler(cfg, mid.live, mid.handlers[r], a) == Some((h, Quiet))
    ensures moves <= longer
    ensures var mid := After(cfg, s, moves).value;
            After(cfg, s, longer) == Some(State(mid.live, mid.handlers[r := h]))
  {
    longer := moves + [Move(r, a)];
    FleetLedger.Extend(cfg, s, moves, Move(r, a));
  }

  lemma {:induction false} ScanRuns(cfg: Config, s: State, moves: seq<Move>, r: nat, n: nat) returns (longer: seq<Move>)
    requires After(cfg, s, moves).Some? && r < |After(cfg, s, moves).value.handlers|
    requires var mid := After(cfg, s, moves).value; var h := mid.handlers[r];
             h.phase.Reading? && h.healthy != [] && ValidIds(h.healthy, mid.live) && n <= |h.healthy|
    ensures moves <= longer
    ensures var mid := After(cfg, s, moves).value;
            After(cfg, s, longer)
            == Some(State(mid.live, mid.handlers[r := Scanned(cfg, mid.live, mid.handlers[r], n)]))
  {
    hide After, Gate.KvFits, Gate.SlotFree;
    var mid := After(cfg, s, moves).value;
    var h := mid.handlers[r];
    if n == 0 {
      assert KvReads(cfg, mid.live, h, 0) == {} && SlotReads(mid.live, h, 0) == {};
      longer := ActQuietly(cfg, s, moves, r, Begin, Scanned(cfg, mid.live, h, 0));
    } else {
      longer := ScanRuns(cfg, s, moves, r, n - 1);
      TwoLoadsReadOne(cfg, mid.live, h, n - 1);
      hide StepHandler;
      var before, after := Scanned(cfg, mid.live, h, n - 1), Scanned(cfg, mid.live, h, n);
      var half := StepHandler(cfg, mid.live, before, GateLoad).value.0;
      longer := ActQuietly(cfg, s, longer, r, GateLoad, half);
      longer := ActQuietly(cfg, s, longer, r, GateLoad, after);
      assert mid.handlers[r := before][r := half][r := after] == mid.handlers[r := after];
    }
  }

  /** From any state of any run, a handler that has read its request and is left
      alone makes exactly the strategy's decision: the run goes on through the
      whole gate scan to the backend the strategy returns. */
  lemma DecisionRuns(cfg: Config, p: PressureStrategy.Pressure, s: State, moves: seq<Move>, r: nat, draw: nat)
    returns (longer: seq<Move>)
    requires p.Validated() && p.sigma == cfg.sigma && p.kvModel == cfg.model
    requires After(cfg, s, moves).Some? && r < |After(cfg, s, moves).value.handlers|
    requires var mid := After(cfg, s, moves).value; var h := mid.handlers[r];
             h.phase.Reading? && h.healthy != [] && ValidIds(h.healthy, mid.live)
    ensures moves <= longer
    ensures var mid := After(cfg, s, moves).value; var h := mid.handlers[r];
            var req := PressureStrategy.Request(h.prompt, h.oHat0);
            var id := p.Decide(mid.live, h.healthy, req, draw);
            var fell := p.FellThrough(mid.live, h.healthy, req);
            && id.Some?
            && After(cfg, s, longer)
               == Some(State(mid.live, mid.handlers[r := h.(phase := Chosen(id.value, !fell))]))
  {
    hide After, StepHandler, Scanned, PressureStrategy.Pressure.Decide, PressureStrategy.Pressure.FellThrough;
    var mid := After(cfg, s, moves).value;
    var h := mid.handlers[r];
    var req := PressureStrategy.Request(h.prompt, h.oHat0);
    longer := ScanRuns(cfg, s, moves, r, |h.healthy|);
    PickIsEnabled(cfg, p, mid.live, h, draw);
    var id := p.Decide(mid.live, h.healthy, req, draw).value;
    var chosen := h.(phase := Chosen(id, !p.FellThrough(mid.live, h.healthy, req)));
    longer := ActQuietly(cfg, s, longer, r, Choose(id), chosen);
    assert mid.handlers[r := Scanned(cfg, mid.live, h, |h.healthy|)][r := chosen] == mid.handlers[r := chosen];
  }
}
