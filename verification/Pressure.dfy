/** The pressure strategy: gate, score, keep the ties, draw one of them. */
module PressureStrategy {
  import opened Machine
  import opened Cost
  import opened Backends
  import opened Selection
  import Gate

  datatype Request = Request(promptTokens: uint32, expectedOutputTokens: uint32)

  datatype GateReason = KvHeadroom | SlotLimit

  datatype CandidateScore = CandidateScore(
    backend: nat,
    score: real,
    occupancy: real,
    inflight: uint32,
    kvProjected: int64,
    gatedBy: Option<GateReason>)

  class DecisionTrace {
    var strategy: string
    var chosen: Option<nat>
    var candidates: seq<CandidateScore>
    var promptTokens: uint32
    var expectedOutputTokens: uint32
    var fellThrough: bool

    constructor ()
      ensures chosen == None && candidates == [] && !fellThrough
    {
      strategy, chosen, candidates := "", None, [];
      promptTokens, expectedOutputTokens, fellThrough := 0, 0, false;
    }

    method Record(strategy: string, chosen: Option<nat>, req: Request)
      modifies this
      ensures this.strategy == strategy && this.chosen == chosen
      ensures promptTokens == req.promptTokens && expectedOutputTokens == req.expectedOutputTokens
      ensures candidates == old(candidates) && fellThrough == old(fellThrough)
    {
      this.strategy := strategy;
      this.chosen := chosen;
      promptTokens := req.promptTokens;
      expectedOutputTokens := req.expectedOutputTokens;
    }
  }

  function Occupancies(loads: seq<Load>): (us: seq<real>)
    ensures |us| == |loads|
  {
    seq(|loads|, i requires 0 <= i < |loads| => Occupancy(loads[i]))
  }

  /** `draw` stands for the random index of the tie-break. */
  function DrawFrom(ties: seq<nat>, draw: nat): (id: nat)
    requires ties != []
    ensures id in ties
  {
    ties[draw % |ties|]
  }

  datatype Pressure = Pressure(theta: real, penalty: real, sigma: real, kvModel: KvModel) {

    /** What config validation guarantees. It does not look at `penalty`. */
    ghost predicate Validated() {
      0.0 < theta < 1.0 && 0.0 < sigma <= 1.0
    }

    function Scores(loads: seq<Load>): (scores: seq<real>)
      requires 0.0 < theta < 1.0
      ensures |scores| == |loads|
    {
      seq(|loads|, i requires 0 <= i < |loads| => PressureScore(Occupancy(loads[i]), theta, penalty))
    }

    function NeedKv(req: Request): nat {
      kvModel.Project(req.promptTokens, req.expectedOutputTokens)
    }

    function Pool(loads: seq<Load>, healthy: seq<nat>, needKv: int): (pool: seq<nat>)
      requires ValidIds(healthy, loads)
      ensures ValidIds(pool, loads)
      ensures forall id | id in pool :: id in healthy
      ensures healthy != [] ==> pool != []
    {
      var eligible := Gate.EligibleIds(healthy, loads, needKv, sigma);
      assert forall i | 0 <= i < |eligible| :: eligible[i] in healthy;
      if eligible == [] then healthy else eligible
    }

    function Ties(loads: seq<Load>, healthy: seq<nat>, req: Request): seq<nat>
      requires 0.0 < theta < 1.0 && ValidIds(healthy, loads)
    {
      TieList(Pool(loads, healthy, NeedKv(req)), Scores(loads))
    }

    function Decide(loads: seq<Load>, healthy: seq<nat>, req: Request, draw: nat): Option<nat>
      requires 0.0 < theta < 1.0 && ValidIds(healthy, loads)
    {
      var ties := Ties(loads, healthy, req);
      if ties == [] then None else Some(DrawFrom(ties, draw))
    }

    function FellThrough(loads: seq<Load>, healthy: seq<nat>, req: Request): bool
      requires ValidIds(healthy, loads)
    {
      Gate.EligibleIds(healthy, loads, NeedKv(req), sigma) == []
    }

    function Candidate(id: nat, l: Load, needKv: int, gated: bool): CandidateScore
      requires 0.0 < theta < 1.0
    {
      var u := Occupancy(l);
      var gatedBy :=
        if gated then
          if !Gate.KvFits(l, needKv, sigma) then Some(KvHeadroom) else Some(SlotLimit)
        else None;
      CandidateScore(id, PressureScore(u, theta, penalty), u, l.inflight, l.kvProjected, gatedBy)
    }

    /** The trace lines: one per healthy backend, in order. */
    function Candidates(loads: seq<Load>, healthy: seq<nat>, req: Request): (lines: seq<CandidateScore>)
      requires 0.0 < theta < 1.0 && ValidIds(healthy, loads)
      ensures |lines| == |healthy|
    {
      var needKv := NeedKv(req);
      var eligible := Gate.EligibleIds(healthy, loads, needKv, sigma);
      seq(|healthy|, i requires 0 <= i < |healthy| =>
          Candidate(healthy[i], loads[healthy[i]], needKv, eligible != [] && healthy[i] !in eligible))
    }

    method ScanTies(snap: Snapshot, pool: seq<nat>) returns (ties: seq<nat>)
      requires 0.0 < theta < 1.0 && ValidIds(pool, snap.Loads())
      ensures ties == TieList(pool, Scores(snap.Loads()))
    {
      hide Occupancy, PressureScore, TieList, MinKey;
      ghost var scores := Scores(snap.Loads());
      NoTies(scores);
      // No score yet stands for the infinite starting minimum.
      var minScore: Option<real> := None;
      ties := [];
      for i := 0 to |pool|
        invariant ties == TieList(pool[..i], scores)
        invariant minScore == if i == 0 then None else Some(MinKey(pool[..i], scores))
      {
        var id := pool[i];
        var u := Occupancy(snap.backends[id].Reading());
        var score := PressureScore(u, theta, penalty);
        assert score == scores[id];
        ScanStep(pool, scores, i);
        if minScore == None || score < minScore.value {
          minScore := Some(score);
          ties := [id];
        } else if score == minScore.value {
          ties := ties + [id];
        }
      }
      assert pool[..|pool|] == pool;
    }

    method RecordCandidates(snap: Snapshot, req: Request, eligible: seq<nat>) returns (lines: seq<CandidateScore>)
      requires 0.0 < theta < 1.0 && snap.Valid()
      requires eligible == Gate.EligibleIds(snap.healthy, snap.Loads(), NeedKv(req), sigma)
      ensures lines == Candidates(snap.Loads(), snap.healthy, req)
    {
      hide Candidate, Gate.EligibleIds, Gate.Admits;
      lines := [];
      for i := 0 to |snap.healthy|
        invariant lines == Candidates(snap.Loads(), snap.healthy, req)[..i]
      {
        var id := snap.healthy[i];
        var gated := eligible != [] && id !in eligible;
        var line := Candidate(id, snap.backends[id].Reading(), NeedKv(req), gated);
        assert line == Candidates(snap.Loads(), snap.healthy, req)[i];
        lines := lines + [line];
      }
    }

    method DrawTie(snap: Snapshot, req: Request, draw: nat) returns (picked: nat, eligible: seq<nat>)
      requires Validated() && snap.Valid() && snap.healthy != []
      ensures Decide(snap.Loads(), snap.healthy, req, draw) == Some(picked)
      ensures eligible == Gate.EligibleIds(snap.healthy, snap.Loads(), NeedKv(req), sigma)
    {
      hide TieList, Scores, Gate.EligibleIds, Gate.Admits;
      eligible := Gate.Eligible(snap, NeedKv(req), sigma);
      var pool := if eligible == [] then snap.healthy else eligible;
      assert pool == Pool(snap.Loads(), snap.healthy, NeedKv(req));
      var ties := ScanTies(snap, pool);
      TieListIsArgmin(pool, Scores(snap.Loads()), 0);
      picked := DrawFrom(ties, draw);
    }

    method Pick(snap: Snapshot, req: Request, draw: nat, trace: DecisionTrace?) returns (picked: Option<nat>)
      requires Validated() && snap.Valid()
      modifies if trace == null then {} else {trace}
      ensures picked == Decide(snap.Loads(), snap.healthy, req, draw)
      ensures trace != null ==>
              && trace.strategy == "pressure" && trace.chosen == picked
              && trace.promptTokens == req.promptTokens
              && trace.expectedOutputTokens == req.expectedOutputTokens
      // With nothing healthy the rest of the trace keeps what it held.
      ensures trace != null && snap.healthy == [] ==>
              trace.fellThrough == old(trace.fellThrough) && trace.candidates == old(trace.candidates)
      ensures trace != null && snap.healthy != [] ==>
              && trace.fellThrough == FellThrough(snap.Loads(), snap.healthy, req)
              && trace.candidates == Candidates(snap.Loads(), snap.healthy, req)
    {
      hide Decide, Candidates;
      ghost var loads := snap.Loads();
      if snap.healthy == [] {
        picked := None;
        PickCorrect(this, loads, snap.healthy, req, draw);
        if trace != null {
          trace.Record("pressure", picked, req);
        }
      } else {
        var id, eligible := DrawTie(snap, req, draw);
        picked := Some(id);
        if trace != null {
          var lines := RecordCandidates(snap, req, eligible);
          trace.Record("pressure", picked, req);
          trace.fellThrough := eligible == [];
          trace.candidates := lines;
        }
      }
      assert snap.Loads() == loads;
    }
  }

  // ----- what the decision means

  /** A backend is returned whenever one is healthy, it is one no pool member
      beats, and it passes the gate unless no healthy backend does. */
  lemma PickCorrect(p: Pressure, loads: seq<Load>, healthy: seq<nat>, req: Request, draw: nat)
    requires p.Validated() && ValidIds(healthy, loads)
    ensures p.Decide(loads, healthy, req, draw).None? <==> healthy == []
    ensures healthy != [] ==>
            var id := p.Decide(loads, healthy, req, draw).value;
            var admits := (j: nat) requires j < |loads| => Gate.Admits(loads[j], p.NeedKv(req), p.sigma);
            && id in healthy
            && (admits(id) || forall j | j in healthy :: !admits(j))
            && (forall j | j in healthy && (admits(j) || !admits(id)) :: p.Scores(loads)[id] <= p.Scores(loads)[j])
  {
    var pool := p.Pool(loads, healthy, p.NeedKv(req));
    var eligible := Gate.EligibleIds(healthy, loads, p.NeedKv(req), p.sigma);
    assert eligible != [] ==> eligible[0] in eligible;
    TieListIsArgmin(pool, p.Scores(loads), 0);
    var ties := p.Ties(loads, healthy, req);
    if ties != [] {
      var id := DrawFrom(ties, draw);
      TieListIsArgmin(pool, p.Scores(loads), id);
      assert forall j | j in healthy && Gate.Admits(loads[j], p.NeedKv(req), p.sigma) :: j in eligible;
      assert eligible == [] ==> forall j | j in healthy :: !Gate.Admits(loads[j], p.NeedKv(req), p.sigma);
    }
  }

  /** Every id that no pool member beats can be drawn. */
  lemma EveryTieCanBeDrawn(p: Pressure, loads: seq<Load>, healthy: seq<nat>, req: Request, id: nat)
    returns (draw: nat)
    requires p.Validated() && ValidIds(healthy, loads)
    requires id in p.Pool(loads, healthy, p.NeedKv(req))
    requires forall j | j in p.Pool(loads, healthy, p.NeedKv(req)) :: p.Scores(loads)[id] <= p.Scores(loads)[j]
    ensures p.Decide(loads, healthy, req, draw) == Some(id)
  {
    var ties := p.Ties(loads, healthy, req);
    TieListIsArgmin(p.Pool(loads, healthy, p.NeedKv(req)), p.Scores(loads), id);
    draw :| draw < |ties| && ties[draw] == id;
    SmallMod(draw, |ties|);
  }

  lemma SmallMod(x: nat, n: nat)
    requires x < n
    ensures x % n == x
  {
  }

  /** The trace explains the decision: it lists the healthy backends in order,
      leaves a backend unmarked exactly when the gate admits it (or nothing was
      admitted), names the limit that failed, and the chosen backend scores no
      worse than any unmarked one. */
  lemma TraceExplainsDecision(p: Pressure, loads: seq<Load>, healthy: seq<nat>, req: Request, draw: nat, i: nat)
    requires p.Validated() && ValidIds(healthy, loads) && i < |healthy|
    ensures var line := p.Candidates(loads, healthy, req)[i];
            var l := loads[healthy[i]];
            var kvOk, slotOk := Gate.KvFits(l, p.NeedKv(req), p.sigma), Gate.SlotFree(l);
            && line.backend == healthy[i]
            && line.occupancy == Occupancy(l) && line.score == p.Scores(loads)[healthy[i]]
            && line.inflight == l.inflight && line.kvProjected == l.kvProjected
            && (p.FellThrough(loads, healthy, req) ==> line.gatedBy == None && !(kvOk && slotOk))
            && (!p.FellThrough(loads, healthy, req) ==>
                  && (line.gatedBy == None <==> kvOk && slotOk)
                  && (line.gatedBy == Some(KvHeadroom) <==> !kvOk)
                  && (line.gatedBy == Some(SlotLimit) <==> kvOk && !slotOk))
            && (line.gatedBy == None ==>
                  p.Scores(loads)[p.Decide(loads, healthy, req, draw).value] <= line.score)
  {
    LineExplainsGate(p, loads, healthy, req, i);
    PickCorrect(p, loads, healthy, req, draw);
    assert healthy[i] in healthy;
  }

  lemma LineExplainsGate(p: Pressure, loads: seq<Load>, healthy: seq<nat>, req: Request, i: nat)
    requires p.Validated() && ValidIds(healthy, loads) && i < |healthy|
    ensures var line, id := p.Candidates(loads, healthy, req)[i], healthy[i];
            var eligible := Gate.EligibleIds(healthy, loads, p.NeedKv(req), p.sigma);
            && line == p.Candidate(id, loads[id], p.NeedKv(req), eligible != [] && id !in eligible)
            && (id in eligible <==> Gate.Admits(loads[id], p.NeedKv(req), p.sigma))
            && p.Scores(loads)[id] == line.score
  {
    assert healthy[i] in healthy;
  }

  /** For a non-negative penalty the scored ties are the ties of raw occupancy. */
  lemma TiesAreOccupancyTies(p: Pressure, loads: seq<Load>, pool: seq<nat>)
    requires p.Validated() && p.penalty >= 0.0 && ValidIds(pool, loads)
    ensures TieList(pool, p.Scores(loads)) == TieList(pool, Occupancies(loads))
  {
    forall i, j | i in pool && j in pool
      ensures p.Scores(loads)[i] < p.Scores(loads)[j] <==> Occupancies(loads)[i] < Occupancies(loads)[j]
    {
      var u, v := Occupancy(loads[i]), Occupancy(loads[j]);
      if u < v {
        ScoreStrictlyIncreasing(u, v, p.theta, p.penalty);
      } else if v < u {
        ScoreStrictlyIncreasing(v, u, p.theta, p.penalty);
      }
    }
    SameOrderSameTies(pool, p.Scores(loads), Occupancies(loads));
  }

  /** Tuning the knee or the penalty never changes a decision: two routers that
      share the gate and the KV model draw from one ordered tie list. */
  lemma KnobsDoNotMatter(p: Pressure, q: Pressure, loads: seq<Load>, healthy: seq<nat>, req: Request, draw: nat)
    requires p.Validated() && q.Validated() && p.penalty >= 0.0 && q.penalty >= 0.0
    requires p.sigma == q.sigma && p.kvModel == q.kvModel && ValidIds(healthy, loads)
    ensures p.Ties(loads, healthy, req) == q.Ties(loads, healthy, req)
    ensures p.Decide(loads, healthy, req, draw) == q.Decide(loads, healthy, req, draw)
  {
    var pool := p.Pool(loads, healthy, p.NeedKv(req));
    TiesAreOccupancyTies(p, loads, pool);
    TiesAreOccupancyTies(q, loads, pool);
  }

  /** The gate only filters: with one healthy backend its setting is irrelevant. */
  lemma OneHealthyIgnoresSigma(p: Pressure, loads: seq<Load>, id: nat, req: Request, draw: nat)
    requires p.Validated() && id < |loads|
    ensures p.Decide(loads, [id], req, draw) == Some(id)
  {
    PickCorrect(p, loads, [id], req, draw);
  }

  // ----- what an unchecked penalty does

  const REWARDED := Pressure(0.55, -10.0, 0.95, PromptOnly)
  const BUSY := Load(Caps(1000, 100), 60, 600)
  const FULLER := Load(Caps(1000, 100), 80, 800)

  /** A negative penalty, which config validation lets through, sends requests to
      the fuller of two ordinary backends. */
  lemma NegativePenaltyPicksFuller(draw: nat)
    ensures Occupancy(BUSY) < Occupancy(FULLER)
    ensures REWARDED.Decide([BUSY, FULLER], [0, 1], Request(10, 10), draw) == Some(1)
  {
    hide Pressure.Decide, Gate.Admits;
    var loads := [BUSY, FULLER];
    PickCorrect(REWARDED, loads, [0, 1], Request(10, 10), draw);
    BothAdmit();
    ScoresOfExample();
    assert loads[0] == BUSY && loads[1] == FULLER;
    assert 0 in [0, 1] && 1 in [0, 1];
  }

  lemma BothAdmit()
    ensures Gate.Admits(BUSY, 10, 0.95) && Gate.Admits(FULLER, 10, 0.95)
  {
  }

  lemma ScoresOfExample()
    ensures Occupancy(BUSY) == 0.6 && Occupancy(FULLER) == 0.8
    ensures PressureScore(0.8, 0.55, -10.0) < PressureScore(0.6, 0.55, -10.0)
  {
  }
}
