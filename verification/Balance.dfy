/** Greedy balance: what picking the emptiest backend guarantees over a run. */
module Balance {
  import opened Machine
  import opened Cost
  import opened Backends
  import opened Selection
  import opened PressureStrategy
  import CountingStrategies
  import Gate

  /** Opening a lease on backend `b`, as the ledger sees it. */
  function Dispatched(loads: seq<Load>, b: nat, needKv: int): seq<Load>
    requires b < |loads|
  {
    loads[b := AddKv(AddInflight(loads[b], 1), needKv)]
  }

  /** The counters take the new lease without wrapping around. */
  ghost predicate Fits(l: Load, needKv: nat) {
    l.inflight + 1 < U32_MOD && 0 <= l.kvProjected && l.kvProjected + needKv < I64_HALF
  }

  /** How much one request can raise the occupancy of one backend. */
  function Increment(caps: Caps, needKv: nat): real {
    MaxReal(1.0 / caps.maxNumSeqs as real, needKv as real / caps.kvCapacityTokens as real)
  }

  ghost predicate SpreadAtMost(keys: seq<real>, ids: seq<nat>, s: real)
    requires Indexes(ids, keys)
  {
    forall i, j | i in ids && j in ids :: keys[i] - keys[j] <= s
  }

  lemma NoWrap(l: Load, needKv: nat)
    requires Fits(l, needKv)
    ensures AddKv(AddInflight(l, 1), needKv) == Load(l.caps, l.inflight + 1, l.kvProjected + needKv)
  {
  }

  lemma OccupancyRises(l: Load, needKv: nat)
    requires Fits(l, needKv)
    ensures var l' := AddKv(AddInflight(l, 1), needKv);
            Occupancy(l) <= Occupancy(l') <= Occupancy(l) + Increment(l.caps, needKv)
  {
    hide AddKv, AddInflight;
    NoWrap(l, needKv);
    var slots, mem := l.caps.maxNumSeqs, l.caps.kvCapacityTokens;
    RatioRises(l.inflight, 1, slots);
    RatioRises(l.kvProjected, needKv, mem);
    MaxRises(l.inflight as real / slots as real, 1.0 / slots as real,
             l.kvProjected as real / mem as real, needKv as real / mem as real);
  }

  lemma MaxRises(x: real, dx: real, y: real, dy: real)
    requires dx >= 0.0 && dy >= 0.0
    ensures MaxReal(x, y) <= MaxReal(x + dx, y + dy) <= MaxReal(x, y) + MaxReal(dx, dy)
  {
  }

  lemma RatioRises(x: int, d: nat, limit: pos32)
    ensures x as real / limit as real <= (x + d) as real / limit as real
    ensures (x + d) as real / limit as real == x as real / limit as real + d as real / limit as real
  {
    var a, b, k := x as real, d as real, limit as real;
    DivideSum(a, b, k);
    DivideMono(a, a + b, k);
  }

  /** Raising a key that is within `g` of the smallest keeps every gap below the
      larger of the old bound and the raise plus `g`. */
  lemma RaisingNearMinimum(keys: seq<real>, keys': seq<real>, ids: seq<nat>, b: nat, s: real, inc: real, g: real)
    requires Indexes(ids, keys) && |keys'| == |keys| && SpreadAtMost(keys, ids, s)
    requires b in ids && forall j | j in ids :: keys[b] <= keys[j] + g
    requires forall i | 0 <= i < |keys| && i != b :: keys'[i] == keys[i]
    requires keys[b] <= keys'[b] <= keys[b] + inc && g >= 0.0
    ensures SpreadAtMost(keys', ids, MaxReal(s, inc + g))
  {
  }

  // ----- the pressure strategy

  /** One decision of a dispatch-only run: a request and the tie-break draw. */
  datatype Decision = Decision(req: Request, draw: nat)

  /** One decision and the opening of its lease. */
  function Step(p: Pressure, loads: seq<Load>, healthy: seq<nat>, d: Decision): (end: seq<Load>)
    requires p.Validated() && ValidIds(healthy, loads)
    ensures |end| == |loads| && forall i | 0 <= i < |end| :: end[i].caps == loads[i].caps
  {
    match p.Decide(loads, healthy, d.req, d.draw)
    case None => loads
    case Some(id) => if id < |loads| then Dispatched(loads, id, p.NeedKv(d.req)) else loads
  }

  function After(p: Pressure, loads: seq<Load>, healthy: seq<nat>, run: seq<Decision>): (end: seq<Load>)
    requires p.Validated() && ValidIds(healthy, loads)
    ensures |end| == |loads|
    decreases |run|
  {
    if run == [] then loads else After(p, Step(p, loads, healthy, run[0]), healthy, run[1..])
  }

  /** The decision chooses among all healthy backends, its lease fits the
      counters, and it can raise no backend by more than `inc`. */
  ghost predicate FullPool(p: Pressure, loads: seq<Load>, healthy: seq<nat>, d: Decision, inc: real)
    requires p.Validated() && ValidIds(healthy, loads)
  {
    && p.Pool(loads, healthy, p.NeedKv(d.req)) == healthy
    && forall id | id in healthy ::
         Fits(loads[id], p.NeedKv(d.req)) && Increment(loads[id].caps, p.NeedKv(d.req)) <= inc
  }

  ghost predicate FullPools(p: Pressure, loads: seq<Load>, healthy: seq<nat>, run: seq<Decision>, inc: real)
    requires p.Validated() && ValidIds(healthy, loads)
    decreases |run|
  {
    run == [] ||
    (FullPool(p, loads, healthy, run[0], inc)
     && FullPools(p, Step(p, loads, healthy, run[0]), healthy, run[1..], inc))
  }

  lemma FullPoolPicksEmptiest(p: Pressure, loads: seq<Load>, healthy: seq<nat>, d: Decision) returns (id: nat)
    requires p.Validated() && p.penalty >= 0.0 && healthy != [] && ValidIds(healthy, loads)
    requires p.Pool(loads, healthy, p.NeedKv(d.req)) == healthy
    ensures p.Decide(loads, healthy, d.req, d.draw) == Some(id) && id in healthy
    ensures forall j | j in healthy :: Occupancies(loads)[id] <= Occupancies(loads)[j]
  {
    PickCorrect(p, loads, healthy, d.req, d.draw);
    id := p.Decide(loads, healthy, d.req, d.draw).value;
    TiesAreOccupancyTies(p, loads, healthy);
    TieListIsArgmin(healthy, Occupancies(loads), id);
  }

  /** One dispatch keeps the bound exactly when the raised backend stays within
      it of every backend the gate left out. The others never matter: none of
      them is emptier than the one picked. */
  lemma DispatchKeepsBalanceIff(p: Pressure, loads: seq<Load>, d: Decision, healthy: seq<nat>, id: nat, s: real)
    requires p.Validated() && p.penalty >= 0.0 && ValidIds(healthy, loads)
    requires p.Decide(loads, healthy, d.req, d.draw) == Some(id) && Fits(loads[id], p.NeedKv(d.req))
    requires SpreadAtMost(Occupancies(loads), healthy, s) && s >= 0.0
    ensures var bound := MaxReal(s, Increment(loads[id].caps, p.NeedKv(d.req)));
            SpreadAtMost(Occupancies(Step(p, loads, healthy, d)), healthy, bound) <==>
            forall j | j in healthy && j !in p.Pool(loads, healthy, p.NeedKv(d.req)) ::
              Occupancy(AddKv(AddInflight(loads[id], 1), p.NeedKv(d.req))) <= Occupancy(loads[j]) + bound
  {
    hide Pressure.Decide, Pressure.Pool, Occupancy, Increment;
    PickIsEmptiestOfPool(p, loads, healthy, d, id);
    OccupancyRises(loads[id], p.NeedKv(d.req));
    var end := Dispatched(loads, id, p.NeedKv(d.req));
    assert Step(p, loads, healthy, d) == end;
    RaisedGaps(Occupancies(loads), Occupancies(end), healthy, p.Pool(loads, healthy, p.NeedKv(d.req)), id, s,
               Increment(loads[id].caps, p.NeedKv(d.req)));
  }

  lemma PickIsEmptiestOfPool(p: Pressure, loads: seq<Load>, healthy: seq<nat>, d: Decision, id: nat)
    requires p.Validated() && p.penalty >= 0.0 && ValidIds(healthy, loads)
    requires p.Decide(loads, healthy, d.req, d.draw) == Some(id)
    ensures id < |loads| && id in healthy && id in p.Pool(loads, healthy, p.NeedKv(d.req))
    ensures forall j | j in p.Pool(loads, healthy, p.NeedKv(d.req)) :: Occupancies(loads)[id] <= Occupancies(loads)[j]
  {
    var pool := p.Pool(loads, healthy, p.NeedKv(d.req));
    TiesAreOccupancyTies(p, loads, pool);
    TieListIsArgmin(pool, Occupancies(loads), id);
  }

  lemma RaisedGaps(keys: seq<real>, keys': seq<real>, ids: seq<nat>, pool: seq<nat>, b: nat, s: real, inc: real)
    requires Indexes(ids, keys) && |keys'| == |keys| && SpreadAtMost(keys, ids, s) && s >= 0.0
    requires (forall j | j in pool :: j in ids) && b in pool && forall j | j in pool :: keys[b] <= keys[j]
    requires forall i | 0 <= i < |keys| && i != b :: keys'[i] == keys[i]
    requires keys[b] <= keys'[b] <= keys[b] + inc
    ensures SpreadAtMost(keys', ids, MaxReal(s, inc)) <==>
            forall j | j in ids && j !in pool :: keys'[b] <= keys[j] + MaxReal(s, inc)
  {
    var bound := MaxReal(s, inc);
    if SpreadAtMost(keys', ids, bound) {
      forall j | j in ids && j !in pool ensures keys'[b] <= keys[j] + bound {
        assert keys'[b] - keys'[j] <= bound;
      }
    }
  }

  /** Each pick is within `g` of the emptiest healthy backend, its lease fits the
      counters and raises its backend by at most `inc`. `g == 0` is a gate that
      never leaves out the emptiest. */
  ghost predicate NearRun(p: Pressure, loads: seq<Load>, healthy: seq<nat>, run: seq<Decision>, inc: real, g: real)
    requires p.Validated() && ValidIds(healthy, loads)
    decreases |run|
  {
    run == [] ||
    (NearPick(p, loads, healthy, run[0], inc, g)
     && NearRun(p, Step(p, loads, healthy, run[0]), healthy, run[1..], inc, g))
  }

  ghost predicate NearPick(p: Pressure, loads: seq<Load>, healthy: seq<nat>, d: Decision, inc: real, g: real)
    requires p.Validated() && ValidIds(healthy, loads)
  {
    match p.Decide(loads, healthy, d.req, d.draw)
    case None => true
    case Some(id) =>
      && id < |loads| && id in healthy && Fits(loads[id], p.NeedKv(d.req))
      && Increment(loads[id].caps, p.NeedKv(d.req)) <= inc
      && forall j | j in healthy :: Occupancy(loads[id]) <= Occupancy(loads[j]) + g
  }

  /** Over a whole run, gate or no gate, the occupancy spread stays within the
      larger of what it started with and the largest increment plus `g`. */
  lemma {:induction false} NearRunKeepsBalance(p: Pressure, loads: seq<Load>, healthy: seq<nat>, run: seq<Decision>,
                                               s: real, inc: real, g: real)
    requires p.Validated() && ValidIds(healthy, loads) && g >= 0.0
    requires NearRun(p, loads, healthy, run, inc, g)
    requires SpreadAtMost(Occupancies(loads), healthy, s)
    ensures SpreadAtMost(Occupancies(After(p, loads, healthy, run)), healthy, MaxReal(s, inc + g))
    decreases |run|
  {
    hide Pressure.Decide, Occupancy, Increment;
    if run == [] {
    } else {
      var d := run[0];
      if p.Decide(loads, healthy, d.req, d.draw).Some? {
        var id := p.Decide(loads, healthy, d.req, d.draw).value;
        OccupancyRises(loads[id], p.NeedKv(d.req));
        RaisingNearMinimum(Occupancies(loads), Occupancies(Step(p, loads, healthy, d)), healthy, id, s, inc, g);
      }
      NearRunKeepsBalance(p, Step(p, loads, healthy, d), healthy, run[1..], MaxReal(s, inc + g), inc, g);
    }
  }

  lemma {:induction false} FullPoolsAreNear(p: Pressure, loads: seq<Load>, healthy: seq<nat>, run: seq<Decision>,
                                            inc: real)
    requires p.Validated() && p.penalty >= 0.0 && healthy != [] && ValidIds(healthy, loads)
    requires FullPools(p, loads, healthy, run, inc)
    ensures NearRun(p, loads, healthy, run, inc, 0.0)
    decreases |run|
  {
    hide Pressure.Decide, Occupancy, Increment;
    if run == [] {
    } else {
      var id := FullPoolPicksEmptiest(p, loads, healthy, run[0]);
      assert forall j | j in healthy :: Occupancies(loads)[j] == Occupancy(loads[j]);
      FullPoolsAreNear(p, Step(p, loads, healthy, run[0]), healthy, run[1..], inc);
    }
  }

  /** When every decision sees all healthy backends, the spread never exceeds the
      larger of what it started with and the largest single increment. */
  lemma FullPoolsKeepBalance(p: Pressure, loads: seq<Load>, healthy: seq<nat>, run: seq<Decision>, s: real, inc: real)
    requires p.Validated() && p.penalty >= 0.0 && healthy != [] && ValidIds(healthy, loads)
    requires FullPools(p, loads, healthy, run, inc)
    requires SpreadAtMost(Occupancies(loads), healthy, s)
    ensures SpreadAtMost(Occupancies(After(p, loads, healthy, run)), healthy, MaxReal(s, inc))
  {
    FullPoolsAreNear(p, loads, healthy, run, inc);
    NearRunKeepsBalance(p, loads, healthy, run, s, inc, 0.0);
  }

  /** No decision of the run falls through the gate. */
  ghost predicate GatedRun(p: Pressure, loads: seq<Load>, healthy: seq<nat>, run: seq<Decision>)
    requires p.Validated() && ValidIds(healthy, loads)
    decreases |run|
  {
    run == [] ||
    (&& !p.FellThrough(loads, healthy, run[0].req)
     && (forall id | id in healthy :: Fits(loads[id], p.NeedKv(run[0].req)))
     && GatedRun(p, Step(p, loads, healthy, run[0]), healthy, run[1..]))
  }

  /** Whatever the gate leaves out, an admitted lease fills no backend past one,
      so without fall-through the spread never passes the larger of its start
      and one. */
  lemma {:induction false} GatedRunStaysWithinOne(p: Pressure, loads: seq<Load>, healthy: seq<nat>,
                                                  run: seq<Decision>, s: real)
    requires p.Validated() && ValidIds(healthy, loads) && GatedRun(p, loads, healthy, run)
    requires SpreadAtMost(Occupancies(loads), healthy, s)
    ensures SpreadAtMost(Occupancies(After(p, loads, healthy, run)), healthy, MaxReal(s, 1.0))
    decreases |run|
  {
    hide Pressure.Decide, Pressure.FellThrough, Occupancy;
    if run == [] {
    } else {
      AdmittedStep(p, loads, healthy, run[0], s);
      GatedRunStaysWithinOne(p, Step(p, loads, healthy, run[0]), healthy, run[1..], MaxReal(s, 1.0));
    }
  }

  lemma AdmittedStep(p: Pressure, loads: seq<Load>, healthy: seq<nat>, d: Decision, s: real)
    requires p.Validated() && ValidIds(healthy, loads) && !p.FellThrough(loads, healthy, d.req)
    requires forall id | id in healthy :: Fits(loads[id], p.NeedKv(d.req))
    requires SpreadAtMost(Occupancies(loads), healthy, s)
    ensures SpreadAtMost(Occupancies(Step(p, loads, healthy, d)), healthy, MaxReal(s, 1.0))
  {
    var eligible := Gate.EligibleIds(healthy, loads, p.NeedKv(d.req), p.sigma);
    assert eligible[0] in eligible;
    PickCorrect(p, loads, healthy, d.req, d.draw);
    hide Pressure.Decide, Pressure.FellThrough, Occupancy, Gate.Admits, Gate.EligibleIds;
    var id := p.Decide(loads, healthy, d.req, d.draw).value;
    var end := Dispatched(loads, id, p.NeedKv(d.req));
    OccupancyRises(loads[id], p.NeedKv(d.req));
    AdmittedFillsAtMostOne(loads[id], p.NeedKv(d.req), p.sigma);
    assert Step(p, loads, healthy, d) == end;
    forall i, j | i in healthy && j in healthy
      ensures Occupancies(end)[i] - Occupancies(end)[j] <= MaxReal(s, 1.0)
    {
      assert Occupancies(loads)[i] - Occupancies(loads)[j] <= s;
    }
  }

  lemma AdmittedFillsAtMostOne(l: Load, needKv: nat, sigma: real)
    requires 0.0 < sigma <= 1.0 && Fits(l, needKv) && Gate.Admits(l, needKv, sigma)
    ensures Occupancy(AddKv(AddInflight(l, 1), needKv)) <= 1.0
  {
    Gate.CeilingIsExact(l.caps, sigma, l.kvProjected + needKv);
    hide Gate.Ceiling, AddKv, AddInflight;
    NoWrap(l, needKv);
    RatioAtMost(l.inflight + 1, l.caps.maxNumSeqs, 1);
    RatioAtMost(l.kvProjected + needKv, l.caps.kvCapacityTokens, 1);
  }

  ghost predicate Empty(loads: seq<Load>) {
    forall i | 0 <= i < |loads| :: loads[i].inflight == 0 && loads[i].kvProjected == 0
  }

  /** Starting from an empty fleet and with full pools, no two healthy backends
      ever drift further apart than one request can move one of them. */
  lemma FullPoolsFromEmpty(p: Pressure, loads: seq<Load>, healthy: seq<nat>, run: seq<Decision>, inc: real)
    requires p.Validated() && p.penalty >= 0.0 && healthy != [] && ValidIds(healthy, loads)
    requires FullPools(p, loads, healthy, run, inc) && Empty(loads) && inc >= 0.0
    ensures SpreadAtMost(Occupancies(After(p, loads, healthy, run)), healthy, inc)
  {
    EmptySpread(loads, healthy);
    FullPoolsKeepBalance(p, loads, healthy, run, 0.0, inc);
  }

  lemma EmptySpread(loads: seq<Load>, healthy: seq<nat>)
    requires ValidIds(healthy, loads) && Empty(loads)
    ensures SpreadAtMost(Occupancies(loads), healthy, 0.0)
  {
    forall i | i in healthy ensures Occupancies(loads)[i] == 0.0 {
      EmptyOccupancy(loads[i]);
    }
  }

  lemma EmptyOccupancy(l: Load)
    requires l.inflight == 0 && l.kvProjected == 0
    ensures Occupancy(l) == 0.0
  {
    DivideIsScale(0.0, 1.0, l.caps.maxNumSeqs as real);
    DivideIsScale(0.0, 1.0, l.caps.kvCapacityTokens as real);
  }

  // ----- any run, whatever the gate leaves out

  /** What one request can add to a KV counter at most. */
  const CHARGE_LIMIT := 2 * U32_MOD

  /** Two facts known before the run: its requests fit the machine widths of every
      healthy backend, and none of them can raise one by more than `inc`. */
  ghost predicate Roomy(p: Pressure, loads: seq<Load>, healthy: seq<nat>, run: seq<Decision>, inc: real)
    requires ValidIds(healthy, loads)
  {
    && (forall id | id in healthy ::
          && loads[id].inflight + |run| < U32_MOD
          && 0 <= loads[id].kvProjected && loads[id].kvProjected + CHARGE_LIMIT * |run| < I64_HALF)
    && forall i, id | 0 <= i < |run| && id in healthy ::
         Increment(loads[id].caps, p.NeedKv(run[i].req)) <= inc
  }

  /** A backend the gate refuses is nearly full: its slots are gone, or one more
      request would take it past `sigma`. */
  lemma RefusedIsNearlyFull(l: Load, needKv: nat, sigma: real)
    requires 0.0 < sigma <= 1.0 && l.kvProjected >= 0 && !Gate.Admits(l, needKv, sigma)
    ensures Occupancy(l) >= 1.0 || Occupancy(l) + Increment(l.caps, needKv) > sigma
  {
    var slots, mem := l.caps.maxNumSeqs, l.caps.kvCapacityTokens;
    if Gate.SlotFree(l) {
      Gate.CeilingIsExact(l.caps, sigma, l.kvProjected + needKv);
      hide Gate.Ceiling;
      RatioRises(l.kvProjected, needKv, mem);
      PastShare((l.kvProjected + needKv) as real, mem as real, sigma);
    } else {
      hide Gate.Ceiling;
      DivideMono(slots as real, l.inflight as real, slots as real);
    }
  }

  lemma PastShare(x: real, d: real, share: real)
    requires d > 0.0 && x > share * d
    ensures x / d > share
  {
    if x / d <= share {
      MulMono(d, x / d, share);
    }
  }

  /** However good or bad its pick, one decision leaves no gap wider than its old
      bound or the widest increment plus the share the gate keeps free. */
  lemma DispatchStaysNear(p: Pressure, loads: seq<Load>, d: Decision, healthy: seq<nat>, s: real, inc: real)
    requires p.Validated() && p.penalty >= 0.0 && healthy != [] && ValidIds(healthy, loads)
    requires Roomy(p, loads, healthy, [d], inc) && SpreadAtMost(Occupancies(loads), healthy, s)
    ensures SpreadAtMost(Occupancies(Step(p, loads, healthy, d)), healthy, MaxReal(s, inc + 1.0 - p.sigma))
  {
    hide Pressure.Decide, Pressure.Pool, Occupancy, Increment, Gate.Admits;
    var need := p.NeedKv(d.req);
    PickCorrect(p, loads, healthy, d.req, d.draw);
    var id := p.Decide(loads, healthy, d.req, d.draw).value;
    PickIsEmptiestOfPool(p, loads, healthy, d, id);
    assert [d][0] == d;
    var raised := AddKv(AddInflight(loads[id], 1), need);
    OccupancyRises(loads[id], need);
    assert Step(p, loads, healthy, d) == Dispatched(loads, id, need);
    forall j | j in healthy
      ensures Occupancy(raised) <= Occupancy(loads[j]) + (inc + 1.0 - p.sigma)
    {
      if j in p.Pool(loads, healthy, need) {
        assert Occupancies(loads)[id] <= Occupancies(loads)[j];
      } else {
        LeftOutIsRefused(p, loads, healthy, need, id, j);
        AdmittedFillsAtMostOne(loads[id], need, p.sigma);
        RefusedIsNearlyFull(loads[j], need, p.sigma);
      }
    }
    RaisingTo(Occupancies(loads), Occupancies(Step(p, loads, healthy, d)), healthy, id, s, inc + 1.0 - p.sigma);
  }

  lemma LeftOutIsRefused(p: Pressure, loads: seq<Load>, healthy: seq<nat>, needKv: nat, id: nat, j: nat)
    requires ValidIds(healthy, loads) && j in healthy
    requires id in p.Pool(loads, healthy, needKv) && j !in p.Pool(loads, healthy, needKv)
    ensures Gate.Admits(loads[id], needKv, p.sigma) && !Gate.Admits(loads[j], needKv, p.sigma)
  {
    hide Gate.Admits;
  }

  lemma RaisingTo(keys: seq<real>, keys': seq<real>, ids: seq<nat>, b: nat, s: real, gap: real)
    requires Indexes(ids, keys) && |keys'| == |keys| && SpreadAtMost(keys, ids, s)
    requires b in ids && gap >= 0.0 && keys[b] <= keys'[b]
    requires forall i | 0 <= i < |keys| && i != b :: keys'[i] == keys[i]
    requires forall j | j in ids :: keys'[b] <= keys[j] + gap
    ensures SpreadAtMost(keys', ids, MaxReal(s, gap))
  {
  }

  /** The balance theorem. Over any run, gated or falling through, the spread stays
      within the larger of what it started with and the widest increment of a
      request plus the share `1 - sigma` the gate keeps free. */
  lemma {:induction false} PressureKeepsBalance(p: Pressure, loads: seq<Load>, healthy: seq<nat>, run: seq<Decision>,
                                                s: real, inc: real)
    requires p.Validated() && p.penalty >= 0.0 && healthy != [] && ValidIds(healthy, loads)
    requires Roomy(p, loads, healthy, run, inc) && SpreadAtMost(Occupancies(loads), healthy, s)
    ensures SpreadAtMost(Occupancies(After(p, loads, healthy, run)), healthy, MaxReal(s, inc + 1.0 - p.sigma))
    decreases |run|
  {
    hide Pressure.Decide, Occupancy, Increment;
    if run == [] {
    } else {
      assert run[0] in [run[0]] && [run[0]][0] == run[0];
      DispatchStaysNear(p, loads, run[0], healthy, s, inc);
      StaysRoomy(p, loads, healthy, run, inc);
      PressureKeepsBalance(p, Step(p, loads, healthy, run[0]), healthy, run[1..], MaxReal(s, inc + 1.0 - p.sigma), inc);
    }
  }

  lemma StaysRoomy(p: Pressure, loads: seq<Load>, healthy: seq<nat>, run: seq<Decision>, inc: real)
    requires p.Validated() && ValidIds(healthy, loads) && run != [] && Roomy(p, loads, healthy, run, inc)
    ensures Roomy(p, Step(p, loads, healthy, run[0]), healthy, run[1..], inc)
  {
    hide Pressure.Decide, Increment, AddKv, AddInflight;
    var next := Step(p, loads, healthy, run[0]);
    forall id | id in healthy
      ensures next[id].inflight <= loads[id].inflight + 1
      ensures loads[id].kvProjected <= next[id].kvProjected <= loads[id].kvProjected + CHARGE_LIMIT
    {
      NoWrap(loads[id], p.NeedKv(run[0].req));
    }
    assert forall i | 0 <= i < |run| - 1 :: run[1..][i] == run[i + 1];
  }

  lemma BalancedFromEmpty(p: Pressure, loads: seq<Load>, healthy: seq<nat>, run: seq<Decision>, inc: real)
    requires p.Validated() && p.penalty >= 0.0 && healthy != [] && ValidIds(healthy, loads)
    requires Roomy(p, loads, healthy, run, inc) && Empty(loads) && inc >= 0.0
    ensures SpreadAtMost(Occupancies(After(p, loads, healthy, run)), healthy, inc + 1.0 - p.sigma)
  {
    EmptySpread(loads, healthy);
    PressureKeepsBalance(p, loads, healthy, run, 0.0, inc);
  }

  const DEFAULTS := Pressure(0.55, 10.0, 0.95, PromptOnly)

  /** Two backends of `100 * n` tokens: one just past the share where a request of
      `10 * n` is refused, one with a single slot left. */
  function Crowded(n: nat): (loads: seq<Load>)
    requires 0 < n <= 40_000_000
    ensures |loads| == 2
  {
    [Load(Caps(100 * n, 1000), 9, 85 * n + 1), Load(Caps(100 * n, 10), 9, 9)]
  }

  function LongRequest(n: nat): Decision
    requires 0 < n <= 40_000_000
  {
    Decision(Request(10 * n, 1), 0)
  }

  /** The bound cannot be improved: with increments of a tenth, one decision from a
      spread of at most 0.05 comes as close to `0.1 + 1 - sigma` as one likes. */
  lemma BalanceBoundIsApproached(n: nat)
    requires 0 < n <= 40_000_000
    ensures Roomy(DEFAULTS, Crowded(n), [0, 1], [LongRequest(n)], 0.1)
    ensures SpreadAtMost(Occupancies(Crowded(n)), [0, 1], 0.05)
    ensures var after := Occupancies(Step(DEFAULTS, Crowded(n), [0, 1], LongRequest(n)));
            after[1] - after[0] == 0.1 + 1.0 - DEFAULTS.sigma - 1.0 / (100 * n) as real
  {
    hide Crowded, Step, Occupancy, Increment, Gate.Admits;
    CrowdedReadings(n);
    CrowdedPick(n);
    assert [LongRequest(n)][0] == LongRequest(n);
    assert Occupancies(Crowded(n))[0] == Occupancy(Crowded(n)[0]);
    assert Occupancies(Crowded(n))[1] == Occupancy(Crowded(n)[1]);
  }

  lemma CrowdedPick(n: nat)
    requires 0 < n <= 40_000_000
    ensures Step(DEFAULTS, Crowded(n), [0, 1], LongRequest(n)) == Dispatched(Crowded(n), 1, 10 * n)
  {
    hide Pressure.Decide, Pressure.Scores, Gate.Admits, Dispatched, Crowded;
    PickCorrect(DEFAULTS, Crowded(n), [0, 1], LongRequest(n).req, 0);
    CrowdedAdmits(n);
    assert 0 in [0, 1] && 1 in [0, 1];
  }

  lemma CrowdedReadings(n: nat)
    requires 0 < n <= 40_000_000
    ensures var loads := Crowded(n);
            && (forall b | 0 <= b < 2 ::
                  && Fits(loads[b], 10 * n) && loads[b].inflight == 9 && 9 <= loads[b].kvProjected <= 4_000_000_000
                  && Increment(loads[b].caps, 10 * n) == 0.1)
            && Occupancy(loads[0]) == 0.85 + 1.0 / (100 * n) as real && Occupancy(loads[1]) == 0.9
            && Occupancies(Dispatched(loads, 1, 10 * n)) == [Occupancy(loads[0]), 1.0]
            && 1.0 / (100 * n) as real <= 0.01
  {
    hide Occupancy, Increment, AddKv, AddInflight;
    RefusedReadings(n);
    LastSlotReadings(n);
    NoWrap(Crowded(n)[1], 10 * n);
  }

  lemma RefusedReadings(n: nat)
    requires 0 < n <= 40_000_000
    ensures Fits(Crowded(n)[0], 10 * n)
    ensures Occupancy(Crowded(n)[0]) == 0.85 + 1.0 / (100 * n) as real && 1.0 / (100 * n) as real <= 0.01
    ensures Increment(Crowded(n)[0].caps, 10 * n) == 0.1
  {
    var c := (100 * n) as real;
    TenthOf(n);
    DivideSum(0.85 * c, 1.0, c);
    DivideIsScale(0.85, c, c);
    CancelScale(0.0, 1.0 / c, c);
    CancelScale(1.0 / c, 0.01, c);
    assert (85 * n + 1) as real == 0.85 * c + 1.0;
  }

  lemma LastSlotReadings(n: nat)
    requires 0 < n <= 40_000_000
    ensures Fits(Crowded(n)[1], 10 * n)
    ensures Occupancy(Crowded(n)[1]) == 0.9 && Occupancy(Load(Crowded(n)[1].caps, 10, 10 * n + 9)) == 1.0
    ensures Increment(Crowded(n)[1].caps, 10 * n) == 0.1
  {
    TenthOf(n);
    CancelScale(9.0 / (100 * n) as real, 0.1, (100 * n) as real);
    RatioAtMost(10 * n + 9, 100 * n, 1);
  }

  lemma TenthOf(n: nat)
    requires n > 0
    ensures (10 * n) as real / (100 * n) as real == 0.1
  {
    assert (10 * n) as real == 0.1 * (100 * n) as real;
  }

  lemma CrowdedAdmits(n: nat)
    requires 0 < n <= 40_000_000
    ensures !Gate.Admits(Crowded(n)[0], 10 * n, 0.95) && Gate.Admits(Crowded(n)[1], 10 * n, 0.95)
  {
    Gate.CeilingIsExact(Caps(100 * n, 1000), 0.95, 95 * n + 1);
    Gate.CeilingIsExact(Caps(100 * n, 10), 0.95, 10 * n + 9);
  }

  // ----- a gated run from an empty fleet

  const SMALL := Load(Caps(100, 10), 0, 0)

  /** A larger backend with `n` leases of 200 tokens. */
  function Large(n: nat): Load
    requires n <= 47
  {
    Load(Caps(10_000, 100), n, 200 * n)
  }

  function Same(n: nat): seq<Decision> {
    seq(n, _ => Decision(Request(200, 128), 0))
  }

  /** The gate can leave out the emptiest backend for good: a fleet that starts
      empty and takes requests too long for its small backend drifts apart by one
      increment per request, under the default settings. */
  lemma {:induction false} GateCanWidenSpread(m: nat, n: nat)
    requires m + n <= 47
    ensures After(DEFAULTS, [SMALL, Large(m)], [0, 1], Same(n)) == [SMALL, Large(m + n)]
    ensures Occupancies([SMALL, Large(m + n)]) == [0.0, 0.02 * (m + n) as real]
    ensures Increment(Large(m).caps, DEFAULTS.NeedKv(Request(200, 128))) == 0.02
    decreases n
  {
    hide Step, Occupancy, Increment, Large;
    OccupancyOfLarge(m + n);
    OccupancyOfLarge(m);
    EmptyOccupancy(SMALL);
    if n == 0 {
    } else {
      LargeTakesNext(m);
      assert Same(n)[1..] == Same(n - 1);
      GateCanWidenSpread(m + 1, n - 1);
    }
  }

  lemma OccupancyOfLarge(n: nat)
    requires n <= 47
    ensures Occupancy(Large(n)) == 0.02 * n as real
    ensures Increment(Large(n).caps, DEFAULTS.NeedKv(Request(200, 128))) == 0.02
  {
  }

  lemma LargeTakesNext(m: nat)
    requires m < 47
    ensures Step(DEFAULTS, [SMALL, Large(m)], [0, 1], Decision(Request(200, 128), 0)) == [SMALL, Large(m + 1)]
  {
    hide Pressure.Decide, Pressure.Scores, Gate.Admits, Dispatched;
    var loads := [SMALL, Large(m)];
    PickCorrect(DEFAULTS, loads, [0, 1], Request(200, 128), 0);
    OnlyLargeAdmits(m);
    NextLarge(m);
    assert loads[0] == SMALL && loads[1] == Large(m);
    assert 0 in [0, 1] && 1 in [0, 1];
  }

  lemma NextLarge(m: nat)
    requires m < 47
    ensures Dispatched([SMALL, Large(m)], 1, 200) == [SMALL, Large(m + 1)]
  {
    assert AddKv(AddInflight(Large(m), 1), 200) == Large(m + 1);
  }

  lemma OnlyLargeAdmits(m: nat)
    requires m < 47
    ensures !Gate.Admits(SMALL, 200, 0.95) && Gate.Admits(Large(m), 200, 0.95)
  {
    assert Gate.Ceiling(Caps(10_000, 100), 0.95) == 9500;
  }

  // ----- least requests

  /** A run of the counting strategy from `loads`: each pick is any member of the
      tie list of what the picks before it left. */
  ghost predicate IsCountedRun(loads: seq<Load>, healthy: seq<nat>, picks: seq<nat>, needs: seq<nat>)
    requires ValidIds(healthy, loads) && |picks| == |needs|
    decreases |picks|
  {
    picks == [] ||
    (&& picks[0] < |loads| && picks[0] in TieList(healthy, CountingStrategies.InflightKeys(loads))
     && loads[picks[0]].inflight + 1 < U32_MOD
     && IsCountedRun(Dispatched(loads, picks[0], needs[0]), healthy, picks[1..], needs[1..]))
  }

  function CountedAfter(loads: seq<Load>, picks: seq<nat>, needs: seq<nat>): (end: seq<Load>)
    requires |picks| == |needs| && forall i | 0 <= i < |picks| :: picks[i] < |loads|
    ensures |end| == |loads|
    decreases |picks|
  {
    if picks == [] then loads else CountedAfter(Dispatched(loads, picks[0], needs[0]), picks[1..], needs[1..])
  }

  /** From counts within one of each other, fewest-in-flight keeps them within
      one, whatever the requests weigh. */
  lemma {:induction false} LeastRequestsKeepsBalance(loads: seq<Load>, healthy: seq<nat>, picks: seq<nat>,
                                                     needs: seq<nat>)
    requires ValidIds(healthy, loads) && |picks| == |needs|
    requires IsCountedRun(loads, healthy, picks, needs)
    requires forall i | 0 <= i < |picks| :: picks[i] < |loads|
    requires SpreadAtMost(CountingStrategies.InflightKeys(loads), healthy, 1.0)
    ensures SpreadAtMost(CountingStrategies.InflightKeys(CountedAfter(loads, picks, needs)), healthy, 1.0)
    decreases |picks|
  {
    if picks == [] {
    } else {
      CountedStep(loads, healthy, picks[0], needs[0]);
      LeastRequestsKeepsBalance(Dispatched(loads, picks[0], needs[0]), healthy, picks[1..], needs[1..]);
    }
  }

  lemma CountedStep(loads: seq<Load>, healthy: seq<nat>, b: nat, needKv: nat)
    requires ValidIds(healthy, loads) && b < |loads|
    requires b in TieList(healthy, CountingStrategies.InflightKeys(loads))
    requires loads[b].inflight + 1 < U32_MOD
    requires SpreadAtMost(CountingStrategies.InflightKeys(loads), healthy, 1.0)
    ensures SpreadAtMost(CountingStrategies.InflightKeys(Dispatched(loads, b, needKv)), healthy, 1.0)
  {
    var keys := CountingStrategies.InflightKeys(loads);
    var keys' := CountingStrategies.InflightKeys(Dispatched(loads, b, needKv));
    TieListIsArgmin(healthy, keys, b);
    assert keys'[b] == keys[b] + 1.0;
    RaisingNearMinimum(keys, keys', healthy, b, 1.0, 1.0, 0.0);
  }
}
