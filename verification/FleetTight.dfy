/** The overshoot bound is exact: for every number of simultaneous decisions and
    every request size there is a fleet and a run that reach it. */
module FleetTight {
  import opened Machine
  import opened Cost
  import opened Backends
  import opened Sums
  import opened Lease
  import opened Fleet
  import opened FleetLedger
  import opened FleetAdmission
  import Gate

  /** One backend with room for exactly one request of `m` tokens. */
  function OneSlot(m: pos32): Config {
    Config([Caps(m, 1)], 1.0, PromptOnly)
  }

  function Arrival(m: pos32): Handler {
    Handler([0], m, 1, Reading, Opened(PromptOnly, m, 1), 0, 0, 0, 0, false)
  }

  function Arrivals(k: nat, m: pos32): State {
    State([Load(Caps(m, 1), 0, 0)], seq(k, _ => Arrival(m)))
  }

  /** Handlers of this example: nothing streamed yet, all the same size. */
  ghost predicate Plain(hs: seq<Handler>, k: nat, m: pos32) {
    |hs| == k && forall i | 0 <= i < k :: hs[i].prompt == m && hs[i].contents == 0
  }

  lemma PlainIsModest(s: State, k: nat, m: pos32)
    requires Plain(s.handlers, k, m) && k < LIVE_LIMIT
    ensures Modest(OneSlot(m), s, k, m)
  {
    TotalAtMost(s.handlers, DecidingAll());
    forall b | 0 <= b < |s.live| ensures Total(s.handlers, LiveAt(b)) < LIVE_LIMIT {
      TotalAtMost(s.handlers, LiveAt(b));
    }
  }

  /** Extends a modest run of the example by one move of handler `r`. */
  lemma ActAs(k: nat, m: pos32, moves: seq<Move>, s: State, r: nat, a: Action) returns (longer: seq<Move>, end: State)
    requires k < LIVE_LIMIT && ModestRun(OneSlot(m), Arrivals(k, m), moves, k, m)
    requires After(OneSlot(m), Arrivals(k, m), moves) == Some(s)
    requires r < |s.handlers| && Plain(s.handlers, k, m) && a != Content
    requires StepHandler(OneSlot(m), s.live, s.handlers[r], a).Some?
    ensures ModestRun(OneSlot(m), Arrivals(k, m), longer, k, m)
    ensures After(OneSlot(m), Arrivals(k, m), longer) == Some(end) && Plain(end.handlers, k, m)
    ensures var (h, e) := StepHandler(OneSlot(m), s.live, s.handlers[r], a).value;
            end == State(Apply(s.live, e), s.handlers[r := h])
  {
    hide StepHandler, Modest;
    longer := moves + [Move(r, a)];
    StepKeepsRequest(OneSlot(m), s.live, s.handlers[r], a);
    Extend(OneSlot(m), Arrivals(k, m), moves, Move(r, a));
    end := After(OneSlot(m), Arrivals(k, m), longer).value;
    PlainIsModest(end, k, m);
    assert longer[..|moves|] == moves;
  }

  /** The first `n` requests all pass the gate before any lease opens. */
  lemma {:induction false} DecideFirst(k: nat, m: pos32, n: nat) returns (moves: seq<Move>, s: State)
    requires n <= k < LIVE_LIMIT
    ensures ModestRun(OneSlot(m), Arrivals(k, m), moves, k, m)
    ensures After(OneSlot(m), Arrivals(k, m), moves) == Some(s)
    ensures Plain(s.handlers, k, m) && s.live == Arrivals(k, m).live
    ensures forall i | 0 <= i < n :: s.handlers[i].phase == Chosen(0, true)
    ensures forall i | n <= i < k :: s.handlers[i] == Arrival(m)
  {
    if n == 0 {
      moves, s := [], Arrivals(k, m);
      PlainIsModest(s, k, m);
    } else {
      moves, s := DecideFirst(k, m, n - 1);
      hide After, ModestRun;
      moves, s := DecideOne(k, m, moves, s, n - 1);
    }
  }

  /** One handler runs its gate scan against untouched counters. */
  lemma DecideOne(k: nat, m: pos32, moves: seq<Move>, s: State, r: nat) returns (longer: seq<Move>, end: State)
    requires k < LIVE_LIMIT && ModestRun(OneSlot(m), Arrivals(k, m), moves, k, m)
    requires After(OneSlot(m), Arrivals(k, m), moves) == Some(s) && Plain(s.handlers, k, m)
    requires r < |s.handlers| && s.handlers[r] == Arrival(m) && s.live == Arrivals(k, m).live
    ensures ModestRun(OneSlot(m), Arrivals(k, m), longer, k, m)
    ensures After(OneSlot(m), Arrivals(k, m), longer) == Some(end) && Plain(end.handlers, k, m)
    ensures end == State(s.live, s.handlers[r := Arrival(m).(phase := Chosen(0, true))])
  {
    hide After, ModestRun, Plain, Gate.KvFits, Gate.SlotFree;
    AdmitsFirst(m);
    longer, end := ActAs(k, m, moves, s, r, Begin);
    longer, end := ActAs(k, m, longer, end, r, GateLoad);
    longer, end := ActAs(k, m, longer, end, r, GateLoad);
    assert end.handlers[r].phase == Scanning(1, false, {0}, {0});
    assert {0} * {0} == {0};
    longer, end := ActAs(k, m, longer, end, r, Choose(0));
  }

  lemma AdmitsFirst(m: pos32)
    ensures Gate.KvFits(Load(Caps(m, 1), 0, 0), m, 1.0) && Gate.SlotFree(Load(Caps(m, 1), 0, 0))
  {
    Gate.CeilingIsExact(Caps(m, 1), 1.0, m);
  }

  /** Then the first `n` of them open their leases. */
  lemma {:induction false} OpenFirst(k: nat, m: pos32, n: nat) returns (moves: seq<Move>, s: State)
    requires n <= k < LIVE_LIMIT
    ensures ModestRun(OneSlot(m), Arrivals(k, m), moves, k, m)
    ensures After(OneSlot(m), Arrivals(k, m), moves) == Some(s)
    ensures Plain(s.handlers, k, m)
    ensures forall i | 0 <= i < n :: s.handlers[i].phase == Connecting(0, true)
    ensures forall i | n <= i < k :: s.handlers[i].phase == Chosen(0, true)
  {
    if n == 0 {
      moves, s := DecideFirst(k, m, k);
    } else {
      moves, s := OpenFirst(k, m, n - 1);
      hide After, ModestRun, Plain, Modest, Arrivals, Apply, Gate.KvFits, Gate.SlotFree, Observed;
      moves, s := ActAs(k, m, moves, s, n - 1, Atomic);
      moves, s := ActAs(k, m, moves, s, n - 1, Atomic);
    }
  }

  /** `k` requests of `m` tokens that decide together overshoot the ceiling by
      exactly `k - 1` of them, in tokens and in slots. */
  lemma OvershootIsReached(k: nat, m: pos32) returns (moves: seq<Move>, end: State)
    requires 0 < k < LIVE_LIMIT
    ensures OneSlot(m).Validated() && Init(OneSlot(m), Arrivals(k, m))
    ensures ModestRun(OneSlot(m), Arrivals(k, m), moves, k, m)
    ensures After(OneSlot(m), Arrivals(k, m), moves) == Some(end)
    ensures Total(end.handlers, HeldAt(OneSlot(m), Kv, 0)) == Gate.Ceiling(Caps(m, 1), 1.0) + (k - 1) * m
    ensures Total(end.handlers, HeldAt(OneSlot(m), Slot, 0)) == Caps(m, 1).maxNumSeqs + (k - 1)
  {
    moves, end := OpenFirst(k, m, k);
    TotalEach(end.handlers, HeldAt(OneSlot(m), Kv, 0), m);
    TotalEach(end.handlers, HeldAt(OneSlot(m), Slot, 0), 1);
    CeilingOfOne(m);
    assert k * m == m + (k - 1) * m;
  }

  lemma CeilingOfOne(m: pos32)
    ensures Gate.Ceiling(Caps(m, 1), 1.0) == m
  {
    Gate.CeilingIsExact(Caps(m, 1), 1.0, m);
  }
}
