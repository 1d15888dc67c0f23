/** The Python load generator: a second implementation of the routing policy,
    with its own ledger, and the `kvts` work accounting only it carries. */
module LoadGen {
  import opened Machine
  import opened Cost
  import opened Sums

  /** Every backend shares one pair of limits here. `kvts` selects the policies
      that also account for remaining work. */
  datatype Config = Config(
    maxNumSeqs: pos32,
    kvCapacity: pos32,
    theta: real,
    penalty: real,
    sigma: real,
    kvModel: KvModel,
    kvts: bool)

  /** One request. `backend`, `p` never change; `live` ends with the request. */
  datatype Task = Task(backend: nat, p: nat, oHat: nat, c: nat, kvHeld: nat, charged: real, live: bool)

  datatype State = State(inFlight: seq<int>, kvProj: seq<real>, w: seq<real>, tasks: seq<Task>)

  /** What happens to the state between two awaits. */
  datatype Event = Dispatch(backend: nat, p: nat, oHat: nat) | Token(task: nat) | Finish(task: nat)

  function KvFor(p: nat, oHat: nat, model: KvModel): nat {
    if model.PromptPlusOutput? then p + oHat else p
  }

  function KvtsRemaining(p: int, h: int, c: int, oHat: int): real {
    var rem := MaxInt(0, oHat - c);
    rem as real * ((p - h + c) as real + rem as real / 2.0)
  }

  // ----- the three updates, as the generator makes them on its dictionaries

  function Dispatched(cfg: Config, s: State, b: nat, p: nat, oHat: nat): State
    requires b < |s.inFlight| == |s.kvProj| == |s.w|
  {
    var kv := KvFor(p, oHat, cfg.kvModel);
    var charge := if cfg.kvts then KvtsRemaining(p, 0, 0, oHat) else 0.0;
    State(s.inFlight[b := s.inFlight[b] + 1],
          s.kvProj[b := s.kvProj[b] + kv as real],
          s.w[b := s.w[b] + charge],
          s.tasks + [Task(b, p, oHat, 0, kv, charge, true)])
  }

  function TokenTask(cfg: Config, t: Task): Task {
    var c := t.c + 1;
    var oHat := if c > t.oHat then t.oHat + 50 else t.oHat;
    var kvHeld := if c > t.oHat then KvFor(t.p, oHat, cfg.kvModel) else t.kvHeld;
    var charged := if cfg.kvts then KvtsRemaining(t.p, 0, c, oHat) else t.charged;
    t.(oHat := oHat, c := c, kvHeld := kvHeld, charged := charged)
  }

  function Tokened(cfg: Config, s: State, i: nat): State
    requires i < |s.tasks| && s.tasks[i].backend < |s.kvProj| == |s.w|
  {
    var t, t' := s.tasks[i], TokenTask(cfg, s.tasks[i]);
    var b := t.backend;
    s.(kvProj := s.kvProj[b := s.kvProj[b] + (t'.kvHeld - t.kvHeld) as real],
       w := s.w[b := s.w[b] + (t'.charged - t.charged)],
       tasks := s.tasks[i := t'])
  }

  function ClampNegative(x: real): real {
    if x < 0.0 then 0.0 else x
  }

  function ClampTiny(x: real): real {
    if -0.000001 < x < 0.000001 then 0.0 else x
  }

  function Finished(cfg: Config, s: State, i: nat): State
    requires i < |s.tasks| && s.tasks[i].backend < |s.inFlight| == |s.kvProj| == |s.w|
  {
    var t := s.tasks[i];
    var b := t.backend;
    State(s.inFlight[b := s.inFlight[b] - 1],
          s.kvProj[b := ClampNegative(s.kvProj[b] - t.kvHeld as real)],
          if cfg.kvts then s.w[b := ClampTiny(s.w[b] - t.charged)] else s.w,
          s.tasks[i := t.(live := false)])
  }

  predicate Enabled(s: State, e: Event) {
    match e
    case Dispatch(b, _, _) => b < |s.inFlight|
    case Token(i) => i < |s.tasks| && s.tasks[i].live
    case Finish(i) => i < |s.tasks| && s.tasks[i].live
  }

  ghost predicate Shaped(s: State) {
    && |s.inFlight| == |s.kvProj| == |s.w|
    && forall i | 0 <= i < |s.tasks| :: s.tasks[i].backend < |s.inFlight|
  }

  function Step(cfg: Config, s: State, e: Event): State
    requires Shaped(s) && Enabled(s, e)
  {
    match e
    case Dispatch(b, p, oHat) => Dispatched(cfg, s, b, p, oHat)
    case Token(i) => Tokened(cfg, s, i)
    case Finish(i) => Finished(cfg, s, i)
  }

  class Generator {
    const cfg: Config
    var inFlight: seq<int>
    var kvProj: seq<real>
    var w: seq<real>
    var tasks: seq<Task>

    function Contents(): State
      reads this
    {
      State(inFlight, kvProj, w, tasks)
    }

    constructor (cfg: Config, backends: nat)
      ensures this.cfg == cfg && Contents() == Start(backends)
    {
      this.cfg := cfg;
      inFlight := seq(backends, _ => 0);
      kvProj, w := seq(backends, _ => 0.0), seq(backends, _ => 0.0);
      tasks := [];
    }

    method DispatchTo(b: nat, p: nat, oHat: nat)
      requires Shaped(Contents()) && Enabled(Contents(), Dispatch(b, p, oHat))
      modifies this
      ensures Contents() == Step(cfg, old(Contents()), Dispatch(b, p, oHat))
    {
      var kvNew := KvFor(p, oHat, cfg.kvModel);
      var charge := if cfg.kvts then KvtsRemaining(p, 0, 0, oHat) else 0.0;
      inFlight := inFlight[b := inFlight[b] + 1];
      kvProj := kvProj[b := kvProj[b] + kvNew as real];
      if cfg.kvts {
        w := w[b := w[b] + charge];
      } else {
        assert w[b := w[b] + 0.0] == w;
      }
      tasks := tasks + [Task(b, p, oHat, 0, kvNew, charge, true)];
    }

    method OnToken(i: nat)
      requires Shaped(Contents()) && Enabled(Contents(), Token(i))
      modifies this
      ensures Contents() == Step(cfg, old(Contents()), Token(i))
    {
      var t := tasks[i];
      var b, c, oHat, charged := t.backend, t.c + 1, t.oHat, t.charged;
      var kvHeld: int := t.kvHeld;
      if c > oHat {
        oHat := oHat + 50;
        var newKv := KvFor(t.p, oHat, cfg.kvModel);
        kvProj := kvProj[b := kvProj[b] + (newKv - kvHeld) as real];
        kvHeld := newKv;
      } else {
        assert kvProj[b := kvProj[b] + 0.0] == kvProj;
      }
      if cfg.kvts {
        var new_ := KvtsRemaining(t.p, 0, c, oHat);
        w := w[b := w[b] + (new_ - charged)];
        charged := new_;
      } else {
        assert w[b := w[b] + 0.0] == w;
      }
      tasks := tasks[i := t.(oHat := oHat, c := c, kvHeld := kvHeld, charged := charged)];
    }

    method OnFinish(i: nat)
      requires Shaped(Contents()) && Enabled(Contents(), Finish(i))
      modifies this
      ensures Contents() == Step(cfg, old(Contents()), Finish(i))
    {
      var t := tasks[i];
      var b := t.backend;
      inFlight := inFlight[b := inFlight[b] - 1];
      kvProj := kvProj[b := kvProj[b] - t.kvHeld as real];
      if kvProj[b] < 0.0 {
        kvProj := kvProj[b := 0.0];
      }
      if cfg.kvts {
        w := w[b := w[b] - t.charged];
        if -0.000001 < w[b] < 0.000001 {
          w := w[b := 0.0];
        }
      }
      tasks := tasks[i := t.(live := false)];
    }
  }

  function Start(backends: nat): State {
    State(seq(backends, _ => 0), seq(backends, _ => 0.0), seq(backends, _ => 0.0), [])
  }

  // ----- the work measure

  /** Twice the remaining cost, a whole number. */
  function TwiceRemaining(p: int, c: int, oHat: int): int {
    var rem := MaxInt(0, oHat - c);
    rem * (2 * (p + c) + rem)
  }

  lemma RemainingIsHalfWhole(p: int, h: int, c: int, oHat: int)
    ensures KvtsRemaining(p, h, c, oHat) == TwiceRemaining(p - h, c, oHat) as real / 2.0
  {
    var rem, base := MaxInt(0, oHat - c), p - h + c;
    assert (rem * (2 * base + rem)) as real == rem as real * (2.0 * base as real + rem as real);
    assert rem as real * (base as real + rem as real / 2.0) == (rem as real * (2.0 * base as real + rem as real)) / 2.0;
  }

  /** KV-token-seconds of the token generated at count `j`: the trapezoid between
      holding `p - h + j` and one token more. */
  function Trapezoid(p: int, h: int, j: int): real {
    ((p - h + j) as real + (p - h + j + 1) as real) / 2.0
  }

  function Trapezoids(p: int, h: int, c: int, oHat: int): real
    decreases oHat - c
  {
    if c >= oHat then 0.0 else Trapezoid(p, h, c) + Trapezoids(p, h, c + 1, oHat)
  }

  /** The closed form is the token-by-token sum. */
  lemma {:induction false} RemainingIsTrapezoids(p: int, h: int, c: int, oHat: int)
    ensures KvtsRemaining(p, h, c, oHat) == Trapezoids(p, h, c, oHat)
    decreases oHat - c
  {
    RemainingIsHalfWhole(p, h, c, oHat);
    if c >= oHat {
    } else {
      RemainingIsTrapezoids(p, h, c + 1, oHat);
      RemainingIsHalfWhole(p, h, c + 1, oHat);
      OneTokenLess(p - h, c, oHat);
    }
  }

  lemma OneTokenLess(p: int, c: int, oHat: int)
    requires c < oHat
    ensures TwiceRemaining(p, c, oHat) == TwiceRemaining(p, c + 1, oHat) + (2 * (p + c) + 1)
  {
    var r := oHat - c - 1;
    assert (r + 1) * (2 * (p + c) + r + 1) == r * (2 * (p + c + 1) + r) + (2 * (p + c) + 1);
  }

  /** As tokens arrive within the estimate the remaining cost only falls. */
  lemma {:induction false} RemainingFalls(p: int, h: int, c: int, d: int, oHat: int)
    requires 0 <= h <= p && 0 <= c <= d
    ensures KvtsRemaining(p, h, d, oHat) <= KvtsRemaining(p, h, c, oHat)
    decreases d - c
  {
    if c == d {
    } else {
      RemainingFalls(p, h, c + 1, d, oHat);
      RemainingIsHalfWhole(p, h, c, oHat);
      RemainingIsHalfWhole(p, h, c + 1, oHat);
      if c < oHat {
        OneTokenLess(p - h, c, oHat);
      }
    }
  }

  // ----- the ledger over a run

  function LiveOn(b: nat): Task -> int {
    (t: Task) => if t.live && t.backend == b then 1 else 0
  }

  function HeldOn(b: nat): Task -> int {
    (t: Task) => if t.live && t.backend == b then t.kvHeld else 0
  }

  function WorkOn(b: nat): Task -> int {
    (t: Task) => if t.live && t.backend == b then TwiceRemaining(t.p, t.c, t.oHat) else 0
  }

  ghost predicate TaskOk(cfg: Config, t: Task) {
    && t.kvHeld == KvFor(t.p, t.oHat, cfg.kvModel)
    && t.charged == (if cfg.kvts then TwiceRemaining(t.p, t.c, t.oHat) as real / 2.0 else 0.0)
  }

  ghost predicate Accounted(cfg: Config, s: State, b: nat)
    requires Shaped(s) && b < |s.inFlight|
  {
    && s.inFlight[b] == Total(s.tasks, LiveOn(b))
    && s.kvProj[b] == Total(s.tasks, HeldOn(b)) as real
    && s.w[b] == (if cfg.kvts then Total(s.tasks, WorkOn(b)) as real / 2.0 else 0.0)
  }

  ghost predicate Ledger(cfg: Config, s: State) {
    && Shaped(s)
    && (forall i | 0 <= i < |s.tasks| :: TaskOk(cfg, s.tasks[i]))
    && forall b | 0 <= b < |s.inFlight| :: Accounted(cfg, s, b)
  }

  lemma StepKeepsLedger(cfg: Config, s: State, e: Event)
    requires Ledger(cfg, s) && Enabled(s, e)
    ensures Ledger(cfg, Step(cfg, s, e))
  {
    var s' := Step(cfg, s, e);
    forall i | 0 <= i < |s'.tasks| ensures TaskOk(cfg, s'.tasks[i]) {
      StepKeepsTasks(cfg, s, e, i);
    }
    forall b | 0 <= b < |s.inFlight| ensures Accounted(cfg, s', b) {
      assert Accounted(cfg, s, b);
      match e
      case Dispatch(_, _, _) => DispatchAccounted(cfg, s, e, b);
      case Token(i) => TokenAccounted(cfg, s, i, b);
      case Finish(i) => FinishAccounted(cfg, s, i, b);
    }
  }

  lemma StepKeepsTasks(cfg: Config, s: State, e: Event, i: nat)
    requires Ledger(cfg, s) && Enabled(s, e) && i < |Step(cfg, s, e).tasks|
    ensures TaskOk(cfg, Step(cfg, s, e).tasks[i])
  {
    assert i < |s.tasks| ==> TaskOk(cfg, s.tasks[i]);
    match e
    case Dispatch(_, p, oHat) => RemainingIsHalfWhole(p, 0, 0, oHat);
    case Token(k) => TokenKeepsTask(cfg, s.tasks[k]);
    case Finish(_) =>
  }

  lemma TokenKeepsTask(cfg: Config, t: Task)
    requires TaskOk(cfg, t)
    ensures TaskOk(cfg, TokenTask(cfg, t))
  {
    var t' := TokenTask(cfg, t);
    RemainingIsHalfWhole(t.p, 0, t'.c, t'.oHat);
  }

  lemma DispatchAccounted(cfg: Config, s: State, e: Event, b: nat)
    requires Ledger(cfg, s) && Enabled(s, e) && e.Dispatch? && b < |s.inFlight|
    ensures Accounted(cfg, Step(cfg, s, e), b)
  {
    var s' := Step(cfg, s, e);
    var t := s'.tasks[|s.tasks|];
    assert Accounted(cfg, s, b);
    RemainingIsHalfWhole(e.p, 0, 0, e.oHat);
    TotalAppend(s.tasks, LiveOn(b), t);
    TotalAppend(s.tasks, HeldOn(b), t);
    TotalAppend(s.tasks, WorkOn(b), t);
  }

  lemma TokenAccounted(cfg: Config, s: State, i: nat, b: nat)
    requires Ledger(cfg, s) && Enabled(s, Token(i)) && b < |s.inFlight|
    ensures Accounted(cfg, Step(cfg, s, Token(i)), b)
  {
    var t, t' := s.tasks[i], TokenTask(cfg, s.tasks[i]);
    assert Accounted(cfg, s, b) && TaskOk(cfg, t);
    TokenKeepsTask(cfg, t);
    TotalUpdate(s.tasks, LiveOn(b), i, t');
    TotalUpdate(s.tasks, HeldOn(b), i, t');
    TotalUpdate(s.tasks, WorkOn(b), i, t');
  }

  lemma FinishAccounted(cfg: Config, s: State, i: nat, b: nat)
    requires Ledger(cfg, s) && Enabled(s, Finish(i)) && b < |s.inFlight|
    ensures Accounted(cfg, Step(cfg, s, Finish(i)), b)
  {
    var t := s.tasks[i];
    var t' := t.(live := false);
    assert Accounted(cfg, s, b) && TaskOk(cfg, t);
    ClampsAreInert(cfg, s, i);
    TotalUpdate(s.tasks, LiveOn(b), i, t');
    TotalUpdate(s.tasks, HeldOn(b), i, t');
    TotalUpdate(s.tasks, WorkOn(b), i, t');
  }

  /** Neither clamp ever changes a value: held KV never goes negative, and
      remaining work, being a whole number of halves, is never tiny but non-zero. */
  lemma ClampsAreInert(cfg: Config, s: State, i: nat)
    requires Ledger(cfg, s) && Enabled(s, Finish(i))
    ensures var t := s.tasks[i];
            && ClampNegative(s.kvProj[t.backend] - t.kvHeld as real) == s.kvProj[t.backend] - t.kvHeld as real
            && ClampTiny(s.w[t.backend] - t.charged) == s.w[t.backend] - t.charged
  {
    var t := s.tasks[i];
    var b := t.backend;
    var rest := s.tasks[i := t.(live := false)];
    assert Accounted(cfg, s, b) && TaskOk(cfg, t);
    TotalUpdate(s.tasks, HeldOn(b), i, t.(live := false));
    TotalZero(rest, HeldOn(b));
    var twice := Total(s.tasks, WorkOn(b)) - TwiceRemaining(t.p, t.c, t.oHat);
    if cfg.kvts {
      assert s.w[b] - t.charged == twice as real / 2.0;
      HalvesAreNotTiny(twice);
    }
  }

  lemma HalvesAreNotTiny(twice: int)
    ensures ClampTiny(twice as real / 2.0) == twice as real / 2.0
  {
    if twice != 0 {
      assert twice <= -1 || twice >= 1;
    }
  }

  ghost predicate IsRun(cfg: Config, s: State, events: seq<Event>, end: State)
    decreases |events|
  {
    if events == [] then end == s
    else Shaped(s) && Enabled(s, events[0]) && IsRun(cfg, Step(cfg, s, events[0]), events[1..], end)
  }

  /** Over every run each backend's counters are exactly its live requests, their
      held KV, and their remaining work. */
  lemma {:induction false} LedgerAlways(cfg: Config, s: State, events: seq<Event>, end: State)
    requires Ledger(cfg, s) && IsRun(cfg, s, events, end)
    ensures Ledger(cfg, end)
    decreases |events|
  {
    if events == [] {
    } else {
      StepKeepsLedger(cfg, s, events[0]);
      LedgerAlways(cfg, Step(cfg, s, events[0]), events[1..], end);
    }
  }

  lemma StartIsAccounted(cfg: Config, backends: nat)
    ensures Ledger(cfg, Start(backends))
  {
  }
}
