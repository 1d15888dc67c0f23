/** The life of a request on every path through its handler, cancellation
    included, and in every interleaving with the others. */
module FleetLifecycle {
  import opened Cost
  import opened Backends
  import opened Lease
  import opened Fleet
  import opened FleetLedger
  import Gate

  /** A lease that was opened is released exactly once by the time the handler is
      done, and never twice. A request result is recorded at most once, exactly
      once if a response was returned and its body dropped, and never for a
      request that was cancelled before it got one. */
  lemma LifecycleAlways(cfg: Config, s: State, moves: seq<Move>, r: nat)
    requires Init(cfg, s) && After(cfg, s, moves).Some? && r < |After(cfg, s, moves).value.handlers|
    ensures var h := After(cfg, s, moves).value.handlers[r];
            && h.releases <= h.opens <= 1 && h.results <= 1
            && (h.results == 1 ==> h.responded)
            && (h.phase.Done? ==> h.opens == h.releases && (h.results == 1 <==> h.responded))
            && (h.opens > h.releases <==> exists b :: HoldsSlot(h, b))
  {
    LedgerAlways(cfg, s, moves);
    var h := After(cfg, s, moves).value.handlers[r];
    assert HandlerOk(cfg, h);
    if h.opens > h.releases {
      assert HoldsSlot(h, h.phase.b);
    }
  }

  /** Where a handler stands, knowing whether it was cancelled: only the way out of
      a release and the end itself tell. */
  ghost predicate CancelShows(h: Handler, cancelled: bool) {
    match h.phase
    case Dropping(_, _, owesError) => cancelled == (!owesError && !h.responded)
    case HalfReleased(_, _, owesError) => cancelled == (!owesError && !h.responded)
    case Done => cancelled == (h.results == 0)
    case _ => !cancelled
  }

  lemma StepShowsCancel(cfg: Config, live: seq<Load>, h: Handler, a: Action, cancelled: bool)
    requires HandlerOk(cfg, h) && CancelShows(h, cancelled) && StepHandler(cfg, live, h, a).Some?
    ensures CancelShows(StepHandler(cfg, live, h, a).value.0, cancelled || a == Cancel)
  {
    hide Observed, LeaseOk, Gate.KvFits, Gate.SlotFree;
  }

  lemma {:induction false} CancelShowsAlways(cfg: Config, s: State, moves: seq<Move>, r: nat)
    requires Init(cfg, s) && After(cfg, s, moves).Some? && r < |After(cfg, s, moves).value.handlers|
    ensures CancelShows(After(cfg, s, moves).value.handlers[r], Move(r, Cancel) in moves)
  {
    hide StepHandler, HandlerOk, CancelShows;
    if moves == [] {
      NotYetCancelled(cfg, s, r);
    } else {
      var before, last := moves[..|moves| - 1], moves[|moves| - 1];
      var mid := After(cfg, s, before).value;
      LedgerAlways(cfg, s, before);
      CancelShowsAlways(cfg, s, before, r);
      assert moves == before + [last];
      if last.who == r {
        StepShowsCancel(cfg, mid.live, mid.handlers[r], last.what, Move(r, Cancel) in before);
      }
    }
  }

  lemma NotYetCancelled(cfg: Config, s: State, r: nat)
    requires Init(cfg, s) && r < |s.handlers|
    ensures CancelShows(s.handlers[r], false)
  {
    assert Fresh(cfg, s.handlers[r]);
  }

  /** A request ends without a result if and only if it was cancelled before it got
      a response. Every other path ends with exactly one response and one result:
      a refusal, a failed connect and a dropped body alike. */
  lemma UnrecordedIffCancelled(cfg: Config, s: State, moves: seq<Move>, r: nat)
    requires Init(cfg, s) && After(cfg, s, moves).Some? && r < |After(cfg, s, moves).value.handlers|
    requires After(cfg, s, moves).value.handlers[r].phase.Done?
    ensures var h := After(cfg, s, moves).value.handlers[r];
            && (h.results == 0 <==> Move(r, Cancel) in moves)
            && (Move(r, Cancel) !in moves ==> h.results == 1 && h.responded)
  {
    CancelShowsAlways(cfg, s, moves, r);
    LifecycleAlways(cfg, s, moves, r);
  }

  // ----- a request that opens no lease leaves no mark

  function Erase(moves: seq<Move>, r: nat): seq<Move> {
    if moves == [] then []
    else
      var rest := Erase(moves[..|moves| - 1], r);
      var last := moves[|moves| - 1];
      if last.who == r then rest else rest + [last]
  }

  lemma UnopenedStepIsQuiet(cfg: Config, live: seq<Load>, h: Handler, a: Action)
    requires HandlerOk(cfg, h) && StepHandler(cfg, live, h, a).Some?
    ensures h.opens <= StepHandler(cfg, live, h, a).value.0.opens
    ensures StepHandler(cfg, live, h, a).value.0.opens == 0 ==> StepHandler(cfg, live, h, a).value.1 == Quiet
  {
    hide Observed;
  }

  /** Striking every move of a request that opened no lease from a run changes
      neither a counter nor any other request. */
  lemma {:induction false} UnopenedLeavesNoMark(cfg: Config, s: State, moves: seq<Move>, r: nat)
    requires Init(cfg, s) && r < |s.handlers| && After(cfg, s, moves).Some?
    requires |After(cfg, s, moves).value.handlers| == |s.handlers|
    requires After(cfg, s, moves).value.handlers[r].opens == 0
    ensures var end := After(cfg, s, moves).value;
            After(cfg, s, Erase(moves, r)) == Some(State(end.live, end.handlers[r := s.handlers[r]]))
  {
    hide StepHandler, HandlerOk;
    if moves == [] {
      assert s.handlers[r := s.handlers[r]] == s.handlers;
    } else {
      var before, last := moves[..|moves| - 1], moves[|moves| - 1];
      var mid, end := After(cfg, s, before).value, After(cfg, s, moves).value;
      LedgerAlways(cfg, s, before);
      UnopenedStepIsQuiet(cfg, mid.live, mid.handlers[last.who], last.what);
      UnopenedLeavesNoMark(cfg, s, before, r);
      var struck := State(mid.live, mid.handlers[r := s.handlers[r]]);
      if last.who == r {
        assert end.handlers[r := s.handlers[r]] == struck.handlers;
      } else {
        Extend(cfg, s, Erase(before, r), last);
        var h := StepHandler(cfg, mid.live, mid.handlers[last.who], last.what).value.0;
        assert struck.handlers[last.who := h] == end.handlers[r := s.handlers[r]];
      }
    }
  }

  // ----- nothing is ever stuck

  /** Steps left if the handler takes the shortest way out. */
  function Rank(h: Handler): int {
    match h.phase
    case Reading => 1
    case Scanning(at, kvLoaded, _, _) => 8 + 2 * (|h.healthy| - at) - (if kvLoaded then 1 else 0)
    case Chosen(_, _) => 7
    case HalfOpen(_, _) => 6
    case Connecting(_, _) => 5
    case Streaming(_, _) => 5
    case Recharging(_, _, _) => 6
    case Dropping(_, _, _) => 4
    case HalfReleased(_, _, _) => 3
    case Failing => 2
    case Done => 0
  }

  /** The action that takes the handler one step out. */
  function WayOut(h: Handler): Action
    requires h.phase.Scanning? ==> h.healthy != []
  {
    match h.phase
    case Reading => Cancel
    case Scanning(at, _, kvOk, slotOk) =>
      if at < |h.healthy| then GateLoad
      else Choose(FirstIn(h.healthy, kvOk * slotOk))
    case Connecting(_, _) => Cancel
    case Streaming(_, _) => DropBody
    case Failing => ReplyError
    case _ => Atomic
  }

  /** The first healthy id that the scan found eligible, or just the first. */
  function FirstIn(ids: seq<nat>, eligible: set<nat>): (id: nat)
    requires ids != []
    ensures id in ids
    ensures (exists i | 0 <= i < |ids| :: ids[i] in eligible) ==> id in eligible
  {
    if ids[0] in eligible || |ids| == 1 then ids[0]
    else
      var id := FirstIn(ids[1..], eligible);
      if id in eligible then id else ids[0]
  }

  lemma WayOutWorks(cfg: Config, live: seq<Load>, h: Handler)
    requires |live| == |cfg.caps| && HandlerOk(cfg, h) && !h.phase.Done?
    ensures StepHandler(cfg, live, h, WayOut(h)).Some?
    ensures 0 <= Rank(StepHandler(cfg, live, h, WayOut(h)).value.0) < Rank(h)
  {
    hide Observed, LeaseOk, Gate.KvFits, Gate.SlotFree;
    if h.phase.Scanning? && h.phase.at == |h.healthy| {
      var eligible := h.phase.kvOk * h.phase.slotOk;
      if eligible != {} {
        var id :| id in eligible;
        assert id in h.healthy;
      }
    }
  }

  /** From any reachable state one handler can be run to its end by its own
      moves, whatever the others have done, leaving them untouched. */
  lemma {:induction false} CanFinish(cfg: Config, s: State, moves: seq<Move>, r: nat) returns (longer: seq<Move>)
    requires Init(cfg, s) && After(cfg, s, moves).Some? && r < |After(cfg, s, moves).value.handlers|
    ensures moves <= longer && After(cfg, s, longer).Some?
    ensures var was, now := After(cfg, s, moves).value.handlers, After(cfg, s, longer).value.handlers;
            |now| == |was| && now[r].phase.Done? && forall i | 0 <= i < |was| && i != r :: now[i] == was[i]
    decreases Rank(After(cfg, s, moves).value.handlers[r])
  {
    hide StepHandler, HandlerOk, Rank, WayOut;
    var mid := After(cfg, s, moves).value;
    var h := mid.handlers[r];
    LedgerAlways(cfg, s, moves);
    if h.phase.Done? {
      longer := moves;
    } else {
      assert HandlerOk(cfg, h);
      assert h.phase.Scanning? ==> h.healthy != [] by {
        ScansSomething(cfg, h);
      }
      WayOutWorks(cfg, mid.live, h);
      Extend(cfg, s, moves, Move(r, WayOut(h)));
      longer := CanFinish(cfg, s, moves + [Move(r, WayOut(h))], r);
    }
  }

  lemma ScansSomething(cfg: Config, h: Handler)
    requires HandlerOk(cfg, h)
    ensures h.phase.Scanning? ==> h.healthy != []
  {
  }

  lemma {:induction false} CanFinishFirst(cfg: Config, s: State, moves: seq<Move>, n: nat) returns (longer: seq<Move>)
    requires Init(cfg, s) && After(cfg, s, moves).Some? && n <= |After(cfg, s, moves).value.handlers|
    ensures moves <= longer && After(cfg, s, longer).Some?
    ensures var was, now := After(cfg, s, moves).value.handlers, After(cfg, s, longer).value.handlers;
            |now| == |was| && forall i | 0 <= i < n :: now[i].phase.Done?
  {
    hide After;
    longer := moves;
    if n == 0 {
    } else {
      longer := CanFinishFirst(cfg, s, moves, n - 1);
      longer := CanFinish(cfg, s, longer, n - 1);
    }
  }

  /** No reachable state is a leak: each can be continued to one where every
      request is done, and there every counter is back at zero. */
  lemma EveryStateCanDrain(cfg: Config, s: State, moves: seq<Move>) returns (longer: seq<Move>)
    requires Init(cfg, s) && After(cfg, s, moves).Some?
    ensures moves <= longer && After(cfg, s, longer).Some?
    ensures forall i | 0 <= i < |After(cfg, s, longer).value.handlers| ::
              After(cfg, s, longer).value.handlers[i].phase.Done?
    ensures |After(cfg, s, longer).value.live| == |cfg.caps|
    ensures forall b | 0 <= b < |cfg.caps| :: After(cfg, s, longer).value.live[b] == Load(cfg.caps[b], 0, 0)
  {
    longer := CanFinishFirst(cfg, s, moves, |After(cfg, s, moves).value.handlers|);
    LedgerAlways(cfg, s, longer);
    var end := After(cfg, s, longer).value;
    forall b | 0 <= b < |end.live| ensures end.live[b] == Load(cfg.caps[b], 0, 0) {
      DrainedIsZero(cfg, end, b);
    }
  }
}
