/** The relay inside the fleet: every handler reads its response frame by frame
    through its line buffer, while all of them interleave. What a handler holds is
    a function of the bytes it was sent, however they were cut and whatever the
    other handlers did in between. */
module FleetRelay {
  import opened Backends
  import opened Cost
  import opened Sums
  import opened Lease
  import opened Fleet
  import opened FleetLedger
  import Relay
  import Text

  // ----- the machine

  /** A poll of handler `r` that returns a frame, or a move of the fleet. */
  datatype RelayMove = Feed(r: nat, frame: Relay.BodyFrame) | Plain(move: Move)

  /** Per handler: the partial line it buffers, and how many content frames the
      current poll has read and not yet acted on. */
  datatype Relaying = Relaying(fleet: State, bufs: seq<string>, pending: seq<nat>)

  /** A poll takes the complete lines off buffer and frame; the fleet then makes
      one content move for each content frame among them. A body is polled only
      while it streams, one poll at a time, and is not dropped during a poll. */
  function RelayNext(cfg: Config, parse: Relay.Parser, x: Relaying, m: RelayMove): Option<Relaying> {
    match m
    case Feed(r, frame) =>
      if r >= |x.fleet.handlers| || r >= |x.bufs| || r >= |x.pending| then None
      else if !x.fleet.handlers[r].phase.Streaming? || x.pending[r] > 0 then None
      else
        var text := x.bufs[r] + Relay.TextOf(frame);
        Some(x.(bufs := x.bufs[r := Text.Rest(text)],
                pending := x.pending[r := Relay.CountContents(parse, Text.Lines(text))]))
    case Plain(move) =>
      if move.who >= |x.pending| then None
      else if move.what.Content? && x.pending[move.who] == 0 then None
      else if move.what.DropBody? && x.pending[move.who] > 0 then None
      else
        match Next(cfg, x.fleet, move)
        case None => None
        case Some(next) =>
          var pending := if move.what.Content? then x.pending[move.who := x.pending[move.who] - 1] else x.pending;
          Some(Relaying(next, x.bufs, pending))
  }

  function RelayAfter(cfg: Config, parse: Relay.Parser, s: State, run: seq<RelayMove>): Option<Relaying> {
    if run == [] then Some(Relaying(s, seq(|s.handlers|, _ => ""), seq(|s.handlers|, _ => 0)))
    else
      match RelayAfter(cfg, parse, s, run[..|run| - 1])
      case None => None
      case Some(mid) => RelayNext(cfg, parse, mid, run[|run| - 1])
  }

  /** The moves of the fleet in a run. */
  function MovesOf(run: seq<RelayMove>): seq<Move> {
    if run == [] then []
    else
      var rest, last := MovesOf(run[..|run| - 1]), run[|run| - 1];
      if last.Plain? then rest + [last.move] else rest
  }

  /** The frames sent to handler `r` in a run. */
  function FramesTo(run: seq<RelayMove>, r: nat): seq<Relay.BodyFrame> {
    if run == [] then []
    else
      var rest, last := FramesTo(run[..|run| - 1], r), run[|run| - 1];
      if last.Feed? && last.r == r then rest + [last.frame] else rest
  }

  /** How many content moves handler `r` made. */
  function ContentMoves(moves: seq<Move>, r: nat): nat {
    if moves == [] then 0
    else
      var last := moves[|moves| - 1];
      ContentMoves(moves[..|moves| - 1], r) + (if last.who == r && last.what.Content? then 1 else 0)
  }

  // ----- what every run keeps

  lemma {:induction false} ContentsAreMoves(cfg: Config, s: State, moves: seq<Move>, r: nat)
    requires Init(cfg, s) && After(cfg, s, moves).Some? && r < |s.handlers|
    ensures |After(cfg, s, moves).value.handlers| == |s.handlers|
    ensures After(cfg, s, moves).value.handlers[r].contents == ContentMoves(moves, r)
    ensures SameRequest(s.handlers[r], After(cfg, s, moves).value.handlers[r])
  {
    hide StepHandler;
    if moves == [] {
      assert Fresh(cfg, s.handlers[r]);
    } else {
      var before, last := moves[..|moves| - 1], moves[|moves| - 1];
      var mid := After(cfg, s, before).value;
      ContentsAreMoves(cfg, s, before, r);
      StepKeepsRequest(cfg, mid.live, mid.handlers[last.who], last.what);
    }
  }

  /** The machine is the fleet with buffers beside it: striking its polls leaves a
      run of the fleet. */
  lemma {:induction false} MovesAreOfFleet(cfg: Config, parse: Relay.Parser, s: State, run: seq<RelayMove>)
    requires RelayAfter(cfg, parse, s, run).Some?
    ensures var x := RelayAfter(cfg, parse, s, run).value;
            After(cfg, s, MovesOf(run)) == Some(x.fleet) && |x.bufs| == |x.pending| == |s.handlers|
  {
    hide Next;
    if run == [] {
    } else {
      MovesAreOfFleet(cfg, parse, s, run[..|run| - 1]);
      if run[|run| - 1].Plain? {
        Extend(cfg, s, MovesOf(run[..|run| - 1]), run[|run| - 1].move);
      }
    }
  }

  lemma RunsStayAccounted(cfg: Config, parse: Relay.Parser, s: State, run: seq<RelayMove>)
    requires Init(cfg, s) && RelayAfter(cfg, parse, s, run).Some?
    ensures var end := RelayAfter(cfg, parse, s, run).value.fleet; Ledger(cfg, end) && |end.handlers| == |s.handlers|
  {
    MovesAreOfFleet(cfg, parse, s, run);
    LedgerAlways(cfg, s, MovesOf(run));
    FleetKeepsSize(cfg, s, MovesOf(run));
  }

  lemma {:induction false} FleetKeepsSize(cfg: Config, s: State, moves: seq<Move>)
    requires After(cfg, s, moves).Some?
    ensures |After(cfg, s, moves).value.handlers| == |s.handlers|
  {
    if moves == [] {
    } else {
      FleetKeepsSize(cfg, s, moves[..|moves| - 1]);
    }
  }

  /** What the incremental reader has done with its frames at any moment of any
      run: its buffer is the unfinished line of their text, and its content moves
      and those still owed are the content frames of one pass over the lines. */
  lemma {:induction false} ReaderKeepsUp(cfg: Config, parse: Relay.Parser, s: State, run: seq<RelayMove>, r: nat)
    requires RelayAfter(cfg, parse, s, run).Some? && r < |s.handlers|
    ensures var x, text := RelayAfter(cfg, parse, s, run).value, Relay.Fed(FramesTo(run, r));
            && |x.bufs| == |x.pending| == |s.handlers|
            && x.bufs[r] == Text.Rest(text)
            && ContentMoves(MovesOf(run), r) + x.pending[r] == Relay.CountContents(parse, Text.Lines(text))
  {
    hide RelayNext, Text.Lines, Text.Rest, Relay.Fed, Relay.TextOf, Relay.CountContents, ContentMoves;
    MovesAreOfFleet(cfg, parse, s, run);
    if run == [] {
      NothingRead(parse, r);
    } else {
      var before, last := run[..|run| - 1], run[|run| - 1];
      var x := RelayAfter(cfg, parse, s, before).value;
      MovesAreOfFleet(cfg, parse, s, before);
      ReaderKeepsUp(cfg, parse, s, before, r);
      match last
      case Plain(move) => PlainStep(cfg, parse, x, move, MovesOf(before), r);
      case Feed(q, frame) =>
        FeedStep(cfg, parse, x, q, frame, r);
        if q == r {
          OneMoreRead(parse, FramesTo(before, r), frame);
        }
    }
  }

  lemma PlainStep(cfg: Config, parse: Relay.Parser, x: Relaying, move: Move, moves: seq<Move>, r: nat)
    requires RelayNext(cfg, parse, x, Plain(move)).Some? && r < |x.pending|
    ensures var x' := RelayNext(cfg, parse, x, Plain(move)).value;
            && x'.bufs == x.bufs && |x'.pending| == |x.pending|
            && ContentMoves(moves + [move], r) + x'.pending[r] == ContentMoves(moves, r) + x.pending[r]
  {
    hide Next;
    assert (moves + [move])[..|moves|] == moves;
  }

  lemma FeedStep(cfg: Config, parse: Relay.Parser, x: Relaying, q: nat, frame: Relay.BodyFrame, r: nat)
    requires RelayNext(cfg, parse, x, Feed(q, frame)).Some? && r < |x.pending| == |x.bufs|
    ensures var x', text := RelayNext(cfg, parse, x, Feed(q, frame)).value, x.bufs[r] + Relay.TextOf(frame);
            && |x'.bufs| == |x'.pending| == |x.bufs|
            && (q != r ==> x'.bufs[r] == x.bufs[r] && x'.pending[r] == x.pending[r])
            && (q == r ==>
                  && x'.bufs[r] == Text.Rest(text) && x.pending[r] == 0
                  && x'.pending[r] == Relay.CountContents(parse, Text.Lines(text)))
  {
  }

  /** Reading a frame through the buffer is reading it behind all text before it. */
  lemma OneMoreRead(parse: Relay.Parser, frames: seq<Relay.BodyFrame>, frame: Relay.BodyFrame)
    ensures var before, after := Relay.Fed(frames), Relay.Fed(frames + [frame]);
            var text := Text.Rest(before) + Relay.TextOf(frame);
            && Text.Rest(after) == Text.Rest(text)
            && Relay.CountContents(parse, Text.Lines(after))
               == Relay.CountContents(parse, Text.Lines(before)) + Relay.CountContents(parse, Text.Lines(text))
  {
    hide Text.Lines, Text.Rest, Relay.Fed, Relay.TextOf, Relay.CountContents;
    var before := Relay.Fed(frames);
    Relay.OneMoreFrame(frames, frame);
    Text.LinesOfMore(before, Relay.TextOf(frame));
    Relay.CountContentsConcat(parse, Text.Lines(before), Text.Lines(Text.Rest(before) + Relay.TextOf(frame)));
  }

  lemma NothingRead(parse: Relay.Parser, r: nat)
    ensures Relay.Fed([]) == "" && Text.Rest("") == "" && Relay.CountContents(parse, Text.Lines("")) == 0
    ensures ContentMoves([], r) == 0
  {
  }

  /** A poll is never cut short: while it owes content moves its handler streams. */
  lemma {:induction false} PollsAreWhole(cfg: Config, parse: Relay.Parser, s: State, run: seq<RelayMove>, r: nat)
    requires RelayAfter(cfg, parse, s, run).Some?
    ensures var x := RelayAfter(cfg, parse, s, run).value;
            r < |x.fleet.handlers| && r < |x.pending| && x.pending[r] > 0 ==>
              x.fleet.handlers[r].phase.Streaming? || x.fleet.handlers[r].phase.Recharging?
  {
    hide StepHandler, Relay.CountContents, Text.Lines, Text.Rest, Relay.TextOf;
    if run == [] {
    } else {
      var before, last := run[..|run| - 1], run[|run| - 1];
      PollsAreWhole(cfg, parse, s, before, r);
      var x := RelayAfter(cfg, parse, s, before).value;
      if last.Plain? && last.move.who == r {
        if x.pending[r] > 0 {
          StreamsOn(cfg, x.fleet.live, x.fleet.handlers[r], last.move.what);
        }
      }
    }
  }

  lemma StreamsOn(cfg: Config, live: seq<Load>, h: Handler, a: Action)
    requires StepHandler(cfg, live, h, a).Some? && a != DropBody && (h.phase.Streaming? || h.phase.Recharging?)
    ensures var phase := StepHandler(cfg, live, h, a).value.0.phase; phase.Streaming? || phase.Recharging?
  {
    hide Observed;
  }

  // ----- leases and counters

  /** The account a response body starts with in the fleet. */
  function StartAccount(cfg: Config, h: Handler): Relay.Account {
    Relay.Account(0, Opened(cfg.model, h.prompt, h.oHat0), [], [], false, false, false)
  }

  /** Between polls an open lease is the one the relay holds after the frames sent
      to its handler, whatever the other handlers did in between. */
  lemma LeaseIsRelayed(cfg: Config, parse: Relay.Parser, s: State, run: seq<RelayMove>, r: nat)
    requires Init(cfg, s) && RelayAfter(cfg, parse, s, run).Some? && r < |s.handlers|
    ensures var x := RelayAfter(cfg, parse, s, run).value;
            && |x.fleet.handlers| == |x.pending| == |s.handlers|
            && var h := x.fleet.handlers[r];
               x.pending[r] == 0 && (h.phase.Streaming? || h.phase.Dropping? || h.phase.HalfReleased?) ==>
                 h.lease == Relay.Relayed(parse, StartAccount(cfg, s.handlers[r]), FramesTo(run, r)).0.lease
  {
    var frames, acc := FramesTo(run, r), StartAccount(cfg, s.handlers[r]);
    var lines := Text.Lines(Relay.Fed(frames));
    MovesAreOfFleet(cfg, parse, s, run);
    ReaderKeepsUp(cfg, parse, s, run, r);
    LedgerAlways(cfg, s, MovesOf(run));
    ContentsAreMoves(cfg, s, MovesOf(run), r);
    Relay.ChunkingIndependent(parse, acc, frames);
    Relay.AccountOfLines(parse, acc, lines);
    hide After, RelayAfter, Relay.Relayed, Relay.OnLines, Text.Lines, HandlerOk;
    var h := RelayAfter(cfg, parse, s, run).value.fleet.handlers[r];
    if h.phase.Streaming? || h.phase.Dropping? || h.phase.HalfReleased? {
      LeaseOfContents(cfg, h);
    }
  }

  lemma LeaseOfContents(cfg: Config, h: Handler)
    requires HandlerOk(cfg, h) && (h.phase.Streaming? || h.phase.Dropping? || h.phase.HalfReleased?)
    ensures h.lease == ObservedAll(Opened(cfg.model, h.prompt, h.oHat0), Ones(h.contents))
  {
  }

  /** Two runs that send every handler the same bytes, each cut in its own way at
      character boundaries, and stop with every handler at the same point, end
      with the same counters, however the handlers interleaved. */
  lemma SameResponsesSameCounters(cfg: Config, parse: Relay.Parser, s: State, run1: seq<RelayMove>,
                                  run2: seq<RelayMove>)
    requires Init(cfg, s) && RelayAfter(cfg, parse, s, run1).Some? && RelayAfter(cfg, parse, s, run2).Some?
    requires SamePoint(RelayAfter(cfg, parse, s, run1).value, RelayAfter(cfg, parse, s, run2).value)
    requires forall r | 0 <= r < |s.handlers| :: SameResponse(FramesTo(run1, r), FramesTo(run2, r))
    ensures RelayAfter(cfg, parse, s, run1).value.fleet.live == RelayAfter(cfg, parse, s, run2).value.fleet.live
  {
    hide *;
    RunsStayAccounted(cfg, parse, s, run1);
    RunsStayAccounted(cfg, parse, s, run2);
    forall r | 0 <= r < |s.handlers|
      ensures SameProgress(RelayAfter(cfg, parse, s, run1).value.fleet, RelayAfter(cfg, parse, s, run2).value.fleet, r)
    {
      SameContents(cfg, parse, s, run1, run2, r);
    }
    SameProgressSameCounters(cfg, RelayAfter(cfg, parse, s, run1).value.fleet,
                             RelayAfter(cfg, parse, s, run2).value.fleet, |s.handlers|);
  }

  /** Handler `r` serves the same request in both states, has seen as many content
      frames and stands at the same point. */
  ghost predicate SameProgress(s1: State, s2: State, r: nat) {
    && r < |s1.handlers| == |s2.handlers| && SameRequest(s1.handlers[r], s2.handlers[r])
    && s1.handlers[r].phase == s2.handlers[r].phase && s1.handlers[r].contents == s2.handlers[r].contents
  }

  lemma SameProgressSameCounters(cfg: Config, s1: State, s2: State, n: nat)
    requires Ledger(cfg, s1) && Ledger(cfg, s2) && |s1.handlers| == |s2.handlers| == n
    requires forall r | 0 <= r < n :: SameProgress(s1, s2, r)
    ensures s1.live == s2.live
  {
    hide HandlerOk;
    forall r | 0 <= r < n
      ensures forall b: nat ::
                SlotsAt(b)(s1.handlers[r]) == SlotsAt(b)(s2.handlers[r])
                && KvAt(b)(s1.handlers[r]) == KvAt(b)(s2.handlers[r])
    {
      assert SameProgress(s1, s2, r);
      SameHolding(cfg, s1.handlers[r], s2.handlers[r]);
    }
    hide SlotsAt, KvAt;
    forall b | 0 <= b < |s1.live| ensures s1.live[b] == s2.live[b] {
      TotalOfEqual(s1.handlers, s2.handlers, SlotsAt(b));
      TotalOfEqual(s1.handlers, s2.handlers, KvAt(b));
      assert Accounted(s1, b) && Accounted(s2, b);
    }
  }

  lemma SameContents(cfg: Config, parse: Relay.Parser, s: State, run1: seq<RelayMove>, run2: seq<RelayMove>, r: nat)
    requires Init(cfg, s) && RelayAfter(cfg, parse, s, run1).Some? && RelayAfter(cfg, parse, s, run2).Some?
    requires SamePoint(RelayAfter(cfg, parse, s, run1).value, RelayAfter(cfg, parse, s, run2).value)
    requires r < |s.handlers| && SameResponse(FramesTo(run1, r), FramesTo(run2, r))
    ensures |RelayAfter(cfg, parse, s, run1).value.fleet.handlers| == |s.handlers|
    ensures SameProgress(RelayAfter(cfg, parse, s, run1).value.fleet, RelayAfter(cfg, parse, s, run2).value.fleet, r)
  {
    Relay.SameBytesSameText(FramesTo(run1, r), FramesTo(run2, r));
    MovesAreOfFleet(cfg, parse, s, run1);
    MovesAreOfFleet(cfg, parse, s, run2);
    ReaderKeepsUp(cfg, parse, s, run1, r);
    ReaderKeepsUp(cfg, parse, s, run2, r);
    ContentsAreMoves(cfg, s, MovesOf(run1), r);
    ContentsAreMoves(cfg, s, MovesOf(run2), r);
  }

  ghost predicate SameResponse(f: seq<Relay.BodyFrame>, g: seq<Relay.BodyFrame>) {
    && Relay.Bytes(f) == Relay.Bytes(g)
    && (forall i | 0 <= i < |f| :: Relay.WholeCharacters(f[i]))
    && forall i | 0 <= i < |g| :: Relay.WholeCharacters(g[i])
  }

  /** Every handler stands at the same point, with as much of its poll left. */
  ghost predicate SamePoint(x: Relaying, y: Relaying) {
    && |x.fleet.handlers| == |y.fleet.handlers| && x.pending == y.pending
    && forall r | 0 <= r < |x.fleet.handlers| :: x.fleet.handlers[r].phase == y.fleet.handlers[r].phase
  }

  lemma SameHolding(cfg: Config, h1: Handler, h2: Handler)
    requires HandlerOk(cfg, h1) && HandlerOk(cfg, h2)
    requires SameRequest(h1, h2) && h1.phase == h2.phase && h1.contents == h2.contents
    ensures forall b: nat :: SlotsOn(h1, b) == SlotsOn(h2, b) && KvOn(h1, b) == KvOn(h2, b)
  {
    hide ObservedAll;
  }

  // ----- a poll can always be finished

  lemma RelayExtend(cfg: Config, parse: Relay.Parser, s: State, run: seq<RelayMove>, m: RelayMove)
    requires RelayAfter(cfg, parse, s, run).Some?
    ensures RelayAfter(cfg, parse, s, run + [m]) == RelayNext(cfg, parse, RelayAfter(cfg, parse, s, run).value, m)
    ensures forall r :: FramesTo(run + [m], r) == FramesTo(run, r) + (if m.Feed? && m.r == r then [m.frame] else [])
  {
    assert (run + [m])[..|run|] == run;
  }

  /** Any frame can be sent to a streaming handler between polls, and the poll can
      be run to its end by that handler alone. So every way to cut a response is a
      run of the machine. */
  lemma CanRelay(cfg: Config, parse: Relay.Parser, s: State, run: seq<RelayMove>, r: nat, frame: Relay.BodyFrame)
    returns (longer: seq<RelayMove>)
    requires RelayAfter(cfg, parse, s, run).Some? && Between(RelayAfter(cfg, parse, s, run).value, r)
    requires r < |RelayAfter(cfg, parse, s, run).value.bufs|
    ensures RelayAfter(cfg, parse, s, longer).Some? && Between(RelayAfter(cfg, parse, s, longer).value, r)
    ensures FramesTo(longer, r) == FramesTo(run, r) + [frame]
    ensures forall q | q != r :: FramesTo(longer, q) == FramesTo(run, q)
  {
    hide RelayAfter, FramesTo;
    RelayExtend(cfg, parse, s, run, Feed(r, frame));
    longer := CanFinishPoll(cfg, parse, s, run + [Feed(r, frame)], r);
  }

  ghost predicate Between(x: Relaying, r: nat) {
    r < |x.fleet.handlers| && r < |x.pending| && x.fleet.handlers[r].phase.Streaming? && x.pending[r] == 0
  }

  lemma {:induction false} CanFinishPoll(cfg: Config, parse: Relay.Parser, s: State, run: seq<RelayMove>, r: nat)
    returns (longer: seq<RelayMove>)
    requires RelayAfter(cfg, parse, s, run).Some?
    requires var x := RelayAfter(cfg, parse, s, run).value;
             r < |x.fleet.handlers| && r < |x.pending| && x.fleet.handlers[r].phase.Streaming?
    ensures RelayAfter(cfg, parse, s, longer).Some? && Between(RelayAfter(cfg, parse, s, longer).value, r)
    ensures forall q :: FramesTo(longer, q) == FramesTo(run, q)
    decreases RelayAfter(cfg, parse, s, run).value.pending[r]
  {
    hide RelayAfter, FramesTo, Observed;
    var x := RelayAfter(cfg, parse, s, run).value;
    longer := run;
    if x.pending[r] == 0 {
    } else {
      RelayExtend(cfg, parse, s, longer, Plain(Move(r, Content)));
      longer := longer + [Plain(Move(r, Content))];
      if RelayAfter(cfg, parse, s, longer).value.fleet.handlers[r].phase.Recharging? {
        RelayExtend(cfg, parse, s, longer, Plain(Move(r, Atomic)));
        longer := longer + [Plain(Move(r, Atomic))];
      }
      longer := CanFinishPoll(cfg, parse, s, longer, r);
    }
  }
}
