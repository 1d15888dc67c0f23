# Keel, verified

A Dafny model of Keel, an LLM request router, with proofs of what its shared
capacity ledger, its routing decision, its streaming relay and its output-length
estimator do. `dafny verify dfyconfig.toml` checks everything.

Keel sends each request to one backend. While a request is in flight it holds a
*lease*: one slot and a number of KV-cache tokens, kept in two atomic counters per
backend. The gate and the pressure score read those counters; the relay grows a
lease when a response outruns its estimate; dropping the response gives everything
back. Many requests do this at once, one atomic operation at a time.

## How the model is laid out

| files | subject |
|---|---|
| `Machine`, `Sums`, `Selection`, `Text`, `Utf8` | wrap-around integers, totals, the argmin scan, lines and whitespace, UTF-8 |
| `Backends`, `Cost`, `Gate`, `Pressure`, `Counting`, `Balance` | counters, projection and score, admission, the strategies, how balanced their runs stay |
| `Lease`, `Fleet`, `FleetLedger`, `FleetAdmission`, `FleetTight`, `FleetLifecycle`, `FleetDecision`, `FleetRelay` | the lease, and all requests as one machine of interleaved atomic steps |
| `Sse`, `Relay`, `Observe`, `Tokens`, `Inbound`, `Router` | the relay, token counting, request features, the request handler |
| `Estimator`, `Routes` | the time-decayed output-length estimate, per route |
| `LoadGen`, `Refinement` | the Python load generator, and the router as a refinement of it |
| `Scrape` | the metrics parser |

Code that updates state in place is a class or a loop: `CostLease`, `Backend`,
`CountingSseBody`, `DecayingQuantile`, `RouteHistograms`, `RoundRobin`, `Generator`,
`RouterState`, `Pressure.Pick`, `Gate.Eligible`. Each method's contract equates the
new state with a specification function; the theorems are about those functions.
The concurrent protocol (`Fleet`) uses the same lease functions as the classes.

## Main results

* **Conservation.** In every interleaving of atomic operations, with no bound on the
  number of requests, both counters equal what the handlers hold, modulo their width
  (`LedgerAlways`); with fewer than 2^30 live leases on a backend they are exact and
  never negative (`CountersAreExact`), and every reachable state can drain back to
  zero (`EveryStateCanDrain`).
* **Admission overshoot.** With at most `k` decisions between gate read and lease
  open, each of at most `m` tokens, admitted leases hold at most
  `floor(sigma * capacity) + (k - 1) * m` tokens of initial charge and
  `max_num_seqs + (k - 1)` slots; the KV counter is exactly that charge, the own
  charges of fall-through dispatches, and the recharge steps of overrun streams
  (`AdmissionOvershoot`). For every `m` and every `k` below 2^30 some run reaches the
  bound (`OvershootIsReached`).
* **Chunking independence.** However a response is cut into frames, the relay ends
  where one pass over its lines ends (`ChunkingIndependent`). In the fleet, where every
  handler reads frames through its own line buffer, two runs that send every handler
  the same bytes end with the same counters, however the bytes were cut at character
  boundaries and however the handlers interleaved (`SameResponsesSameCounters`); every
  cut is a run (`CanRelay`).
* **Decision.** The pick is the exact argmin over the gated pool (`PickCorrect`). For
  non-negative penalties it does not depend on knee or penalty (`KnobsDoNotMatter`).
* **Balance.** Over any dispatch-only run, gated or falling through, the occupancy
  spread stays within the larger of its start and the widest increment of a request
  plus `1 - sigma`, under hypotheses known before the run (`PressureKeepsBalance`). That
  bound is approached as closely as one likes (`BalanceBoundIsApproached`). Without the
  `1 - sigma` it holds when every decision sees all healthy backends
  (`FullPoolsKeepBalance`, `FullPoolsFromEmpty`); and the spread never passes one while nothing falls through
  (`GatedRunStaysWithinOne`).
* **Estimator.** Its value is a weighted mean with a telescoping closed form; how
  many observations arrived does not matter (`ClosedForm`, `CountDoesNotMatter`). A
  request without a limit is given the rounded mean of what requests of the same model
  and size class produced, and of no others (`EstimateComesFromRoute`).
* **Requests.** Every finished request that was not cancelled has exactly one response
  and one result (`UnrecordedIffCancelled`), and a whole exchange records a success
  exactly when a success status streamed without an error event (`Exchange`,
  `ResponseReadsEvents`).
* **Refinement.** On common runs the router's ledger equals the load generator's and
  both policies draw from the same list (`RouterMatchesGenerator`); fed the same
  requests and random draws, both send every request to the same backend
  (`SameDispatches`).

## Where the code falls short of its description

Each of these is a lemma that says exactly when the promise holds.

* `lease.rs:87-101` and the README state that nothing in flight means nothing
  charged, and check it with two loads. The check passes exactly when something was in
  flight at the first or nothing is charged at the second (`CheckPassesIff`); it fires
  between the two subtractions of a release (`CheckCanFail`), and also when a lease
  opens between the loads (`CheckCanFailBetweenLoads`). Read in a single state, it holds
  exactly when something is in flight or no lease stands between those subtractions
  (`SnapshotCheckIff`).
* Config validation does not look at `penalty`. The score orders every two counter
  readings as their occupancies do exactly when the chord between the two fullest
  readings rises, which every non-negative penalty ensures
  (`ScoreOrdersReadingsIff`); a negative one can pick the fuller of two ordinary
  backends (`NegativePenaltyPicksFuller`).
* The relay skips a frame whose bytes are not UTF-8 on their own. It reads the whole
  response exactly when no frame cuts a character (`FedIsResponseIff`); a cut loses
  everything in the two frames it separates (`CutCharacterLosesBothFrames`), such as
  the token of a one-event response (`SplitCharacterLosesToken`).
* The estimator takes its clock reading before its lock, so readings can step back.
  The oldest value keeps the weight its age gives it exactly when they do not
  (`WeightIsAgeIff`); otherwise it keeps less, as after readings 5, 3, 6
  (`SteppedBackDecaysMore`).
* `max_tokens` is called an exact bound but is truncated to 32 bits; it survives
  exactly below 2^32 (`MaxTokensKeptIff`).
* Round robin stays fair across a wrap of its counter exactly when the number of
  healthy backends divides 2^64 (`FairAcrossWrapIff`).
* A label value with a closing brace hides its sample (`LabelsReadIff`).
* Router and load generator count an event differently exactly when its first delta
  brings content next to a role, or content that is not text (`EventsCountAlikeIff`),
  and a raw line also when it carries a token without the prefix in front
  (`LinesCountAlikeIff`); `OpeningEventIsDisputed` and `BareEventIsDisputed` are such
  inputs.
* When the gate excludes the emptiest backend a dispatch can widen the spread. It stays
  within its bound exactly when the raised backend stays within it of every excluded
  one (`DispatchKeepsBalanceIff`). A fleet that starts empty can drift apart by the
  increment of the backend that takes the requests, 0.02, with each of them
  (`GateCanWidenSpread`); the excluded backend's own increment for such a request is
  2.0, and `BalancedFromEmpty` counts it.

## Modelling choices

* Scores, occupancies and averages are real numbers. Tokens are integers; `u32`
  additions and atomic updates wrap as in the release build. A negative infinity or
  NaN score is not expressible.
* The random tie-break is a parameter `draw`; theorems hold for every value.
* Time is counted in clock ticks, and clock readings are parameters; `decay` is the factor one tick applies, for example
  `2^(-1/h)` for a half-life of `h` ticks. `halflife_s > 0` gives `0 < decay < 1`.
* JSON and number parsing are function parameters. `usize` is 64 bits wide.
* What config validation guarantees is a precondition (`Validated`); `penalty >= 0`,
  which it does not check, is stated wherever it is needed.
* The length of a stream is below 2^32 - 50 frames where a theorem says so.

## Model

| member | source | states |
|---|---|---|
| FleetLedger.LedgerAlways | crates/router-core/src/lease.rs:24-85 | after any interleaving of atomic operations of any number of requests, each backend's inflight counter and KV counter equal the totals of what the handlers have put there, up to the counter width, and every handler is in a consistent state |
| FleetLedger.CountersAreExact | crates/router-core/src/backend.rs:36-42 | with fewer than 2^30 live leases on a backend its counters are exactly those totals, the KV counter is not negative, and the gate's addition of one more request cannot overflow |
| FleetLedger.QuiescentLedger | crates/router-core/src/lease.rs:87-101 | when no lease on the backend is between two of its counter updates, inflight is the number of open leases, KV the sum of their charges, and zero inflight means zero KV |
| FleetLedger.CheckPassesIff | crates/router-core/src/lease.rs:91-101 | for non-empty prompts the check, with its two loads any number of moves apart, passes if and only if a lease held a slot at the first or none is charged at the second |
| FleetLedger.SnapshotCheckIff | crates/router-core/src/lease.rs:70-78 | with both loads in one state the check passes if and only if something is in flight or no lease stands between its two subtractions |
| FleetLedger.CheckCanFailBetweenLoads | crates/router-core/src/lease.rs:92-93 | a lease that opens between the two loads makes the check fire although no lease is mid-call at either load |
| FleetLedger.CheckCanFail | crates/router-core/src/lease.rs:75-76 | for any non-empty prompt a single cancelled request reaches a state with nothing in flight and KV still charged |
| FleetLedger.DrainedIsZero | crates/router-core/src/lease.rs:69-85 | a backend with no live lease has both counters at zero, whatever happened before |
| Fleet.StepIsAccounted | crates/router-core/src/lease.rs:55-78 | each step's one atomic update equals the change in what its handler holds |
| Fleet.StepKeepsHandler | crates/router-proxy/src/router.rs:59-190 | each step keeps the lease equal to the opened one after its content frames and keeps the open, release and result counts consistent with the phase |
| FleetAdmission.AdmissionOvershoot | crates/router-core/src/gate.rs:12-17 | with at most k decisions under way and at most m tokens each, admitted leases hold at most ceiling + (k-1)*m tokens and max_num_seqs + (k-1) slots in every reachable state; the KV counter is exactly their initial charges, the own initial charges of fall-through dispatches, and the recharge steps of streams past their estimate |
| FleetAdmission.KvIsChargesPlusGrowth | crates/router-core/src/lease.rs:55-67 | what one lease has on the KV counter is its initial charge plus 50 times the ceiling of its overrun over 50, so at most 49 past the overrun, and nothing beyond the initial charge under PromptOnly |
| FleetAdmission.SequentialDecisionsRespectCeiling | crates/router-core/src/gate.rs:14-16 | with one decision at a time the admitted charges stay within sigma * capacity and the slots within max_num_seqs |
| FleetTight.OvershootIsReached | crates/router-proxy/src/router.rs:92-130 | for every positive m and every k below 2^30 a fleet and a run exist that meet the hypotheses of the overshoot theorem and attain its bound in both resources |
| FleetDecision.DecisionRuns | crates/router-core/src/strategy/pressure.rs:43-73 | from any state of any run, a handler that has read its request and is left alone runs through the whole gate scan to exactly the backend the strategy returns, marked admitted exactly when the strategy did not fall through |
| FleetDecision.TwoLoadsReadOne | crates/router-core/src/gate.rs:30-35 | one KV load and one slot load extend the gate's findings by exactly the next healthy backend |
| FleetLifecycle.LifecycleAlways | crates/router-proxy/src/router.rs:49-190 | on every path and in every interleaving an opened lease is released at most once, exactly once when the handler is done; at most one result is recorded, exactly one iff a response was returned and the request is done |
| FleetLifecycle.UnrecordedIffCancelled | crates/router-proxy/src/router.rs:148-181 | over all runs a finished request has no recorded result if and only if it was cancelled before a response; without cancellation it has exactly one result and one response, refusals and failed connects included |
| Fleet.GivesWayOnlyAtAwaits | crates/router-proxy/src/router.rs:66-160 | a handler can be cancelled exactly at its two awaits, its body dropped exactly while it streams, and a finished one does nothing |
| FleetLifecycle.UnopenedLeavesNoMark | crates/router-proxy/src/router.rs:66-95 | removing every move of a request that opened no lease from a run changes no counter and no other request |
| FleetLifecycle.EveryStateCanDrain | crates/router-core/src/lease.rs:81-85 | every reachable state can be continued to one where all requests are done and all counters are zero |
| FleetLifecycle.CanFinish | crates/router-proxy/src/router.rs:148-155 | any request can be run to its end by its own moves from any reachable state, leaving the others untouched |
| FleetRelay.ReaderKeepsUp | crates/router-proxy/src/upstream.rs:154-163 | at every moment of every run a handler's line buffer is the unfinished line of the text it was sent, and the content frames it has acted on and still owes are those of one pass over that text's lines |
| FleetRelay.LeaseIsRelayed | crates/router-proxy/src/upstream.rs:162-167 | between polls, in any interleaving, an open lease is the one the relay computes from the frames sent to its handler |
| FleetRelay.PollsAreWhole | crates/router-proxy/src/upstream.rs:159-200 | in every run a handler that still owes content moves of a poll is streaming: polls are not cut short |
| FleetRelay.CanRelay | crates/router-proxy/src/upstream.rs:149-159 | between polls any frame can be sent to a streaming handler and its poll run to the end by that handler alone |
| FleetRelay.SameResponsesSameCounters | crates/router-proxy/src/upstream.rs:154-203 | two runs that send every handler the same bytes, each cut in its own way at character boundaries, and stop at the same points have equal counters on every backend, however the handlers interleave |
| Lease.CostLease.Open | crates/router-core/src/lease.rs:24-45 | the new lease is the opened lease state, and the backend gained one slot and the projected charge |
| Lease.CostLease.ObserveTokens | crates/router-core/src/lease.rs:55-67 | the lease state follows the recharge rule and the KV counter moves by exactly the change in charge |
| Lease.CostLease.Release | crates/router-core/src/lease.rs:69-78 | an open lease gives back its slot and its charge once; a released one changes nothing |
| Lease.ReleaseUndoesOpen | crates/router-core/src/lease.rs:69-85 | open, any observations in batches of any size, then release restore both counters exactly, wrap-around included; a second release is a no-op |
| Lease.ProjectionTracksStream | crates/router-core/src/lease.rs:55-67 | for observations of 1 to 50 tokens the estimate is the original plus 50 times the ceiling of the overrun over 50, so it never lags the stream and leads it by at most 49 once overrun |
| Lease.ReservationCoversStream | crates/router-core/src/lease.rs:59-65 | the charge never falls; under PromptOnly it stays the prompt, under PromptPlusOutput it lies between prompt plus tokens seen and prompt plus the larger of the estimate and tokens seen plus 49 |
| Lease.OneStepKeepsUpIff | crates/router-core/src/lease.rs:56-59 | one call keeps the projection at or above the stream if and only if the batch fits in the remaining headroom plus one step |
| Cost.ScoreStrictlyIncreasing | crates/router-core/src/cost.rs:37-44 | a fuller backend scores strictly worse for any knee in (0,1) and non-negative penalty |
| Cost.ScoreOrdersReadingsIff | crates/router-core/src/config.rs:258-263 | the score orders any two counter readings of any two backends as their occupancies do if and only if the chord between the two fullest readings rises; a non-negative penalty ensures it |
| PressureStrategy.NegativePenaltyPicksFuller | crates/router-core/src/config.rs:258-263 | under a negative penalty that validation accepts, every draw picks the fuller of two backends at 60 and 80 percent |
| Cost.ScoreConvex | crates/router-core/src/cost.rs:37-44 | three-point convexity of the score across the knee |
| Gate.CeilingIsExact | crates/router-core/src/gate.rs:14 | the truncated integer ceiling admits exactly the token counts that the real product does, is not negative, and is within capacity |
| Gate.Eligible | crates/router-core/src/gate.rs:23-36 | the loop returns, in order, exactly the healthy ids that pass the gate |
| PressureStrategy.Pressure.Pick | crates/router-core/src/strategy/pressure.rs:26-118 | the scan and draw compute the specified decision, and the trace records it with one line per healthy backend; with nothing healthy the rest of the trace is left as it was |
| PressureStrategy.Pressure.ScanTies | crates/router-core/src/strategy/pressure.rs:55-71 | the scan loop's tie list is the list of pool members at the minimal score |
| PressureStrategy.PickCorrect | crates/router-core/src/strategy/pressure.rs:33-73 | a backend is returned iff one is healthy; it passes the gate unless none does, and no admitted backend (or none at all after fall-through) scores better |
| PressureStrategy.EveryTieCanBeDrawn | crates/router-core/src/strategy/pressure.rs:73 | every minimal member of the pool is the result of some draw |
| PressureStrategy.KnobsDoNotMatter | crates/router-core/src/strategy/pressure.rs:55-73 | routers that differ only in knee and non-negative penalty build the same tie list and make the same pick |
| PressureStrategy.TiesAreOccupancyTies | crates/router-core/src/strategy/pressure.rs:58-71 | the scored tie list is the tie list of raw occupancy |
| PressureStrategy.OneHealthyIgnoresSigma | crates/router-core/src/strategy/pressure.rs:48-53 | with one healthy backend it is picked whatever the gate says |
| PressureStrategy.TraceExplainsDecision | crates/router-core/src/strategy/pressure.rs:75-115 | a trace line names its backend and readings, is unmarked iff the gate admits it (or nothing was admitted), gives the failed limit, and no unmarked candidate scores better than the chosen one |
| Selection.TieListIsArgmin | crates/router-core/src/strategy/pressure.rs:55-71 | the tie list holds exactly the pool members no member beats, as often as the pool does |
| Selection.SameOrderSameTies | crates/router-core/src/strategy/pressure.rs:62-70 | the tie list depends only on the order of the keys |
| Selection.TieListKeepsOrder | crates/router-core/src/strategy/pressure.rs:62-73 | minimal entries stand in the tie list in pool order, each at its rank, so a draw index names the same entry for equal pools |
| Balance.PressureKeepsBalance | crates/router-core/src/strategy/pressure.rs:45-73 | over any dispatch-only run that fits the machine widths, whatever the gate leaves out and whether or not decisions fall through, the spread stays within the larger of its start and the widest increment plus 1 - sigma |
| Balance.BalanceBoundIsApproached | crates/router-core/src/strategy/pressure.rs:48-73 | for increments of a tenth one decision comes within 1/(100 n) of that bound, for every n up to 40 million |
| Balance.RefusedIsNearlyFull | crates/router-core/src/gate.rs:12-17 | a refused backend has occupancy one or more, or one more request would take it past sigma |
| Balance.FullPoolsKeepBalance | crates/router-core/src/cost.rs:28-34 | when every decision sees the full healthy set, the spread stays within the larger of its start and the widest increment |
| Balance.BalancedFromEmpty | crates/router-core/src/strategy/pressure.rs:45-73 | from an empty fleet the spread of any such run stays within the widest increment plus 1 - sigma |
| Balance.GatedRunStaysWithinOne | crates/router-core/src/gate.rs:12-17 | over any dispatch-only run without fall-through the spread stays within the larger of its start and one |
| Balance.DispatchKeepsBalanceIff | crates/router-core/src/strategy/pressure.rs:48-53 | one dispatch keeps the spread within the larger of its previous bound and its own increment if and only if the raised backend stays within that of every healthy backend the gate left out |
| Balance.GateCanWidenSpread | crates/router-core/src/strategy/pressure.rs:48-53 | from an empty fleet, under the default settings, requests too long for the small backend raise the spread by 0.02 each, the increment of the backend that takes them, up to 47 of them |
| Balance.LeastRequestsKeepsBalance | crates/router-core/src/strategy/least_requests.rs:31-47 | inflight counts within one of each other stay so over any run of least-requests picks |
| CountingStrategies.LeastRequestsPick | crates/router-core/src/strategy/least_requests.rs:20-50 | a backend is returned iff one is healthy, drawn from the ties of fewest in flight |
| CountingStrategies.RoundRobin.Pick | crates/router-core/src/strategy/round_robin.rs:32-47 | the pick is the healthy entry at the old counter modulo the list length, and the counter advances by one with wrap-around |
| CountingStrategies.PickWindow | crates/router-core/src/strategy/round_robin.rs:32-47 | over a run of picks each healthy backend is picked as often as the window's counter values hit its position, and any two within one of each other, unless the counter wraps inside the run and the list length does not divide its range |
| CountingStrategies.RoundRobinIsFair | crates/router-core/src/strategy/round_robin.rs:43-44 | in every window of counter values the hits of any two positions differ by at most one, unless the counter wraps inside it and the list length does not divide its range |
| CountingStrategies.WholeRoundsAreEven | crates/router-core/src/strategy/round_robin.rs:43-44 | a window of k full rounds hits every position exactly k times |
| CountingStrategies.FairAcrossWrapIff | crates/router-core/src/strategy/round_robin.rs:11-18 | all windows, wraps included, are fair if and only if the number of healthy backends divides the counter range |
| Relay.CountingSseBody.PollFrame | crates/router-proxy/src/upstream.rs:149-208 | the frame is forwarded unchanged, the account stays what one pass over all complete lines gives, the buffer the unfinished line, the backend moves by the change in charge, and the route store takes one update per positive completion count |
| Relay.CountingSseBody.Drop | crates/router-proxy/src/upstream.rs:86-96 | exactly one result is recorded, a failure iff an error frame was seen or the status was no success, and the lease is released |
| Relay.ChunkingIndependent | crates/router-proxy/src/upstream.rs:154-203 | for any sequence of frames the account and the buffer equal one pass over the lines of the joined text and its unfinished last line |
| Relay.SameResponseSameAccount | crates/router-proxy/src/upstream.rs:154-203 | two ways to cut one response at character boundaries end in the same account and buffer |
| Relay.FedIsResponseIff | crates/router-proxy/src/upstream.rs:156-158 | the text fed to the parser is the whole response if and only if every frame decodes on its own |
| Relay.CutCharacterLosesBothFrames | crates/router-proxy/src/upstream.rs:157 | after any frames, a text sent in two frames cut anywhere inside a character leaves the relay as it was, while the same bytes in one frame feed it the whole text |
| Relay.SplitCharacterLosesToken | crates/router-proxy/src/upstream.rs:157 | a one-event response with an accented token, cut inside the accented letter, loses the token that the uncut response counts |
| Relay.AccountOfLines | crates/router-proxy/src/upstream.rs:163-171 | any lines add their number of content frames to the count and observe that many single tokens on the lease |
| Relay.ReservationCoversResponse | crates/router-proxy/src/upstream.rs:165-167 | under PromptPlusOutput the lease always covers prompt plus content frames relayed, within 49 tokens once overrun |
| Sse.ClassifyReadsEvent | crates/router-proxy/src/sse.rs:31-68 | read off the JSON: an `error` key makes an error frame with its message, an empty `choices` list a usage frame with the two stored counts, and otherwise the first delta's role and content decide; nothing else makes a frame |
| Relay.FlagsOfLines | crates/router-proxy/src/upstream.rs:191-197 | the error flag is up iff some line's event has an `error` key, the end flag iff some line has one or is the end marker |
| Relay.EventEffect | crates/router-proxy/src/upstream.rs:163-198 | the whole account after one event line, by the JSON of its text: an error raises both flags alone, `[DONE]` the end flag alone, usage adds the stored counts in order and feeds a positive completion count, a token adds one to count and lease |
| Relay.UsagesOfLines | crates/router-proxy/src/upstream.rs:172-190 | every usage event's stored prompt and completion counts are audited in order and the estimator is fed exactly the positive completion counts |
| Text.LinesPartition | crates/router-proxy/src/upstream.rs:159-160 | lines and rest cut a text into single terminated lines and a remainder without newline |
| Text.LinesOfMore | crates/router-proxy/src/upstream.rs:158-160 | feeding more text completes the buffered partial line first |
| Text.WhitespaceIs | crates/router-core/src/tokens.rs:68 | whitespace is exactly the 25 characters of the Unicode White_Space property |
| Utf8.DecodeEncoded | crates/router-proxy/src/upstream.rs:157 | decoding undoes encoding |
| Utf8.EncodeDecoded | crates/router-proxy/src/upstream.rs:157 | only encodings decode |
| Utf8.KnownEncodings | crates/router-proxy/src/upstream.rs:157 | one character of each encoded length has its UTF-8 bytes |
| Estimator.DecayingQuantile.Observe | crates/router-proxy/src/length_estimator.rs:37-51 | the estimator's state moves as the decayed mix specifies |
| Estimator.ClosedForm | crates/router-proxy/src/length_estimator.rs:37-51 | the average equals the sum of all values weighted by decayed forward time |
| Estimator.WeightsAverage | crates/router-proxy/src/length_estimator.rs:44-48 | the weights are non-negative and sum to one |
| Estimator.WeightsTelescope | crates/router-proxy/src/length_estimator.rs:44-48 | the first n weights together are exactly what decays from observation n - 1 to the last, whatever came before |
| Estimator.CountDoesNotMatter | crates/router-proxy/src/length_estimator.rs:24-25 | however many equal observations arrive, the average moves toward them by an amount fixed by the forward time that passed |
| Estimator.ForwardIsElapsedIff | crates/router-proxy/src/length_estimator.rs:45 | forward time is at least clock time, and equal iff the readings never step back |
| Estimator.WeightIsAgeIff | crates/router-proxy/src/length_estimator.rs:102-114 | the oldest value keeps the weight of its age iff observations arrive in clock order, and less otherwise |
| Estimator.SteppedBackDecaysMore | crates/router-proxy/src/length_estimator.rs:102-114 | after readings 5, 3, 6 the oldest value has decayed by three ticks although one has passed |
| Estimator.EstimateWithinObserved | crates/router-proxy/src/length_estimator.rs:37-56 | for any values at any times the rounded estimate lies within the values observed |
| Estimator.RoundIsNearest | crates/router-proxy/src/length_estimator.rs:53-55 | the reported estimate is the nearest whole number, a half going up, and saturates at both ends of the 32-bit range |
| Routes.RouteHistograms.Estimate | crates/router-proxy/src/length_estimator.rs:87-100 | the method resolves explicit limit, then route history, then the default |
| Routes.RouteHistograms.Observe | crates/router-proxy/src/length_estimator.rs:103-114 | exactly the observed route's average moves |
| Routes.RoutesAreIndependent | crates/router-proxy/src/length_estimator.rs:63-71 | after any interleaving each route holds the average of its own observations |
| Routes.ResponseFeedsItsRoute | crates/router-proxy/src/upstream.rs:172-190 | after any history, a response leaves its route with the average of that history followed by its completion counts, and every other route as it was |
| Routes.ResponseExtendsHistory | crates/router-proxy/src/upstream.rs:185-189 | the updates of a response are ordinary updates of its route, so every law of the store carries on over them |
| Routes.ResolvedWithinHistory | crates/router-proxy/src/length_estimator.rs:95-99 | a resolved estimate from history lies within the lengths seen on that route |
| Routes.ResolvedIsRoundedMean | crates/router-proxy/src/length_estimator.rs:87-100 | without a limit a request gets the decayed mean of its route's history, rounded to nearest and at least one |
| Routes.UnseenRouteGetsDefault | crates/router-proxy/src/length_estimator.rs:95-99 | a route never fed resolves to the default of 128 |
| Routes.BucketsAreRanges | crates/router-proxy/src/length_estimator.rs:135-141 | a prompt falls in bucket p iff it lies in [p, 2p), or is at least 4096 for the top bucket |
| Tokens.WordCountOfConcat | crates/router-core/src/tokens.rs:63-77 | joining two texts loses one word iff it merges two words; joining with a space loses none |
| Tokens.CountIsZeroIffBlank | crates/router-core/src/tokens.rs:60-66 | under either counter only blank text counts as zero |
| Tokens.WhitespaceCountsWords | crates/router-core/src/tokens.rs:68 | the whitespace count is the saturated number of words |
| Tokens.CharsCountCovers | crates/router-core/src/tokens.rs:69-76 | the calibrated count is the least number of tokens that covers the text's bytes |
| Inbound.CountPromptTokens | crates/router-proxy/src/inbound.rs:76-90 | the loop computes the saturated sum over message contents, else the prompt's count, else zero |
| Inbound.ContentsOfConcat | crates/router-proxy/src/inbound.rs:79-83 | every message is counted, in order: the contents of two lists of messages are those of the first followed by those of the second |
| Inbound.ContentsOfOne | crates/router-proxy/src/inbound.rs:80 | a message contributes the string under its `content`, or nothing |
| Inbound.PromptTokensOfRequest | crates/router-proxy/src/inbound.rs:76-90 | under whitespace counting the prompt tokens of a request are the saturated word count of all its message texts joined by spaces, or of its prompt string when it has no messages, or zero |
| Inbound.CountsNothingIff | crates/router-proxy/src/inbound.rs:48-51 | under either counter a request counts zero tokens iff every text in it is blank |
| Inbound.PerMessageCountIsJoinedCount | crates/router-proxy/src/inbound.rs:72-84 | counting per message equals counting all contents joined by spaces, up to saturation |
| Inbound.FeaturesReadRequest | crates/router-proxy/src/inbound.rs:36-70 | features exist iff the body parses, names a model and has text; they carry that model, that count and the stream flag; the error says which part is missing |
| Inbound.EstimateComesFromRoute | crates/router-proxy/src/inbound.rs:57-58 | after any served requests, a request is given its own limit, else the rounded decayed mean of what was observed for requests of the same model and size class and no others, else 128 |
| Inbound.EstimateIsLearned | crates/router-proxy/src/length_estimator.rs:63-71 | after a response that reports one count on an unfed route, a request of the same model and size class without a limit is given exactly that count |
| Inbound.SameKeyIff | crates/router-proxy/src/length_estimator.rs:124-141 | two requests share a route iff they name the same model and their prompts lie in the same power-of-two range |
| Inbound.FeaturesAreCharged | crates/router-proxy/src/inbound.rs:48-58 | a request that gets features has at least one prompt token and at least one expected output token |
| Inbound.MaxTokensKeptIff | crates/router-proxy/src/inbound.rs:53 | an explicit limit becomes the estimate unchanged (zero raised to one) iff it is below 2^32, and is under-charged otherwise |
| Router.RouterState.HandleInner | crates/router-proxy/src/router.rs:59-177 | 413 exactly for a body too large, 400 exactly for one that does not parse, names no model or has no text, 503 exactly for a usable request with nothing healthy, 502 exactly when upstream does not answer; a refusal leaves every counter as it was, a streamed request has charged exactly the decided backend; saturation and connect errors are counted exactly when they occur |
| Router.RouterState.Handle | crates/router-proxy/src/router.rs:49-57 | the same statuses; a refusal records one failed result at once, a streamed response none yet |
| Router.RouterState.Exchange | crates/router-proxy/src/router.rs:156-177 | one whole exchange restores every counter, records one result, a success exactly when a success status streamed without an error frame, and feeds the request's route exactly the completion counts of the streamed response, for any input, upstream outcome and framing |
| Router.RouterState.ResponseReadsEvents | crates/router-proxy/src/upstream.rs:163-197 | a response written as event lines, however framed, counts as failed iff one of its texts is JSON with an `error` key, and reports exactly the completion counts its usage events store |
| LoadGen.Generator.OnToken | phase0/loadgen.py:190-209 | the dictionaries and the task move as the token step specifies |
| LoadGen.Generator.OnFinish | phase0/loadgen.py:212-222 | the dictionaries move as the finish step specifies, clamps included |
| LoadGen.LedgerAlways | phase0/loadgen.py:324-332 | over every run each backend's counters are its live requests, their held KV and their remaining work |
| LoadGen.ClampsAreInert | phase0/loadgen.py:215-222 | neither clamp ever changes a value |
| LoadGen.RemainingIsTrapezoids | phase0/loadgen.py:13-20 | the closed form equals the token-by-token sum of trapezoids |
| LoadGen.RemainingFalls | phase0/loadgen.py:13-20 | the remaining cost does not increase as tokens arrive |
| LoadGen.RemainingIsHalfWhole | phase0/loadgen.py:19-20 | with integer inputs the remaining cost is a whole number of halves |
| Refinement.RouterMatchesGenerator | phase0/loadgen.py:108-113 | from idle, after any common run within machine widths, the ledgers are equal and both policies draw from the same list for every request |
| Refinement.SameDispatches | phase0/loadgen.py:108-113 | in the closed loop, from idle, the same requests, draws, tokens and ends make router and generator send every request of the whole run to the same backend |
| Refinement.StepRefines | phase0/loadgen.py:192-222 | each dispatch, token and finish keeps the two ledgers related |
| Refinement.SameCandidates | phase0/loadgen.py:45-113 | on related states the generator's candidate list is the router's tie list |
| Refinement.EventsCountAlikeIff | crates/router-proxy/src/sse.rs:31-68 | the router counts no event the generator does not; they differ on a well-shaped event if and only if it has no error and its first delta brings true content with a role or content that is not text |
| Refinement.LinesCountAlikeIff | phase0/loadgen.py:164-190 | they differ on a raw line if and only if it starts with the prefix and carries a disputed event, or does not and carries a token |
| Refinement.OpeningEventIsDisputed | crates/router-proxy/src/sse.rs:60-63 | an opening event with role and text is a token to the generator and none to the router |
| Refinement.BareEventIsDisputed | crates/router-proxy/src/upstream.rs:161-163 | a token event without the prefix is counted by the router and skipped by the generator |
| Scrape.MetricValue | crates/router-proxy/src/signal/scrape.rs:43-85 | the loop returns the first line value for the name |
| Scrape.ParseRendered | crates/router-proxy/src/signal/scrape.rs:43-85 | parsing printed metrics returns the first sample of exactly that name, and nothing when there is none |
| Scrape.SampleLineValue | crates/router-proxy/src/signal/scrape.rs:57-60 | a sample line answers its own name only, never a shorter or longer one |
| Scrape.CounterOfRendered | crates/router-proxy/src/signal/scrape.rs:106-108 | a counter is read under its bare name, else its total name, never a sibling |
| Scrape.LabelsReadIff | crates/router-proxy/src/signal/scrape.rs:62-68 | a labelled sample is read iff its labels hold no closing brace |

## Left out

- Network transport, connection pooling, request rebuilding and header handling: I/O; their outcomes are parameters of `Router` and actions of `Fleet`.
- JSON and floating-point number parsing: parameters of the relay and of the metrics parser.
- Floating-point rounding, NaN and infinities: scores and averages are reals, so nothing is claimed bit for bit.
- LinesCountAlikeIff: is about lines that end in a newline; the HTTP client of the generator also splits at other line separators, and Python trims U+001C to U+001F, which are no White_Space.
- Updates that other requests make to the route store during one exchange: `Router` runs one request alone, `Routes.RoutesAreIndependent` covers any order of updates.
- Cancellation and interleaving in `Router`: that model runs one request alone; `Fleet` has both.
- The score in the fleet machine's choice: `Choose` may return any admitted backend, which covers every strategy; `FleetDecision` ties it to the pressure strategy.
- The load generator's stop at the first error or end marker: the refinement is over the events both sides handle.
- The load generator's other policies (`least_conn`, `kvts`, the two-choice variants): only the work accounting of `kvts` and the pressure policy are modelled.
- The decision trace of the counting strategies, and `p2c`, `least_kvts`: repeats of easier facts.
- `ensure_usage_requested`, config parsing, health ejection, drift detection, the occupancy sampler, label extraction from info metrics: single-branch facts, or no clean law to state.
- Debug builds, where a `u32` addition that overflows panics instead of wrapping.
- Quality of the random draw: any index is possible.
