/** The capacity lease one request holds on one backend. */
module Lease {
  import opened Machine
  import opened Cost
  import opened Backends

  /** A lease as a value: what `CostLease` stores besides its backend. */
  datatype LeaseState = LeaseState(
    model: KvModel,
    prompt: uint32,
    oHat: uint32,
    seen: uint32,
    charged: int,
    released: bool)

  function Opened(model: KvModel, prompt: uint32, oHat: uint32): LeaseState {
    LeaseState(model, prompt, oHat, 0, model.Project(prompt, oHat), false)
  }

  /** Local bookkeeping for `n` more tokens: one recharge step at most, and only
      when the stream is strictly past the estimate. */
  function Observed(l: LeaseState, n: uint32): LeaseState {
    var seen := WrapU32(l.seen + n);
    if seen > l.oHat then
      var oHat := WrapU32(l.oHat + RECHARGE_STEP);
      l.(seen := seen, oHat := oHat, charged := l.model.Project(l.prompt, oHat))
    else
      l.(seen := seen)
  }

  function Closed(l: LeaseState): LeaseState {
    if l.released then l else l.(released := true, charged := 0)
  }

  class CostLease {
    const backend: Backend
    const kvModel: KvModel
    const promptTokens: uint32
    var charged: int
    var oHat: uint32
    var tokensSeen: uint32
    var released: bool

    function State(): LeaseState
      reads this
    {
      LeaseState(kvModel, promptTokens, oHat, tokensSeen, charged, released)
    }

    constructor Open(backend: Backend, promptTokens: uint32, oHat: uint32, kvModel: KvModel)
      modifies backend
      ensures this.backend == backend
      ensures State() == Opened(kvModel, promptTokens, oHat)
      ensures backend.Reading() == AddKv(AddInflight(old(backend.Reading()), 1), charged)
    {
      var charge := kvModel.Project(promptTokens, oHat);
      backend.inflight := WrapU32(backend.inflight + 1);
      backend.kvProjected := WrapI64(backend.kvProjected + charge);
      this.backend := backend;
      this.charged := charge;
      this.kvModel := kvModel;
      this.promptTokens := promptTokens;
      this.oHat := oHat;
      tokensSeen := 0;
      released := false;
    }

    method ObserveTokens(n: uint32)
      modifies this, backend
      ensures State() == Observed(old(State()), n)
      ensures backend.Reading() == AddKv(old(backend.Reading()), charged - old(charged))
    {
      tokensSeen := WrapU32(tokensSeen + n);
      if tokensSeen > oHat {
        oHat := WrapU32(oHat + RECHARGE_STEP);
        var newCharge := kvModel.Project(promptTokens, oHat);
        var delta := newCharge - charged;
        charged := newCharge;
        if delta != 0 {
          backend.kvProjected := WrapI64(backend.kvProjected + delta);
        }
      }
    }

    /** Runs when the lease is dropped. Idempotent. */
    method Release()
      modifies this, backend
      ensures State() == Closed(old(State()))
      ensures backend.Reading() ==
              if old(released) then old(backend.Reading())
              else AddKv(AddInflight(old(backend.Reading()), -1), -old(charged))
    {
      if released {
        return;
      }
      released := true;
      backend.inflight := WrapU32(backend.inflight - 1);
      backend.kvProjected := WrapI64(backend.kvProjected - charged);
      charged := 0;
    }
  }

  // ----- one lease over a whole stream

  function ObservedAll(l: LeaseState, batches: seq<uint32>): (r: LeaseState)
    ensures r.model == l.model && r.prompt == l.prompt && r.released == l.released
  {
    if batches == [] then l
    else Observed(ObservedAll(l, batches[..|batches| - 1]), batches[|batches| - 1])
  }

  /** The backend's counters over the same calls. */
  function LoadAfter(b: Load, l: LeaseState, batches: seq<uint32>): Load {
    if batches == [] then b
    else
      var before := batches[..|batches| - 1];
      AddKv(LoadAfter(b, l, before), ObservedAll(l, batches).charged - ObservedAll(l, before).charged)
  }

  function Sum(batches: seq<uint32>): nat {
    if batches == [] then 0 else Sum(batches[..|batches| - 1]) + batches[|batches| - 1]
  }

  /** `n` observations of one token each, as the relay makes them. */
  function Ones(n: nat): (r: seq<uint32>)
    ensures |r| == n
  {
    seq(n, _ => 1)
  }

  lemma {:induction false} SumOfOnes(n: nat)
    ensures Sum(Ones(n)) == n
  {
    if n == 0 {
    } else {
      assert Ones(n)[..n - 1] == Ones(n - 1);
      SumOfOnes(n - 1);
    }
  }

  /** Release undoes open: whatever was streamed in between, in batches of any
      size and even across wrap-around, both counters come back to where they
      were, and a second release changes nothing. */
  lemma ReleaseUndoesOpen(b: Load, model: KvModel, prompt: uint32, oHat: uint32, batches: seq<uint32>)
    ensures var l := Opened(model, prompt, oHat);
            var held := LoadAfter(AddKv(AddInflight(b, 1), l.charged), l, batches);
            AddKv(AddInflight(held, -1), -ObservedAll(l, batches).charged) == b
    ensures var l := ObservedAll(Opened(model, prompt, oHat), batches);
            Closed(l).charged == 0 && Closed(Closed(l)) == Closed(l)
  {
    var l := Opened(model, prompt, oHat);
    LoadTracksCharge(AddInflight(b, 1), l, batches);
    AddThenRemove(b, ObservedAll(l, batches).charged);
  }

  /** Recharges in between do not disturb a release. */
  lemma RemoveAfterRecharges(b: Load, was: int, now: int)
    ensures AddKv(AddInflight(AddKv(b, now - was), -1), -now) == AddKv(AddInflight(b, -1), -was)
  {
    WrapAdds(b.kvProjected + (now - was), -now);
  }

  lemma NoRecharge(b: Load)
    ensures AddKv(b, 0) == b
  {
  }

  lemma RechargeTwice(b: Load, x: int, y: int, z: int)
    ensures AddKv(AddKv(b, y - x), z - y) == AddKv(b, z - x)
  {
    WrapAdds(b.kvProjected + (y - x), z - y);
  }

  lemma AddThenRemove(b: Load, charge: int)
    ensures AddKv(AddInflight(AddKv(AddInflight(b, 1), charge), -1), -charge) == b
  {
    WrapAdds(b.kvProjected + charge, -charge);
    WrapAdds(b.inflight + 1, -1);
  }

  lemma {:induction false} LoadTracksCharge(b: Load, l: LeaseState, batches: seq<uint32>)
    ensures LoadAfter(AddKv(b, l.charged), l, batches) == AddKv(b, ObservedAll(l, batches).charged)
  {
    if batches == [] {
    } else {
      var before := batches[..|batches| - 1];
      LoadTracksCharge(b, l, before);
      var was, now := ObservedAll(l, before).charged, ObservedAll(l, batches).charged;
      WrapAdds(b.kvProjected + was, now - was);
    }
  }

  /** Every charge is a projection, so it stays far inside 64 bits. */
  lemma {:induction false} ChargeIsProjection(l: LeaseState, batches: seq<uint32>)
    requires l.charged == l.model.Project(l.prompt, l.oHat)
    ensures var r := ObservedAll(l, batches); r.charged == r.model.Project(r.prompt, r.oHat)
  {
    if batches == [] {
    } else {
      ChargeIsProjection(l, batches[..|batches| - 1]);
    }
  }

  /** Smallest number of recharge steps that covers an overrun of `x` tokens. */
  function Steps(x: int): nat {
    if x <= 0 then 0 else (x + (RECHARGE_STEP - 1)) / RECHARGE_STEP
  }

  /** The projection never lags the stream: for observations of 1 to 50 tokens
      the estimate is the original one plus exactly the whole recharge steps
      needed, so it stays within 49 tokens of the stream once overrun. */
  lemma {:induction false} ProjectionTracksStream(l: LeaseState, batches: seq<uint32>)
    requires l.seen == 0
    requires forall i | 0 <= i < |batches| :: 1 <= batches[i] <= RECHARGE_STEP
    requires Sum(batches) + RECHARGE_STEP <= U32_MOD
    ensures var r := ObservedAll(l, batches);
            && r.seen == Sum(batches)
            && r.oHat == l.oHat + RECHARGE_STEP * Steps(r.seen - l.oHat)
            && r.seen <= r.oHat <= MaxInt(l.oHat, r.seen + RECHARGE_STEP - 1)
  {
    if batches == [] {
    } else {
      var before := batches[..|batches| - 1];
      ProjectionTracksStream(l, before);
      StepTracksStream(l.oHat, ObservedAll(l, before), batches[|batches| - 1]);
    }
  }

  lemma StepTracksStream(oHat0: uint32, l: LeaseState, n: uint32)
    requires 1 <= n <= RECHARGE_STEP && l.seen + n + RECHARGE_STEP <= U32_MOD
    requires l.oHat == oHat0 + RECHARGE_STEP * Steps(l.seen - oHat0)
    ensures var r := Observed(l, n);
            && r.seen == l.seen + n
            && r.oHat == oHat0 + RECHARGE_STEP * Steps(r.seen - oHat0)
            && r.seen <= r.oHat <= MaxInt(oHat0, r.seen + RECHARGE_STEP - 1)
  {
    var seen := l.seen + n;
    assert WrapU32(seen) == seen;
    if seen > l.oHat {
      assert WrapU32(l.oHat + RECHARGE_STEP) == l.oHat + RECHARGE_STEP;
    }
  }

  /** What that buys: under `PromptPlusOutput` the reserved KV covers prompt and
      output so far, the charge never falls, and under `PromptOnly` it never moves. */
  lemma ReservationCoversStream(l: LeaseState, batches: seq<uint32>, k: nat)
    requires l.seen == 0 && l.charged == l.model.Project(l.prompt, l.oHat) && k <= |batches|
    requires forall i | 0 <= i < |batches| :: 1 <= batches[i] <= RECHARGE_STEP
    requires Sum(batches) + RECHARGE_STEP <= U32_MOD
    ensures var early, late := ObservedAll(l, batches[..k]), ObservedAll(l, batches);
            && early.charged <= late.charged
            && late.charged == late.model.Project(late.prompt, late.oHat)
            && (l.model.PromptOnly? ==> late.charged == l.prompt)
            && (l.model.PromptPlusOutput? ==>
                  l.prompt + Sum(batches) <= late.charged
                  <= l.prompt + MaxInt(l.oHat, Sum(batches) + RECHARGE_STEP - 1))
  {
    hide ObservedAll, Sum, Steps;
    SumOfPrefix(batches, k);
    ProjectionTracksStream(l, batches[..k]);
    ProjectionTracksStream(l, batches);
    ChargeIsProjection(l, batches[..k]);
    ChargeIsProjection(l, batches);
  }

  lemma {:induction false} SumOfPrefix(batches: seq<uint32>, k: nat)
    requires k <= |batches|
    ensures Sum(batches[..k]) <= Sum(batches)
  {
    if k == |batches| {
      assert batches[..k] == batches;
    } else {
      SumOfPrefix(batches[..|batches| - 1], k);
      assert batches[..|batches| - 1][..k] == batches[..k];
    }
  }

  /** For a caller that observes larger batches, one recharge step is not always
      enough: the projection keeps up exactly when the batch fits in the
      remaining headroom plus one step. */
  lemma OneStepKeepsUpIff(l: LeaseState, n: uint32)
    requires l.seen <= l.oHat && l.oHat + RECHARGE_STEP < U32_MOD && l.seen + n < U32_MOD
    ensures Observed(l, n).seen <= Observed(l, n).oHat <==> n <= l.oHat - l.seen + RECHARGE_STEP
  {
  }
}
