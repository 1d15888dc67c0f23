/** The per-route store of length estimators and how a request resolves its
    expected output length. */
module Routes {
  import opened Machine
  import opened Backends
  import Estimator

  const DEFAULT_OUTPUT_ESTIMATE: uint32 := 128
  const TOP_BUCKET: uint32 := 4096

  datatype RouteKey = RouteKey(model: string, bucket: uint32)

  type View = map<RouteKey, Estimator.Average>

  // ----- prompt buckets

  /** `1 << (31 - leading_zeros)`: the top bit of a positive count. */
  function TopBit(tokens: uint32): (p: nat)
    requires tokens > 0
    ensures p <= tokens < 2 * p
  {
    if tokens == 1 then 1 else 2 * TopBit(tokens / 2)
  }

  function PromptBucket(tokens: uint32): uint32 {
    if tokens == 0 then 0
    else if TopBit(tokens) < TOP_BUCKET then TopBit(tokens) else TOP_BUCKET
  }

  ghost predicate IsPowerOfTwo(n: nat) {
    n == 1 || (n > 1 && n % 2 == 0 && IsPowerOfTwo(n / 2))
  }

  lemma {:induction false} TopBitIsPower(tokens: uint32)
    requires tokens > 0
    ensures IsPowerOfTwo(TopBit(tokens))
  {
    if tokens == 1 {
    } else {
      TopBitIsPower(tokens / 2);
    }
  }

  /** Powers of two are at least a factor of two apart. */
  lemma {:induction false} PowersApart(p: nat, q: nat)
    requires IsPowerOfTwo(p) && IsPowerOfTwo(q) && p < q
    ensures 2 * p <= q
  {
    if p == 1 {
    } else {
      PowersApart(p / 2, q / 2);
    }
  }

  predicate InRange(tokens: uint32, p: uint32) {
    p <= tokens && (p == 4096 || tokens < 2 * p)
  }

  /** The buckets are the half-open ranges between powers of two up to 4096, and
      everything from there on. */
  lemma BucketsAreRanges(tokens: uint32, p: uint32)
    requires IsPowerOfTwo(p) && p <= 4096
    ensures PromptBucket(tokens) == p <==> InRange(tokens, p)
  {
    if tokens > 0 {
      var b := TopBit(tokens);
      TopBitIsPower(tokens);
      assert IsPowerOfTwo(TOP_BUCKET);
      if b < p {
        PowersApart(b, p);
      } else if p < b {
        PowersApart(p, b);
      }
      if b < TOP_BUCKET {
        PowersApart(b, TOP_BUCKET);
      }
    }
  }

  /** Both prompts lie between the same two neighbouring powers of two, or both
      reach 4096. */
  ghost predicate SameRange(a: uint32, b: uint32) {
    exists p: uint32 | IsPowerOfTwo(p) && p <= 4096 :: InRange(a, p) && InRange(b, p)
  }

  lemma SameBucketIff(a: uint32, b: uint32)
    requires a > 0 && b > 0
    ensures PromptBucket(a) == PromptBucket(b) <==> SameRange(a, b)
  {
    var q := PromptBucket(a);
    BucketIsPower(a);
    BucketsAreRanges(a, q);
    BucketsAreRanges(b, q);
    if SameRange(a, b) {
      var p: uint32 :| IsPowerOfTwo(p) && p <= 4096 && InRange(a, p) && InRange(b, p);
      BucketsAreRanges(a, p);
      BucketsAreRanges(b, p);
    }
  }

  lemma BucketIsPower(tokens: uint32)
    requires tokens > 0
    ensures IsPowerOfTwo(PromptBucket(tokens)) && PromptBucket(tokens) <= TOP_BUCKET
  {
    TopBitIsPower(tokens);
    assert IsPowerOfTwo(TOP_BUCKET);
  }

  // ----- the store

  function AverageAt(view: View, key: RouteKey): Estimator.Average {
    if key in view then view[key] else Estimator.EMPTY
  }

  function Updated(decay: real, view: View, key: RouteKey, tokens: uint32, now: nat): View {
    view[key := Estimator.Observed(decay, AverageAt(view, key), tokens, now)]
  }

  function AtLeastOne(n: uint32): uint32 {
    if n < 1 then 1 else n
  }

  /** Explicit `max_tokens`, then route history, then the default. */
  function Resolve(view: View, key: RouteKey, maxTokens: Option<uint32>): uint32 {
    match maxTokens
    case Some(mt) => AtLeastOne(mt)
    case None =>
      match Estimator.Rounded(AverageAt(view, key))
      case Some(e) => AtLeastOne(e)
      case None => DEFAULT_OUTPUT_ESTIMATE
  }

  class RouteHistograms {
    const decay: real
    var inner: map<RouteKey, Estimator.DecayingQuantile>

    /** No two routes share an estimator. */
    ghost predicate Valid()
      reads this, inner.Values
    {
      && (forall k | k in inner :: inner[k].decay == decay)
      && forall j, k | j in inner && k in inner && j != k :: inner[j] != inner[k]
    }

    ghost function Contents(): View
      reads this, inner.Values
    {
      map k | k in inner :: inner[k].State()
    }

    constructor (decay: real)
      ensures Valid() && Contents() == map[] && this.decay == decay
    {
      this.decay := decay;
      inner := map[];
    }

    method Estimate(key: RouteKey, maxTokens: Option<uint32>) returns (tokens: uint32)
      ensures tokens == Resolve(Contents(), key, maxTokens)
    {
      if maxTokens.Some? {
        return AtLeastOne(maxTokens.value);
      }
      if key in inner {
        var e := inner[key].Estimate();
        if e.Some? {
          return AtLeastOne(e.value);
        }
      }
      return DEFAULT_OUTPUT_ESTIMATE;
    }

    method Observe(key: RouteKey, tokens: uint32, now: nat)
      requires Valid()
      modifies this, inner.Values
      ensures Valid() && fresh(inner.Values - old(inner.Values))
      ensures Contents() == Updated(decay, old(Contents()), key, tokens, now)
    {
      if key !in inner {
        var q := new Estimator.DecayingQuantile(decay);
        inner := inner[key := q];
      }
      inner[key].Observe(tokens, now);
    }
  }

  // ----- what the store guarantees

  /** The estimate used for admission and scoring is never zero. */
  lemma ResolvedIsPositive(view: View, key: RouteKey, maxTokens: Option<uint32>)
    ensures Resolve(view, key, maxTokens) >= 1
  {
  }

  /** A call of `observe` on some route. */
  datatype Feed = Feed(key: RouteKey, obs: Estimator.Observation)

  function FeedAll(decay: real, feeds: seq<Feed>): View {
    if feeds == [] then map[]
    else
      var last := feeds[|feeds| - 1];
      Updated(decay, FeedAll(decay, feeds[..|feeds| - 1]), last.key, last.obs.value, last.obs.at)
  }

  /** The store after a response body fed its route the completion counts from
      the `from`-th on; `clock` gives the reading taken at each update. */
  function FedFrom(decay: real, view: View, key: RouteKey, counts: seq<uint32>, clock: nat -> nat, from: nat): View
    requires from <= |counts|
  {
    if |counts| == from then view
    else
      var n := |counts| - 1;
      Updated(decay, FedFrom(decay, view, key, counts[..n], clock, from), key, counts[n], clock(n))
  }

  lemma FedOneMore(decay: real, view: View, key: RouteKey, counts: seq<uint32>, tokens: uint32, clock: nat -> nat)
    ensures FedFrom(decay, view, key, counts + [tokens], clock, |counts|)
            == Updated(decay, view, key, tokens, clock(|counts|))
  {
    hide Updated;
    assert (counts + [tokens])[..|counts|] == counts;
  }

  lemma {:induction false} FedInTwoParts(decay: real, view: View, key: RouteKey, first: seq<uint32>, all: seq<uint32>,
                                         clock: nat -> nat, from: nat)
    requires from <= |first| && first <= all
    ensures FedFrom(decay, view, key, all, clock, from)
            == FedFrom(decay, FedFrom(decay, view, key, first, clock, from), key, all, clock, |first|)
    decreases |all|
  {
    if |all| == |first| {
      assert all == first;
    } else {
      FedInTwoParts(decay, view, key, first, all[..|all| - 1], clock, from);
    }
  }

  /** The same updates, as calls on the store. */
  function AsFeeds(key: RouteKey, counts: seq<uint32>, clock: nat -> nat): (r: seq<Feed>)
    ensures |r| == |counts|
  {
    seq(|counts|, i requires 0 <= i < |counts| => Feed(key, Estimator.Observation(counts[i], clock(i))))
  }

  /** A response adds its completion counts to whatever history the store holds:
      the laws of the store carry on over it. */
  lemma {:induction false} ResponseExtendsHistory(decay: real, feeds: seq<Feed>, key: RouteKey, counts: seq<uint32>,
                                                  clock: nat -> nat)
    ensures FedFrom(decay, FeedAll(decay, feeds), key, counts, clock, 0)
            == FeedAll(decay, feeds + AsFeeds(key, counts, clock))
  {
    hide Updated;
    if counts == [] {
      assert feeds + AsFeeds(key, counts, clock) == feeds;
    } else {
      var before := counts[..|counts| - 1];
      ResponseExtendsHistory(decay, feeds, key, before, clock);
      var all := feeds + AsFeeds(key, counts, clock);
      assert all[..|all| - 1] == feeds + AsFeeds(key, before, clock);
    }
  }

  function Of(feeds: seq<Feed>, key: RouteKey): seq<Estimator.Observation> {
    if feeds == [] then []
    else
      var rest := Of(feeds[..|feeds| - 1], key);
      if feeds[|feeds| - 1].key == key then rest + [feeds[|feeds| - 1].obs] else rest
  }

  /** Routes are independent: each holds exactly the average of its own
      observations, however they interleave with the others'. */
  lemma {:induction false} RoutesAreIndependent(decay: real, feeds: seq<Feed>, key: RouteKey)
    ensures AverageAt(FeedAll(decay, feeds), key) == Estimator.ObservedAll(decay, Of(feeds, key))
  {
    if feeds == [] {
    } else {
      var before := feeds[..|feeds| - 1];
      RoutesAreIndependent(decay, before, key);
      if feeds[|feeds| - 1].key == key {
        var obs := Of(feeds, key);
        assert obs[..|obs| - 1] == Of(before, key);
      }
    }
  }

  /** A response feeds its own route and no other: that route then holds the average
      of its history followed by the response's completion counts. */
  lemma ResponseFeedsItsRoute(decay: real, feeds: seq<Feed>, key: RouteKey, counts: seq<uint32>, clock: nat -> nat,
                              route: RouteKey)
    ensures AverageAt(FedFrom(decay, FeedAll(decay, feeds), key, counts, clock, 0), route)
            == Estimator.ObservedAll(decay, Of(feeds, route) + (if route == key then Timed(counts, clock) else []))
  {
    ResponseExtendsHistory(decay, feeds, key, counts, clock);
    RoutesAreIndependent(decay, feeds + AsFeeds(key, counts, clock), route);
    OfResponse(feeds, key, counts, clock, route);
  }

  /** The same updates, as observations of one route. */
  function Timed(counts: seq<uint32>, clock: nat -> nat): (r: seq<Estimator.Observation>)
    ensures |r| == |counts|
  {
    seq(|counts|, i requires 0 <= i < |counts| => Estimator.Observation(counts[i], clock(i)))
  }

  lemma OneMoreFeed(key: RouteKey, counts: seq<uint32>, clock: nat -> nat)
    requires counts != []
    ensures var n := |counts| - 1;
            var obs := Estimator.Observation(counts[n], clock(n));
            && AsFeeds(key, counts, clock) == AsFeeds(key, counts[..n], clock) + [Feed(key, obs)]
            && Timed(counts, clock) == Timed(counts[..n], clock) + [obs]
  {
  }

  lemma OfOneMore(feeds: seq<Feed>, f: Feed, route: RouteKey)
    ensures Of(feeds + [f], route) == Of(feeds, route) + (if f.key == route then [f.obs] else [])
  {
    assert (feeds + [f])[..|feeds|] == feeds;
  }

  lemma {:induction false} OfResponse(feeds: seq<Feed>, key: RouteKey, counts: seq<uint32>, clock: nat -> nat,
                                      route: RouteKey)
    ensures Of(feeds + AsFeeds(key, counts, clock), route)
            == Of(feeds, route) + (if route == key then Timed(counts, clock) else [])
  {
    if counts == [] {
      assert feeds + AsFeeds(key, counts, clock) == feeds;
    } else {
      var before := counts[..|counts| - 1];
      OfResponse(feeds, key, before, clock, route);
      OneMoreFeed(key, counts, clock);
      var last := AsFeeds(key, counts, clock)[|before|];
      hide AsFeeds, Timed;
      assert feeds + AsFeeds(key, counts, clock) == (feeds + AsFeeds(key, before, clock)) + [last];
      OfOneMore(feeds + AsFeeds(key, before, clock), last, route);
    }
  }

  /** Without a limit a request gets the mean of its route's history, rounded to the
      nearest whole number and at least one. */
  lemma ResolvedIsRoundedMean(decay: real, feeds: seq<Feed>, key: RouteKey)
    requires 0.0 < decay <= 1.0 && Of(feeds, key) != []
    ensures var hist, e := Of(feeds, key), Resolve(FeedAll(decay, feeds), key, None);
            var mean := Estimator.WeightedSum(decay, hist, |hist|);
            && (mean < 0.5 ==> e == 1)
            && (mean >= 0.5 ==> e as real - 0.5 <= mean < e as real + 0.5)
  {
    var hist := Of(feeds, key);
    var mean := Estimator.WeightedSum(decay, hist, |hist|);
    hide Estimator.WeightedSum, Estimator.Round;
    RoutesAreIndependent(decay, feeds, key);
    Estimator.ClosedForm(decay, hist);
    MeanWithinWidth(decay, hist);
    Estimator.RoundIsNearest(mean);
  }

  lemma MeanWithinWidth(decay: real, hist: seq<Estimator.Observation>)
    requires 0.0 < decay <= 1.0 && hist != []
    ensures 0.0 <= Estimator.WeightedSum(decay, hist, |hist|) <= (U32_MOD - 1) as real
  {
    Estimator.ClosedForm(decay, hist);
    Estimator.EstimateWithinObserved(decay, hist, 0, U32_MOD - 1);
  }

  /** With history on its route and no explicit limit, a request is given an
      estimate between the least and the greatest length seen on that route. */
  lemma ResolvedWithinHistory(decay: real, feeds: seq<Feed>, key: RouteKey, lo: uint32, hi: uint32)
    requires 0.0 < decay <= 1.0 && 1 <= lo
    requires Of(feeds, key) != []
    requires forall i | 0 <= i < |feeds| && feeds[i].key == key :: lo <= feeds[i].obs.value <= hi
    ensures lo <= Resolve(FeedAll(decay, feeds), key, None) <= hi
  {
    OfIsWithin(feeds, key, lo, hi);
    RoutesAreIndependent(decay, feeds, key);
    Estimator.EstimateWithinObserved(decay, Of(feeds, key), lo, hi);
  }

  /** A route nobody has fed gets the default, whatever the other routes saw. */
  lemma UnseenRouteGetsDefault(decay: real, feeds: seq<Feed>, key: RouteKey)
    requires Of(feeds, key) == []
    ensures Resolve(FeedAll(decay, feeds), key, None) == DEFAULT_OUTPUT_ESTIMATE
  {
    RoutesAreIndependent(decay, feeds, key);
  }

  lemma {:induction false} OfIsWithin(feeds: seq<Feed>, key: RouteKey, lo: uint32, hi: uint32)
    requires forall i | 0 <= i < |feeds| && feeds[i].key == key :: lo <= feeds[i].obs.value <= hi
    ensures forall i | 0 <= i < |Of(feeds, key)| :: lo <= Of(feeds, key)[i].value <= hi
  {
    if feeds == [] {
    } else {
      OfIsWithin(feeds[..|feeds| - 1], key, lo, hi);
    }
  }
}
