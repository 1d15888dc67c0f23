/** The admission gate: a filter that never refuses a request by itself. */
module Gate {
  import opened Machine
  import opened Cost
  import opened Backends

  function Ceiling(caps: Caps, sigma: real): int {
    Trunc(sigma * caps.kvCapacityTokens as real)
  }

  predicate KvFits(l: Load, needKv: int, sigma: real) {
    l.kvProjected + needKv <= Ceiling(l.caps, sigma)
  }

  predicate SlotFree(l: Load) {
    l.inflight < l.caps.maxNumSeqs
  }

  predicate Admits(l: Load, needKv: int, sigma: real) {
    KvFits(l, needKv, sigma) && SlotFree(l)
  }

  /** The ids whose backend passes the gate, in order. */
  function EligibleIds(ids: seq<nat>, loads: seq<Load>, needKv: int, sigma: real): (out: seq<nat>)
    requires ValidIds(ids, loads)
    ensures forall id :: id in out <==> id in ids && Admits(loads[id], needKv, sigma)
    ensures (forall id | id in ids :: Admits(loads[id], needKv, sigma)) ==> out == ids
  {
    if ids == [] then []
    else
      var rest := EligibleIds(ids[..|ids| - 1], loads, needKv, sigma);
      var last := ids[|ids| - 1];
      assert ids == ids[..|ids| - 1] + [last];
      if Admits(loads[last], needKv, sigma) then rest + [last] else rest
  }

  method Eligible(snap: Snapshot, needKv: int, sigma: real) returns (out: seq<nat>)
    requires snap.Valid()
    ensures out == EligibleIds(snap.healthy, snap.Loads(), needKv, sigma)
  {
    out := [];
    ghost var loads := snap.Loads();
    for i := 0 to |snap.healthy|
      invariant out == EligibleIds(snap.healthy[..i], loads, needKv, sigma)
    {
      var id := snap.healthy[i];
      var b := snap.backends[id];
      assert snap.healthy[..i + 1][..i] == snap.healthy[..i];
      if Admits(b.Reading(), needKv, sigma) {
        out := out + [id];
      }
    }
    assert snap.healthy[..|snap.healthy|] == snap.healthy;
  }

  /** The integer ceiling the router compares with admits exactly the token
      counts that the real product `sigma * capacity` does. A negative `sigma`,
      which config validation rejects, would break this: truncation would then
      round the ceiling up. */
  lemma CeilingIsExact(caps: Caps, sigma: real, tokens: int)
    requires sigma >= 0.0
    ensures tokens <= Ceiling(caps, sigma) <==> tokens as real <= sigma * caps.kvCapacityTokens as real
    ensures 0 <= Ceiling(caps, sigma)
    ensures sigma <= 1.0 ==> Ceiling(caps, sigma) <= caps.kvCapacityTokens
  {
    var product := CeilingOf(caps, sigma);
    hide Ceiling, Trunc;
    FloorOfProduct(caps.kvCapacityTokens as real, sigma, product, tokens);
    FloorOfProduct(caps.kvCapacityTokens as real, sigma, product, caps.kvCapacityTokens + 1);
  }

  lemma CeilingOf(caps: Caps, sigma: real) returns (product: real)
    ensures product == sigma * caps.kvCapacityTokens as real && Ceiling(caps, sigma) == Trunc(product)
  {
    product := sigma * caps.kvCapacityTokens as real;
  }

  lemma FloorOfProduct(cap: real, sigma: real, product: real, n: int)
    requires cap >= 0.0 && sigma >= 0.0 && product == sigma * cap
    ensures n <= Trunc(product) <==> n as real <= product
    ensures 0 <= Trunc(product)
    ensures sigma <= 1.0 ==> product <= cap
  {
    ShareOf(cap, sigma, product);
    FloorIsExact(product, n);
  }

  lemma ShareOf(cap: real, sigma: real, product: real)
    requires cap >= 0.0 && sigma >= 0.0 && product == sigma * cap
    ensures product >= 0.0
    ensures sigma <= 1.0 ==> product <= cap
  {
    NonNegativeProduct(sigma, cap, product);
    if sigma <= 1.0 {
      NonNegativeProduct(1.0 - sigma, cap, cap - product);
    }
  }

  lemma NonNegativeProduct(x: real, y: real, xy: real)
    requires x >= 0.0 && y >= 0.0 && xy == x * y
    ensures xy >= 0.0
  {
  }

  lemma FloorIsExact(x: real, n: int)
    requires x >= 0.0
    ensures n <= Trunc(x) <==> n as real <= x
    ensures 0 <= Trunc(x)
  {
  }
}
