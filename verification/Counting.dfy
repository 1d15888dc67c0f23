/** The request-counting strategies: fewest requests in flight, and round robin. */
module CountingStrategies {
  import opened Machine
  import opened Cost
  import opened Backends
  import opened Selection
  import opened PressureStrategy

  // ----- least requests

  function InflightKeys(loads: seq<Load>): (keys: seq<real>)
    ensures |keys| == |loads|
  {
    seq(|loads|, i requires 0 <= i < |loads| => loads[i].inflight as real)
  }

  lemma KeyOf(loads: seq<Load>, id: nat)
    requires id < |loads|
    ensures InflightKeys(loads)[id] == loads[id].inflight as real
  {
  }

  method ScanFewest(snap: Snapshot) returns (ties: seq<nat>)
    requires snap.Valid()
    ensures ties == TieList(snap.healthy, InflightKeys(snap.Loads()))
  {
    hide TieList, MinKey, InflightKeys;
    var healthy := snap.healthy;
    NoTies(InflightKeys(snap.Loads()));
    ghost var keys := InflightKeys(snap.Loads());
    var min: uint32 := U32_MOD - 1;
    ties := [];
    for i := 0 to |healthy|
      invariant ties == TieList(healthy[..i], keys)
      invariant i == 0 ==> min == U32_MOD - 1
      invariant i > 0 ==> min as real == MinKey(healthy[..i], keys)
    {
      var id := healthy[i];
      var n := snap.backends[id].inflight;
      KeyOf(snap.Loads(), id);
      ScanStep(healthy, keys, i);
      if n < min {
        min := n;
        ties := [id];
      } else if n == min {
        ties := ties + [id];
      }
    }
    assert healthy[..|healthy|] == healthy;
  }

  method LeastRequestsPick(snap: Snapshot, draw: nat) returns (picked: Option<nat>)
    requires snap.Valid()
    ensures picked == None <==> snap.healthy == []
    ensures picked != None ==>
            var ties := TieList(snap.healthy, InflightKeys(snap.Loads()));
            ties != [] && picked.value == DrawFrom(ties, draw)
  {
    if snap.healthy == [] {
      return None;
    }
    var ties := ScanFewest(snap);
    TieListIsArgmin(snap.healthy, InflightKeys(snap.Loads()), 0);
    picked := Some(DrawFrom(ties, draw));
  }

  // ----- round robin

  const USIZE_MOD := 0x1_0000_0000_0000_0000

  class RoundRobin {
    var next: nat

    ghost predicate Valid()
      reads this
    {
      next < USIZE_MOD
    }

    constructor ()
      ensures Valid() && next == 0
    {
      next := 0;
    }

    method Pick(snap: Snapshot) returns (picked: Option<nat>)
      requires Valid()
      modifies this
      ensures Valid()
      ensures snap.healthy == [] ==> picked == None && next == old(next)
      ensures snap.healthy != [] ==>
              && picked == Some(snap.healthy[old(next) % |snap.healthy|])
              && next == (old(next) + 1) % USIZE_MOD
    {
      if snap.healthy == [] {
        return None;
      }
      var i := next % |snap.healthy|;
      next := (next + 1) % USIZE_MOD;
      picked := Some(snap.healthy[i]);
    }
  }

  /** How often position `i` of a healthy list of length `n` is picked by the
      `len` picks that start with the counter at `start`, counter wrap included. */
  function Hits(start: nat, len: nat, n: nat, i: nat): nat
    requires n > 0
  {
    if len == 0 then 0
    else Hits(start, len - 1, n, i) + (if (start + len - 1) % USIZE_MOD % n == i then 1 else 0)
  }

  /** Hits among the counter values below `x`: one per full round, and one more
      if the last, partial round already reached `i`. */
  function HitsBelow(x: nat, n: nat, i: nat): int
    requires n > 0
  {
    x / n + (if i < x % n then 1 else 0)
  }

  lemma {:induction false} HitsInWindow(start: nat, len: nat, n: nat, i: nat)
    requires 0 <= i < n && (start + len <= USIZE_MOD || USIZE_MOD % n == 0)
    ensures Hits(start, len, n, i) == HitsBelow(start + len, n, i) - HitsBelow(start, n, i)
  {
    if len == 0 {
    } else {
      hide HitsBelow;
      HitsInWindow(start, len - 1, n, i);
      OneMoreBelow(start + len - 1, n, i);
    }
  }

  lemma OneMoreBelow(x: nat, n: nat, i: nat)
    requires 0 <= i < n && (x < USIZE_MOD || USIZE_MOD % n == 0)
    ensures HitsBelow(x + 1, n, i) == HitsBelow(x, n, i) + (if x % USIZE_MOD % n == i then 1 else 0)
  {
    NextCount(x, n);
    if x < USIZE_MOD {
      DivideUnique(x, USIZE_MOD, 0, x);
    } else {
      ResidueOfWrapped(x, n);
    }
  }

  lemma NextCount(x: nat, n: nat)
    requires n > 0
    ensures x % n + 1 < n ==> (x + 1) / n == x / n && (x + 1) % n == x % n + 1
    ensures x % n + 1 == n ==> (x + 1) / n == x / n + 1 && (x + 1) % n == 0
  {
    if x % n + 1 < n {
      DivideUnique(x + 1, n, x / n, x % n + 1);
    } else {
      assert (x / n + 1) * n == x / n * n + n;
      DivideUnique(x + 1, n, x / n + 1, 0);
    }
  }

  lemma DivideUnique(x: int, n: int, q: int, r: int)
    requires 0 <= r < n && x == q * n + r
    ensures x / n == q && x % n == r
  {
    var p := x / n;
    assert x == p * n + x % n;
    assert (p - q) * n == r - x % n;
    assert (q - p) * n == x % n - r;
    if p > q {
      MulAtLeast(p - q, n);
      assert false;
    } else if p < q {
      MulAtLeast(q - p, n);
      assert false;
    }
  }

  lemma ResidueOfWrapped(x: nat, n: nat)
    requires n > 0 && USIZE_MOD % n == 0
    ensures x % USIZE_MOD % n == x % n
  {
    var k, rest := x / USIZE_MOD, x % USIZE_MOD;
    var per := USIZE_MOD / n;
    assert USIZE_MOD == per * n;
    assert x == k * USIZE_MOD + rest;
    assert x == (k * per + rest / n) * n + rest % n by {
      assert k * (per * n) == k * per * n;
    }
    DivideUnique(x, n, k * per + rest / n, rest % n);
  }

  /** Whole rounds hit every backend equally. */
  lemma WholeRoundsAreEven(start: nat, rounds: nat, n: nat, i: nat)
    requires n > 0
    requires i < n && (start + rounds * n <= USIZE_MOD || USIZE_MOD % n == 0)
    ensures Hits(start, rounds * n, n, i) == rounds
  {
    ShiftRounds(start, rounds, rounds * n, n);
    HitsInWindow(start, rounds * n, n, i);
  }

  lemma ShiftRounds(start: nat, rounds: nat, len: nat, n: nat)
    requires n > 0 && len == rounds * n
    ensures (start + len) / n == start / n + rounds && (start + len) % n == start % n
  {
    var q := start / n;
    assert (q + rounds) * n == q * n + rounds * n;
    DivideUnique(start + len, n, q + rounds, start % n);
  }

  ghost predicate FairWindow(start: nat, len: nat, n: nat)
    requires n > 0
  {
    forall i, j | 0 <= i < n && 0 <= j < n :: Hits(start, len, n, i) <= Hits(start, len, n, j) + 1
  }

  /** In every window of picks the counts of any two backends differ by at most
      one, as long as the counter does not wrap inside the window. */
  lemma RoundRobinIsFair(start: nat, len: nat, n: nat)
    requires n > 0 && (start + len <= USIZE_MOD || USIZE_MOD % n == 0)
    ensures FairWindow(start, len, n)
  {
    forall i, j | 0 <= i < n && 0 <= j < n
      ensures Hits(start, len, n, i) <= Hits(start, len, n, j) + 1
    {
      HitsInWindow(start, len, n, i);
      HitsInWindow(start, len, n, j);
    }
  }

  // ----- a run of picks

  /** `len` picks in a row over one snapshot. Every healthy backend is picked as
      often as the counter values of the window hit its position, so the laws
      above are laws of the picks. */
  method PickWindow(rr: RoundRobin, snap: Snapshot, len: nat) returns (picks: seq<nat>)
    requires rr.Valid() && snap.healthy != []
    requires forall i, j | 0 <= i < j < |snap.healthy| :: snap.healthy[i] != snap.healthy[j]
    modifies rr
    ensures rr.Valid() && |picks| == len
    ensures forall i | 0 <= i < |snap.healthy| ::
              multiset(picks)[snap.healthy[i]] == Hits(old(rr.next), len, |snap.healthy|, i)
    ensures old(rr.next) + len <= USIZE_MOD || USIZE_MOD % |snap.healthy| == 0 ==>
              forall i, j | 0 <= i < |snap.healthy| && 0 <= j < |snap.healthy| ::
                multiset(picks)[snap.healthy[i]] <= multiset(picks)[snap.healthy[j]] + 1
  {
    hide Hits, FairWindow;
    picks := [];
    NoHits(rr.next, |snap.healthy|);
    ghost var n, start := |snap.healthy|, rr.next;
    for k := 0 to len
      invariant |picks| == k && rr.next == (start + k) % USIZE_MOD
      invariant forall i | 0 <= i < n :: multiset(picks)[snap.healthy[i]] == Hits(start, k, n, i)
    {
      var picked := rr.Pick(snap);
      picks := picks + [picked.value];
      NextValue(start + k);
      OneMoreHit(start, k, n);
    }
    if start + len <= USIZE_MOD || USIZE_MOD % n == 0 {
      forall i, j | 0 <= i < n && 0 <= j < n
        ensures Hits(start, len, n, i) <= Hits(start, len, n, j) + 1
      {
        FairPair(start, len, n, i, j);
      }
    }
  }

  lemma FairPair(start: nat, len: nat, n: nat, i: nat, j: nat)
    requires i < n && j < n && (start + len <= USIZE_MOD || USIZE_MOD % n == 0)
    ensures Hits(start, len, n, i) <= Hits(start, len, n, j) + 1
  {
    RoundRobinIsFair(start, len, n);
  }

  lemma NoHits(start: nat, n: nat)
    requires n > 0
    ensures forall i: nat :: Hits(start, 0, n, i) == 0
  {
  }

  lemma OneMoreHit(start: nat, len: nat, n: nat)
    requires n > 0
    ensures forall i: nat ::
              Hits(start, len + 1, n, i)
              == Hits(start, len, n, i) + (if (start + len) % USIZE_MOD % n == i then 1 else 0)
  {
  }

  lemma NextValue(x: nat)
    ensures (x % USIZE_MOD + 1) % USIZE_MOD == (x + 1) % USIZE_MOD
  {
  }

  /** Across a counter wrap fairness survives exactly when the number of healthy
      backends divides the range of the counter. */
  lemma FairAcrossWrapIff(n: nat)
    requires 0 < n < USIZE_MOD
    ensures (forall start, len :: FairWindow(start, len, n)) <==> USIZE_MOD % n == 0
  {
    if USIZE_MOD % n == 0 {
      forall start: nat, len: nat ensures FairWindow(start, len, n) {
        RoundRobinIsFair(start, len, n);
      }
    } else {
      var r, q := USIZE_MOD % n, USIZE_MOD / n;
      WindowAcrossWrap(n, r, q, 0);
      WindowAcrossWrap(n, r, q, r);
      assert !FairWindow(USIZE_MOD - r, 2 * r, n);
    }
  }

  /** The last partial round before the wrap and the first one after it serve
      the same backends. */
  lemma WindowAcrossWrap(n: nat, r: nat, q: nat, i: nat)
    requires 0 < r < n < USIZE_MOD && USIZE_MOD == q * n + r && i < n
    ensures Hits(USIZE_MOD - r, 2 * r, n, i) == if i < r then 2 else 0
  {
    var start: nat := USIZE_MOD - r;
    HitsConcat(start, r, r, n, i);
    HitsInWindow(start, r, n, i);
    HitsAfterWrap(r, n, i);
    HitsInWindow(0, r, n, i);
    DivideUnique(start, n, q, 0);
    DivideUnique(USIZE_MOD, n, q, r);
    DivideUnique(r, n, 0, r);
    DivideUnique(0, n, 0, 0);
  }

  lemma {:induction false} HitsConcat(start: nat, a: nat, b: nat, n: nat, i: nat)
    requires n > 0
    ensures Hits(start, a + b, n, i) == Hits(start, a, n, i) + Hits(start + a, b, n, i)
  {
    if b == 0 {
    } else {
      HitsConcat(start, a, b - 1, n, i);
    }
  }

  lemma {:induction false} HitsAfterWrap(len: nat, n: nat, i: nat)
    requires n > 0 && len <= USIZE_MOD
    ensures Hits(USIZE_MOD, len, n, i) == Hits(0, len, n, i)
  {
    if len == 0 {
    } else {
      HitsAfterWrap(len - 1, n, i);
    }
  }
}
