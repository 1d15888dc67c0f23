/** The scan shared by the scoring strategies: walk a pool of backend ids, keep
    the smallest key seen and the ids that reach it. */
module Selection {

  ghost predicate Indexes(pool: seq<nat>, keys: seq<real>) {
    forall i | 0 <= i < |pool| :: pool[i] < |keys|
  }

  function MinKey(pool: seq<nat>, keys: seq<real>): (m: real)
    requires pool != [] && Indexes(pool, keys)
    ensures forall i | 0 <= i < |pool| :: m <= keys[pool[i]]
    ensures exists i | 0 <= i < |pool| :: m == keys[pool[i]]
  {
    var last := keys[pool[|pool| - 1]];
    if |pool| == 1 then last
    else
      var m := MinKey(pool[..|pool| - 1], keys);
      if last < m then last else m
  }

  /** The ids of `pool` whose key is `level`, in pool order. */
  function AtLevel(pool: seq<nat>, keys: seq<real>, level: real): (ids: seq<nat>)
    requires Indexes(pool, keys)
    ensures forall id :: id in ids <==> id in pool && keys[id] == level
  {
    if pool == [] then []
    else
      var rest := AtLevel(pool[..|pool| - 1], keys, level);
      var last := pool[|pool| - 1];
      assert pool == pool[..|pool| - 1] + [last];
      if keys[last] == level then rest + [last] else rest
  }

  function TieList(pool: seq<nat>, keys: seq<real>): seq<nat>
    requires Indexes(pool, keys)
  {
    if pool == [] then [] else AtLevel(pool, keys, MinKey(pool, keys))
  }

  lemma NoTies(keys: seq<real>)
    ensures TieList([], keys) == []
  {
  }

  /** One step of the scan, for each of its three branches. */
  lemma ScanStep(pool: seq<nat>, keys: seq<real>, i: nat)
    requires Indexes(pool, keys) && i < |pool|
    ensures Indexes(pool[..i], keys) && Indexes(pool[..i + 1], keys)
    ensures var id := pool[i];
            TieList(pool[..i + 1], keys) ==
            if i == 0 || keys[id] < MinKey(pool[..i], keys) then [id]
            else if keys[id] == MinKey(pool[..i], keys) then TieList(pool[..i], keys) + [id]
            else TieList(pool[..i], keys)
    ensures MinKey(pool[..i + 1], keys) ==
            if i == 0 || keys[pool[i]] < MinKey(pool[..i], keys) then keys[pool[i]] else MinKey(pool[..i], keys)
  {
    MinKeyStep(pool, keys, i);
    AtLevelStep(pool, keys, i, MinKey(pool[..i + 1], keys));
    if i == 0 || keys[pool[i]] < MinKey(pool[..i], keys) {
      NoneBelow(pool[..i], keys, keys[pool[i]]);
    }
  }

  lemma MinKeyStep(pool: seq<nat>, keys: seq<real>, i: nat)
    requires Indexes(pool, keys) && i < |pool|
    ensures MinKey(pool[..i + 1], keys) ==
            if i == 0 || keys[pool[i]] < MinKey(pool[..i], keys) then keys[pool[i]] else MinKey(pool[..i], keys)
  {
    var now := pool[..i + 1];
    assert now[..|now| - 1] == pool[..i];
  }

  lemma AtLevelStep(pool: seq<nat>, keys: seq<real>, i: nat, level: real)
    requires Indexes(pool, keys) && i < |pool|
    ensures AtLevel(pool[..i + 1], keys, level) ==
            AtLevel(pool[..i], keys, level) + (if keys[pool[i]] == level then [pool[i]] else [])
  {
    var now := pool[..i + 1];
    assert now[..|now| - 1] == pool[..i];
  }

  lemma NoneBelow(pool: seq<nat>, keys: seq<real>, level: real)
    requires Indexes(pool, keys)
    requires forall i | 0 <= i < |pool| :: level < keys[pool[i]]
    ensures AtLevel(pool, keys, level) == []
  {
  }

  /** The tie list holds exactly the pool members that no pool member beats,
      each as often as the pool does, and it is empty only for an empty pool. */
  lemma TieListIsArgmin(pool: seq<nat>, keys: seq<real>, id: nat)
    requires Indexes(pool, keys)
    ensures id in TieList(pool, keys) <==> id in pool && forall j | j in pool :: keys[id] <= keys[j]
    ensures multiset(TieList(pool, keys))[id] == if id in TieList(pool, keys) then multiset(pool)[id] else 0
    ensures TieList(pool, keys) == [] <==> pool == []
  {
    if pool != [] {
      var m := MinKey(pool, keys);
      var i :| 0 <= i < |pool| && m == keys[pool[i]];
      assert pool[i] in AtLevel(pool, keys, m);
      Multiplicity(pool, keys, m, id);
      if id in pool && forall j | j in pool :: keys[id] <= keys[j] {
        assert keys[id] <= keys[pool[i]];
      }
    }
  }

  lemma {:induction false} Multiplicity(pool: seq<nat>, keys: seq<real>, level: real, id: nat)
    requires Indexes(pool, keys)
    ensures id in pool && keys[id] == level ==> multiset(AtLevel(pool, keys, level))[id] == multiset(pool)[id]
  {
    if pool == [] {
    } else {
      var rest, last := pool[..|pool| - 1], pool[|pool| - 1];
      assert pool == rest + [last];
      Multiplicity(rest, keys, level, id);
    }
  }

  /** The tie list keeps the order of the pool: a concatenated pool is scanned
      left to right. */
  lemma {:induction false} AtLevelConcat(a: seq<nat>, b: seq<nat>, keys: seq<real>, level: real)
    requires Indexes(a + b, keys)
    ensures Indexes(a, keys) && Indexes(b, keys)
    ensures AtLevel(a + b, keys, level) == AtLevel(a, keys, level) + AtLevel(b, keys, level)
  {
    assert Indexes(a, keys) by {
      forall i | 0 <= i < |a| ensures a[i] < |keys| { assert (a + b)[i] == a[i]; }
    }
    assert Indexes(b, keys) by {
      forall i | 0 <= i < |b| ensures b[i] < |keys| { assert (a + b)[|a| + i] == b[i]; }
    }
    if b == [] {
      assert a + b == a;
    } else {
      var init := b[..|b| - 1];
      assert (a + b)[..|a + b| - 1] == a + init;
      AtLevelConcat(a, init, keys, level);
    }
  }

  /** Where the tie list puts pool entry `i`: after every tied entry before it. */
  function Rank(pool: seq<nat>, keys: seq<real>, i: nat): nat
    requires Indexes(pool, keys) && i < |pool|
  {
    |AtLevel(pool[..i], keys, MinKey(pool, keys))|
  }

  /** The tie list lists the minimal entries in pool order: each stands at its
      rank, and a later entry has a larger rank. A draw index therefore means the
      same entry to every router that builds the same pool. */
  lemma TieListKeepsOrder(pool: seq<nat>, keys: seq<real>, i: nat, j: nat)
    requires Indexes(pool, keys) && i < j < |pool|
    requires keys[pool[i]] == MinKey(pool, keys) == keys[pool[j]]
    ensures Rank(pool, keys, i) < Rank(pool, keys, j) < |TieList(pool, keys)|
    ensures TieList(pool, keys)[Rank(pool, keys, i)] == pool[i]
    ensures TieList(pool, keys)[Rank(pool, keys, j)] == pool[j]
  {
    hide AtLevel, MinKey, TieList;
    StandsAtRank(pool, keys, i);
    StandsAtRank(pool, keys, j);
    assert pool[..j] == pool[..i] + pool[i..j];
    AtLevelConcat(pool[..i], pool[i..j], keys, MinKey(pool, keys));
    assert pool[i..j][0] == pool[i];
    assert pool[i] in AtLevel(pool[i..j], keys, MinKey(pool, keys));
  }

  lemma StandsAtRank(pool: seq<nat>, keys: seq<real>, i: nat)
    requires Indexes(pool, keys) && i < |pool| && keys[pool[i]] == MinKey(pool, keys)
    ensures Rank(pool, keys, i) < |TieList(pool, keys)|
    ensures TieList(pool, keys)[Rank(pool, keys, i)] == pool[i]
  {
    hide AtLevel, MinKey;
    var level := MinKey(pool, keys);
    var upTo, after := pool[..i + 1], pool[i + 1..];
    assert pool == upTo + after;
    AtLevelConcat(upTo, after, keys, level);
    AtLevelStep(pool, keys, i, level);
  }

  ghost predicate SameOrder(pool: seq<nat>, k1: seq<real>, k2: seq<real>)
    requires Indexes(pool, k1) && Indexes(pool, k2)
  {
    forall i, j | i in pool && j in pool :: k1[i] < k1[j] <==> k2[i] < k2[j]
  }

  /** Only the order of the keys matters to the tie list. */
  lemma SameOrderSameTies(pool: seq<nat>, k1: seq<real>, k2: seq<real>)
    requires Indexes(pool, k1) && Indexes(pool, k2) && SameOrder(pool, k1, k2)
    ensures TieList(pool, k1) == TieList(pool, k2)
  {
    if pool != [] {
      var m1, m2 := MinKey(pool, k1), MinKey(pool, k2);
      forall id | id in pool
        ensures k1[id] == m1 <==> k2[id] == m2
      {
        var i :| 0 <= i < |pool| && m1 == k1[pool[i]];
        var j :| 0 <= j < |pool| && m2 == k2[pool[j]];
        assert !(k1[id] < k1[pool[i]]) && !(k2[id] < k2[pool[j]]);
        assert !(k1[pool[j]] < k1[pool[i]]) && !(k2[pool[i]] < k2[pool[j]]);
      }
      SameLevels(pool, k1, k2, m1, m2);
    }
  }

  lemma {:induction false} SameLevels(pool: seq<nat>, k1: seq<real>, k2: seq<real>, m1: real, m2: real)
    requires Indexes(pool, k1) && Indexes(pool, k2)
    requires forall id | id in pool :: k1[id] == m1 <==> k2[id] == m2
    ensures AtLevel(pool, k1, m1) == AtLevel(pool, k2, m2)
  {
    if pool == [] {
    } else {
      var rest := pool[..|pool| - 1];
      assert pool == rest + [pool[|pool| - 1]];
      SameLevels(rest, k1, k2, m1, m2);
    }
  }
}
