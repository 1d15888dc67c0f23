/** Projection, occupancy and the pressure score. */
module Cost {
  import opened Machine

  const RECHARGE_STEP: uint32 := 50

  datatype KvModel = PromptOnly | PromptPlusOutput {
    function Project(promptTokens: uint32, oHat: uint32): (kv: nat)
      ensures 0 <= promptTokens <= kv < 2 * U32_MOD - 1
    {
      match this
      case PromptOnly => promptTokens
      case PromptPlusOutput => promptTokens + oHat
    }
  }

  /** Limits that config validation has checked to be positive. */
  datatype Caps = Caps(kvCapacityTokens: pos32, maxNumSeqs: pos32)

  /** One reading of a backend: its limits and its two live counters. */
  datatype Load = Load(caps: Caps, inflight: uint32, kvProjected: int64)

  function MaxInt(a: int, b: int): int {
    if a >= b then a else b
  }

  function MaxReal(a: real, b: real): real {
    if a >= b then a else b
  }

  function Occupancy(l: Load): (u: real)
    ensures u >= 0.0
  {
    var slots := l.inflight as real / l.caps.maxNumSeqs as real;
    var mem := MaxInt(l.kvProjected, 0) as real / l.caps.kvCapacityTokens as real;
    MaxReal(slots, mem)
  }

  function PressureScore(u: real, theta: real, penalty: real): real
    requires 0.0 < theta < 1.0
  {
    if u < theta then
      u
    else
      var over := (u - theta) / (1.0 - theta);
      u + penalty * over * over
  }

  // ----- shape of the score

  lemma DivideMono(x: real, y: real, d: real)
    requires d > 0.0 && x <= y
    ensures x / d <= y / d
    ensures x >= 0.0 ==> x / d >= 0.0
  {
    CancelScale(x / d, y / d, d);
    if x >= 0.0 {
      CancelScale(0.0, x / d, d);
    }
  }

  lemma CancelScale(p: real, q: real, d: real)
    requires d > 0.0 && p * d <= q * d
    ensures p <= q
  {
    if p > q {
      MulMono(d, q, p);
      assert false;
    }
  }

  lemma DivideIsScale(k: real, x: real, d: real)
    requires d != 0.0
    ensures k * x / d == k * (x / d)
  {
    var p := x / d;
    assert p * d == x;
    assert k * x == (k * p) * d;
  }

  /** The excess over the knee, in units of the room above it. */
  function Over(u: real, theta: real): (o: real)
    requires 0.0 < theta < 1.0
    ensures o >= 0.0
  {
    if u < theta then
      0.0
    else
      DivideMono(0.0, u - theta, 1.0 - theta);
      (u - theta) / (1.0 - theta)
  }

  function OverSquared(u: real, theta: real): real
    requires 0.0 < theta < 1.0
  {
    Over(u, theta) * Over(u, theta)
  }

  lemma ScoreIsQuadratic(u: real, theta: real, penalty: real)
    requires 0.0 < theta < 1.0
    ensures PressureScore(u, theta, penalty) == u + penalty * OverSquared(u, theta)
  {
    var o := Over(u, theta);
    assert penalty * o * o == penalty * (o * o);
  }

  lemma MulMono(k: real, a: real, b: real)
    requires k >= 0.0 && a <= b
    ensures k * a <= k * b && a * k <= b * k
  {
  }

  lemma SquareMono(a: real, b: real)
    requires 0.0 <= a <= b
    ensures a * a <= b * b
  {
    MulMono(a, a, b);
    MulMono(b, a, b);
  }

  /** With a non-negative penalty the score orders backends exactly as raw
      occupancy does, whatever the knee. */
  lemma ScoreStrictlyIncreasing(u: real, v: real, theta: real, penalty: real)
    requires 0.0 < theta < 1.0 && penalty >= 0.0
    requires u < v
    ensures PressureScore(u, theta, penalty) < PressureScore(v, theta, penalty)
  {
    hide PressureScore, OverSquared;
    ScoreIsQuadratic(u, theta, penalty);
    ScoreIsQuadratic(v, theta, penalty);
    OverSquaredMono(u, v, theta);
    WeightedSum(u, v, penalty, OverSquared(u, theta), OverSquared(v, theta),
                PressureScore(u, theta, penalty), PressureScore(v, theta, penalty));
  }

  lemma WeightedSum(u: real, v: real, p: real, a: real, b: real, su: real, sv: real)
    requires u < v && p >= 0.0 && a <= b
    requires su == u + p * a && sv == v + p * b
    ensures su < sv
  {
    MulMono(p, a, b);
  }

  lemma OverSquaredMono(u: real, v: real, theta: real)
    requires 0.0 < theta < 1.0 && u < v
    ensures OverSquared(u, theta) <= OverSquared(v, theta)
  {
    if u >= theta {
      DivideMono(u - theta, v - theta, 1.0 - theta);
    }
    SquareMono(Over(u, theta), Over(v, theta));
  }

  /** Above the knee the score of `v` exceeds that of `u` exactly when the slope
      of the chord between them is positive. */
  lemma ChordSlope(u: real, v: real, theta: real, penalty: real)
    requires 0.0 < theta < 1.0 && theta <= u < v
    ensures PressureScore(u, theta, penalty) < PressureScore(v, theta, penalty) <==>
            (1.0 - theta) * (1.0 - theta) + penalty * (u + v - 2.0 * theta) > 0.0
  {
    hide PressureScore, Over;
    ScoreIsQuadratic(u, theta, penalty);
    ScoreIsQuadratic(v, theta, penalty);
    OverUnscales(u, theta);
    OverUnscales(v, theta);
    ChordSign(u, v, theta, 1.0 - theta, penalty, Over(u, theta), Over(v, theta),
              PressureScore(u, theta, penalty), PressureScore(v, theta, penalty));
  }

  lemma OverUnscales(u: real, theta: real)
    requires 0.0 < theta < 1.0 && theta <= u
    ensures u == theta + Over(u, theta) * (1.0 - theta)
  {
  }

  lemma ChordSign(u: real, v: real, theta: real, room: real, p: real, x: real, y: real, su: real, sv: real)
    requires room > 0.0 && u < v && u == theta + x * room && v == theta + y * room
    requires su == u + p * (x * x) && sv == v + p * (y * y)
    ensures su < sv <==> room * room + p * (u + v - 2.0 * theta) > 0.0
  {
    var slope := room + p * (x + y);
    ChordFactors(room, p, x, y);
    SumScales(room, p, x, y);
    assert v - u == room * (y - x);
    SignOfProduct(room, y - x);
    SignOfProduct(y - x, slope);
    SignOfProduct(room, slope);
  }

  lemma ChordFactors(room: real, p: real, x: real, y: real)
    ensures (y * room + p * (y * y)) - (x * room + p * (x * x)) == (y - x) * (room + p * (x + y))
  {
    assert (y - x) * (p * (x + y)) == p * ((y - x) * (x + y));
    assert (y - x) * (x + y) == y * y - x * x;
  }

  lemma SumScales(room: real, p: real, x: real, y: real)
    ensures room * (room + p * (x + y)) == room * room + p * (x * room + y * room)
  {
    assert room * (p * (x + y)) == p * (room * (x + y));
  }

  lemma SignOfProduct(k: real, x: real)
    requires k > 0.0
    ensures k * x > 0.0 <==> x > 0.0
  {
  }

  /** The largest value of a KV counter. */
  const TOP := I64_HALF - 1

  /** No reading lies strictly between the two fullest: only a capacity of one
      token reaches them. */
  lemma FullestReadings(l: Load)
    ensures Occupancy(l) <= (TOP - 1) as real || Occupancy(l) == TOP as real
    ensures Occupancy(Load(Caps(1, 1), 0, TOP)) == TOP as real
    ensures Occupancy(Load(Caps(1, 1), 0, TOP - 1)) == (TOP - 1) as real
  {
    var kv, cap := MaxInt(l.kvProjected, 0), l.caps.kvCapacityTokens;
    RatioAtMost(l.inflight, l.caps.maxNumSeqs, U32_MOD);
    if cap > 1 {
      RatioAtMost(kv, cap, TOP / 2 + 1);
    }
  }

  lemma RatioAtMost(x: nat, d: pos32, y: nat)
    requires x <= d * y
    ensures x as real / d as real <= y as real
  {
    CancelScale(x as real / d as real, y as real, d as real);
  }

  /** Config validation accepts a negative penalty, and then a fuller backend
      can score better. Exactly: the score orders any two readings of any two
      backends as their occupancies do, if and only if the chord between the two
      fullest readings still rises. Every non-negative penalty passes that test. */
  lemma ScoreOrdersReadingsIff(theta: real, penalty: real)
    requires 0.0 < theta < 1.0
    ensures (forall a: Load, b: Load :: Occupancy(a) < Occupancy(b) ==>
               PressureScore(Occupancy(a), theta, penalty) < PressureScore(Occupancy(b), theta, penalty))
            <==> TopChordRises(theta, penalty)
    ensures penalty >= 0.0 ==> TopChordRises(theta, penalty)
  {
    hide PressureScore, Occupancy;
    var a, b := Load(Caps(1, 1), 0, TOP - 1), Load(Caps(1, 1), 0, TOP);
    FullestReadings(a);
    if TopChordRises(theta, penalty) {
      forall a: Load, b: Load | Occupancy(a) < Occupancy(b)
        ensures PressureScore(Occupancy(a), theta, penalty) < PressureScore(Occupancy(b), theta, penalty)
      {
        FullestReadings(a);
        FullestReadings(b);
        if penalty >= 0.0 {
          ScoreStrictlyIncreasing(Occupancy(a), Occupancy(b), theta, penalty);
        } else {
          // The chord from the knee or above is no longer than the top one.
          var u, v := Occupancy(a), Occupancy(b);
          if v > theta {
            ShortChordRises(MaxReal(u, theta), v, theta, penalty);
            ChordSlope(MaxReal(u, theta), v, theta, penalty);
          } else {
            UpToKnee(v, theta, penalty);
          }
          if u <= theta {
            UpToKnee(u, theta, penalty);
            UpToKnee(theta, theta, penalty);
          }
        }
      }
    } else {
      ChordSlope((TOP - 1) as real, TOP as real, theta, penalty);
      assert Occupancy(a) < Occupancy(b);
    }
    if penalty >= 0.0 {
      RisesUnpenalised(1.0 - theta, penalty, 2.0 * TOP as real - 1.0 - 2.0 * theta);
    }
  }

  lemma RisesUnpenalised(room: real, p: real, width: real)
    requires room > 0.0 && p >= 0.0 && width >= 0.0
    ensures room * room + p * width > 0.0
  {
    MulPositive(room, room, room * room);
    MulMono(p, 0.0, width);
  }

  lemma MulPositive(x: real, y: real, xy: real)
    requires x > 0.0 && y > 0.0 && xy == x * y
    ensures xy > 0.0
  {
  }

  ghost predicate TopChordRises(theta: real, penalty: real) {
    (1.0 - theta) * (1.0 - theta) + penalty * (2.0 * TOP as real - 1.0 - 2.0 * theta) > 0.0
  }

  lemma ShortChordRises(u: real, v: real, theta: real, penalty: real)
    requires 0.0 < theta < 1.0 && penalty < 0.0 && TopChordRises(theta, penalty)
    requires u + v <= 2.0 * TOP as real - 1.0
    ensures (1.0 - theta) * (1.0 - theta) + penalty * (u + v - 2.0 * theta) > 0.0
  {
    MulMono(-penalty, u + v - 2.0 * theta, 2.0 * TOP as real - 1.0 - 2.0 * theta);
  }

  lemma UpToKnee(u: real, theta: real, penalty: real)
    requires 0.0 < theta < 1.0 && u <= theta
    ensures PressureScore(u, theta, penalty) == u
  {
    ScoreAtKnee(theta, penalty);
  }

  lemma ScoreAtKnee(theta: real, penalty: real)
    requires 0.0 < theta < 1.0
    ensures PressureScore(theta, theta, penalty) == theta
  {
    assert (theta - theta) / (1.0 - theta) == 0.0;
  }

  /** The point (b, y) lies on or below the line from (a, x) to (c, z). */
  ghost predicate BelowChord(a: real, b: real, c: real, x: real, y: real, z: real) {
    (c - a) * y <= (c - b) * x + (b - a) * z
  }

  /** Convexity across the knee, stated on three points. */
  lemma ScoreConvex(a: real, b: real, c: real, theta: real, penalty: real)
    requires 0.0 < theta < 1.0 && penalty >= 0.0
    requires a < b < c
    ensures BelowChord(a, b, c, PressureScore(a, theta, penalty), PressureScore(b, theta, penalty),
                       PressureScore(c, theta, penalty))
  {
    hide PressureScore, OverSquared;
    ScoreIsQuadratic(a, theta, penalty);
    ScoreIsQuadratic(b, theta, penalty);
    ScoreIsQuadratic(c, theta, penalty);
    OverSquaredConvex(a, b, c, theta);
    LineBelowChord(a, b, c, penalty, OverSquared(a, theta), OverSquared(b, theta), OverSquared(c, theta));
  }

  lemma OverSquaredConvex(a: real, b: real, c: real, theta: real)
    requires 0.0 < theta < 1.0 && a < b < c
    ensures BelowChord(a, b, c, OverSquared(a, theta), OverSquared(b, theta), OverSquared(c, theta))
  {
    hide Over;
    ExcessConvex(a, b, c, theta);
    SquareConvex(c - a, c - b, b - a, Over(a, theta), Over(b, theta), Over(c, theta));
  }

  lemma LineBelowChord(a: real, b: real, c: real, p: real, x: real, y: real, z: real)
    requires p >= 0.0 && BelowChord(a, b, c, x, y, z)
    ensures BelowChord(a, b, c, a + p * x, b + p * y, c + p * z)
  {
    ChordAlgebra(c - a, c - b, b - a, a, b, c, p, x, y, z);
  }

  lemma ExcessConvex(a: real, b: real, c: real, theta: real)
    requires 0.0 < theta < 1.0
    requires a < b < c
    ensures BelowChord(a, b, c, Over(a, theta), Over(b, theta), Over(c, theta))
  {
    ExcessOverlap(a, b, c, theta);
    OverIsExcess(a, theta);
    OverIsExcess(b, theta);
    OverIsExcess(c, theta);
    DivideChord(c - a, c - b, b - a, Excess(a, theta), Excess(b, theta), Excess(c, theta), 1.0 - theta);
  }

  lemma OverIsExcess(u: real, theta: real)
    requires 0.0 < theta < 1.0
    ensures Over(u, theta) == Excess(u, theta) / (1.0 - theta)
  {
    DivideIsScale(0.0, 1.0, 1.0 - theta);
  }

  lemma DivideChord(w: real, s: real, t: real, p: real, q: real, r: real, d: real)
    requires d > 0.0 && w * q <= s * p + t * r
    ensures w * (q / d) <= s * (p / d) + t * (r / d)
  {
    DivideMono(w * q, s * p + t * r, d);
    DivideIsScale(w, q, d);
    DivideIsScale(s, p, d);
    DivideIsScale(t, r, d);
    DivideSum(s * p, t * r, d);
  }

  function Excess(u: real, theta: real): real {
    if u < theta then 0.0 else u - theta
  }

  lemma ExcessOverlap(a: real, b: real, c: real, theta: real)
    requires a < b < c
    ensures BelowChord(a, b, c, Excess(a, theta), Excess(b, theta), Excess(c, theta))
  {
    MulMono(c - b, a - theta, Excess(a, theta));
    MulMono(c - b, 0.0, Excess(a, theta));
    MulMono(b - a, c - theta, Excess(c, theta));
    MulMono(b - a, 0.0, Excess(c, theta));
    assert (c - a) * (b - theta) == (c - b) * (a - theta) + (b - a) * (c - theta);
  }

  lemma DivideSum(x: real, y: real, d: real)
    requires d != 0.0
    ensures (x + y) / d == x / d + y / d
  {
    var p, q := x / d, y / d;
    assert p * d == x && q * d == y;
    assert (p + q) * d == x + y;
  }

  /** Squaring keeps a weighted-mean bound. */
  lemma SquareConvex(w: real, s: real, t: real, x: real, y: real, z: real)
    requires w == s + t && s > 0.0 && t > 0.0 && y >= 0.0
    requires w * y <= s * x + t * z
    ensures w * (y * y) <= s * (x * x) + t * (z * z)
  {
    // The gap is s*(x-y)^2 + t*(z-y)^2 + 2*y*(s*x + t*z - w*y).
    var p, q, gap := (x - y) * (x - y), (z - y) * (z - y), s * x + t * z - w * y;
    assert p >= 0.0 && q >= 0.0;
    MulMono(y, 0.0, gap);
    MulMono(s, 0.0, p);
    MulMono(t, 0.0, q);
    SquareGap(w, s, t, x, y, z, p, q, gap);
  }

  lemma SquareGap(w: real, s: real, t: real, x: real, y: real, z: real, p: real, q: real, gap: real)
    requires w == s + t && p == (x - y) * (x - y) && q == (z - y) * (z - y) && gap == s * x + t * z - w * y
    ensures s * (x * x) + t * (z * z) - w * (y * y) == s * p + t * q + 2.0 * (y * gap)
  {
    assert p == x * x - 2.0 * (x * y) + y * y;
    assert q == z * z - 2.0 * (z * y) + y * y;
    assert s * p == s * (x * x) - 2.0 * (s * (x * y)) + s * (y * y);
    assert t * q == t * (z * z) - 2.0 * (t * (z * y)) + t * (y * y);
    assert y * gap == s * (x * y) + t * (z * y) - w * (y * y);
    assert w * (y * y) == s * (y * y) + t * (y * y);
  }

  lemma ChordAlgebra(w: real, s: real, t: real, a: real, b: real, c: real, p: real, x: real, y: real, z: real)
    requires w == c - a && s == c - b && t == b - a && p >= 0.0
    requires w * y <= s * x + t * z
    ensures w * (b + p * y) <= s * (a + p * x) + t * (c + p * z)
  {
    MulMono(p, w * y, s * x + t * z);
    assert w * b == s * a + t * c;
    assert w * (p * y) == p * (w * y);
    assert s * (p * x) == p * (s * x) && t * (p * z) == p * (t * z);
    assert w * (b + p * y) == w * b + w * (p * y);
    assert s * (a + p * x) == s * a + s * (p * x);
    assert t * (c + p * z) == t * c + t * (p * z);
  }
}
