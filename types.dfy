/**
 * Value types shared by the sonar simulation: vectors, acoustic signatures,
 * targets, bearing readings, and the host maths the simulation calls
 * (square root and arc tangent), which the caller supplies.
 */
module SonarTypes {

  datatype Option<T> = None | Some(value: T)

  datatype Vec3 = Vec3(x: real, y: real, z: real)

  datatype VesselType = Surface | Submarine | Merchant | Warship | UnknownVessel

  /** Classification lifecycle of a contact. */
  datatype Classification = Undetected | Detected | Analyzing | Identified

  /** Position of a status in the lifecycle UNDETECTED < DETECTED < ANALYZING < IDENTIFIED. */
  function Rank(c: Classification): nat
  {
    match c
    case Undetected => 0
    case Detected => 1
    case Analyzing => 2
    case Identified => 3
  }

  datatype Signature = Signature(
    engineFreq: real,          // Hz, fundamental engine frequency
    harmonics: seq<real>,      // Hz
    bladeCount: int,
    shaftRPM: real,
    cavitationLevel: real,     // 0..1
    vesselType: VesselType,
    vesselClass: string)

  datatype Target = Target(
    id: string,
    position: Vec3,
    velocity: Vec3,
    course: real,              // degrees
    speed: real,
    depth: real,
    signature: Signature,
    detected: bool,
    classification: Classification)

  /** A timestamped bearing fix; timestamps are integer milliseconds. */
  datatype BearingReading = BearingReading(timestamp: int, bearing: real, confidence: real)

  /**
   * The host's `Math.sqrt` and `Math.atan2(y, x) * 180 / PI`, passed in by
   * the caller. `Valid` states the only facts the model relies on.
   */
  datatype MathLib = MathLib(sqrt: real -> real, atan2Deg: (real, real) -> real)
  {
    ghost predicate Valid()
    {
      && (forall x: real :: 0.0 <= x ==> 0.0 <= sqrt(x) && sqrt(x) * sqrt(x) == x)
      && (forall y: real, x: real :: -180.0 <= atan2Deg(y, x) <= 180.0)
    }
  }

  function Min(a: real, b: real): real { if a <= b then a else b }

  function Max(a: real, b: real): real { if a >= b then a else b }

  /** `Math.max(lo, Math.min(hi, x))`. */
  function Clamp(x: real, lo: real, hi: real): (r: real)
    requires lo <= hi
    ensures lo <= r <= hi
    ensures lo <= x <= hi ==> r == x
  {
    Max(lo, Min(hi, x))
  }

  /** JavaScript's `x % m` on numbers: the remainder takes the sign of `x`. */
  function JsRem(x: real, m: real): (r: real)
    requires m > 0.0
    ensures 0.0 <= x ==> 0.0 <= r < m
  {
    if x >= 0.0 then
      FloorRemBounds(x, m);
      x - m * (x / m).Floor as real
    else -((-x) - m * ((-x) / m).Floor as real)
  }

  /** JavaScript's `a % n` on integers (truncated remainder). */
  function JsIntRem(a: int, n: int): (r: int)
    requires n > 0
    ensures 0 <= a ==> r == a % n
  {
    if a >= 0 then a % n else -((-a) % n)
  }

  /** `s.slice(-n)` for n > 0: the last n elements, or all of s when it is shorter. */
  function LastN<T>(s: seq<T>, n: nat): (r: seq<T>)
    requires n > 0
    ensures |r| == if |s| <= n then |s| else n
  {
    if |s| <= n then s else s[|s| - n..]
  }

  lemma LastNIsSuffix<T>(s: seq<T>, n: nat)
    requires n > 0
    ensures |LastN(s, n)| <= n
    ensures LastN(s, n) == s[|s| - |LastN(s, n)|..]
  {
  }

  // ---- small facts of real arithmetic the solver does not find alone ----

  lemma FloorRemBounds(x: real, m: real)
    requires m > 0.0
    ensures 0.0 <= x - m * (x / m).Floor as real < m
  {
    var y := x / m;
    var q := y.Floor as real;
    var q1 := q + 1.0;
    MulLe(q, y, m);
    MulLt(y, q1, m);
    assert y * m == x;
    assert x < q1 * m;
    assert q1 * m == m * q + m;
  }

  lemma MulLe(x: real, y: real, c: real)
    requires x <= y && 0.0 <= c
    ensures x * c <= y * c
  {
  }

  lemma MulLt(x: real, y: real, c: real)
    requires x < y && 0.0 < c
    ensures x * c < y * c
  {
  }

  lemma SquareNonNegative(a: real)
    ensures 0.0 <= a * a
  {
    if a < 0.0 { MulLe(a, 0.0, -a); } else { MulLe(0.0, a, a); }
  }

  lemma SquareStrictMono(a: real, b: real)
    requires 0.0 <= a < b
    ensures a * a < b * b
  {
    calc {
      a * a;
    <= { MulLe(a, b, a); }
      b * a;
    < { MulLt(a, b, b); }
      b * b;
    }
  }

  /** A valid square root returns the non-negative root of a square. */
  lemma SqrtOfSquare(m: MathLib, r: real)
    requires m.Valid() && 0.0 <= r
    ensures m.sqrt(r * r) == r
  {
    MulLe(0.0, r, r);
    var s := m.sqrt(r * r);
    if s < r { SquareStrictMono(s, r); }
    if s > r { SquareStrictMono(r, s); }
  }

  /** For non-negative reals, comparing square roots is comparing the radicands. */
  lemma SqrtLess(m: MathLib, x: real, y: real)
    requires m.Valid() && 0.0 <= x && 0.0 <= y
    ensures m.sqrt(x) < m.sqrt(y) <==> x < y
  {
    var a, b := m.sqrt(x), m.sqrt(y);
    if a < b { SquareStrictMono(a, b); }
    if b < a { SquareStrictMono(b, a); }
  }

  lemma DivLt(a: real, b: real, k: real)
    requires b > 0.0
    ensures a / b > k <==> a > k * b
  {
    assert a == (a / b) * b;
    if a / b > k { MulLt(k, a / b, b); }
    if a > k * b {
      if a / b <= k { MulLe(a / b, k, b); }
    }
  }

  /** Euclidean division is unique. */
  lemma ModUnique(b: int, s: int, q: int, r: int)
    requires 0 < s && 0 <= r < s && b == s * q + r
    ensures b / s == q && b % s == r
  {
    var q', r' := b / s, b % s;
    assert s * (q - q') == r' - r;
    if q > q' {
      MulAtLeast(s, q - q');
    } else if q < q' {
      MulAtLeast(s, q' - q);
    }
  }

  lemma MulAtLeast(s: int, k: int)
    requires 0 < s && 1 <= k
    ensures s * k >= s
  {
  }
}
