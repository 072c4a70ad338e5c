/** Vectors, the Mathf helpers the scripts rely on, and the rigid-body calls
    they issue, all over unbounded reals and integers. */
module UnityMath {

  datatype Vec3 = Vec3(x: real, y: real, z: real)
  datatype Vec2 = Vec2(x: real, y: real)

  const Zero: Vec3 := Vec3(0.0, 0.0, 0.0)
  const Up: Vec3 := Vec3(0.0, 1.0, 0.0)
  const Right: Vec3 := Vec3(1.0, 0.0, 0.0)
  const Forward: Vec3 := Vec3(0.0, 0.0, 1.0)

  /** Mathf.PI as a single-precision constant. */
  const Pi: real := 3.14159274
  /** The gravity constant the buoyancy scripts hard-code. */
  const Gravity: real := 9.81

  function Add(a: Vec3, b: Vec3): Vec3 { Vec3(a.x + b.x, a.y + b.y, a.z + b.z) }
  function Sub(a: Vec3, b: Vec3): Vec3 { Vec3(a.x - b.x, a.y - b.y, a.z - b.z) }
  function Scale(a: Vec3, k: real): Vec3 { Vec3(a.x * k, a.y * k, a.z * k) }
  function Neg(a: Vec3): Vec3 { Vec3(-a.x, -a.y, -a.z) }
  function Dot(a: Vec3, b: Vec3): real { a.x * b.x + a.y * b.y + a.z * b.z }
  function Cross(a: Vec3, b: Vec3): Vec3 {
    Vec3(a.y * b.z - a.z * b.y, a.z * b.x - a.x * b.z, a.x * b.y - a.y * b.x)
  }
  /** Squared length; `|v| > c` for `c >= 0` is `SqrMagnitude(v) > c * c`. */
  function SqrMagnitude(a: Vec3): real { Dot(a, a) }

  function Min(a: real, b: real): real { if a < b then a else b }
  function Max(a: real, b: real): real { if a > b then a else b }
  function MinInt(a: int, b: int): int { if a < b then a else b }
  function MaxInt(a: int, b: int): int { if a > b then a else b }
  function Abs(a: real): real { if a < 0.0 then -a else a }

  /** Mathf.Clamp has a float and an int overload with the same meaning;
      Clamp and ClampInt are those two overloads, over `real` and `int`. */
  function Clamp(v: real, lo: real, hi: real): (r: real)
    requires lo <= hi
    ensures lo <= r <= hi
    ensures lo <= v <= hi ==> r == v
  {
    if v < lo then lo else if v > hi then hi else v
  }

  /** Mathf.Clamp's int overload (see Clamp). */
  function ClampInt(v: int, lo: int, hi: int): (r: int)
    requires lo <= hi
    ensures lo <= r <= hi
    ensures lo <= v <= hi ==> r == v
  {
    if v < lo then lo else if v > hi then hi else v
  }

  function Clamp01(v: real): (r: real)
    ensures 0.0 <= r <= 1.0
    ensures 0.0 <= v <= 1.0 ==> r == v
    ensures v <= 0.0 ==> r == 0.0
    ensures v >= 1.0 ==> r == 1.0
  {
    Clamp(v, 0.0, 1.0)
  }

  lemma Clamp01Monotone(a: real, b: real)
    requires a <= b
    ensures Clamp01(a) <= Clamp01(b)
  {
  }

  /** Mathf.Lerp: the parameter is clamped to [0,1] first. */
  function Lerp(a: real, b: real, t: real): real {
    a + (b - a) * Clamp01(t)
  }

  /** A clamped lerp never leaves the segment between its end points. */
  lemma LerpBetween(a: real, b: real, t: real)
    ensures Min(a, b) <= Lerp(a, b, t) <= Max(a, b)
  {
    var c := Clamp01(t);
    var k := b - a;
    var p := k * c;
    ScaleByUnit(k, c);
    assert Lerp(a, b, t) == a + p;
  }

  /** Scaling by a factor in [0,1] keeps a value between 0 and itself. */
  lemma ScaleByUnit(k: real, c: real)
    requires 0.0 <= c <= 1.0
    ensures 0.0 <= k ==> 0.0 <= k * c <= k
    ensures k <= 0.0 ==> k <= k * c <= 0.0
  {
  }

  /** With a falling segment (`b <= a`) the clamped lerp is non-increasing in `t`. */
  lemma LerpFallingMonotone(a: real, b: real, s: real, t: real)
    requires b <= a && s <= t
    ensures Lerp(a, b, t) <= Lerp(a, b, s)
  {
    Clamp01Monotone(s, t);
    AffineFalling(a, b, Clamp01(s), Clamp01(t));
  }

  /** With a rising segment (`a <= b`) the clamped lerp is non-decreasing in `t`. */
  lemma LerpRisingMonotone(a: real, b: real, s: real, t: real)
    requires a <= b && s <= t
    ensures Lerp(a, b, s) <= Lerp(a, b, t)
  {
    Clamp01Monotone(s, t);
    AffineRising(a, b, Clamp01(s), Clamp01(t));
  }

  lemma AffineRising(a: real, b: real, cs: real, ct: real)
    requires a <= b && cs <= ct
    ensures a + (b - a) * cs <= a + (b - a) * ct
  {
    MulMono(b - a, cs, ct);
  }

  lemma AffineFalling(a: real, b: real, cs: real, ct: real)
    requires b <= a && cs <= ct
    ensures a + (b - a) * ct <= a + (b - a) * cs
  {
    MulMono(a - b, cs, ct);
    assert (b - a) * ct == -((a - b) * ct);
    assert (b - a) * cs == -((a - b) * cs);
  }

  /** Mathf.Floor / Mathf.FloorToInt. */
  function FloorToInt(v: real): (r: int)
    ensures r as real <= v < r as real + 1.0
  {
    v.Floor
  }

  /** Shifting by an integer shifts the floor by the same integer. */
  lemma FloorShift(v: real, k: int)
    ensures FloorToInt(v + k as real) == FloorToInt(v) + k
  {
  }

  /** Truncation toward zero, as C# does when it casts a float to an int. */
  function Truncate(v: real): (r: int)
    ensures 0.0 <= v ==> 0 <= r && r as real <= v < r as real + 1.0
    ensures v < 0.0 ==> r <= 0 && r as real - 1.0 < v <= r as real
  {
    if v >= 0.0 then v.Floor else -((-v).Floor)
  }

  /** Mathf.RoundToInt: the nearest integer, ties to the even one. */
  function RoundToInt(v: real): (r: int)
    ensures v - 0.5 <= r as real <= v + 0.5
    ensures r as real == v - 0.5 || r as real == v + 0.5 ==> r % 2 == 0
  {
    var f := v.Floor;
    var frac := v - f as real;
    if frac < 0.5 then f
    else if frac > 0.5 then f + 1
    else if f % 2 == 0 then f else f + 1
  }

  /** Multiplying by a non-negative factor keeps an order. */
  lemma MulMono(k: real, a: real, b: real)
    requires 0.0 <= k && a <= b
    ensures k * a <= k * b
  {
    assert k * b - k * a == k * (b - a);
  }

  /** Multiplying by a positive factor keeps a strict order. */
  lemma MulStrict(k: real, a: real, b: real)
    requires 0.0 < k && a < b
    ensures k * a < k * b
  {
    assert k * b - k * a == k * (b - a);
  }

  /** C#'s `%` on floats with a positive divisor: the remainder of truncated
      division, which takes the sign of `a`. */
  function FMod(a: real, m: real): (r: real)
    requires m > 0.0
    ensures 0.0 <= a ==> 0.0 <= r < m
    ensures a <= 0.0 ==> -m < r <= 0.0
    ensures r == a - m * Truncate(a / m) as real
  {
    var q := Truncate(a / m);
    if a >= 0.0 then
      RemainderBounds(a, m, q as real);
      a - m * q as real
    else
      NegRemainderBounds(a, m, q as real);
      a - m * q as real
  }

  /** Shifting a dividend by `m * q` shifts the quotient by `q`. */
  lemma QuotientShift(a: real, m: real, q: real)
    requires m > 0.0
    ensures (a - m * q) / m == a / m - q
  {
  }

  lemma MulDiv(x: real, m: real)
    requires m > 0.0
    ensures m * (x / m) == x
  {
  }

  lemma ScaleUnit(m: real, t: real)
    requires m > 0.0 && 0.0 <= t < 1.0
    ensures 0.0 <= m * t < m
  {
  }

  lemma ScaleNegUnit(m: real, t: real)
    requires m > 0.0 && -1.0 < t <= 0.0
    ensures -m < m * t <= 0.0
  {
  }

  /** A value whose quotient by `m` lies in [0, 1) lies in [0, m). */
  lemma UnitQuotient(x: real, m: real)
    requires m > 0.0 && 0.0 <= x / m < 1.0
    ensures 0.0 <= x < m
  {
    MulDiv(x, m);
    ScaleUnit(m, x / m);
  }

  /** A value whose quotient by `m` lies in (-1, 0] lies in (-m, 0]. */
  lemma NegUnitQuotient(x: real, m: real)
    requires m > 0.0 && -1.0 < x / m <= 0.0
    ensures -m < x <= 0.0
  {
    MulDiv(x, m);
    ScaleNegUnit(m, x / m);
  }

  lemma RemainderBounds(a: real, m: real, q: real)
    requires m > 0.0 && q <= a / m < q + 1.0
    ensures 0.0 <= a - m * q < m
  {
    QuotientShift(a, m, q);
    UnitQuotient(a - m * q, m);
  }

  lemma NegRemainderBounds(a: real, m: real, q: real)
    requires m > 0.0 && q - 1.0 < a / m <= q
    ensures -m < a - m * q <= 0.0
  {
    QuotientShift(a, m, q);
    NegUnitQuotient(a - m * q, m);
  }

  /** C#'s `%` on ints truncates; for a non-negative dividend and a positive
      divisor it is Dafny's `%`. */
  function IntRem(a: int, m: int): (r: int)
    requires m != 0
    ensures 0 <= a && 0 < m ==> r == a % m
  {
    if a >= 0 then a % (if m > 0 then m else -m)
    else -((-a) % (if m > 0 then m else -m))
  }

  /** A product with a factor of at least one is at least the other factor. */
  lemma MulAtLeast(a: int, m: int)
    requires a >= 1 && m >= 1
    ensures a * m >= m
  {
    assert a * m == (a - 1) * m + m;
    assert (a - 1) * m >= 0;
  }

  /** Multiplying by a non-negative integer keeps the order. */
  lemma MulMonoInt(k: int, a: int, b: int)
    requires 0 <= k && a <= b
    ensures k * a <= k * b
  {
    assert k * b - k * a == k * (b - a);
  }

  /** The remainder is the unique value in [0, m) that differs from `x` by a multiple of `m`. */
  lemma ModUnique(x: int, q: int, r: int, m: int)
    requires m >= 1 && 0 <= r < m && x == q * m + r
    ensures x % m == r
  {
    var q', r' := x / m, x % m;
    assert x == q' * m + r';
    assert (q - q') * m == r' - r;
    if q > q' {
      MulAtLeast(q - q', m);
    } else if q < q' {
      MulAtLeast(q' - q, m);
    }
  }

  /** Adding a multiple of `m` does not change the remainder. */
  lemma ModShift(a: int, k: int, m: int)
    requires m >= 1
    ensures (a + k * m) % m == a % m
  {
    var q, r := a / m, a % m;
    assert a == q * m + r;
    assert a + k * m == (q + k) * m + r;
    ModUnique(a + k * m, q + k, r, m);
  }

  /** The calls a buoyancy script makes on its Rigidbody, recorded in order. */
  datatype RigidBodyCall =
    | AddForce(force: Vec3)
    | AddForceAtPosition(force: Vec3, position: Vec3)
    | AddTorque(torque: Vec3)

  datatype Option<T> = None | Some(value: T)

  /** Regrouping appends, for builders that extend a recorded sequence block by block. */
  lemma AppendAssoc<T>(a: seq<T>, b: seq<T>, c: seq<T>)
    ensures (a + b) + c == a + (b + c)
  {
  }
}
