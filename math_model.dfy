/**
 * The arithmetic the scene relies on, in exact real arithmetic.
 *
 * JavaScript numbers are IEEE doubles; here they are `real`. The parts of
 * `Math` the scene calls (sin, cos, acos, sqrt and PI) are not computable in
 * Dafny's reals, so they are carried by a `MathLib` value that every caller
 * passes in, and `Lawful` states the only facts the model relies on.
 */
module MathModel {

  datatype Vec2 = Vec2(x: real, y: real)
  datatype Vec3 = Vec3(x: real, y: real, z: real)

  const Origin: Vec3 := Vec3(0.0, 0.0, 0.0)

  function Add(a: Vec3, b: Vec3): Vec3 { Vec3(a.x + b.x, a.y + b.y, a.z + b.z) }
  function Sub(a: Vec3, b: Vec3): Vec3 { Vec3(a.x - b.x, a.y - b.y, a.z - b.z) }
  function Scale(v: Vec3, k: real): Vec3 { Vec3(v.x * k, v.y * k, v.z * k) }
  function Dot(a: Vec3, b: Vec3): real { a.x * b.x + a.y * b.y + a.z * b.z }

  /** Squared Euclidean length. */
  function Norm2(v: Vec3): real { Dot(v, v) }

  /** The functions of JavaScript's `Math` that the scene calls. */
  datatype MathLib = MathLib(
    sin: real -> real,
    cos: real -> real,
    acos: real -> real,
    sqrt: real -> real,
    pi: real)

  /** What the model assumes of `Math`: sine and cosine bounded and Pythagorean,
      square root the non-negative root, PI to five decimals. */
  ghost predicate Lawful(m: MathLib) {
    && 3.14159 < m.pi < 3.14160
    && (forall a :: -1.0 <= m.sin(a) <= 1.0)
    && (forall a :: -1.0 <= m.cos(a) <= 1.0)
    && (forall a :: m.sin(a) * m.sin(a) + m.cos(a) * m.cos(a) == 1.0)
    && (forall x :: 0.0 <= x ==> 0.0 <= m.sqrt(x) && m.sqrt(x) * m.sqrt(x) == x)
  }

  /** three.js `Vector3.length()`. */
  function Length(m: MathLib, v: Vec3): real {
    m.sqrt(Norm2(v))
  }

  /** A length is never negative. */
  lemma LengthNonNegative(m: MathLib, v: Vec3)
    requires Lawful(m)
    ensures Length(m, v) >= 0.0
  {
    NormNonNegative(v);
  }

  lemma NormNonNegative(v: Vec3)
    ensures Norm2(v) >= 0.0
  {
    assert v.x * v.x >= 0.0 && v.y * v.y >= 0.0 && v.z * v.z >= 0.0;
  }

  /** The factor three.js `Vector3.normalize()` multiplies by: one over the
      length, or one when the length is 0 (so the zero vector stays zero). */
  function NormalizeFactor(m: MathLib, v: Vec3): (k: real)
    ensures Length(m, v) >= 0.0 ==> k > 0.0
    ensures Length(m, v) != 0.0 ==> k * Length(m, v) == 1.0
  {
    var len := Length(m, v);
    1.0 / (if len == 0.0 then 1.0 else len)
  }

  /**
   * One smoothing step: move 5% of the way from `current` to `target`
   * (`x += (target - x) * 0.05` in the source). The remaining gap shrinks by
   * the factor 0.95 and the new value lies between the old one and the target.
   */
  function Approach(current: real, target: real): (r: real)
    ensures target - r == 0.95 * (target - current)
    ensures current <= target ==> current <= r <= target
    ensures target <= current ==> target <= r <= current
  {
    current + (target - current) * 0.05
  }

  /** `x` lies between `a` and `b`, whichever is smaller. */
  predicate Between(a: real, x: real, b: real) {
    (a <= b ==> a <= x <= b) && (b <= a ==> b <= x <= a)
  }

  /** `Approach` on each coordinate. */
  function ApproachVec(p: Vec3, target: Vec3): Vec3 {
    Vec3(Approach(p.x, target.x), Approach(p.y, target.y), Approach(p.z, target.z))
  }

  /** The vector from the stepped point to the target is 0.95 times the one
      from the old point, and each coordinate lies between its old value
      and the target's. */
  lemma ApproachVecCloses(p: Vec3, target: Vec3)
    ensures Sub(target, ApproachVec(p, target)) == Scale(Sub(target, p), 0.95)
    ensures Between(p.x, ApproachVec(p, target).x, target.x)
    ensures Between(p.y, ApproachVec(p, target).y, target.y)
    ensures Between(p.z, ApproachVec(p, target).z, target.z)
  {
  }

  /** x to the k-th power. */
  function Pow(x: real, k: nat): real {
    if k == 0 then 1.0 else x * Pow(x, k - 1)
  }

  /** `Approach` applied `k` times towards a fixed target. */
  function ApproachN(current: real, target: real, k: nat): real {
    if k == 0 then current else Approach(ApproachN(current, target, k - 1), target)
  }

  /** Repeated smoothing towards a fixed target closes the gap geometrically:
      after k steps the gap is 0.95^k of the initial one. */
  lemma {:induction false} ApproachNGap(current: real, target: real, k: nat)
    ensures target - ApproachN(current, target, k) == Pow(0.95, k) * (target - current)
  {
    if k > 0 {
      ApproachNGap(current, target, k - 1);
      var prev := ApproachN(current, target, k - 1);
      calc {
        target - ApproachN(current, target, k);
        0.95 * (target - prev);
        0.95 * (Pow(0.95, k - 1) * (target - current));
        Pow(0.95, k) * (target - current);
      }
    }
  }
}
