/**
 * The particle field of `src/scene/ParticleSystem.ts`: a fixed number of
 * particles kept in index-aligned buffers (velocities, phases, base
 * positions, and the per-instance position and scale of the instanced
 * mesh), a one-shot "disperse" state machine driven by a timer, and the
 * per-frame step that moves every particle 5% of the way to its target.
 *
 * `Math.random()` draws are passed in as sequences of reals in [0, 1);
 * `Math.sin`, `Math.cos`, `Math.acos` and `Math.PI` come from a `MathLib`.
 */
module Particles {
  import opened MathModel

  // ---------------------------------------------------------------------------
  // Random draws and the values built from them

  /** A value `Math.random()` can return. */
  predicate IsDraw(d: real) { 0.0 <= d < 1.0 }

  predicate AllDraws(ds: seq<real>) {
    forall k :: 0 <= k < |ds| ==> IsDraw(ds[k])
  }

  /** `(Math.random() - 0.5) * 0.01`, the initial velocity component. */
  function InitialVelocity(d: real): (v: real)
    requires IsDraw(d)
    ensures -0.005 <= v < 0.005
  {
    (d - 0.5) * 0.01
  }

  /** `(Math.random() - 0.5) * 0.02`, a velocity component after `disperse`. */
  function DisperseVelocity(d: real): (v: real)
    requires IsDraw(d)
    ensures -0.01 <= v < 0.01
  {
    (d - 0.5) * 0.02
  }

  /** Three draws, one per axis. */
  predicate VecDraw(v: Vec3) { IsDraw(v.x) && IsDraw(v.y) && IsDraw(v.z) }

  /** `bubbleRadius + 0.3 + Math.random() * 0.4`, the radius of the shell a
      particle's base position lies on. */
  function ShellRadius(bubbleRadius: real, d: real): (r: real)
    requires IsDraw(d)
    ensures bubbleRadius + 0.3 <= r < bubbleRadius + 0.7
  {
    bubbleRadius + 0.3 + d * 0.4
  }

  /** `Math.random() * Math.PI * 2`: the azimuth of a base position, and a
      particle's orbit phase. */
  function Angle(m: MathLib, d: real): real {
    d * m.pi * 2.0
  }

  /** Such an angle lies in [0, 2 pi). */
  lemma AngleRange(m: MathLib, d: real)
    requires Lawful(m) && IsDraw(d)
    ensures 0.0 <= Angle(m, d) < 2.0 * m.pi
  {
    var pi := m.pi;
    ProductPositive(1.0 - d, pi);
    assert (1.0 - d) * pi == pi - d * pi;
    if d > 0.0 {
      ProductPositive(d, pi);
    }
    var x := d * pi;
    assert 0.0 <= x < pi;
    assert Angle(m, d) == x * 2.0;
    assert x * 2.0 < 2.0 * pi;
  }

  /** The point at distance `r` from the origin in the direction given by
      the sines and cosines of the polar angle phi and the azimuth theta. */
  function SphericalPoint(r: real, sinPhi: real, cosPhi: real, sinTheta: real, cosTheta: real): Vec3 {
    Vec3(r * sinPhi * cosTheta, r * sinPhi * sinTheta, r * cosPhi)
  }

  /** `Math.acos(2 * Math.random() - 1)`: the polar angle of a base position. */
  function PolarAngle(m: MathLib, d: real): real {
    m.acos(2.0 * d - 1.0)
  }

  /** The base position of a particle, from its three spherical-coordinate
      draws: azimuth `theta`, polar angle `acos(2u - 1)` and shell radius. */
  function SpherePoint(m: MathLib, bubbleRadius: real, dTheta: real, dPhi: real, dR: real): Vec3
    requires IsDraw(dR)
  {
    var theta := Angle(m, dTheta);
    var phi := PolarAngle(m, dPhi);
    SphericalPoint(ShellRadius(bubbleRadius, dR), m.sin(phi), m.cos(phi), m.sin(theta), m.cos(theta))
  }

  /** Every base position lies on its shell: its squared distance from the
      origin is the square of the shell radius. */
  lemma SpherePointOnShell(m: MathLib, bubbleRadius: real, dTheta: real, dPhi: real, dR: real)
    requires Lawful(m) && IsDraw(dR)
    ensures Norm2(SpherePoint(m, bubbleRadius, dTheta, dPhi, dR))
         == ShellRadius(bubbleRadius, dR) * ShellRadius(bubbleRadius, dR)
  {
    var theta := Angle(m, dTheta);
    var phi := PolarAngle(m, dPhi);
    SphericalNorm(ShellRadius(bubbleRadius, dR), m.sin(phi), m.cos(phi), m.sin(theta), m.cos(theta));
  }

  /** A point given in spherical coordinates lies at distance r from the origin. */
  lemma SphericalNorm(r: real, sinPhi: real, cosPhi: real, sinTheta: real, cosTheta: real)
    requires sinPhi * sinPhi + cosPhi * cosPhi == 1.0
    requires sinTheta * sinTheta + cosTheta * cosTheta == 1.0
    ensures Norm2(SphericalPoint(r, sinPhi, cosPhi, sinTheta, cosTheta)) == r * r
  {
    var rs := r * sinPhi;
    calc {
      Norm2(SphericalPoint(r, sinPhi, cosPhi, sinTheta, cosTheta));
      (rs * cosTheta) * (rs * cosTheta) + (rs * sinTheta) * (rs * sinTheta) + (r * cosPhi) * (r * cosPhi);
      (rs * rs) * (cosTheta * cosTheta + sinTheta * sinTheta) + (r * r) * (cosPhi * cosPhi);
      (rs * rs) + (r * r) * (cosPhi * cosPhi);
      (r * r) * (sinPhi * sinPhi) + (r * r) * (cosPhi * cosPhi);
      (r * r) * (sinPhi * sinPhi + cosPhi * cosPhi);
      r * r;
    }
  }

  // ---------------------------------------------------------------------------
  // The disperse timer

  datatype DisperseTimer = DisperseTimer(dispersing: bool, time: real)

  /** What every update keeps: the timer never exceeds 2.0 and is 0 while the
      particles are not dispersing. */
  predicate TimerInvariant(s: DisperseTimer) {
    0.0 <= s.time <= 2.0 && (!s.dispersing ==> s.time == 0.0)
  }

  /** The timer part of `update`: while dispersing, add 0.016; once the time
      exceeds 2.0, stop dispersing and reset it to 0. */
  function TickTimer(s: DisperseTimer): (r: DisperseTimer)
    ensures !s.dispersing ==> r == s
    ensures s.dispersing && s.time + 0.016 <= 2.0 ==> r == DisperseTimer(true, s.time + 0.016)
    ensures s.dispersing && s.time + 0.016 > 2.0 ==> r == DisperseTimer(false, 0.0)
    ensures TimerInvariant(s) ==> TimerInvariant(r)
  {
    if !s.dispersing then s
    else
      var t := s.time + 0.016;
      if t > 2.0 then DisperseTimer(false, 0.0) else DisperseTimer(true, t)
  }

  /** The timer after `k` updates. */
  function TicksAfter(s: DisperseTimer, k: nat): DisperseTimer {
    if k == 0 then s else TickTimer(TicksAfter(s, k - 1))
  }

  /** After `disperse`, the particles stay dispersing for 125 updates, the
      timer reading 0.016 * k after the k-th; the 126th update switches
      dispersing off, and the timer stays at 0 from then on. */
  lemma {:induction false} DisperseLasts125Updates(k: nat)
    ensures k <= 125 ==> TicksAfter(DisperseTimer(true, 0.0), k) == DisperseTimer(true, 0.016 * k as real)
    ensures k >= 126 ==> TicksAfter(DisperseTimer(true, 0.0), k) == DisperseTimer(false, 0.0)
  {
    if k > 0 {
      DisperseLasts125Updates(k - 1);
    }
  }

  // ---------------------------------------------------------------------------
  // The target of one particle

  /** `Math.min(disperseTime / 0.3, 1.0)`: ramps from 0 to 1 over 0.3 time units. */
  function DisperseForce(t: real): (f: real)
    ensures 0.0 <= t ==> 0.0 <= f
    ensures f <= 1.0
    ensures t >= 0.3 ==> f == 1.0
  {
    if t / 0.3 <= 1.0 then t / 0.3 else 1.0
  }

  /** `Math.max((disperseTime - 0.5) / 1.5, 0.0)`: zero for the first 0.5
      time units, positive afterwards. */
  function ReturnForce(t: real): (f: real)
    ensures f >= 0.0
    ensures f == 0.0 <==> t <= 0.5
  {
    if (t - 0.5) / 1.5 >= 0.0 then (t - 0.5) / 1.5 else 0.0
  }

  /** `(1.5 - dist) / 1.5`: the strength of the pointer's push at distance `dist`. */
  function MouseFalloff(dist: real): (f: real)
    ensures 0.0 <= dist < 1.5 ==> 0.0 < f <= 1.0
  {
    (1.5 - dist) / 1.5
  }

  /** The pointer is taken into account at all only when it is farther than
      0.01 from the origin, and it reaches a particle only within 1.5. */
  predicate PointerReaches(m: MathLib, pos: Vec3, mouse: Vec3) {
    Length(m, mouse) > 0.01 && Length(m, Sub(pos, mouse)) < 1.5
  }

  /** The factor the pointer push multiplies `position - mouse` by: the
      normalising factor times `force * 0.3`, or 0 when the pointer does not
      reach the particle. */
  function PushFactor(m: MathLib, pos: Vec3, mouse: Vec3): (c: real)
    ensures !PointerReaches(m, pos, mouse) ==> c == 0.0
  {
    if Length(m, mouse) > 0.01 then
      var away := Sub(pos, mouse);
      var dist := Length(m, away);
      if dist < 1.5 then NormalizeFactor(m, away) * (MouseFalloff(dist) * 0.3) else 0.0
    else 0.0
  }

  lemma ProductPositive(a: real, b: real)
    requires a > 0.0 && b > 0.0
    ensures a * b > 0.0
  {
  }

  /** When the pointer reaches a particle the factor is positive, so the
      push points away from the pointer, never towards it. */
  lemma PushPointsAway(m: MathLib, pos: Vec3, mouse: Vec3)
    requires Lawful(m)
    ensures PushFactor(m, pos, mouse) >= 0.0
    ensures PushFactor(m, pos, mouse) > 0.0 <==> PointerReaches(m, pos, mouse)
  {
    var away := Sub(pos, mouse);
    LengthNonNegative(m, away);
    if PointerReaches(m, pos, mouse) {
      var dist := Length(m, away);
      assert MouseFalloff(dist) * 0.3 > 0.0;
      ProductPositive(NormalizeFactor(m, away), MouseFalloff(dist) * 0.3);
      assert PushFactor(m, pos, mouse) == NormalizeFactor(m, away) * (MouseFalloff(dist) * 0.3);
    }
  }

  /** The pointer's contribution to a particle's target: `position - mouse`,
      normalised and scaled by `force * 0.3`. */
  function MousePush(m: MathLib, pos: Vec3, mouse: Vec3): (push: Vec3)
    ensures !PointerReaches(m, pos, mouse) ==> push == Origin
  {
    Scale(Sub(pos, mouse), PushFactor(m, pos, mouse))
  }

  /** Scaling a vector by `c` scales its squared length by `c * c`. */
  lemma Norm2Scale(v: Vec3, c: real)
    ensures Norm2(Scale(v, c)) == (c * c) * Norm2(v)
  {
    calc {
      Norm2(Scale(v, c));
      (v.x * c) * (v.x * c) + (v.y * c) * (v.y * c) + (v.z * c) * (v.z * c);
      (c * c) * (v.x * v.x) + (c * c) * (v.y * v.y) + (c * c) * (v.z * v.z);
      (c * c) * Norm2(v);
    }
  }

  /** Multiplying by the inverse `k` of a length cancels that length. */
  lemma InverseCancels(c: real, k: real, len: real, f: real)
    requires c == k * f && k * len == 1.0
    ensures (c * c) * (len * len) == f * f
  {
    assert c * len == (k * len) * f;
    SquareTimesSquare(c, len);
    EqualSquares(c * len, f);
  }

  lemma SquareTimesSquare(a: real, b: real)
    ensures (a * a) * (b * b) == (a * b) * (a * b)
  {
  }

  lemma EqualSquares(g: real, f: real)
    requires g == f
    ensures g * g == f * f
  {
  }

  /** The push has length `force * 0.3`: when the pointer reaches a particle
      away from it, the squared length of the push is the square of
      `MouseFalloff(dist) * 0.3`. A particle exactly at the pointer is not
      pushed, as `normalize()` leaves the zero vector zero. */
  lemma PushLength(m: MathLib, pos: Vec3, mouse: Vec3)
    requires Lawful(m)
    ensures Sub(pos, mouse) == Origin ==> MousePush(m, pos, mouse) == Origin
    ensures PointerReaches(m, pos, mouse) && Length(m, Sub(pos, mouse)) != 0.0 ==>
      var f := MouseFalloff(Length(m, Sub(pos, mouse))) * 0.3;
      Norm2(MousePush(m, pos, mouse)) == f * f
  {
    var away := Sub(pos, mouse);
    var len := Length(m, away);
    if PointerReaches(m, pos, mouse) && len != 0.0 {
      var k := NormalizeFactor(m, away);
      var f := MouseFalloff(len) * 0.3;
      assert PushFactor(m, pos, mouse) == k * f;
      NormNonNegative(away);
      assert len * len == Norm2(away);
      Norm2Scale(away, k * f);
      InverseCancels(k * f, k, len, f);
    }
  }

  /** The slow orbit of a particle about its base position. */
  function Orbit(m: MathLib, time: real, base: Vec3, phase: real): Vec3 {
    Vec3(base.x + m.cos(time * 0.15 + phase) * 0.08,
         base.y + m.sin(time * 0.15 * 0.7 + phase) * 0.08,
         base.z + m.sin(time * 0.15 * 0.5 + phase) * 0.08)
  }

  /** Every coordinate of the orbit stays within 0.08 of the base position. */
  lemma OrbitNearBase(m: MathLib, time: real, base: Vec3, phase: real)
    requires Lawful(m)
    ensures base.x - 0.08 <= Orbit(m, time, base, phase).x <= base.x + 0.08
    ensures base.y - 0.08 <= Orbit(m, time, base, phase).y <= base.y + 0.08
    ensures base.z - 0.08 <= Orbit(m, time, base, phase).z <= base.z + 0.08
  {
  }

  /** The target a particle moves towards in one `update`: its orbit point,
      plus the pointer push, plus, while dispersing, its velocity scaled by
      15 and the ramp-up force and a pull back to its base position scaled
      by the return force. */
  function Target(m: MathLib, time: real, mouse: Vec3, base: Vec3, phase: real,
                  pos: Vec3, velocity: Vec3, timer: DisperseTimer): (target: Vec3)
    ensures !timer.dispersing && !PointerReaches(m, pos, mouse) ==> target == Orbit(m, time, base, phase)
  {
    var settled := Add(Orbit(m, time, base, phase), MousePush(m, pos, mouse));
    if timer.dispersing then
      Add(Add(settled, Scale(velocity, 15.0 * DisperseForce(timer.time))),
          Scale(Sub(base, pos), ReturnForce(timer.time) * 0.1))
    else settled
  }

  /** Neither dispersing nor reached by the pointer, a particle's target is
      within 0.08 of its base position on every axis. */
  lemma QuietTargetNearBase(m: MathLib, time: real, mouse: Vec3, base: Vec3, phase: real,
                            pos: Vec3, velocity: Vec3, timer: DisperseTimer)
    requires Lawful(m) && !timer.dispersing && !PointerReaches(m, pos, mouse)
    ensures var t := Target(m, time, mouse, base, phase, pos, velocity, timer);
      && base.x - 0.08 <= t.x <= base.x + 0.08
      && base.y - 0.08 <= t.y <= base.y + 0.08
      && base.z - 0.08 <= t.z <= base.z + 0.08
  {
    OrbitNearBase(m, time, base, phase);
  }

  /** One particle's position after an update: 5% of the way to its target. */
  function Step(m: MathLib, time: real, mouse: Vec3, base: Vec3, phase: real,
                velocity: Vec3, timer: DisperseTimer, pos: Vec3): Vec3
  {
    ApproachVec(pos, Target(m, time, mouse, base, phase, pos, velocity, timer))
  }

  /** A step shrinks the gap to the target to 0.95 of what it was; a quiet
      particle out of the pointer's reach closes in that way on its orbit. */
  lemma StepClosesGap(m: MathLib, time: real, mouse: Vec3, base: Vec3, phase: real,
                      velocity: Vec3, timer: DisperseTimer, pos: Vec3)
    ensures var t := Target(m, time, mouse, base, phase, pos, velocity, timer);
      Sub(t, Step(m, time, mouse, base, phase, velocity, timer, pos)) == Scale(Sub(t, pos), 0.95)
    ensures !timer.dispersing && !PointerReaches(m, pos, mouse) ==>
      var o := Orbit(m, time, base, phase);
      Sub(o, Step(m, time, mouse, base, phase, velocity, timer, pos)) == Scale(Sub(o, pos), 0.95)
  {
    ApproachVecCloses(pos, Target(m, time, mouse, base, phase, pos, velocity, timer));
  }

  /** Every particle's position after an update, from snapshots of the
      buffers: particle `k` takes one `Step` with its own base position,
      phase and velocity. */
  function StepAll(m: MathLib, time: real, mouse: Vec3, bases: seq<Vec3>, phases: seq<real>,
                   velocities: seq<real>, timer: DisperseTimer, positions: seq<Vec3>): (r: seq<Vec3>)
    requires |bases| == |phases| == |positions| && |velocities| == 3 * |positions|
    ensures |r| == |positions|
  {
    seq(|positions|, k requires 0 <= k < |positions| =>
      Step(m, time, mouse, bases[k], phases[k], VelocityOf(velocities, k), timer, positions[k]))
  }

  /** `Math.sin(time * 2.0 + phase) * 0.15 + 0.85`, the particle's scale. */
  function Pulse(m: MathLib, time: real, phase: real): real {
    m.sin(time * 2.0 + phase) * 0.15 + 0.85
  }

  /** `0.6 + Math.sin(time * 1.5) * 0.1`, the material's opacity. */
  function Opacity(m: MathLib, time: real): real {
    0.6 + m.sin(time * 1.5) * 0.1
  }

  /** A particle's scale pulses within [0.7, 1.0] and the material's opacity
      within [0.5, 0.7]. */
  lemma PulseAndOpacityRange(m: MathLib, time: real, phase: real)
    requires Lawful(m)
    ensures 0.7 <= Pulse(m, time, phase) <= 1.0
    ensures 0.5 <= Opacity(m, time) <= 0.7
  {
  }

  // ---------------------------------------------------------------------------
  // The flat velocity buffer: three components per particle

  /** The velocity of particle `k`: components `3k`, `3k + 1` and `3k + 2`. */
  function VelocityOf(velocities: seq<real>, k: int): Vec3
    requires 0 <= k && 3 * k + 2 < |velocities|
  {
    Vec3(velocities[3 * k], velocities[3 * k + 1], velocities[3 * k + 2])
  }

  /** `VelocityOf` the buffer's current contents. */
  function VelocityAt(velocities: array<real>, k: int): Vec3
    requires 0 <= k && 3 * k + 2 < velocities.Length
    reads velocities
  {
    VelocityOf(velocities[..], k)
  }

  /** Writes the three components of particle `i`'s velocity and nothing else. */
  method WriteVelocity(velocities: array<real>, i: nat, v: Vec3)
    requires 3 * i + 2 < velocities.Length
    modifies velocities
    ensures VelocityAt(velocities, i) == v
    ensures forall j :: 0 <= j < velocities.Length && (j < 3 * i || 3 * i + 3 <= j) ==>
      velocities[j] == old(velocities[j])
  {
    velocities[3 * i] := v.x;
    velocities[3 * i + 1] := v.y;
    velocities[3 * i + 2] := v.z;
  }

  // ---------------------------------------------------------------------------
  // The particle system

  /** The seven `Math.random()` draws the constructor makes for one particle,
      in the order it makes them. */
  datatype ParticleDraws = ParticleDraws(theta: real, phi: real, radius: real, phase: real,
                                         vx: real, vy: real, vz: real)

  predicate DrawsOk(d: ParticleDraws) {
    IsDraw(d.theta) && IsDraw(d.phi) && IsDraw(d.radius) && IsDraw(d.phase)
    && IsDraw(d.vx) && IsDraw(d.vy) && IsDraw(d.vz)
  }

  /** A particle's initial velocity, `(Math.random() - 0.5) * 0.01` per axis. */
  function InitialVelocities(d: ParticleDraws): Vec3
    requires DrawsOk(d)
  {
    Vec3(InitialVelocity(d.vx), InitialVelocity(d.vy), InitialVelocity(d.vz))
  }

  /** A velocity after `disperse`: `(Math.random() - 0.5) * 0.02` per axis. */
  function DisperseVelocities(d: Vec3): Vec3
    requires VecDraw(d)
  {
    Vec3(DisperseVelocity(d.x), DisperseVelocity(d.y), DisperseVelocity(d.z))
  }

  /** A particle holds exactly what its draws give: a base position on its
      shell, its phase, its initial velocity, and an instance placed at the
      base position with scale 1. */
  ghost predicate Spawned(m: MathLib, bubbleRadius: real, d: ParticleDraws, base: Vec3, phase: real,
                          velocity: Vec3, pos: Vec3, scale: real)
  {
    && DrawsOk(d)
    && base == SpherePoint(m, bubbleRadius, d.theta, d.phi, d.radius)
    && phase == Angle(m, d.phase)
    && velocity == InitialVelocities(d)
    && pos == base
    && scale == 1.0
  }

  class ParticleSystem {
    const particleCount: nat
    const velocities: array<real>     // three components per particle
    const phases: array<real>
    const basePositions: seq<Vec3>
    const positions: array<Vec3>      // the position part of each instance matrix
    const scales: array<real>         // the uniform scale of each instance matrix
    var opacity: real                 // the material's opacity
    var dispersing: bool
    var disperseTime: real

    function Timer(): DisperseTimer
      reads this
    {
      DisperseTimer(dispersing, disperseTime)
    }

    /** The buffers stay index-aligned with `particleCount`, and the timer
        keeps its invariant. */
    ghost predicate Valid()
      reads this
    {
      && velocities.Length == 3 * particleCount
      && phases.Length == particleCount
      && |basePositions| == particleCount
      && positions.Length == particleCount
      && scales.Length == particleCount
      && velocities != phases && velocities != scales && phases != scales
      && TimerInvariant(Timer())
    }

    /** `new ParticleSystem(count, bubbleRadius)`, with the draws for each particle. */
    constructor (count: nat, bubbleRadius: real, m: MathLib, draws: seq<ParticleDraws>)
      requires |draws| == count
      requires forall i :: 0 <= i < count ==> DrawsOk(draws[i])
      ensures Valid() && particleCount == count
      ensures fresh(velocities) && fresh(phases) && fresh(positions) && fresh(scales)
      ensures forall i :: 0 <= i < count ==>
        Spawned(m, bubbleRadius, draws[i], basePositions[i], phases[i],
                VelocityAt(velocities, i), positions[i], scales[i])
      ensures !dispersing && disperseTime == 0.0 && opacity == 0.6
    {
      var vel := new real[3 * count];
      var ph := new real[count];
      var pos := new Vec3[count];
      var sc := new real[count];
      var bases: seq<Vec3> := [];
      for i := 0 to count
        invariant |bases| == i
        invariant forall k :: 0 <= k < i ==>
          Spawned(m, bubbleRadius, draws[k], bases[k], ph[k], VelocityAt(vel, k), pos[k], sc[k])
      {
        var d := draws[i];
        var p := SpherePoint(m, bubbleRadius, d.theta, d.phi, d.radius);
        bases := bases + [p];
        ph[i] := Angle(m, d.phase);
        WriteVelocity(vel, i, InitialVelocities(d));
        pos[i] := p;
        sc[i] := 1.0;
      }
      particleCount := count;
      velocities := vel;
      phases := ph;
      basePositions := bases;
      positions := pos;
      scales := sc;
      opacity := 0.6;
      dispersing := false;
      disperseTime := 0.0;
    }

    /** `update(time, mouseInfluence)`: advance the disperse timer, then move
        every particle 5% of the way to its target and set its pulse scale,
        then set the material's opacity. */
    method Update(m: MathLib, time: real, mouse: Vec3)
      requires Valid()
      modifies this, positions, scales
      ensures Valid()
      ensures Timer() == TickTimer(old(Timer()))
      ensures positions[..] == StepAll(m, time, mouse, basePositions, phases[..], velocities[..],
                                       Timer(), old(positions[..]))
      ensures forall i :: 0 <= i < particleCount ==> scales[i] == Pulse(m, time, phases[i])
      ensures opacity == Opacity(m, time)
    {
      var timer := TickTimer(Timer());
      dispersing, disperseTime := timer.dispersing, timer.time;
      ghost var next := StepAll(m, time, mouse, basePositions, phases[..], velocities[..],
                                timer, positions[..]);
      for i := 0 to particleCount
        modifies positions, scales
        invariant forall k :: 0 <= k < i ==> positions[k] == next[k]
        invariant forall k :: i <= k < particleCount ==> positions[k] == old(positions[k])
        invariant forall k :: 0 <= k < i ==> scales[k] == Pulse(m, time, phases[k])
      {
        MoveParticle(m, time, mouse, i);
      }
      opacity := Opacity(m, time);
    }

    /** The body of `update`'s loop for particle `i`: one step towards its
        target, and its pulse scale. */
    method MoveParticle(m: MathLib, time: real, mouse: Vec3, i: nat)
      requires Valid() && i < particleCount
      modifies positions, scales
      ensures positions[i] == Step(m, time, mouse, basePositions[i], phases[i],
                                   VelocityAt(velocities, i), Timer(), old(positions[i]))
      ensures scales[i] == Pulse(m, time, phases[i])
      ensures forall k :: 0 <= k < particleCount && k != i ==>
        positions[k] == old(positions[k]) && scales[k] == old(scales[k])
    {
      var phase := phases[i];
      positions[i] := Step(m, time, mouse, basePositions[i], phase, VelocityAt(velocities, i),
                           Timer(), positions[i]);
      scales[i] := Pulse(m, time, phase);
    }

    /** `disperse()`: start the timer at 0 (also when already dispersing) and
        give every particle a new velocity, from three draws per particle. */
    method Disperse(draws: seq<Vec3>)
      requires Valid() && |draws| == particleCount
      requires forall k :: 0 <= k < |draws| ==> VecDraw(draws[k])
      modifies this, velocities
      ensures Valid() && dispersing && disperseTime == 0.0
      ensures forall k :: 0 <= k < particleCount ==> VelocityAt(velocities, k) == DisperseVelocities(draws[k])
      ensures opacity == old(opacity)
      ensures unchanged(phases, positions, scales)
    {
      dispersing := true;
      disperseTime := 0.0;
      for i := 0 to particleCount
        modifies velocities
        invariant forall k :: 0 <= k < i ==> VelocityAt(velocities, k) == DisperseVelocities(draws[k])
      {
        WriteVelocity(velocities, i, DisperseVelocities(draws[i]));
      }
    }
  }
}
