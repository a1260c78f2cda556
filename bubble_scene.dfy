/**
 * The interaction state of `src/scene/BubbleScene.ts`: the pointer, the
 * ripple the shader draws, the bubble's rotation and float, the camera
 * aspect and the FXAA resolution, changed by the window's event handlers
 * and by the per-frame `update`.
 *
 * The browser hands the handlers their inputs: the window size, the
 * pointer's client coordinates, the key pressed, the result of the
 * raycast against the bubble, the clock's elapsed time and the random
 * draws the particle system makes.
 */
module Bubble {
  import opened Wrappers
  import opened MathModel
  import opened Performance
  import opened Particles

  // ---------------------------------------------------------------------------
  // Pointer normalisation

  /** `clientX / innerWidth * 2 - 1`: the horizontal pointer position in
      normalised device coordinates. */
  function PointerX(clientX: real, width: real): real
    requires width > 0.0
  {
    clientX / width * 2.0 - 1.0
  }

  /** `-(clientY / innerHeight) * 2 + 1`: the vertical one, with the sign
      inverted because client coordinates grow downwards. */
  function PointerY(clientY: real, height: real): (y: real)
    requires height > 0.0
    ensures y == -PointerX(clientY, height)
  {
    -(clientY / height) * 2.0 + 1.0
  }

  /** A client coordinate inside the window maps into [-1, 1], its two edges
      to -1 and 1, and the mapping can be undone. */
  lemma PointerRange(client: real, size: real)
    requires size > 0.0
    ensures 0.0 <= client <= size ==> -1.0 <= PointerX(client, size) <= 1.0
    ensures PointerX(0.0, size) == -1.0 && PointerX(size, size) == 1.0
    ensures (PointerX(client, size) + 1.0) / 2.0 * size == client
  {
    var q := client / size;
    assert q * size == client;
    if 0.0 <= client <= size {
      assert 0.0 <= q <= 1.0;
    }
  }

  /** `(mouse.x * 2, mouse.y * 2, 0)`: the pointer as handed to the particles. */
  function MouseWorld(mouse: Vec2): (w: Vec3)
    ensures w.z == 0.0
    ensures -1.0 <= mouse.x <= 1.0 && -1.0 <= mouse.y <= 1.0 ==>
      -2.0 <= w.x <= 2.0 && -2.0 <= w.y <= 2.0
  {
    Vec3(mouse.x * 2.0, mouse.y * 2.0, 0.0)
  }

  /** What the raycast against the bubble found. */
  datatype RayHit = Miss | Hit(uv: Option<Vec2>)

  /** The ripple centre moves to the hit's texture coordinate, if there is one. */
  function RippleCenterAfter(center: Vec2, hit: RayHit): (c: Vec2)
    ensures (hit.Hit? && hit.uv.Some?) ==> c == hit.uv.value
    ensures !(hit.Hit? && hit.uv.Some?) ==> c == center
  {
    match hit
    case Hit(Some(uv)) => uv
    case _ => center
  }

  // ---------------------------------------------------------------------------
  // Ripple strength

  /** The values the ripple strength can take: 0, or between 0.01 and 1. */
  predicate RippleInRange(s: real) { s == 0.0 || 0.01 <= s <= 1.0 }

  /** The ripple part of `update`: a positive strength is multiplied by 0.95
      and dropped to 0 once below 0.01. */
  function RippleDecay(s: real): (r: real)
    ensures RippleInRange(s) ==> RippleInRange(r)
    ensures s <= 0.0 ==> r == s
    ensures s > 0.0 && s * 0.95 >= 0.01 ==> r == s * 0.95
    ensures s > 0.0 && s * 0.95 < 0.01 ==> r == 0.0
  {
    if s > 0.0 then
      if s * 0.95 < 0.01 then 0.0 else s * 0.95
    else s
  }

  /** The ripple strength after `k` updates without interaction. */
  function RippleAfter(s: real, k: nat): real {
    if k == 0 then s else RippleDecay(RippleAfter(s, k - 1))
  }

  lemma {:induction false} PowAdd(x: real, a: nat, b: nat)
    ensures Pow(x, a + b) == Pow(x, a) * Pow(x, b)
  {
    if a > 0 {
      PowAdd(x, a - 1, b);
      assert Pow(x, a + b) == x * Pow(x, a - 1 + b);
    }
  }

  /** 0.95^89 is still at least 0.01 and 0.95^90 is below it. */
  lemma RippleThreshold()
    ensures Pow(0.95, 89) >= 0.01
    ensures Pow(0.95, 90) < 0.01
  {
    assert Pow(0.95, 10) == 6131066257801.0 / 10240000000000.0;
    assert Pow(0.95, 9) == 322687697779.0 / 512000000000.0;
    PowAdd(0.95, 10, 10);
    PowAdd(0.95, 20, 20);
    PowAdd(0.95, 40, 40);
    PowAdd(0.95, 80, 9);
    PowAdd(0.95, 89, 1);
  }

  /** The powers of 0.95 decrease, so every one up to the 89th is at least 0.01. */
  lemma {:induction false} PowAtLeastThreshold(k: nat)
    requires k <= 89
    ensures Pow(0.95, k) >= Pow(0.95, 89)
    decreases 89 - k
  {
    if k < 89 {
      PowAtLeastThreshold(k + 1);
      PowNonNegative(k);
    }
  }

  lemma {:induction false} PowNonNegative(k: nat)
    ensures Pow(0.95, k) >= 0.0
  {
    if k > 0 {
      PowNonNegative(k - 1);
    }
  }

  /** After an interaction, the ripple strength is 0.95^k after k updates
      for k < 90, and 0 from the 90th update on. */
  lemma {:induction false} RippleFadesIn90Updates(k: nat)
    ensures k < 90 ==> RippleAfter(1.0, k) == Pow(0.95, k)
    ensures k >= 90 ==> RippleAfter(1.0, k) == 0.0
  {
    if k > 0 {
      RippleFadesIn90Updates(k - 1);
      RippleThreshold();
      if k < 90 {
        PowAtLeastThreshold(k);
      }
    }
  }

  // ---------------------------------------------------------------------------
  // Keys

  datatype KeyAction = Interact | RotateY(delta: real) | RotateX(delta: real) | NoAction

  /** The `keydown` dispatch. */
  function KeyActionOf(key: string): (a: KeyAction)
    ensures a == Interact <==> key == "Enter" || key == " "
    ensures a == RotateY(0.1) <==> key == "ArrowLeft"
    ensures a == RotateY(-0.1) <==> key == "ArrowRight"
    ensures a == RotateX(0.1) <==> key == "ArrowUp"
    ensures a == RotateX(-0.1) <==> key == "ArrowDown"
    ensures a == NoAction <==> key !in {"Enter", " ", "ArrowLeft", "ArrowRight", "ArrowUp", "ArrowDown"}
  {
    if key == "Enter" || key == " " then Interact
    else if key == "ArrowLeft" then RotateY(0.1)
    else if key == "ArrowRight" then RotateY(-0.1)
    else if key == "ArrowUp" then RotateX(0.1)
    else if key == "ArrowDown" then RotateX(-0.1)
    else NoAction
  }

  // ---------------------------------------------------------------------------
  // Viewport

  /** `camera.aspect = width / height`. */
  function Aspect(width: real, height: real): (a: real)
    requires height > 0.0
    ensures a * height == width
    ensures width > 0.0 ==> a > 0.0
  {
    width / height
  }

  /** The FXAA `resolution` uniform: one over the drawing-buffer size in
      device pixels, on each axis. */
  function FxaaResolution(width: real, height: real, pixelRatio: real): (r: Vec2)
    requires width > 0.0 && height > 0.0 && pixelRatio > 0.0
    ensures r.x > 0.0 && r.x * (width * pixelRatio) == 1.0
    ensures r.y > 0.0 && r.y * (height * pixelRatio) == 1.0
  {
    Vec2(1.0 / (width * pixelRatio), 1.0 / (height * pixelRatio))
  }

  // ---------------------------------------------------------------------------
  // Float

  /** The bubble's float: `(cos(time * 0.3) * 0.05, sin(time * 0.5) * 0.1)`. */
  function FloatOffset(m: MathLib, time: real): Vec2 {
    Vec2(m.cos(time * 0.3) * 0.05, m.sin(time * 0.5) * 0.1)
  }

  /** The bubble floats within 0.05 horizontally and 0.1 vertically. */
  lemma FloatOffsetBounded(m: MathLib, time: real)
    requires Lawful(m)
    ensures -0.05 <= FloatOffset(m, time).x <= 0.05
    ensures -0.1 <= FloatOffset(m, time).y <= 0.1
  {
  }

  // ---------------------------------------------------------------------------
  // The scene

  /** The scene's own fields, as one value: what a handler changes is stated
      as an update of the old value, so every other field keeps its value. */
  datatype SceneState = SceneState(
    mouse: Vec2,
    mouseWorld: Vec3,
    rippleCenter: Vec2,
    rippleStrength: real,
    rippleUniform: real,
    timeUniform: real,
    rotationX: real,
    rotationY: real,
    floatOffset: Vec2,
    aspect: real,
    viewport: Vec2,
    fxaaResolution: Option<Vec2>)

  class BubbleScene {
    const particleSystem: ParticleSystem
    const config: PerformanceConfig
    var mouse: Vec2
    var mouseWorld: Vec3
    var rippleCenter: Vec2             // also the `uRippleCenter` uniform, which shares it
    var rippleStrength: real
    var rippleUniform: real            // `uRippleStrength`
    var timeUniform: real              // `uTime`
    var rotationX: real                // bubble.rotation.x
    var rotationY: real                // bubble.rotation.y
    var floatOffset: Vec2              // bubble.position.x and .y
    var aspect: real                   // camera.aspect
    var viewport: Vec2                 // the renderer's size
    var fxaaResolution: Option<Vec2>   // None when there is no composer

    function State(): SceneState
      reads this
    {
      SceneState(mouse, mouseWorld, rippleCenter, rippleStrength, rippleUniform, timeUniform,
                 rotationX, rotationY, floatOffset, aspect, viewport, fxaaResolution)
    }

    /** The particle system has the configured size, the ripple strength is
        in range, and an FXAA pass exists exactly when post-processing is on. */
    ghost predicate Valid()
      reads this, particleSystem
    {
      && particleSystem.Valid()
      && particleSystem.particleCount == config.particleCount
      && 0.0 < config.pixelRatio
      && RippleInRange(rippleStrength)
      && (fxaaResolution.Some? <==> config.enablePostProcessing)
    }

    /** The FXAA resolution for a window size: present exactly when
        post-processing is enabled. */
    function FxaaFor(width: real, height: real): Option<Vec2>
      requires width > 0.0 && height > 0.0 && 0.0 < config.pixelRatio
    {
      if config.enablePostProcessing then Some(FxaaResolution(width, height, config.pixelRatio)) else None
    }

    /** `new BubbleScene(canvas)`: fetch the shared performance manager, size
        the camera and renderer to the window, build the particle system
        with the configured count around a bubble of radius 1, and set up
        post-processing when the configuration enables it. `draws` holds
        the particle system's draws; only the first `particleCount` are used. */
    constructor (slot: ManagerSlot, env: Environment, width: real, height: real,
                 m: MathLib, draws: seq<ParticleDraws>)
      requires slot.Valid() && env.devicePixelRatio > 0.0
      requires width > 0.0 && height > 0.0
      requires |draws| >= 150 && forall i :: 0 <= i < |draws| ==> DrawsOk(draws[i])
      modifies slot
      ensures Valid() && slot.Valid() && slot.instance != null
      ensures config == slot.instance.config
      ensures old(slot.instance) != null ==> slot.instance == old(slot.instance)
      ensures old(slot.instance) == null ==> config == DetectQuality(env)
      ensures fresh(particleSystem)
      ensures forall i :: 0 <= i < config.particleCount ==>
        Spawned(m, 1.0, draws[i], particleSystem.basePositions[i], particleSystem.phases[i],
                VelocityAt(particleSystem.velocities, i), particleSystem.positions[i],
                particleSystem.scales[i])
      ensures !particleSystem.dispersing && particleSystem.disperseTime == 0.0
      ensures particleSystem.opacity == 0.6
      ensures State() == SceneState(
        Vec2(0.0, 0.0), Origin, Vec2(0.5, 0.5), 0.0, 0.0, 0.0, 0.0, 0.0, Vec2(0.0, 0.0),
        Aspect(width, height), Vec2(width, height), FxaaFor(width, height))
    {
      var manager := slot.GetInstance(env);
      var cfg := manager.GetConfig();
      config := cfg;
      particleSystem := new ParticleSystem(cfg.particleCount, 1.0, m, draws[..cfg.particleCount]);
      mouse := Vec2(0.0, 0.0);
      mouseWorld := Origin;
      rippleCenter := Vec2(0.5, 0.5);
      rippleStrength := 0.0;
      rippleUniform := 0.0;
      timeUniform := 0.0;
      rotationX := 0.0;
      rotationY := 0.0;
      floatOffset := Vec2(0.0, 0.0);
      aspect := Aspect(width, height);
      viewport := Vec2(width, height);
      fxaaResolution := if cfg.enablePostProcessing
        then Some(FxaaResolution(width, height, cfg.pixelRatio)) else None;
    }

    /** `onResize`: the camera aspect follows the window, the renderer takes
        its size, and the FXAA resolution is recomputed when there is a
        composer. Nothing else changes. */
    method OnResize(width: real, height: real)
      requires Valid() && width > 0.0 && height > 0.0
      modifies this
      ensures Valid()
      ensures State() == old(State()).(aspect := Aspect(width, height),
        viewport := Vec2(width, height), fxaaResolution := FxaaFor(width, height))
    {
      aspect := Aspect(width, height);
      viewport := Vec2(width, height);
      if fxaaResolution.Some? {
        fxaaResolution := Some(FxaaResolution(width, height, config.pixelRatio));
      }
    }

    /** `onMouseMove`: normalise the pointer, then move the ripple centre to
        the texture coordinate the raycast hit, if any. Nothing else changes. */
    method OnMouseMove(clientX: real, clientY: real, width: real, height: real, hit: RayHit)
      requires Valid() && width > 0.0 && height > 0.0
      modifies this
      ensures Valid()
      ensures State() == old(State()).(
        mouse := Vec2(PointerX(clientX, width), PointerY(clientY, height)),
        rippleCenter := RippleCenterAfter(old(rippleCenter), hit))
    {
      mouse := Vec2(PointerX(clientX, width), PointerY(clientY, height));
      match hit {
        case Hit(Some(uv)) =>
          rippleCenter := uv;
        case _ =>
      }
    }

    /** `onTouchMove`: the first touch, if there is one, moves the pointer
        like the mouse does (without a raycast). Nothing else changes. */
    method OnTouchMove(touches: seq<Vec2>, width: real, height: real)
      requires Valid() && width > 0.0 && height > 0.0
      modifies this
      ensures Valid()
      ensures |touches| > 0 ==> State() == old(State()).(
        mouse := Vec2(PointerX(touches[0].x, width), PointerY(touches[0].y, height)))
      ensures |touches| == 0 ==> State() == old(State())
    {
      if |touches| > 0 {
        var touch := touches[0];
        mouse := Vec2(PointerX(touch.x, width), PointerY(touch.y, height));
      }
    }

    /** `onInteract`: a full-strength ripple, and the particles disperse.
        Nothing else in the scene changes, and the particles keep their
        positions, scales, phases and opacity. */
    method OnInteract(draws: seq<Vec3>)
      requires Valid() && |draws| == particleSystem.particleCount
      requires forall k :: 0 <= k < |draws| ==> VecDraw(draws[k])
      modifies this, particleSystem, particleSystem.velocities
      ensures Valid()
      ensures State() == old(State()).(rippleStrength := 1.0)
      ensures particleSystem.dispersing && particleSystem.disperseTime == 0.0
      ensures forall k :: 0 <= k < particleSystem.particleCount ==>
        VelocityAt(particleSystem.velocities, k) == DisperseVelocities(draws[k])
      ensures particleSystem.opacity == old(particleSystem.opacity)
      ensures unchanged(particleSystem.phases, particleSystem.positions, particleSystem.scales)
    {
      rippleStrength := 1.0;
      particleSystem.Disperse(draws);
    }

    /** The `keydown` listener: Enter and Space interact (and the default
        action is prevented), the arrow keys turn the bubble by 0.1, and
        every other key changes nothing. */
    method OnKeyDown(key: string, draws: seq<Vec3>) returns (preventDefault: bool)
      requires Valid() && |draws| == particleSystem.particleCount
      requires forall k :: 0 <= k < |draws| ==> VecDraw(draws[k])
      modifies this, particleSystem, particleSystem.velocities
      ensures Valid()
      ensures preventDefault <==> KeyActionOf(key) == Interact
      ensures KeyActionOf(key) == Interact ==>
        && State() == old(State()).(rippleStrength := 1.0)
        && particleSystem.dispersing && particleSystem.disperseTime == 0.0
        && (forall k :: 0 <= k < particleSystem.particleCount ==>
              VelocityAt(particleSystem.velocities, k) == DisperseVelocities(draws[k]))
        && particleSystem.opacity == old(particleSystem.opacity)
        && unchanged(particleSystem.phases, particleSystem.positions, particleSystem.scales)
      ensures KeyActionOf(key) != Interact ==> unchanged(particleSystem, particleSystem.velocities)
      ensures KeyActionOf(key).RotateY? ==>
        State() == old(State()).(rotationY := old(rotationY) + KeyActionOf(key).delta)
      ensures KeyActionOf(key).RotateX? ==>
        State() == old(State()).(rotationX := old(rotationX) + KeyActionOf(key).delta)
      ensures KeyActionOf(key) == NoAction ==> State() == old(State())
    {
      preventDefault := false;
      match KeyActionOf(key) {
        case Interact =>
          preventDefault := true;
          OnInteract(draws);
        case RotateY(d) =>
          rotationY := rotationY + d;
        case RotateX(d) =>
          rotationX := rotationX + d;
        case NoAction =>
      }
    }

    /** `update()`: publish the time, ease the rotation towards the pointer,
        float the bubble, decay the ripple, and step the particles with the
        pointer scaled into the scene. The pointer, the ripple centre and the
        viewport are untouched. */
    method Update(m: MathLib, time: real)
      requires Valid()
      modifies this, particleSystem, particleSystem.positions, particleSystem.scales
      ensures Valid()
      ensures State() == old(State()).(
        timeUniform := time,
        rotationY := Approach(old(rotationY), old(mouse).x * 0.3),
        rotationX := Approach(old(rotationX), -old(mouse).y * 0.3),
        floatOffset := FloatOffset(m, time),
        rippleStrength := RippleDecay(old(rippleStrength)),
        rippleUniform := RippleDecay(old(rippleStrength)),
        mouseWorld := MouseWorld(old(mouse)))
      ensures particleSystem.Timer() == TickTimer(old(particleSystem.Timer()))
      ensures particleSystem.positions[..] ==
        StepAll(m, time, mouseWorld, particleSystem.basePositions, particleSystem.phases[..],
                particleSystem.velocities[..], particleSystem.Timer(), old(particleSystem.positions[..]))
      ensures forall i :: 0 <= i < particleSystem.particleCount ==>
        particleSystem.scales[i] == Pulse(m, time, particleSystem.phases[i])
      ensures particleSystem.opacity == Opacity(m, time)
    {
      Animate(m, time);
      particleSystem.Update(m, time, mouseWorld);
    }

    /** The part of `update()` before the particles: the scene's own fields. */
    method Animate(m: MathLib, time: real)
      requires Valid()
      modifies this
      ensures Valid()
      ensures State() == old(State()).(
        timeUniform := time,
        rotationY := Approach(old(rotationY), old(mouse).x * 0.3),
        rotationX := Approach(old(rotationX), -old(mouse).y * 0.3),
        floatOffset := FloatOffset(m, time),
        rippleStrength := RippleDecay(old(rippleStrength)),
        rippleUniform := RippleDecay(old(rippleStrength)),
        mouseWorld := MouseWorld(old(mouse)))
    {
      timeUniform := time;
      rotationY := Approach(rotationY, mouse.x * 0.3);
      rotationX := Approach(rotationX, -mouse.y * 0.3);
      floatOffset := FloatOffset(m, time);
      rippleStrength := RippleDecay(rippleStrength);
      rippleUniform := rippleStrength;
      mouseWorld := MouseWorld(mouse);
    }
  }
}
