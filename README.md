# bolhas.org — a Dafny model of the bubble scene's logic

bolhas.org draws an iridescent soap bubble surrounded by a cloud of small
particles with three.js. This project models three pieces of logic inside
that rendering code, in exact real arithmetic:

- **The quality classifier** (`src/utils/performance.ts`). `detectQuality`
  picks a quality level. A valid `perf` URL override wins. Otherwise the
  level depends on the availability of a WebGL context, the user agent and
  the GPU renderer string. `getConfigForLevel` maps the level to a fixed
  table of settings. `getInstance` creates the single `PerformanceManager`
  lazily. The browser is an `Environment` value. The regular expressions
  are modelled as explicit substring searches (`TextMatch`).
- **The particle system** (`src/scene/ParticleSystem.ts`). This is a class
  holding the flat velocity buffer (three components per particle), the
  phases, the base positions, the instance positions and scales, and the
  disperse timer. The constructor places each particle on a spherical shell
  around the bubble. `Update` advances the timer and moves every particle 5%
  of the way to its target: an orbit around its base, pushed away from the
  pointer, and while dispersing kicked along the particle's random velocity
  and then pulled back towards its base.
  `Disperse` rewrites the velocity buffer and restarts the timer.
- **The bubble scene's interaction state** (`src/scene/BubbleScene.ts`).
  This is a class holding the normalised pointer, the ripple centre and
  strength, the bubble's rotation and float, the camera aspect and the FXAA
  resolution. The window's event handlers and the per-frame `Update` change
  these fields.

`Math.random` draws are parameters, each constrained to `[0, 1)`.
`Math.sin`, `cos`, `acos`, `sqrt` and `PI` are the fields of a `MathLib`
value. The predicate `Lawful` states what the proofs use about them: sine
and cosine lie in [-1, 1] and satisfy sin² + cos² = 1; the square root is
the non-negative root; pi is between 3.14159 and 3.14160. The clock's
elapsed time, the window size, the key pressed and the raycast result are
parameters of the methods that read them.

Modules: `Wrappers` (Option), `MathModel` (vectors, the 5% smoothing step,
powers), `TextMatch` (regular-expression search), `Performance`,
`Particles`, `Bubble`.

## Model

| member | source | states |
|---|---|---|
| `Performance.ConfigForLevel` | src/utils/performance.ts:66-96 | The level table. Every config has `level` equal to the requested level and shadows off. High has 150 particles, post-processing and refraction on, and pixel ratio min(dpr, 2). Medium has 80 particles, pixel ratio 1.5, post-processing on and refraction off. Low has 40 particles, pixel ratio 1, and post-processing and refraction off. The pixel ratio is always at most 2, and positive when dpr is. |
| `Performance.ParseOverride` | src/utils/performance.ts:28-33 | The override is a level exactly when `perf` is "high", "medium" or "low". It is absent for null, for the empty string and for anything else (both directions). |
| `TextMatch.Lower` | src/utils/performance.ts:36 | The `/i` flag: the lower-cased string has the same length, contains no capital letter, and agrees with the input character by character ignoring case (same upper-case form). |
| `TextMatch.LowerAgreesWithUpper` | src/utils/performance.ts:36 | Two characters lower-case alike exactly when they upper-case alike, so comparing lower-cased text is comparing ignoring case. |
| `TextMatch.LowerStartsWith` | src/utils/performance.ts:36-39 | A pattern without capitals starts the lower-cased string exactly when it starts the string ignoring case (both directions). |
| `TextMatch.SearchFindsStart` | src/utils/performance.ts:36-39 | `RegExp.test` as a search: it succeeds iff some suffix of the input starts with a match (both directions). |
| `TextMatch.SearchMonotone` | src/utils/performance.ts:36-39 | A pattern whose matches are all matches of a second pattern finds nothing that the second one misses. |
| `TextMatch.AnyOnLineThenFinds` | src/utils/performance.ts:53 | `.*` in `Intel.*HD`: it succeeds iff `HD` occurs at some offset reached without crossing a line terminator (both directions). |
| `Performance.IsMobile` | src/utils/performance.ts:35-38 | `isMobile` holds iff one of the eight mobile alternatives occurs, ignoring case, at some position of the user agent (both directions). |
| `Performance.IsLowEndGpu` | src/utils/performance.ts:53 | `isLowEndGPU` holds iff `Intel…HD`, `Mali` or `Adreno [1-5]` occurs, case respected, at some position of the renderer string (both directions). |
| `Performance.TabletIsNeverDetected` | src/utils/performance.ts:35-39 | `isTablet` is false for every user agent, because the mobile pattern lists both `iPad` and `Android`. |
| `Performance.AutoLevel` | src/utils/performance.ts:35-63 | With no WebGL context the level is low. A mobile user agent or a low-end GPU gives low. Auto-detection never gives medium. It gives high iff a context exists and the device is neither mobile nor low-end. |
| `Performance.DetectLevel` | src/utils/performance.ts:27-63 | A valid override decides the level. Without one, auto-detection decides. Medium is reached only through `perf=medium`. |
| `Performance.DetectQuality` | src/utils/performance.ts:27-64 | The detected configuration is always one of the table's rows for its own level. Medium only comes from `perf=medium`. The pixel ratio lies in (0, 2] for a positive dpr. |
| `Performance.OverrideIgnoresDevice` | src/utils/performance.ts:28-33 | Two environments with the same valid override and dpr get the same config, whatever their user agent, context and GPU. |
| `Performance.NoContextMeansLow` | src/utils/performance.ts:41-46 | Without an override and without a WebGL context, the config is the low one: 40 particles, no post-processing. |
| `Performance.PerformanceManager.constructor` | src/utils/performance.ts:16-18 | The manager stores the config detected from its environment. |
| `Performance.PerformanceManager.GetConfig` | src/utils/performance.ts:98-100 | It returns the config computed at construction. That config has 40, 80 or 150 particles, shadows off, and a pixel ratio in (0, 2]. |
| `Performance.ManagerSlot.constructor` | src/utils/performance.ts:13 | The static slot starts empty. |
| `Performance.ManagerSlot.GetInstance` | src/utils/performance.ts:20-25 | It constructs a manager only when the slot is empty. Otherwise it returns the stored instance unchanged. A new manager holds the config detected from the current environment. |
| `MathModel.LengthNonNegative` | src/scene/ParticleSystem.ts:93-98 | `Vector3.length()` is never negative. |
| `MathModel.NormalizeFactor` | src/scene/ParticleSystem.ts:102 | The factor `normalize()` scales by is positive. For a non-zero length it is the length's inverse. |
| `MathModel.Approach` | src/scene/ParticleSystem.ts:126-128 | `p += (target - p) * 0.05`: the gap to the target shrinks by the factor 0.95. The new value lies between the old value and the target. |
| `MathModel.ApproachVecCloses` | src/scene/ParticleSystem.ts:126-128 | After the step, the vector to the target is 0.95 times the old one. Each coordinate lies between its old value and the target's. |
| `MathModel.ApproachNGap` | src/scene/BubbleScene.ts:264-265 | k smoothing steps towards a fixed target leave 0.95^k of the initial gap. |
| `Particles.InitialVelocity` | src/scene/ParticleSystem.ts:43-45 | An initial velocity component lies in [-0.005, 0.005). |
| `Particles.DisperseVelocity` | src/scene/ParticleSystem.ts:149-151 | A velocity component written by `disperse` lies in [-0.01, 0.01). |
| `Particles.ShellRadius` | src/scene/ParticleSystem.ts:34 | The base radius lies in [bubbleRadius + 0.3, bubbleRadius + 0.7). |
| `Particles.AngleRange` | src/scene/ParticleSystem.ts:32-41 | `Math.random() * Math.PI * 2`, the azimuth theta and the orbit phase, lies in [0, 2 pi). |
| `Particles.SpherePointOnShell` | src/scene/ParticleSystem.ts:32-38 | The base position built from theta, phi = acos(2u - 1) and r lies at distance r from the origin, the bubble's rest position: its squared norm is r². |
| `Particles.SphericalNorm` | src/scene/ParticleSystem.ts:36-38 | The spherical-to-Cartesian formulas preserve the radius whenever sin² + cos² = 1 for both angles. |
| `Particles.TickTimer` | src/scene/ParticleSystem.ts:63-70 | When not dispersing, the timer is untouched. While dispersing, the time grows by 0.016 when that stays at most 2.0. Otherwise dispersing stops and the time resets to 0. Each tick keeps the timer's invariant (time in [0, 2], and 0 when not dispersing). |
| `Particles.DisperseLasts125Updates` | src/scene/ParticleSystem.ts:63-70 | After a disperse, the first 125 updates keep dispersing with time 0.016·k. From the 126th on, dispersing is off and the time is 0. |
| `Particles.DisperseForce` | src/scene/ParticleSystem.ts:110 | `min(t / 0.3, 1)` lies in [0, 1] for t ≥ 0, and equals 1 from t = 0.3 on. |
| `Particles.ReturnForce` | src/scene/ParticleSystem.ts:111 | `max((t - 0.5) / 1.5, 0)` is never negative, and is 0 iff t ≤ 0.5. |
| `Particles.MouseFalloff` | src/scene/ParticleSystem.ts:101 | `(1.5 - dist) / 1.5` lies in (0, 1] for dist in [0, 1.5). |
| `Particles.PushFactor` | src/scene/ParticleSystem.ts:93-102 | The push factor is 0 unless the pointer is off-centre (length > 0.01) and the particle is closer than 1.5 to it. |
| `Particles.PushPointsAway` | src/scene/ParticleSystem.ts:93-106 | The push is a non-negative multiple of `position - mouse`, so it points away from the pointer. The factor is positive iff the pointer gate and the distance gate both hold. |
| `Particles.MousePush` | src/scene/ParticleSystem.ts:93-106 | When either gate fails, the pointer adds nothing to the target. |
| `Particles.PushLength` | src/scene/ParticleSystem.ts:93-106 | When the pointer reaches a particle at a non-zero distance, the push has length `force * 0.3`: its squared norm is the square of `MouseFalloff(dist) * 0.3`. A particle exactly at the pointer gets no push, since `normalize()` leaves the zero vector zero. |
| `Particles.OrbitNearBase` | src/scene/ParticleSystem.ts:86-91 | The orbit target stays within 0.08 of the base position on every axis. |
| `Particles.Target` | src/scene/ParticleSystem.ts:86-124 | When not dispersing and out of the pointer's reach, the target is the orbit point. |
| `Particles.QuietTargetNearBase` | src/scene/ParticleSystem.ts:86-124 | When not dispersing and out of the pointer's reach, the target is within 0.08 of the base on every axis. |
| `Particles.StepClosesGap` | src/scene/ParticleSystem.ts:126-128 | One step leaves 0.95 of the vector from the particle to its target. For a quiet particle out of the pointer's reach, it leaves 0.95 of the vector to its orbit point. |
| `Particles.StepAll` | src/scene/ParticleSystem.ts:72-128 | One `update` yields exactly one new position per particle. |
| `Particles.PulseAndOpacityRange` | src/scene/ParticleSystem.ts:130-141 | The pulse scale lies in [0.7, 1.0] and the material's opacity in [0.5, 0.7]. |
| `Particles.WriteVelocity` | src/scene/ParticleSystem.ts:43-45 | It writes a particle's three slots `3i`, `3i+1`, `3i+2` of the velocity buffer and leaves every other particle's velocity as it was. |
| `Particles.ParticleSystem.constructor` | src/scene/ParticleSystem.ts:16-54 | The buffers have 3·count and count entries. Every particle is spawned from its own draws: its base lies on the shell, it has its phase and initial velocity, it starts at its base with scale 1. The system is not dispersing, and the opacity is 0.6. |
| `Particles.ParticleSystem.Update` | src/scene/ParticleSystem.ts:60-142 | The timer ticks first. Then every particle, each exactly once, takes one 5% step towards its target computed with the new timer, and gets its pulse scale. The opacity follows the time. The buffers stay aligned and the timer keeps its invariant. |
| `Particles.ParticleSystem.MoveParticle` | src/scene/ParticleSystem.ts:73-134 | Particle i takes its step and gets its pulse scale. Every other particle is untouched. |
| `Particles.ParticleSystem.Disperse` | src/scene/ParticleSystem.ts:144-153 | Dispersing is on and the time is 0, also when already dispersing. Every particle gets its new velocity. Phases, positions, scales, base positions, count and opacity are unchanged. |
| `Bubble.PointerY` | src/scene/BubbleScene.ts:231 | The vertical coordinate is the horizontal formula with the sign inverted. |
| `Bubble.PointerRange` | src/scene/BubbleScene.ts:230-231 | A client coordinate inside the window maps into [-1, 1]. The window's edges map to -1 and 1, and the mapping can be undone. |
| `Bubble.MouseWorld` | src/scene/BubbleScene.ts:278 | The particles' pointer is `(2x, 2y, 0)`, within [-2, 2] on each axis for a normalised pointer. |
| `Bubble.RippleCenterAfter` | src/scene/BubbleScene.ts:236-241 | A hit with texture coordinates moves the ripple centre there. A miss, or a hit without uv, leaves it unchanged. |
| `Bubble.RippleDecay` | src/scene/BubbleScene.ts:272-275 | The ripple strength stays in {0} ∪ [0.01, 1]. Zero stays zero. A positive strength becomes 0.95 times itself when that is at least 0.01, and 0 when it is below. |
| `Bubble.RippleThreshold` | src/scene/BubbleScene.ts:274 | 0.95^89 ≥ 0.01 > 0.95^90. |
| `Bubble.RippleFadesIn90Updates` | src/scene/BubbleScene.ts:272-275 | After an interaction, the strength is 0.95^k after k < 90 updates, and 0 from the 90th on. |
| `Bubble.KeyActionOf` | src/scene/BubbleScene.ts:183-196 | Enter and Space interact. ArrowLeft/ArrowRight turn about y by +0.1/-0.1, and ArrowUp/ArrowDown about x by +0.1/-0.1. Every other key does nothing. Each case holds in both directions. |
| `Bubble.Aspect` | src/scene/BubbleScene.ts:203 | aspect × height = width; the aspect is positive for a positive width. |
| `Bubble.FxaaResolution` | src/scene/BubbleScene.ts:137-143 | Each component is positive and inverts the drawing-buffer size in device pixels on its axis. |
| `Bubble.FloatOffsetBounded` | src/scene/BubbleScene.ts:267-270 | The bubble floats within 0.05 horizontally and 0.1 vertically. |
| `Bubble.BubbleScene.constructor` | src/scene/BubbleScene.ts:25-98 | It takes the config from the shared manager, which it creates only if absent. The particle system has the configured count around radius 1: each particle spawned from its draws, the timer off, opacity 0.6. Every scene field is given: the pointer and the particles' pointer at 0, the ripple centre at (0.5, 0.5), strength and uniforms 0, no rotation or float, the aspect and viewport from the window, and an FXAA resolution iff post-processing is enabled. |
| `Bubble.BubbleScene.OnResize` | src/scene/BubbleScene.ts:199-227 | The aspect becomes width/height and the viewport the window size. With a composer, the FXAA resolution is recomputed. Every other scene field keeps its value, and the particles are untouched. |
| `Bubble.BubbleScene.OnMouseMove` | src/scene/BubbleScene.ts:229-242 | The pointer is normalised. The ripple centre follows the raycast hit's uv, if any. Every other scene field keeps its value. |
| `Bubble.BubbleScene.OnTouchMove` | src/scene/BubbleScene.ts:244-250 | The first touch moves the pointer, and nothing else changes. With no touches, nothing changes at all. |
| `Bubble.BubbleScene.OnInteract` | src/scene/BubbleScene.ts:252-255 | The ripple strength is exactly 1 and every other scene field keeps its value. The particles disperse: timer on at 0, every velocity rewritten from the draws. Their phases, positions, scales and opacity are unchanged. |
| `Bubble.BubbleScene.OnKeyDown` | src/scene/BubbleScene.ts:183-196 | The default is prevented exactly for Enter and Space. Those have the whole effect of `OnInteract`. An arrow key adds exactly ±0.1 to one rotation angle and changes nothing else: no scene field, no particle field, no velocity. Any other key changes nothing. |
| `Bubble.BubbleScene.Animate` | src/scene/BubbleScene.ts:258-278 | The time is published. Each rotation takes one 5% step towards 0.3·mouse.x and -0.3·mouse.y. The bubble floats. The ripple decays once and is published. The particles' pointer becomes `(2x, 2y, 0)`. Pointer, ripple centre, aspect, viewport and FXAA resolution are unchanged. |
| `Bubble.BubbleScene.Update` | src/scene/BubbleScene.ts:257-287 | The scene fields change exactly as in `Animate`. Then the particle timer ticks, and every particle takes one step towards its target with the new pointer. Each particle gets its pulse scale, and the opacity follows the time. The scene invariant is kept. |

## Left out

- Rendering is not modelled: the renderer, `EffectComposer` and its render, bloom and chromatic-aberration passes, the shader materials and GLSL, the lights, `createEnvironmentTexture` and `composer.render`/`renderer.render`. These are three.js calls with no decisions of their own; only the FXAA `resolution` uniform, `camera.aspect` and the renderer's size are kept.
- `camera.updateProjectionMatrix`, the tone mapping, the renderer's `antialias` option and the camera position uniform are not modelled: they are pure three.js configuration.
- Raycasting is not modelled: `raycaster.intersectObject` becomes the `RayHit` parameter of `OnMouseMove`.
- The clock is not modelled: `THREE.Clock.getElapsedTime` becomes the `time` parameter of `Update`.
- Instance matrices are not modelled: `getMatrixAt`/`decompose`/`updateMatrix`/`setMatrixAt` are represented by a position array and a uniform-scale array per particle; rotation and the quaternion are left out.
- Floating point is not modelled: numbers, including the `Float32Array` buffers, are exact reals, and the results hold in exact arithmetic. With IEEE doubles the timer's 126-update count and the ripple's 90-update count could differ by rounding.
- `Math.random` is not modelled: its draws are parameters. The constructor receives one `ParticleDraws` per particle, and `Disperse` one triple per particle. `BubbleScene.constructor` receives draws for the largest count (150) and uses the first `particleCount`.
- `Math` functions are not modelled: they are fields of `MathLib`, constrained only by `Lawful`.
- Browser inputs are not modelled: `navigator.userAgent`, the URL query, WebGL context creation, the debug-renderer extension and `window.devicePixelRatio` are fields of `Environment`. The device pixel ratio is required to be positive, as it is in every browser.
- A window of zero width or height is not modelled: the handlers require positive sizes, because JavaScript would divide by zero into `Infinity`/`NaN` there.
- Only ASCII letters are case-folded for the `/i` flag: the user-agent and renderer strings are matched as ASCII. Full Unicode case folding is left out.
- `supportsWebGL2` and `supportsFloatTextures` are not modelled: they are capability probes that nothing in the scene calls.
- `getMesh` and the `dispose` methods of both classes are not modelled: they hand out or release three.js resources.
- Event-listener registration (`setupEventListeners`) is not modelled, nor the ordering between events and frames. Each handler is a method and the click/touchstart listeners are `OnInteract`.
- `src/main.ts` (the animation loop and the page's DOM) is not part of this model.
- `Bubble.BubbleScene` is not modelled as sharing the `rippleCenter` vector with the `uRippleCenter` uniform; the model keeps one field, which stands for both.
- `Particles.StepAll` by itself states only that one position comes out per particle. The positions' values are given by `Particles.Step`, which `ParticleSystem.Update` and `MoveParticle` state outright, and `Particles.StepClosesGap` states what one step does.
