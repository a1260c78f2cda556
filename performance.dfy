/**
 * The quality classifier of `src/utils/performance.ts`: a decision tree over
 * the `perf` query parameter, the user agent, the availability of a WebGL
 * context and the GPU renderer string, and the fixed table of settings for
 * each quality level. The browser is represented by an `Environment` value.
 */
module Performance {
  import opened Wrappers
  import opened TextMatch

  datatype QualityLevel = High | Medium | Low

  datatype PerformanceConfig = PerformanceConfig(
    level: QualityLevel,
    pixelRatio: real,
    particleCount: nat,
    enablePostProcessing: bool,
    enableRefraction: bool,
    shadowsEnabled: bool)

  /** What `detectQuality` reads from the browser. */
  datatype Environment = Environment(
    perf: Option<string>,            // URLSearchParams.get('perf'); None for null
    userAgent: string,               // navigator.userAgent
    hasWebGL2: bool,                 // canvas.getContext('webgl2') succeeds
    hasWebGL: bool,                  // canvas.getContext('webgl') succeeds
    rendererInfo: Option<string>,    // UNMASKED_RENDERER_WEBGL; None when the debug extension is missing
    devicePixelRatio: real)          // window.devicePixelRatio

  function Min(a: real, b: real): real { if a <= b then a else b }

  /** `getConfigForLevel`: the fixed table of settings per level. */
  function ConfigForLevel(level: QualityLevel, devicePixelRatio: real): (c: PerformanceConfig)
    ensures c.level == level && !c.shadowsEnabled
    ensures c.particleCount == (match level case High => 150 case Medium => 80 case Low => 40)
    ensures c.enablePostProcessing <==> level != Low
    ensures c.enableRefraction <==> level == High
    ensures c.pixelRatio <= 2.0
    ensures level == High ==> c.pixelRatio == Min(devicePixelRatio, 2.0)
    ensures level == Medium ==> c.pixelRatio == 1.5
    ensures level == Low ==> c.pixelRatio == 1.0
    ensures devicePixelRatio > 0.0 ==> c.pixelRatio > 0.0
  {
    match level
    case High => PerformanceConfig(High, Min(devicePixelRatio, 2.0), 150, true, true, false)
    case Medium => PerformanceConfig(Medium, 1.5, 80, true, false, false)
    case Low => PerformanceConfig(Low, 1.0, 40, false, false, false)
  }

  /** The `perf` override is honoured only when it is exactly one of the three
      level names; null, the empty string and anything else fall through. */
  function ParseOverride(perf: Option<string>): (r: Option<QualityLevel>)
    ensures r == Some(High) <==> perf == Some("high")
    ensures r == Some(Medium) <==> perf == Some("medium")
    ensures r == Some(Low) <==> perf == Some("low")
    ensures r == None <==> perf !in {Some("high"), Some("medium"), Some("low")}
  {
    match perf
    case None => None
    case Some(s) =>
      if s == "high" then Some(High)
      else if s == "medium" then Some(Medium)
      else if s == "low" then Some(Low)
      else None
  }

  /** One alternative of `/Android|webOS|iPhone|iPad|iPod|BlackBerry|IEMobile|Opera Mini/i`
      at the start of an already lower-cased string. */
  predicate MobileTokenAt(t: string) {
    || StartsWith(t, "android") || StartsWith(t, "webos") || StartsWith(t, "iphone")
    || StartsWith(t, "ipad") || StartsWith(t, "ipod") || StartsWith(t, "blackberry")
    || StartsWith(t, "iemobile") || StartsWith(t, "opera mini")
  }

  /** One alternative of `/iPad|Android/i` at the start of a lower-cased string. */
  predicate TabletTokenAt(t: string) {
    StartsWith(t, "ipad") || StartsWith(t, "android")
  }

  /** One alternative of `/Intel.*HD|Mali|Adreno [1-5]/` (case-sensitive). */
  predicate LowEndTokenAt(t: string) {
    || (StartsWith(t, "Intel") && AnyOnLineThen(t[5..], "HD"))
    || StartsWith(t, "Mali")
    || (StartsWith(t, "Adreno ") && |t| > 7 && '1' <= t[7] <= '5')
  }

  /** `isMobile`: one of the mobile alternatives occurs, ignoring case,
      somewhere in the user agent. */
  predicate IsMobile(userAgent: string)
    ensures IsMobile(userAgent) <==>
      exists i :: 0 <= i <= |userAgent| && MobileTokenAt(Lower(userAgent)[i..])
  {
    SearchFindsStart(Lower(userAgent), MobileTokenAt);
    Search(Lower(userAgent), MobileTokenAt)
  }

  /** `isTablet`: `iPad` or `Android` occurs, ignoring case, and the user
      agent is not a mobile one (see `TabletIsNeverDetected`). */
  predicate IsTablet(userAgent: string) {
    Search(Lower(userAgent), TabletTokenAt) && !IsMobile(userAgent)
  }

  /** `isLowEndGPU`: one of the low-end alternatives occurs somewhere in the
      renderer string, with case respected. */
  predicate IsLowEndGpu(renderer: string)
    ensures IsLowEndGpu(renderer) <==>
      exists i :: 0 <= i <= |renderer| && LowEndTokenAt(renderer[i..])
  {
    SearchFindsStart(renderer, LowEndTokenAt);
    Search(renderer, LowEndTokenAt)
  }

  /** The renderer string: empty when the debug-info extension is missing. */
  function RendererString(env: Environment): string {
    match env.rendererInfo
    case None => ""
    case Some(r) => r
  }

  /** `gl = getContext('webgl2') || getContext('webgl')` is non-null. */
  predicate HasContext(env: Environment) { env.hasWebGL2 || env.hasWebGL }

  /** Every user agent the tablet pattern matches is matched by the mobile
      pattern as well (it lists both `iPad` and `Android`), so `isTablet` is
      always false. */
  lemma {:induction false} TabletIsNeverDetected(userAgent: string)
    ensures !IsTablet(userAgent)
  {
    SearchMonotone(Lower(userAgent), TabletTokenAt, MobileTokenAt);
  }

  /** The decision tree of `detectQuality`, after the override. */
  function AutoLevel(env: Environment): (r: QualityLevel)
    ensures !HasContext(env) ==> r == Low
    ensures IsMobile(env.userAgent) || IsLowEndGpu(RendererString(env)) ==> r == Low
    ensures r != Medium
    ensures r == High <==>
      HasContext(env) && !IsMobile(env.userAgent) && !IsLowEndGpu(RendererString(env))
  {
    TabletIsNeverDetected(env.userAgent);
    if !HasContext(env) then Low
    else if IsMobile(env.userAgent) || IsLowEndGpu(RendererString(env)) then Low
    else if IsTablet(env.userAgent) then Medium
    else High
  }

  /** The level `detectQuality` settles on: a valid override wins, otherwise
      auto-detection decides; medium is reachable only through the override. */
  function DetectLevel(env: Environment): (r: QualityLevel)
    ensures ParseOverride(env.perf).Some? ==> r == ParseOverride(env.perf).value
    ensures ParseOverride(env.perf).None? ==> r == AutoLevel(env)
    ensures r == Medium ==> env.perf == Some("medium")
  {
    match ParseOverride(env.perf)
    case Some(level) => level
    case None => AutoLevel(env)
  }

  /** `detectQuality`: always one of the three rows of the table, and the
      medium row only when the override asks for it. */
  function DetectQuality(env: Environment): (c: PerformanceConfig)
    ensures c == ConfigForLevel(c.level, env.devicePixelRatio)
    ensures c.level == Medium ==> env.perf == Some("medium")
    ensures env.devicePixelRatio > 0.0 ==> 0.0 < c.pixelRatio <= 2.0
  {
    ConfigForLevel(DetectLevel(env), env.devicePixelRatio)
  }

  /** An override in {high, medium, low} returns that level's configuration
      whatever the user agent, context and GPU say. */
  lemma OverrideIgnoresDevice(e1: Environment, e2: Environment)
    requires e1.perf == e2.perf && e1.devicePixelRatio == e2.devicePixelRatio
    requires e1.perf in {Some("high"), Some("medium"), Some("low")}
    ensures DetectQuality(e1) == DetectQuality(e2)
  {
  }

  /** Without any WebGL context and without an override, the low configuration
      is chosen whatever the other signals say. */
  lemma NoContextMeansLow(env: Environment)
    requires ParseOverride(env.perf).None? && !HasContext(env)
    ensures DetectQuality(env) == ConfigForLevel(Low, env.devicePixelRatio)
    ensures DetectQuality(env).particleCount == 40 && !DetectQuality(env).enablePostProcessing
  {
  }

  /** The process-wide manager: the configuration detected when it was built. */
  class PerformanceManager {
    const config: PerformanceConfig
    ghost const env: Environment

    /** The stored configuration is the one detected from `env`, whose
        device pixel ratio is positive as a browser's always is. */
    ghost predicate Valid() { config == DetectQuality(env) && env.devicePixelRatio > 0.0 }

    /** `new PerformanceManager()`: runs `detectQuality` once. */
    constructor (env: Environment)
      requires env.devicePixelRatio > 0.0
      ensures Valid() && this.env == env
    {
      this.env := env;
      config := DetectQuality(env);
    }

    /** `getConfig`: the configuration computed at construction. */
    function GetConfig(): (c: PerformanceConfig)
      requires Valid()
      ensures c == DetectQuality(env)
      ensures c.particleCount in {40, 80, 150} && !c.shadowsEnabled
      ensures 0.0 < c.pixelRatio <= 2.0
    {
      config
    }
  }

  /** The static `PerformanceManager.instance` slot. */
  class ManagerSlot {
    var instance: PerformanceManager?

    ghost predicate Valid()
      reads this
    {
      instance != null ==> instance.Valid()
    }

    constructor ()
      ensures Valid() && instance == null
    {
      instance := null;
    }

    /** `getInstance`: constructs the manager on the first call only and
        returns that same instance on every call. */
    method GetInstance(env: Environment) returns (m: PerformanceManager)
      requires Valid() && env.devicePixelRatio > 0.0
      modifies this
      ensures Valid() && instance == m && m.Valid()
      ensures old(instance) != null ==> m == old(instance)
      ensures old(instance) == null ==> fresh(m) && m.GetConfig() == DetectQuality(env)
    {
      if instance == null {
        instance := new PerformanceManager(env);
      }
      m := instance;
    }
  }
}
