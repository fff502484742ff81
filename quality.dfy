/**
 * The quality table of src/LightPillar.jsx: three tiers of fidelity settings,
 * a fallback to the medium tier for any other name, and the power preference
 * handed to the renderer.
 */
module Quality {
  import opened Wrappers

  datatype Precision = MediumP | HighP

  datatype Settings = Settings(
    iterations: nat,
    waveIterations: nat,
    pixelRatio: real,
    precision: Precision,
    stepMultiplier: real,
    fps: nat)

  datatype PowerPreference = HighPerformance | LowPower

  const Low := Settings(20, 1, 0.7, MediumP, 1.65, 30)
  const Medium := Settings(36, 2, 0.9, MediumP, 1.3, 45)

  /** `window.devicePixelRatio || 1`: a missing (or NaN) ratio and a zero ratio are falsy. */
  function RatioOrOne(dpr: Option<real>): real {
    if dpr.None? || dpr.value == 0.0 then 1.0 else dpr.value
  }

  function Min(a: real, b: real): real { if a <= b then a else b }

  /** The high tier's pixel ratio: the device ratio capped at 2, then clamped to 1.5. */
  function HighPixelRatio(dpr: Option<real>): (r: real)
    ensures r <= 1.5
    ensures r == 1.5 <==> RatioOrOne(dpr) >= 1.5
    ensures r < 1.5 ==> r == RatioOrOne(dpr)
  {
    Min(Min(RatioOrOne(dpr), 2.0), 1.5)
  }

  function High(dpr: Option<real>): Settings {
    Settings(64, 3, HighPixelRatio(dpr), HighP, 1.08, 60)
  }

  predicate IsTier(tier: string) {
    tier == "low" || tier == "medium" || tier == "high"
  }

  /**
   * `qualitySettings[quality] || qualitySettings.medium`.
   * The table is restated field by field in the contract.
   */
  function Resolve(tier: string, dpr: Option<real>): (s: Settings)
    ensures tier == "low" ==>
      s.iterations == 20 && s.waveIterations == 1 && s.pixelRatio == 0.7 &&
      s.precision == MediumP && s.stepMultiplier == 1.65 && s.fps == 30
    ensures tier == "high" ==>
      s.iterations == 64 && s.waveIterations == 3 && s.pixelRatio == HighPixelRatio(dpr) &&
      s.precision == HighP && s.stepMultiplier == 1.08 && s.fps == 60
    ensures tier != "low" && tier != "high" ==>
      s.iterations == 36 && s.waveIterations == 2 && s.pixelRatio == 0.9 &&
      s.precision == MediumP && s.stepMultiplier == 1.3 && s.fps == 45
    ensures s.pixelRatio <= 1.5 && s.fps > 0
    ensures s.precision == HighP <==> tier == "high"
  {
    if tier == "low" then Low
    else if tier == "high" then High(dpr)
    else Medium
  }

  /** `quality === "high" ? "high-performance" : "low-power"`, decided on the requested name. */
  function PowerPreferenceFor(tier: string): (p: PowerPreference)
    ensures p == HighPerformance <==> Resolve(tier, None).fps == 60
  {
    if tier == "high" then HighPerformance else LowPower
  }

  /** `1000 / targetFPS`: the minimum wall time in milliseconds between two drawn frames. */
  function FrameTime(s: Settings): (ms: real)
    requires s.fps > 0
    ensures ms > 0.0
  {
    1000.0 / s.fps as real
  }

  /** `fps` frame times make up exactly one second. */
  lemma FrameTimeIsPeriod(s: Settings)
    requires s.fps > 0
    ensures FrameTime(s) * s.fps as real == 1000.0
  {
  }

  function Rank(tier: string): nat {
    if tier == "low" then 0 else if tier == "high" then 2 else 1
  }

  /** A higher tier never does less work per pixel and never paces more slowly. */
  lemma HigherTierMoreWork(t1: string, t2: string, dpr: Option<real>)
    requires Rank(t1) <= Rank(t2)
    ensures Resolve(t1, dpr).iterations <= Resolve(t2, dpr).iterations
    ensures Resolve(t1, dpr).waveIterations <= Resolve(t2, dpr).waveIterations
    ensures Resolve(t1, dpr).stepMultiplier >= Resolve(t2, dpr).stepMultiplier
    ensures Resolve(t1, dpr).fps <= Resolve(t2, dpr).fps
    ensures FrameTime(Resolve(t1, dpr)) >= FrameTime(Resolve(t2, dpr))
  {
  }

  /** An unknown tier gets medium's settings but, unlike "high", a low-power renderer. */
  lemma UnknownTierIsMedium(tier: string, dpr: Option<real>)
    requires !IsTier(tier)
    ensures Resolve(tier, dpr) == Resolve("medium", dpr)
    ensures PowerPreferenceFor(tier) == LowPower
  {
  }
}
