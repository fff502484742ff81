/**
 * What decides whether the effect in src/LightPillar.jsx starts a rendering
 * session, and which element the component renders.
 */
module Gating {
  import opened Wrappers

  /** The component's properties that the modelled control logic reads. */
  datatype Config = Config(
    enabled: bool,
    interactive: bool,
    intensity: real,
    rotationSpeed: real,
    quality: string,
    force: bool)

  /** The defaults of the component's parameter list. */
  const Defaults := Config(true, true, 1.05, 0.55, "high", true)

  /**
   * What the host supplies when the effect runs: whether the container element
   * is mounted, the reduced-motion media query, `window.devicePixelRatio`, the
   * window size, `performance.now()`, and whether the renderer constructor throws.
   */
  datatype Env = Env(
    containerMounted: bool,
    reducedMotion: bool,
    dpr: Option<real>,
    width: real,
    height: real,
    now: real,
    rendererThrows: bool)

  /**
   * The three early returns of the effect, before any renderer is built. A
   * session can only start while the container is the rendered output, and
   * reduced motion without `force` blocks it whatever else holds.
   */
  predicate ShouldStart(cfg: Config, env: Env, webGLSupported: bool)
    ensures ShouldStart(cfg, env, webGLSupported) ==> Render(cfg.enabled, webGLSupported) == Container
    ensures env.reducedMotion && !cfg.force ==> !ShouldStart(cfg, env, webGLSupported)
  {
    cfg.enabled && env.containerMounted && webGLSupported && (cfg.force || !env.reducedMotion)
  }

  datatype Output = Nothing | FallbackGradient | Container

  /** The component's render result. */
  function Render(enabled: bool, webGLSupported: bool): (o: Output)
    ensures o == Nothing <==> !enabled
    ensures o == FallbackGradient <==> enabled && !webGLSupported
    ensures o == Container <==> enabled && webGLSupported
  {
    if !enabled then Nothing
    else if !webGLSupported then FallbackGradient
    else Container
  }
}
