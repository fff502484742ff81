/**
 * Whole-component runs of the LightPillar model: a host mounts the component,
 * runs the effect, delivers frames, pointer moves, resizes and timer firings,
 * and unmounts it, and each method states what the host then observes.
 */
module Scenarios {
  import opened Wrappers
  import opened Quality
  import opened Pacing
  import opened Pointer
  import opened Gating
  import opened Timers
  import opened Pillar

  /** A visible page, a mounted container, an 800 x 600 window and a working renderer. */
  function Window(dpr: Option<real>, now: real): Env {
    Env(true, false, dpr, 800.0, 600.0, now, false)
  }

  /**
   * At the default settings (the "high" tier, 60 frames per second) two
   * frames at least a frame time apart each advance time by 0.016 x 0.55 and
   * draw once.
   */
  method TwoFramesAtDefaults(t1: real, t2: real) returns (drawn: seq<real>)
    requires t1 >= 50.0 / 3.0 && t2 - t1 >= 50.0 / 3.0
    ensures drawn == [FrameStep * 0.55, 2.0 * FrameStep * 0.55]
  {
    var p := new LightPillar();
    p.Setup(Defaults, Window(None, 0.0));
    assert p.session.frameTime == 50.0 / 3.0;
    p.Tick(t1);
    p.Tick(t2);
    drawn := p.draws;
  }

  /**
   * A frame that comes too early draws nothing, and the frame after it is
   * measured from the same reference point.
   */
  method EarlyFrameSkipped() returns (drawn: seq<real>)
    ensures drawn == [FrameStep * 0.55]
  {
    var p := new LightPillar();
    p.Setup(Defaults, Window(None, 0.0));
    assert p.session.frameTime == 50.0 / 3.0;
    p.Tick(10.0);
    p.Tick(16.0);
    assert p.draws == [];
    p.Tick(17.0);
    drawn := p.draws;
  }

  /**
   * A session started while the page is hidden is live, and frames keep
   * coming, but it never draws and time does not move.
   */
  method HiddenPageFreezesTime() returns (live: bool, drawn: seq<real>, frozen: real)
    ensures live && drawn == [] && frozen == 0.0
  {
    var p := new LightPillar();
    p.VisibilityChange(true);
    p.Setup(Defaults, Window(None, 0.0));
    p.Tick(100.0);
    p.Tick(200.0);
    live, drawn, frozen := p.Live(), p.draws, p.time;
  }

  /**
   * Time is a ref of the component, not of the session: a session started
   * after another was torn down begins from the time the old one reached.
   */
  method TimeSurvivesRecreation() returns (t: real)
    ensures t == FrameStep * 0.55
  {
    var p := new LightPillar();
    p.Setup(Defaults, Window(None, 0.0));
    assert p.session.frameTime == 50.0 / 3.0;
    p.Tick(100.0);
    p.Teardown();
    p.Setup(Defaults, Window(None, 500.0));
    t := p.time;
  }

  /** A burst of resize events leaves exactly one pending timer. */
  method ResizeBurst() returns (pending: nat)
    ensures pending == 1
  {
    var p := new LightPillar();
    p.Setup(Defaults, Window(Some(2.0), 0.0));
    p.Resize();
    p.Resize();
    p.Resize();
    pending := |p.resizeTimers|;
  }

  /**
   * When the pending resize timer fires, the surface takes the window size at
   * that moment and the tier's pixel ratio.
   */
  method ResizeApplies() returns (size: (real, real), resolution: (real, real), ratio: real)
    ensures size == (1024.0, 768.0) && resolution == (1024.0, 768.0) && ratio == 1.5
  {
    var p := new LightPillar();
    p.Setup(Defaults, Window(Some(2.0), 0.0));
    p.Resize();
    assert |p.resizeTimers| == 1;
    assert p.resizeTimers[0].pixelRatio == 1.5;
    p.ResizeTimerFires(0, 1024.0, 768.0);
    size, resolution, ratio := p.gpu.drawSize, p.gpu.resolution, p.gpu.pixelRatio;
  }

  /**
   * A resize timer armed by a "high" session that fires after the component
   * switched to "low" applies the old tier's pixel ratio to the new renderer:
   * the cleanup never clears the timer.
   */
  method StaleResizeAfterQualityChange() returns (applied: real, current: real)
    ensures applied == 1.5 && current == 0.7
  {
    var p := ResizedThenUnmounted();
    p.Setup(Defaults.(quality := "low"), Window(Some(2.0), 10.0));
    assert p.resizeTimers[0].pixelRatio == 1.5;
    assert p.refs.renderer.Some? && p.refs.material.Some?;
    p.ResizeTimerFires(0, 800.0, 600.0);
    applied, current := p.gpu.pixelRatio, p.session.settings.pixelRatio;
  }

  /** A "high" session at device ratio 2 that saw one resize and was then torn down. */
  method ResizedThenUnmounted() returns (p: LightPillar)
    ensures fresh(p) && p.Valid() && !p.Live() && p.webGLSupported
    ensures |p.resizeTimers| == 1 && p.resizeTimers[0].pixelRatio == 1.5
  {
    p := new LightPillar();
    p.Setup(Defaults, Window(Some(2.0), 0.0));
    p.Resize();
    p.Teardown();
  }

  /** Unmounting twice disposes each of the three GPU objects exactly once. */
  method DisposeOnce() returns (log: seq<Handle>)
    ensures |log| == 3 && Distinct(log)
  {
    var p := new LightPillar();
    p.Setup(Defaults, Window(None, 0.0));
    p.Teardown();
    p.Teardown();
    log := p.disposed;
    assert log + [] == log;
  }

  /** Reduced motion without the override starts no session, yet the container is still rendered. */
  method ReducedMotionNoSession() returns (live: bool, output: Output, log: seq<Handle>)
    ensures !live && output == Container && log == []
  {
    var p := new LightPillar();
    var cfg := Defaults.(force := false);
    p.Setup(cfg, Env(true, true, None, 800.0, 600.0, 0.0, false));
    live, output, log := p.Live(), Render(cfg.enabled, p.webGLSupported), p.disposed;
  }

  /**
   * A renderer constructor that throws switches the component to the fallback
   * gradient for good: a later run of the effect starts nothing.
   */
  method RendererFailure() returns (output: Output, liveAfterRetry: bool)
    ensures output == FallbackGradient && !liveAfterRetry
  {
    var p := new LightPillar();
    p.Setup(Defaults, Env(true, false, None, 800.0, 600.0, 0.0, true));
    output := Render(Defaults.enabled, p.webGLSupported);
    p.Setup(Defaults, Window(None, 10.0));
    liveAfterRetry := p.Live();
  }

  /**
   * A pointer move inside the throttle window is dropped; once the timer has
   * fired the next move is taken.
   */
  method ThrottledPointer() returns (first: Vec2, second: Vec2)
    ensures first == Vec2(-0.5, 0.5) && second == Vec2(1.0, 1.0)
  {
    var p := new LightPillar();
    p.Setup(Defaults, Window(None, 0.0));
    p.MouseMove(200.0, 150.0, 800.0, 600.0);
    p.MouseMove(800.0, 0.0, 800.0, 600.0);
    first := p.mouse;
    p.MouseTimerFires();
    p.MouseMove(800.0, 0.0, 800.0, 600.0);
    second := p.mouse;
  }

  /** A component that is not interactive never moves its pointer uniform. */
  method NonInteractivePointer() returns (v: Vec2)
    ensures v == Origin
  {
    var p := new LightPillar();
    p.Setup(Defaults.(interactive := false), Window(None, 0.0));
    p.MouseMove(123.0, 45.0, 800.0, 600.0);
    v := p.mouse;
  }
}
