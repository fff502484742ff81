/**
 * The LightPillar component of src/LightPillar.jsx with its GPU, DOM and React
 * machinery taken away. One object is one mounted component: its refs and
 * state live as long as the object, while `session` stands for the variables
 * the most recent run of the effect captured in its closures. Renderer,
 * material, scene, camera and geometry are handles the host allocates; the
 * first, second and fifth own GPU memory and are disposed. A draw call is
 * recorded with the `uTime` uniform it was issued with.
 */
module Pillar {
  import opened Wrappers
  import opened Quality
  import opened Pacing
  import opened Pointer
  import opened Gating
  import opened Timers

  type Handle = nat

  predicate Distinct(s: seq<Handle>) {
    forall i, j :: 0 <= i < j < |s| ==> s[i] != s[j]
  }

  /** Every handle in `s` was allocated before the counter reached `n`. */
  predicate Below(s: seq<Handle>, n: Handle) {
    forall i :: 0 <= i < |s| ==> s[i] < n
  }

  function Present(h: Option<Handle>): seq<Handle> {
    if h.Some? then [h.value] else []
  }

  /**
   * The handle bookkeeping: `disposed` followed by the live GPU handles has no
   * repeats, and every handle in it was allocated before the counter reached `n`.
   */
  predicate Accounted(disposed: seq<Handle>, gpu: seq<Handle>, n: Handle) {
    Distinct(disposed + gpu) && Below(disposed + gpu, n)
  }

  /** Three handles allocated above every earlier one keep the bookkeeping sound. */
  lemma AccountedAllocate(d: seq<Handle>, n: Handle, m: Handle)
    requires Accounted(d, [], n) && n <= m
    ensures Accounted(d, [m, m + 1, m + 2], m + 3)
  {
    assert d + [] == d;
    var e := d + [m, m + 1, m + 2];
    forall i, j | 0 <= i < j < |e| ensures e[i] != e[j] {
      if j < |d| {
        assert e[i] == d[i] && e[j] == d[j];
      } else if i < |d| {
        assert e[i] == d[i];
      }
    }
  }

  /** Disposing the live GPU handles moves them to the log and keeps the bookkeeping sound. */
  lemma AccountedDispose(d: seq<Handle>, g: seq<Handle>, n: Handle)
    requires Accounted(d, g, n)
    ensures Accounted(d + g, [], n)
  {
  }

  /** The ambient rotation angle whose cosine and sine are written to `uRotCos` and `uRotSin`. */
  function RotationAngle(time: real): (a: real)
    ensures a == 0.0 <==> time == 0.0
    ensures time >= 0.0 ==> a >= 0.0
  {
    time * 0.35
  }

  /** Each drawn frame turns the pillar by the same angle, 0.35 times the time step. */
  lemma RotationPerFrame(time: real, rotationSpeed: real)
    ensures RotationAngle(Advance(time, rotationSpeed)) - RotationAngle(time) ==
      0.35 * FrameStep * rotationSpeed
  {
  }

  /** The component's object refs (`rendererRef`, `materialRef`, `sceneRef`, `cameraRef`, `geometryRef`). */
  datatype Refs = Refs(
    renderer: Option<Handle>,
    material: Option<Handle>,
    scene: Option<Handle>,
    camera: Option<Handle>,
    geometry: Option<Handle>)
  {
    /** The handles that own GPU memory and must be disposed. */
    function GpuHandles(): seq<Handle> {
      Present(renderer) + Present(material) + Present(geometry)
    }
  }

  const NoRefs := Refs(None, None, None, None, None)

  /**
   * What one run of the effect captured in its closures: fixed values, and the
   * two variables `lastTime` (of `animate`) and `mouseMoveTimeout` (set or not).
   */
  datatype Session = Session(
    id: nat,
    run: bool,              // shouldRun, as `animate` sees it
    interactive: bool,
    rotationSpeed: real,
    settings: Settings,
    frameTime: real,
    lastTime: real,
    mousePending: bool)

  /** What the material's uniforms and the renderer's surface hold (`uMouse` is the component's vector). */
  datatype Gpu = Gpu(
    uTime: real,
    rotAngle: real,           // the angle of uRotCos and uRotSin
    uIntensity: real,
    resolution: (real, real), // uResolution
    drawSize: (real, real),   // renderer.setSize
    pixelRatio: real)         // renderer.setPixelRatio

  class LightPillar {
    // Refs and state of the component: they outlive every session.
    var time: real               // timeRef
    var mouse: Vec2              // mouseRef, the very vector the uMouse uniform holds
    var raf: Option<nat>         // rafRef: the pending frame request
    var refs: Refs
    var webGLSupported: bool
    var shouldRun: bool

    // The most recent session, and what its GPU objects hold.
    var session: Session
    var gpu: Gpu

    // The host: pending resize timers, frame requests issued, handles allocated,
    // handles disposed (in order), and the uTime of every draw call (in order).
    var resizeTimers: seq<ResizeTimer>
    var frames: nat
    var nextHandle: nat
    var disposed: seq<Handle>
    var draws: seq<real>

    /**
     * A session is live from the end of a successful effect run to its cleanup:
     * its listeners are attached, and `animate` always has a frame request pending.
     */
    predicate Live()
      reads this
    {
      raf.Some?
    }

    /**
     * The guard of `animate`: the session may draw. While a session is live
     * its refs are all set, so only the captured `shouldRun` decides.
     */
    predicate Ready()
      reads this
      ensures Valid() && Live() ==> (Ready() <==> session.run)
    {
      session.run && refs.material.Some? && refs.renderer.Some? && refs.scene.Some? && refs.camera.Some?
    }

    ghost predicate Valid()
      reads this
    {
      (Live() ==>
        refs.renderer.Some? && refs.material.Some? && refs.scene.Some? && refs.camera.Some? &&
        refs.geometry.Some? && session.frameTime > 0.0) &&
      (!Live() ==> refs.renderer.None? && refs.material.None? && refs.geometry.None?) &&
      Accounted(disposed, refs.GpuHandles(), nextHandle) &&
      OnePerSession(resizeTimers)
    }

    /** A freshly mounted component: no session, zero time, pointer at the origin. */
    constructor ()
      ensures Valid() && !Live()
      ensures time == 0.0 && mouse == Origin && refs == NoRefs
      ensures webGLSupported && shouldRun && session.id == 0
      ensures resizeTimers == [] && disposed == [] && draws == [] && frames == 0
    {
      time, mouse, raf, refs := 0.0, Origin, None, NoRefs;
      webGLSupported, shouldRun := true, true;
      session := Session(0, true, false, 0.0, Medium, 1.0, 0.0, false);
      gpu := Gpu(0.0, 0.0, 0.0, (0.0, 0.0), (0.0, 0.0), 1.0);
      resizeTimers, frames, nextHandle, disposed, draws := [], 0, 0, [], [];
    }

    /** The mount-time capability probe: no rendering context turns support off for good. */
    method Probe(contextAvailable: bool)
      modifies this`webGLSupported
      ensures webGLSupported == (old(webGLSupported) && contextAvailable)
    {
      if !contextAvailable {
        webGLSupported := false;
      }
    }

    /** The `visibilitychange` listener: `setShouldRun(!document.hidden)`. */
    method VisibilityChange(hidden: bool)
      modifies this`shouldRun
      ensures shouldRun == !hidden
    {
      shouldRun := !hidden;
    }

    /**
     * The effect body. React has run the previous session's cleanup, if it
     * registered one, before it runs the effect again.
     */
    method Setup(cfg: Config, env: Env)
      requires Valid() && !Live()
      modifies this
      ensures Valid()
      ensures time == old(time) && mouse == old(mouse) && shouldRun == old(shouldRun)
      ensures disposed == old(disposed) && draws == old(draws) && resizeTimers == old(resizeTimers)
      ensures !ShouldStart(cfg, env, old(webGLSupported)) ==> unchanged(this)
      ensures Live() <==> ShouldStart(cfg, env, old(webGLSupported)) && !env.rendererThrows
      ensures webGLSupported <==>
        old(webGLSupported) && !(ShouldStart(cfg, env, old(webGLSupported)) && env.rendererThrows)
      ensures ShouldStart(cfg, env, old(webGLSupported)) && env.rendererThrows ==>
        refs == Refs(None, None, Some(old(nextHandle)), Some(old(nextHandle) + 1), None) &&
        frames == old(frames) && session == old(session) && gpu == old(gpu) &&
        nextHandle == old(nextHandle) + 2
      ensures Live() ==> Started(cfg, env, old(shouldRun), old(session.id), old(frames), old(nextHandle))
    {
      if !cfg.enabled {
        return;
      }
      if !env.containerMounted || !webGLSupported {
        return;
      }
      if !cfg.force && env.reducedMotion {
        return;
      }

      refs := refs.(scene := Some(nextHandle), camera := Some(nextHandle + 1));
      nextHandle := nextHandle + 2;

      if env.rendererThrows {
        webGLSupported := false;
        return;
      }
      Start(cfg, env);
    }

    /** What a session that got past the renderer constructor holds. */
    ghost predicate Started(cfg: Config, env: Env, run: bool, lastId: nat, frames0: nat, handles0: nat)
      reads this
    {
      var settings := Resolve(cfg.quality, env.dpr);
      raf == Some(frames0) && frames == frames0 + 1 &&
      session == Session(lastId + 1, run, cfg.interactive, cfg.rotationSpeed, settings,
        FrameTime(settings), env.now, false) &&
      gpu == Gpu(0.0, 0.0, cfg.intensity, (env.width, env.height), (env.width, env.height), settings.pixelRatio) &&
      refs.renderer.Some? && refs.material.Some? && refs.geometry.Some? &&
      handles0 <= refs.renderer.value && handles0 <= refs.material.value && handles0 <= refs.geometry.value
    }

    /** The effect past the renderer constructor: material, geometry, listeners and the first frame request. */
    method Start(cfg: Config, env: Env)
      requires Valid() && !Live() && refs.scene.Some? && refs.camera.Some?
      modifies this`refs, this`nextHandle, this`gpu, this`session, this`raf, this`frames
      ensures Valid()
      ensures Started(cfg, env, shouldRun, old(session.id), old(frames), old(nextHandle))
      ensures refs.scene == old(refs.scene) && refs.camera == old(refs.camera)
    {
      var settings := Resolve(cfg.quality, env.dpr);
      var n := nextHandle;
      assert refs.GpuHandles() == [];
      AccountedAllocate(disposed, n, n);

      refs := refs.(renderer := Some(n), material := Some(n + 1), geometry := Some(n + 2));
      nextHandle := n + 3;
      gpu := Gpu(0.0, 0.0, cfg.intensity, (env.width, env.height), (env.width, env.height), settings.pixelRatio);
      session := Session(session.id + 1, shouldRun, cfg.interactive, cfg.rotationSpeed, settings,
        FrameTime(settings), env.now, false);
      raf := Some(frames);
      frames := frames + 1;
      assert refs.GpuHandles() == [n, n + 1, n + 2];
    }

    /**
     * `animate(currentTime)`, the pending frame request firing. Whatever happens,
     * exactly one new frame request is issued.
     */
    method Tick(currentTime: real)
      requires Valid() && Live()
      modifies this`time, this`gpu, this`draws, this`session, this`raf, this`frames
      ensures Valid()
      ensures frames == old(frames) + 1 && raf == Some(old(frames))
      ensures old(Ready()) && currentTime - old(session.lastTime) >= old(session.frameTime) ==>
        time == Advance(old(time), old(session.rotationSpeed)) &&
        gpu == old(gpu).(uTime := time, rotAngle := RotationAngle(time)) &&
        draws == old(draws) + [time] &&
        session == old(session).(lastTime := CarryOver(old(session.lastTime), currentTime, old(session.frameTime)))
      ensures !(old(Ready()) && currentTime - old(session.lastTime) >= old(session.frameTime)) ==>
        time == old(time) && gpu == old(gpu) && draws == old(draws) && session == old(session)
    {
      if !Ready() {
        raf := Some(frames);
        frames := frames + 1;
        return;
      }

      var deltaTime := currentTime - session.lastTime;
      if deltaTime >= session.frameTime {
        time := Advance(time, session.rotationSpeed);
        gpu := gpu.(uTime := time, rotAngle := RotationAngle(time));
        draws := draws + [gpu.uTime];
        session := session.(lastTime := CarryOver(session.lastTime, currentTime, session.frameTime));
      }

      raf := Some(frames);
      frames := frames + 1;
    }

    /**
     * `handleMouseMove`: only reached while the session listens and is
     * interactive; a move that arrives while the throttle timer is pending is dropped.
     */
    method MouseMove(clientX: real, clientY: real, innerWidth: real, innerHeight: real)
      requires innerWidth > 0.0 && innerHeight > 0.0
      modifies this`mouse, this`session
      ensures old(Live() && session.interactive && !session.mousePending) ==>
        session == old(session).(mousePending := true) &&
        mouse == Normalise(clientX, clientY, innerWidth, innerHeight)
      ensures !old(Live() && session.interactive && !session.mousePending) ==>
        session == old(session) && mouse == old(mouse)
    {
      if !Live() || !session.interactive {
        return;
      }
      if session.mousePending {
        return;
      }
      session := session.(mousePending := true);
      mouse := Normalise(clientX, clientY, innerWidth, innerHeight);
    }

    /** The 16 ms throttle timer firing: the gate opens again. */
    method MouseTimerFires()
      requires session.mousePending
      modifies this`session
      ensures session == old(session).(mousePending := false)
    {
      session := session.(mousePending := false);
    }

    /** `handleResize`: the session's pending timer is replaced by a new 120 ms one. */
    method Resize()
      requires Valid()
      modifies this`resizeTimers
      ensures Valid()
      ensures old(Live()) ==> resizeTimers == Arm(old(resizeTimers), session.id, session.settings.pixelRatio)
      ensures !old(Live()) ==> resizeTimers == old(resizeTimers)
    {
      if Live() {
        resizeTimers := Arm(resizeTimers, session.id, session.settings.pixelRatio);
      }
    }

    /**
     * The pending resize timer at position `k` firing, possibly one armed by a
     * session that has been torn down since: it reads the window size now and
     * touches the renderer and material only if both refs are set.
     */
    method ResizeTimerFires(k: nat, innerWidth: real, innerHeight: real)
      requires Valid() && k < |resizeTimers|
      modifies this`resizeTimers, this`gpu
      ensures Valid()
      ensures resizeTimers == Fire(old(resizeTimers), k)
      ensures old(refs.renderer.Some? && refs.material.Some?) ==>
        gpu == old(gpu).(pixelRatio := old(resizeTimers[k].pixelRatio),
          drawSize := (innerWidth, innerHeight), resolution := (innerWidth, innerHeight))
      ensures !old(refs.renderer.Some? && refs.material.Some?) ==> gpu == old(gpu)
    {
      var t := resizeTimers[k];
      resizeTimers := Fire(resizeTimers, k);
      if refs.renderer.None? || refs.material.None? {
        return;
      }
      gpu := gpu.(pixelRatio := t.pixelRatio, drawSize := (innerWidth, innerHeight),
        resolution := (innerWidth, innerHeight));
    }

    /**
     * The cleanup the effect returns: listeners removed, the frame request
     * cancelled, each present GPU handle disposed, every ref nulled. Pending
     * resize and throttle timers are left alone.
     */
    method Teardown()
      requires Valid()
      modifies this`raf, this`refs, this`disposed
      ensures Valid() && !Live() && refs == NoRefs
      ensures disposed == old(disposed) + old(refs.GpuHandles())
    {
      ghost var d0, g0 := disposed, refs.GpuHandles();
      AccountedDispose(d0, g0, nextHandle);
      if raf.Some? {
        raf := None;
      }
      if refs.renderer.Some? {
        disposed := disposed + [refs.renderer.value];
      }
      if refs.material.Some? {
        disposed := disposed + [refs.material.value];
      }
      if refs.geometry.Some? {
        disposed := disposed + [refs.geometry.value];
      }
      refs := NoRefs;
      assert disposed == d0 + g0;
    }
  }
}
