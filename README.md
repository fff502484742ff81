# LightPillar control logic in Dafny

This project models the control logic of the `LightPillar` React component
(`src/LightPillar.jsx`). The component draws an animated light pillar into a
full-window WebGL canvas behind a portfolio page. The model keeps everything
around the shader:

- **Quality tiers.** Resolving a tier name and the device pixel ratio to
  shader settings and a frame-rate cap.
- **Frame pacing.** The `animate` callback: the frame-time gate, the fixed
  time step per drawn frame and the carry-over of the frame phase.
- **Pointer throttle.** Normalisation of client coordinates to [-1, 1], with
  a 16 ms throttle.
- **Resize debounce.** A 120 ms debounce with one pending timer per session.
- **Session gating.** The three early returns of the effect, and the renderer
  constructor that may throw.
- **Teardown.** Listeners removed, the frame request cancelled, GPU objects
  disposed, refs nulled.
- **Output selection.** Nothing, the fallback gradient, or the container.

The modules:

- `Quality`, `Pacing`, `Pointer`, `Gating` and `Timers` hold the pure pieces.
- `Pillar.LightPillar` is one mounted component as a class. Its fields are
  the component's refs and state, plus the variables that the latest run of
  the effect captured in its closures (`Session`). It also holds a small
  host: frame requests issued, pending resize timers, handles allocated and
  disposed, and the `uTime` of every draw call.
- `Scenarios` drives whole component runs and states what a host observes.

The host decides when React re-runs the effect and when events and timers
fire: it calls `Setup`, `Tick`, `MouseMove`, `Resize`, the timer methods and
`Teardown` in the order of its choosing.

Four behaviours of the code that a reader might not expect:

- **Time is not reset.** `timeRef` is a component ref and is never reset, so
  a new session continues from the time the previous one reached (see
  `Scenarios.TimeSurvivesRecreation`).
- **The fallback is permanent.** Once the capability probe or a throwing
  renderer constructor clears `webGLSupported`, nothing sets it back. Every
  later run of the effect returns early (see `Scenarios.RendererFailure`).
- **Scene and camera survive a failure.** When the renderer constructor
  throws, the scene and camera refs have already been set and stay set. Only
  renderer, material and geometry are missing.
- **Teardown leaves timers pending.** It does not clear pending resize or
  pointer-throttle timers. A resize timer armed by a torn-down session can
  fire after a new session started. It then applies the old session's pixel
  ratio to the new renderer (see `Scenarios.StaleResizeAfterQualityChange`).

## Model

| member | source | states |
|---|---|---|
| Quality.HighPixelRatio | src/LightPillar.jsx:68-90 | the "high" pixel ratio never exceeds 1.5; it is exactly 1.5 iff the device ratio (1 when missing or zero) is at least 1.5, and otherwise equals the device ratio |
| Quality.Resolve | src/LightPillar.jsx:66-97 | "low" and "high" give their table rows, with "high" using the clamped device ratio; any other name gives the "medium" row; every tier has a pixel ratio of at most 1.5 and a positive fps; high precision iff the tier is "high" |
| Quality.PowerPreferenceFor | src/LightPillar.jsx:113-114 | the renderer asks for high performance exactly when the resolved tier runs at 60 fps |
| Quality.FrameTime | src/LightPillar.jsx:297-298 | the minimum time between drawn frames is positive |
| Quality.FrameTimeIsPeriod | src/LightPillar.jsx:297-298 | the tier's fps frame times add up to exactly one second |
| Quality.HigherTierMoreWork | src/LightPillar.jsx:70-95 | a higher tier never has fewer raymarch or wave iterations, a larger step multiplier, a lower fps or a longer frame time |
| Quality.UnknownTierIsMedium | src/LightPillar.jsx:97-114 | an unknown tier name behaves exactly as "medium" and asks for low power |
| Pacing.JsRem | src/LightPillar.jsx:322 | JavaScript's `%` on a positive divisor: the result has the dividend's sign, is smaller than the divisor in magnitude, and differs from the dividend by a whole multiple of the divisor |
| Pacing.CarryOver | src/LightPillar.jsx:312-322 | after a drawn frame the new `lastTime` moves strictly forward and lies within one frame time before the current time |
| Pacing.CarryOverWholeFrames | src/LightPillar.jsx:312-322 | the new `lastTime` is the old one plus a positive whole number of frame times, so the phase never drifts |
| Pacing.Advance | src/LightPillar.jsx:314 | each drawn frame moves time by exactly 0.016 times the rotation speed, whatever the wall-clock delta; time does not go back for a non-negative speed |
| Pacing.AdvanceNClosedForm | src/LightPillar.jsx:314 | n applications of the fixed step move time by exactly n x 0.016 x the rotation speed |
| Pointer.Normalise | src/LightPillar.jsx:286-289 | in-window positions map into [-1, 1] on both axes; the left edge maps to x = -1 and the right edge to x = 1; the top edge maps to y = 1 and the bottom edge to y = -1 |
| Pointer.NormaliseRoundTrip | src/LightPillar.jsx:286-289 | normalisation is invertible: the client position is recovered exactly |
| Pointer.NormaliseMonotone | src/LightPillar.jsx:286-289 | moving right never decreases x; moving down the screen never increases y |
| Gating.Render | src/LightPillar.jsx:387-423 | nothing iff disabled; the fallback gradient iff enabled without WebGL support; the container iff enabled with support |
| Gating.ShouldStart | src/LightPillar.jsx:50-61 | the effect's gate: a session can only start while the container element is the rendered output, and reduced motion without `force` blocks it whatever else holds |
| Timers.Cancel | src/LightPillar.jsx:332 | clearing a session's timer keeps exactly the other sessions' pending timers |
| Timers.CancelKeepsOnePerSession | src/LightPillar.jsx:330-333 | clearing keeps at most one pending timer per session |
| Timers.Arm | src/LightPillar.jsx:330-343 | after a resize the pending timers are exactly the other sessions' old ones plus the new one, which sits at the back of the queue and is the session's only one; one timer per session is preserved |
| Timers.ArmTwiceIsArmOnce | src/LightPillar.jsx:330-343 | a burst of resizes leaves the same pending timers as its last resize alone |
| Timers.Fire | src/LightPillar.jsx:334-342 | a fired timer leaves the queue and no other timer is added |
| Pillar.LightPillar.constructor | src/LightPillar.jsx:23-34 | a fresh component has zero time, the pointer at the origin, no refs, support and visibility assumed, and nothing allocated or drawn |
| Pillar.LightPillar.Probe | src/LightPillar.jsx:36-41 | a missing rendering context turns support off; nothing turns it back on |
| Pillar.LightPillar.VisibilityChange | src/LightPillar.jsx:43-47 | `shouldRun` becomes the page's visibility |
| Pillar.LightPillar.Setup | src/LightPillar.jsx:49-127 | a failed gate changes nothing; a throwing renderer clears support, sets only the scene and camera refs, and issues no frame request and no session or uniform change; otherwise a session starts with the resolved settings, a fresh frame request and three new GPU handles; time and pointer are kept |
| Pillar.LightPillar.Start | src/LightPillar.jsx:124-327 | the session captures the config, resolved settings, frame time and `performance.now()`; uniforms start at time 0, the configured intensity and the window size; one frame request is issued |
| Pillar.RotationAngle | src/LightPillar.jsx:318-319 | the rotation angle is zero exactly at time zero and never negative for non-negative time |
| Pillar.RotationPerFrame | src/LightPillar.jsx:314-319 | each drawn frame turns the pillar by the same angle, 0.35 x 0.016 x the rotation speed |
| Pillar.LightPillar.Ready | src/LightPillar.jsx:301-307 | the guard of `animate`; while a session is live its refs are all set, so the guard holds exactly when the captured `shouldRun` does |
| Pillar.LightPillar.Tick | src/LightPillar.jsx:300-325 | every frame issues one new request; a ready session whose frame time has elapsed advances time by one step, writes uTime and the rotation, draws once and carries `lastTime` over; otherwise nothing else changes |
| Pillar.LightPillar.MouseMove | src/LightPillar.jsx:280-294 | a move reaches the pointer only in a live, interactive session with no throttle pending; it then sets the normalised pointer and arms the throttle |
| Pillar.LightPillar.MouseTimerFires | src/LightPillar.jsx:285 | the throttle timer firing re-opens the gate and changes nothing else |
| Pillar.LightPillar.Resize | src/LightPillar.jsx:330-345 | a resize in a live session replaces that session's pending timer with one carrying its pixel ratio; the invariant is kept |
| Pillar.LightPillar.ResizeTimerFires | src/LightPillar.jsx:334-342 | a firing timer leaves the queue; if renderer and material are set, the surface takes the current window size and the timer's pixel ratio, and the resolution uniform takes the window size |
| Pillar.LightPillar.Teardown | src/LightPillar.jsx:347-367 | the frame request is cancelled, every ref is nulled, and exactly the present GPU handles are appended to the dispose log, so no handle is disposed twice |
| Scenarios.TwoFramesAtDefaults | src/LightPillar.jsx:296-325 | at the defaults two frames a frame time apart draw at times 0.016 x 0.55 and twice that |
| Scenarios.EarlyFrameSkipped | src/LightPillar.jsx:311-320 | frames sooner than the frame time after `lastTime` draw nothing |
| Scenarios.HiddenPageFreezesTime | src/LightPillar.jsx:43-47 | a session started while the page is hidden keeps requesting frames but never draws, and time stays put |
| Scenarios.TimeSurvivesRecreation | src/LightPillar.jsx:31 | time is kept across teardown and a new session |
| Scenarios.ResizeBurst | src/LightPillar.jsx:330-343 | three resize events leave one pending timer |
| Scenarios.ResizeApplies | src/LightPillar.jsx:334-342 | the firing timer applies the window size at fire time and the tier's pixel ratio |
| Scenarios.StaleResizeAfterQualityChange | src/LightPillar.jsx:330-367 | a timer from a torn-down "high" session applies ratio 1.5 although the new "low" session's ratio is 0.7 |
| Scenarios.DisposeOnce | src/LightPillar.jsx:347-367 | unmounting twice disposes three distinct handles, each once |
| Scenarios.ReducedMotionNoSession | src/LightPillar.jsx:55-61 | reduced motion without `force` leaves no session and nothing allocated, while the container is still rendered |
| Scenarios.RendererFailure | src/LightPillar.jsx:108-122 | a throwing renderer yields the fallback gradient, and a later effect run starts nothing |
| Scenarios.ThrottledPointer | src/LightPillar.jsx:280-290 | the first move at (200, 150) gives (-0.5, 0.5); a move inside the throttle window is dropped; after the timer fires the next move is taken |
| Scenarios.NonInteractivePointer | src/LightPillar.jsx:280-294 | a non-interactive component never moves its pointer |

## Left out

- The fragment and vertex shaders (the raymarch itself), colour parsing, the mesh, and the uniforms that never change after creation (colours, glow, pillar size and rotation, noise, wave constants). They are GPU code or constants.
- The cosine and sine written to `uRotCos`/`uRotSin`: the model records the angle `time * 0.35` they are computed from.
- DOM work: clearing the container, appending and removing the canvas, CSS. This is I/O.
- React scheduling: when the effect re-runs after a dependency change is up to the host that calls `Setup` and `Teardown`.
- The probe's canvas, the media query, `performance.now()`, the window size and a throwing renderer constructor are parameters (`Env`, `Probe`'s argument).
- IEEE floating point: times, ratios and coordinates are exact reals.
- Request ids: `requestAnimationFrame` ids are a counter, and `cancelAnimationFrame` is the pending request vanishing.
- A pending throttle timer of a torn-down session: it only clears a variable that nothing reads any more.
- `src/App.jsx`, the page around the component, is not part of this model.
- Quality.Resolve: tier names that are keys of JavaScript's object prototype (such as "toString") look up a non-settings value in the source. The model treats every name other than "low" and "high" as unknown, giving "medium".
- Quality.HighPixelRatio: a NaN device pixel ratio is not modelled; a missing or zero ratio counts as 1.
- Pointer.Normalise: requires a positive window width and height, because a zero-sized window makes the source divide by zero.
- Pillar.LightPillar.MouseMove: requires a positive window size, for the same reason.
- Pillar.LightPillar.Setup: requires that no session is live, because React runs the previous cleanup before re-running the effect.
- Pillar.LightPillar.Tick: requires a live session, because a frame callback fires only while a request is pending.
