# WorldWindow render host, modelled in Dafny

`WorldWindow` is the render host of the WorldWind Android globe viewer. It owns the scene
state: the globe, the layer list, the vertical exaggeration, the navigator (camera), the
navigator controller (gesture handling), the frame controller (drawing pipeline) and the viewport.
It validates every change to that state. It also runs the per-frame cycle:

1. reset the long-lived draw context and copy the scene into it;
2. let the navigator apply its camera state;
3. let the frame controller draw;
4. ask the surface for one more frame exactly when drawing raised the context's
   render-requested flag.

The model has two layers.

- `render_host.dfy` (module `RenderHost`) describes the host as a value. A `Scene` holds the
  window's fields. A `Host` adds the draw context's contents and the number of render
  requests. `Step` gives the effect of each inbound call (`Command`), and `Run` gives the
  effect of a sequence of calls. The lemmas state what holds over any sequence of calls.
- `world_window.dfy` (module `WorldWind`) is the class `WorldWindow` itself. Its fields are
  updated in place by methods with `modifies` frames. Every mutator and the frame cycle are
  proved to move `State()` exactly as `RenderHost.Step` says. Every operation requires and
  keeps the object invariant `Valid()`: the exaggeration is positive. A second invariant,
  `Attached()`, says that of all the navigator controllers the window has held, exactly the
  current one points back to it. The constructor establishes `Attached()` and every operation
  keeps it, but none requires it. Code outside the window can re-point a controller, and the
  window goes on working after that, as the Java class does.
- `collaborators.dfy` reduces the globe, layer list, navigator, navigator controller, frame
  controller, frame statistics and draw context to the state the host reads or writes.
  `geometry.dfy` holds the viewport rectangle, and `failures.dfy` holds the
  `IllegalArgumentException` outcome.

Modelling choices:

- Java's `null` arguments are nullable references (`Globe?` and so on).
- A thrown `IllegalArgumentException` is an `Outcome` of `Fail(IllegalArgument(key))`, where
  `key` is the message key the source logs.
- `requestRender()` increments a ghost counter, `renderRequests`.
- What drawing decides about a follow-up frame is nondeterministic in
  `FrameController.DrawFrame`. In the value model it is the argument of `DrawFrame(requested)`.
- The frame controller keeps a ghost record of every context it was handed. That record is
  what shows the order prepare, then apply state, then draw: the pipeline sees the freshly
  prepared scene together with the navigator's current view.

## Model

| member | source | states |
|---|---|---|
| `Geometry.SurfaceRect` | worldwind/src/main/java/gov/nasa/worldwind/WorldWindow.java:178 | the viewport after a resize is anchored at (0, 0) and its width and height are exactly the surface's |
| `RenderHost.Validate` | worldwind/src/main/java/gov/nasa/worldwind/WorldWindow.java:86-160 | a setter call is rejected exactly when it passes null, or a vertical exaggeration <= 0; resizes and frames are never rejected |
| `RenderHost.Step` | worldwind/src/main/java/gov/nasa/worldwind/WorldWindow.java:86-201 | a rejected call changes nothing; an accepted one stores its argument and changes no other field; mutators neither touch the draw context nor request a frame; a frame is drawn from the scene as it stood when the frame began and adds one render request exactly when drawing raised the flag; the positive-exaggeration invariant is kept |
| `RenderHost.RunKeepsValid` | worldwind/src/main/java/gov/nasa/worldwind/WorldWindow.java:112-119 | no sequence of calls makes the vertical exaggeration non-positive |
| `RenderHost.RunCountsRenderRequests` | worldwind/src/main/java/gov/nasa/worldwind/WorldWindow.java:184-192 | over any sequence of calls, the number of render requests equals the number of frames whose drawing raised the flag; setters and resizes request none |
| `RenderHost.RunWithoutFramesKeepsContext` | worldwind/src/main/java/gov/nasa/worldwind/WorldWindow.java:195-201 | the draw context is written only by a frame: any number of setter and resize calls leave it as the last frame left it |
| `RenderHost.RunKeepsUnwrittenField` | worldwind/src/main/java/gov/nasa/worldwind/WorldWindow.java:86-160 | a field that no accepted call names keeps its value, however many rejected calls name it |
| `RenderHost.Prepare` | worldwind/src/main/java/gov/nasa/worldwind/WorldWindow.java:195-201 | the draw context a frame starts from: the scene's globe, layers, exaggeration and viewport, with the flag lowered |
| `RenderHost.FrameSeesCurrentScene` | worldwind/src/main/java/gov/nasa/worldwind/WorldWindow.java:184-201 | a frame's draw context holds the scene left by every call before it, with the flag as drawing left it |
| `RenderHost.ResizeReachesNextFrame` | worldwind/src/main/java/gov/nasa/worldwind/WorldWindow.java:176-201 | after a resize to (width, height), the next frame's viewport is (0, 0, width, height), whatever non-resize calls come between |
| `RenderHost.ExaggerationReachesNextFrame` | worldwind/src/main/java/gov/nasa/worldwind/WorldWindow.java:112-119 | an accepted exaggeration reaches the next frame; later non-positive values are rejected and do not disturb it |
| `Collaborators.DrawContext.Reset` | worldwind/src/main/java/gov/nasa/worldwind/WorldWindow.java:196 | resetting the context lowers the render-requested flag |
| `Collaborators.DrawContext.IsRenderRequested` | worldwind/src/main/java/gov/nasa/worldwind/WorldWindow.java:190 | reads the flag that drawing may have raised |
| `Collaborators.Navigator.ApplyState` | worldwind/src/main/java/gov/nasa/worldwind/WorldWindow.java:185 | the navigator stamps its view into the context and changes nothing else there |
| `Collaborators.NavigatorController.SetWorldWindow` | worldwind/src/main/java/gov/nasa/worldwind/WorldWindow.java:144-146 | the controller's back-reference becomes the given window, or null |
| `Collaborators.FrameController.DrawFrame` | worldwind/src/main/java/gov/nasa/worldwind/WorldWindow.java:186 | drawing may raise the context's flag but never lowers it; it records the context and view it was handed, and counts one frame in its own statistics |
| `WorldWind.WorldWindow.constructor` | worldwind/src/main/java/gov/nasa/worldwind/WorldWindow.java:28-74 | default collaborators, exaggeration 1, an empty viewport, a fresh draw context, and the default controller attached to this window, so both `Valid()` and `Attached()` hold |
| `WorldWind.WorldWindow.GetVerticalExaggeration` | worldwind/src/main/java/gov/nasa/worldwind/WorldWindow.java:108-110 | the exaggeration read back is always positive |
| `WorldWind.WorldWindow.GetNavigatorController` | worldwind/src/main/java/gov/nasa/worldwind/WorldWindow.java:134-136 | while `Attached()` holds, the stored controller points back to this window, and it is the only controller the window has held that does |
| `WorldWind.WorldWindow.GetGlobe` | worldwind/src/main/java/gov/nasa/worldwind/WorldWindow.java:82-84 | returns the stored globe; `SetGlobe` promises that it is the last accepted argument |
| `WorldWind.WorldWindow.GetLayers` | worldwind/src/main/java/gov/nasa/worldwind/WorldWindow.java:95-97 | returns the stored layer list; `SetLayers` promises that it is the last accepted argument |
| `WorldWind.WorldWindow.GetNavigator` | worldwind/src/main/java/gov/nasa/worldwind/WorldWindow.java:121-123 | returns the stored navigator; `SetNavigator` promises that it is the last accepted argument |
| `WorldWind.WorldWindow.GetFrameController` | worldwind/src/main/java/gov/nasa/worldwind/WorldWindow.java:149-151 | returns the stored frame controller; `SetFrameController` promises that it is the last accepted argument |
| `WorldWind.WorldWindow.GetFrameStatistics` | worldwind/src/main/java/gov/nasa/worldwind/WorldWindow.java:162-164 | the statistics of whichever frame controller is stored now: `SetFrameController` promises they are the new controller's own, and `OnDrawFrame` that they count the frame it drew |
| `WorldWind.WorldWindow.SetGlobe` | worldwind/src/main/java/gov/nasa/worldwind/WorldWindow.java:82-93 | null is rejected with the state unchanged; otherwise `GetGlobe()` returns the new globe, nothing else changes, and no frame is requested |
| `WorldWind.WorldWindow.SetLayers` | worldwind/src/main/java/gov/nasa/worldwind/WorldWindow.java:95-106 | null is rejected with the state unchanged; otherwise `GetLayers()` returns the new list, nothing else changes, and no frame is requested |
| `WorldWind.WorldWindow.SetVerticalExaggeration` | worldwind/src/main/java/gov/nasa/worldwind/WorldWindow.java:108-119 | accepted exactly when v > 0; `GetVerticalExaggeration()` is then v, and is otherwise unchanged |
| `WorldWind.WorldWindow.SetNavigator` | worldwind/src/main/java/gov/nasa/worldwind/WorldWindow.java:121-132 | null is rejected with the state unchanged; otherwise `GetNavigator()` returns the new navigator, and nothing else changes |
| `WorldWind.WorldWindow.SetNavigatorController` | worldwind/src/main/java/gov/nasa/worldwind/WorldWindow.java:134-147 | null is rejected before the old controller is detached, so it stays stored and attached; otherwise the old controller's back-reference becomes null, the new one is stored, and it points back to this window; `Attached()` is kept if it held before |
| `WorldWind.WorldWindow.SetFrameController` | worldwind/src/main/java/gov/nasa/worldwind/WorldWindow.java:149-164 | null is rejected with the state unchanged; otherwise the new controller is stored and `GetFrameStatistics()` is its own statistics |
| `WorldWind.WorldWindow.OnSurfaceChanged` | worldwind/src/main/java/gov/nasa/worldwind/WorldWindow.java:175-179 | the viewport becomes (0, 0, width, height), and no other field and no draw-context content changes |
| `WorldWind.WorldWindow.RequestRender` | worldwind/src/main/java/gov/nasa/worldwind/WorldWindow.java:190-192 | one outbound request for another frame |
| `WorldWind.WorldWindow.PrepareToDrawFrame` | worldwind/src/main/java/gov/nasa/worldwind/WorldWindow.java:195-201 | afterwards the draw context holds the host's globe, layers, exaggeration and viewport, and its flag is lowered |
| `WorldWind.WorldWindow.OnDrawFrame` | worldwind/src/main/java/gov/nasa/worldwind/WorldWindow.java:181-193 | the scene is unchanged; the pipeline was handed the freshly prepared scene together with the navigator's view; its statistics count one more frame; exactly one render request is issued if the flag is set after drawing, and none otherwise |

## Left out

- The Android constructors' `Context` and `AttributeSet` arguments, the EGL client version, `setRenderer` and the render mode (on-demand redraw). They are platform configuration with no state in this class.
- `onSurfaceCreated`: its only effects are OpenGL state calls (blending, culling, depth test).
- The `glViewport` call in `onSurfaceChanged`: only the stored viewport is modelled.
- Logger message formatting. A failure carries only the message key.
- The internals of the collaborators, whose source is not part of this model. These are the globe's ellipsoid math, the layer list's storage, the navigator's camera math (reduced to copying a `ViewState`), the actual drawing, and what frame statistics contain beyond a frame count.
- `Collaborators.DrawContext.Reset`: states only that the render-requested flag is lowered. The rest of `DrawContext.reset` is not part of this model.
- The viewport is a value (`Geometry.Rect`), not a mutable `android.graphics.Rect` object. `Rect.set` in place and `DrawContext.setViewport` are modelled as copies of the four coordinates, so aliasing between the window's rectangle and the context's is not captured.
- Threads: setters called from the UI thread while the render thread draws. Every call is sequential here.
- Double-precision arithmetic: the vertical exaggeration is a `real`. Apart from NaN (see the three lines below), only its sign test and copy matter.
- A controller attached to a second window: the source silently re-points it, and so does the model. The first window's `Attached()` then no longer holds. No operation requires `Attached()`, so that window still accepts every call. Its navigator-controller getter then promises nothing about the back-reference, and the model does not describe the other window losing the controller.
- RenderHost.Validate: Java's test `verticalExaggeration <= 0` is false for NaN, so the program accepts `setVerticalExaggeration(Double.NaN)`. The model uses `real`, which has no NaN, and rejects exactly the values <= 0.
- RenderHost.RunKeepsValid: the positivity invariant holds only for real-valued exaggerations. In the program a NaN passes the check and is stored.
- WorldWind.WorldWindow.GetVerticalExaggeration: "always positive" holds only in the real-valued model. In the program it returns NaN after `setVerticalExaggeration(Double.NaN)`.
