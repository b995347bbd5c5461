/**
 * The render host's state as a value, and what each inbound call does to it.
 * WorldWindow (world_window.dfy) is proved to follow these transitions; the lemmas
 * below are the properties of the host that hold over any sequence of calls.
 */
module RenderHost {
  import opened Failures
  import opened Geometry
  import opened Collaborators

  /** The host's scene state between frames: every field of the window but the draw context. */
  datatype Scene = Scene(globe: Globe, layers: LayerList, verticalExaggeration: real,
                         navigator: Navigator, navigatorController: NavigatorController,
                         frameController: FrameController, viewport: Rect)

  /** The scene invariant: vertical exaggeration stays strictly positive. */
  predicate Valid(s: Scene)
  {
    s.verticalExaggeration > 0.0
  }

  /**
   * What an observer of the host sees: its scene, what the reused draw context holds
   * after the last frame, and how many follow-up frames it has requested so far.
   */
  datatype Host = Host(scene: Scene, context: FrameContext, renderRequests: nat)

  /** The inbound calls: the six setters, a surface resize, and one frame whose drawing did or did not ask for another. */
  datatype Command =
    | SetGlobe(globe: Globe?)
    | SetLayers(layers: LayerList?)
    | SetVerticalExaggeration(verticalExaggeration: real)
    | SetNavigator(navigator: Navigator?)
    | SetNavigatorController(controller: NavigatorController?)
    | SetFrameController(frameController: FrameController?)
    | SurfaceChanged(width: int, height: int)
    | DrawFrame(renderRequested: bool)

  /** The scene fields, so that a property can speak of "every other field". */
  datatype Field = GlobeField | LayersField | ExaggerationField | NavigatorField
                 | ControllerField | FrameControllerField | ViewportField

  /** Two scenes hold the same value in field f. */
  predicate Agree(s: Scene, t: Scene, f: Field)
  {
    match f
    case GlobeField => s.globe == t.globe
    case LayersField => s.layers == t.layers
    case ExaggerationField => s.verticalExaggeration == t.verticalExaggeration
    case NavigatorField => s.navigator == t.navigator
    case ControllerField => s.navigatorController == t.navigatorController
    case FrameControllerField => s.frameController == t.frameController
    case ViewportField => s.viewport == t.viewport
  }

  /** The scene fields a call names (whether or not it is accepted). */
  function Writes(c: Command): set<Field>
  {
    match c
    case SetGlobe(_) => {GlobeField}
    case SetLayers(_) => {LayersField}
    case SetVerticalExaggeration(_) => {ExaggerationField}
    case SetNavigator(_) => {NavigatorField}
    case SetNavigatorController(_) => {ControllerField}
    case SetFrameController(_) => {FrameControllerField}
    case SurfaceChanged(_, _) => {ViewportField}
    case DrawFrame(_) => {}
  }

  /** The call passes a null where the host needs an object. */
  predicate PassesNull(c: Command)
  {
    || (c.SetGlobe? && c.globe == null)
    || (c.SetLayers? && c.layers == null)
    || (c.SetNavigator? && c.navigator == null)
    || (c.SetNavigatorController? && c.controller == null)
    || (c.SetFrameController? && c.frameController == null)
  }

  /** The argument check each setter makes before it assigns anything. */
  function Validate(c: Command): (r: Outcome)
    ensures r.Fail? <==> PassesNull(c) || (c.SetVerticalExaggeration? && c.verticalExaggeration <= 0.0)
  {
    match c
    case SetGlobe(g) => if g == null then Fail(IllegalArgument("missingGlobe")) else Pass
    case SetLayers(l) => if l == null then Fail(IllegalArgument("missingList")) else Pass
    case SetVerticalExaggeration(v) =>
      if v <= 0.0 then Fail(IllegalArgument("invalidVerticalExaggeration")) else Pass
    case SetNavigator(n) => if n == null then Fail(IllegalArgument("missingNavigator")) else Pass
    case SetNavigatorController(nc) => if nc == null then Fail(IllegalArgument("missingController")) else Pass
    case SetFrameController(fc) => if fc == null then Fail(IllegalArgument("missingController")) else Pass
    case SurfaceChanged(_, _) => Pass
    case DrawFrame(_) => Pass
  }

  /** The named field of s holds the call's argument (for a resize: the whole-surface rectangle). */
  predicate Holds(s: Scene, c: Command)
  {
    match c
    case SetGlobe(g) => s.globe == g
    case SetLayers(l) => s.layers == l
    case SetVerticalExaggeration(v) => s.verticalExaggeration == v
    case SetNavigator(n) => s.navigator == n
    case SetNavigatorController(nc) => s.navigatorController == nc
    case SetFrameController(fc) => s.frameController == fc
    case SurfaceChanged(w, h) => s.viewport == SurfaceRect(w, h)
    case DrawFrame(_) => true
  }

  /** The draw context as prepareToDrawFrame leaves it: the scene's values, the flag lowered. */
  function Prepare(s: Scene): FrameContext
  {
    FrameContext(s.globe, s.layers, s.verticalExaggeration, s.viewport, false)
  }

  /** The scene after an accepted mutator. */
  function Assign(s: Scene, c: Command): Scene
    requires Validate(c).Pass? && !c.DrawFrame?
  {
    match c
    case SetGlobe(g) => s.(globe := g)
    case SetLayers(l) => s.(layers := l)
    case SetVerticalExaggeration(v) => s.(verticalExaggeration := v)
    case SetNavigator(n) => s.(navigator := n)
    case SetNavigatorController(nc) => s.(navigatorController := nc)
    case SetFrameController(fc) => s.(frameController := fc)
    case SurfaceChanged(w, h) => s.(viewport := Rect(0, 0, w, h))
  }

  /** One inbound call. */
  function Step(h: Host, c: Command): (r: Host)
    // a rejected call changes nothing
    ensures Validate(c).Fail? ==> r == h
    // an accepted call stores its argument, and no field it does not name changes
    ensures Validate(c).Pass? ==> Holds(r.scene, c)
    ensures forall f :: f !in Writes(c) ==> Agree(h.scene, r.scene, f)
    // mutators neither touch the draw context nor request a frame
    ensures !c.DrawFrame? ==> r.context == h.context
    // exactly one render request per frame whose drawing raised the flag, none otherwise
    ensures r.renderRequests == h.renderRequests + (if c.DrawFrame? && c.renderRequested then 1 else 0)
    // a frame draws the scene as it stood when the frame began
    ensures c.DrawFrame? ==> r.context == Prepare(h.scene).(renderRequested := c.renderRequested)
    ensures Valid(h.scene) ==> Valid(r.scene)
  {
    match c
    case DrawFrame(requested) =>
      Host(h.scene, Prepare(h.scene).(renderRequested := requested),
           h.renderRequests + if requested then 1 else 0)
    case _ =>
      if Validate(c).Fail? then h else h.(scene := Assign(h.scene, c))
  }

  /** A sequence of inbound calls, in order. */
  function Run(h: Host, cs: seq<Command>): Host
    decreases |cs|
  {
    if cs == [] then h else Run(Step(h, cs[0]), cs[1..])
  }

  /** How many frames in cs asked for a follow-up frame. */
  function FlaggedFrames(cs: seq<Command>): nat
    decreases |cs|
  {
    if cs == [] then 0
    else (if cs[0].DrawFrame? && cs[0].renderRequested then 1 else 0) + FlaggedFrames(cs[1..])
  }

  lemma {:induction false} RunAppend(h: Host, a: seq<Command>, b: seq<Command>)
    ensures Run(h, a + b) == Run(Run(h, a), b)
    decreases |a|
  {
    if a == [] {
      assert a + b == b;
    } else {
      assert (a + b)[0] == a[0];
      assert (a + b)[1..] == a[1..] + b;
      RunAppend(Step(h, a[0]), a[1..], b);
    }
  }

  /** No sequence of calls can make the vertical exaggeration non-positive. */
  lemma {:induction false} RunKeepsValid(h: Host, cs: seq<Command>)
    requires Valid(h.scene)
    ensures Valid(Run(h, cs).scene)
    decreases |cs|
  {
    if cs != [] {
      RunKeepsValid(Step(h, cs[0]), cs[1..]);
    }
  }

  /** The host requests exactly as many frames as drawing asked for; setters and resizes request none. */
  lemma {:induction false} RunCountsRenderRequests(h: Host, cs: seq<Command>)
    ensures Run(h, cs).renderRequests == h.renderRequests + FlaggedFrames(cs)
    decreases |cs|
  {
    if cs != [] {
      RunCountsRenderRequests(Step(h, cs[0]), cs[1..]);
    }
  }

  /** Without a frame, the draw context keeps whatever the last frame left in it. */
  lemma {:induction false} RunWithoutFramesKeepsContext(h: Host, cs: seq<Command>)
    requires forall i :: 0 <= i < |cs| ==> !cs[i].DrawFrame?
    ensures Run(h, cs).context == h.context
    decreases |cs|
  {
    if cs != [] {
      RunWithoutFramesKeepsContext(Step(h, cs[0]), cs[1..]);
    }
  }

  /** A field that no accepted call names keeps its value, however many rejected calls name it. */
  lemma {:induction false} RunKeepsUnwrittenField(h: Host, cs: seq<Command>, f: Field)
    requires forall i :: 0 <= i < |cs| && f in Writes(cs[i]) ==> Validate(cs[i]).Fail?
    ensures Agree(h.scene, Run(h, cs).scene, f)
    decreases |cs|
  {
    if cs != [] {
      var next := Step(h, cs[0]);
      assert Agree(h.scene, next.scene, f);
      RunKeepsUnwrittenField(next, cs[1..], f);
      match f
      case GlobeField =>
      case LayersField =>
      case ExaggerationField =>
      case NavigatorField =>
      case ControllerField =>
      case FrameControllerField =>
      case ViewportField =>
    }
  }

  /**
   * A frame is drawn from the scene left by every call before it. The property speaks of the
   * draw context as the frame leaves it. That is also what drawing was handed, because drawing
   * may change nothing in the context but the flag (FrameController.DrawFrame's frame).
   * WorldWindow.OnDrawFrame states the handed context directly, through FrameController.handed.
   */
  lemma FrameSeesCurrentScene(h: Host, cs: seq<Command>, requested: bool)
    ensures Run(h, cs + [DrawFrame(requested)]).context
         == Prepare(Run(h, cs).scene).(renderRequested := requested)
  {
    RunAppend(h, cs, [DrawFrame(requested)]);
  }

  /**
   * After a resize, the next frame's viewport is the whole new surface, whatever non-resize
   * calls came between (read from the context as the frame leaves it; see FrameSeesCurrentScene).
   */
  lemma ResizeReachesNextFrame(h: Host, width: int, height: int, cs: seq<Command>, requested: bool)
    requires forall i :: 0 <= i < |cs| ==> !cs[i].SurfaceChanged?
    ensures Run(h, [SurfaceChanged(width, height)] + cs + [DrawFrame(requested)]).context.viewport
         == SurfaceRect(width, height)
  {
    var resized := Step(h, SurfaceChanged(width, height));
    assert ([SurfaceChanged(width, height)] + cs)[1..] == cs;
    FrameSeesCurrentScene(h, [SurfaceChanged(width, height)] + cs, requested);
    RunKeepsUnwrittenField(resized, cs, ViewportField);
  }

  /**
   * An accepted exaggeration reaches the next frame; later rejected (non-positive) values do
   * not disturb it (read from the context as the frame leaves it; see FrameSeesCurrentScene).
   */
  lemma ExaggerationReachesNextFrame(h: Host, v: real, cs: seq<Command>, requested: bool)
    requires v > 0.0
    requires forall i :: 0 <= i < |cs| && cs[i].SetVerticalExaggeration? ==> cs[i].verticalExaggeration <= 0.0
    ensures Run(h, [SetVerticalExaggeration(v)] + cs + [DrawFrame(requested)]).context.verticalExaggeration == v
  {
    var accepted := Step(h, SetVerticalExaggeration(v));
    assert ([SetVerticalExaggeration(v)] + cs)[1..] == cs;
    FrameSeesCurrentScene(h, [SetVerticalExaggeration(v)] + cs, requested);
    RunKeepsUnwrittenField(accepted, cs, ExaggerationField);
  }
}
