/**
 * The render host: owns the scene state, validates every change to it, and runs the
 * per-frame cycle prepare -> apply navigator state -> draw -> propagate render request.
 */
module WorldWind {
  import opened Failures
  import opened Geometry
  import opened Collaborators
  import RH = RenderHost

  class WorldWindow {
    var globe: Globe
    var layers: LayerList
    var verticalExaggeration: real
    var navigator: Navigator
    var navigatorController: NavigatorController
    var frameController: FrameController
    var viewport: Rect
    var dc: DrawContext

    /** How many times this window has asked the surface for another frame. */
    ghost var renderRequests: nat
    /** Every navigator controller this window has held. */
    ghost var controllers: set<NavigatorController>

    /** The object invariant: vertical exaggeration is positive. */
    ghost predicate Valid()
      reads this
    {
      verticalExaggeration > 0.0
    }

    /**
     * The attach protocol's invariant: of all the controllers this window has held, exactly
     * the current one points back to it. The window establishes it and keeps it, but a
     * controller's back-reference can also be changed from outside (by another window, or
     * by calling SetWorldWindow directly), so no operation depends on it.
     */
    ghost predicate Attached()
      reads this, controllers
    {
      && navigatorController in controllers
      && forall c :: c in controllers ==> (c.host == this <==> c == navigatorController)
    }

    ghost function Scene(): RH.Scene
      reads this
    {
      RH.Scene(globe, layers, verticalExaggeration, navigator, navigatorController, frameController, viewport)
    }

    ghost function State(): RH.Host
      reads this, dc
    {
      RH.Host(Scene(), dc.Context(), renderRequests)
    }

    /** The default collaborators, the default controller attached, a fresh draw context. */
    constructor()
      ensures Valid() && Attached()
      ensures fresh(globe) && fresh(layers) && fresh(navigator) && fresh(navigatorController)
      ensures fresh(frameController) && fresh(dc)
      ensures verticalExaggeration == 1.0 && viewport == EmptyRect
      ensures navigatorController.host == this && controllers == {navigatorController}
      ensures dc.globe == null && dc.layers == null && !dc.renderRequested
      ensures frameController.handed == [] && GetFrameStatistics().frameCount == 0
      ensures renderRequests == 0
    {
      globe := new Globe();
      layers := new LayerList();
      verticalExaggeration := 1.0;
      navigator := new Navigator();
      navigatorController := new NavigatorController();
      frameController := new FrameController();
      viewport := EmptyRect;
      dc := new DrawContext();
      renderRequests := 0;
      controllers := {navigatorController};
      new;
      navigatorController.SetWorldWindow(this);
    }

    function GetGlobe(): Globe
      reads this
    {
      globe
    }

    function GetLayers(): LayerList
      reads this
    {
      layers
    }

    function GetVerticalExaggeration(): (v: real)
      reads this
      requires Valid()
      ensures v > 0.0
    {
      verticalExaggeration
    }

    function GetNavigator(): Navigator
      reads this
    {
      navigator
    }

    /** The current controller; while the attach invariant holds, the only one pointing back here. */
    function GetNavigatorController(): (c: NavigatorController)
      reads this, navigatorController, controllers
      ensures Attached() ==> c.host == this
      ensures Attached() ==> forall d :: d in controllers && d.host == this ==> d == c
    {
      navigatorController
    }

    function GetFrameController(): FrameController
      reads this
    {
      frameController
    }

    /** The statistics of whichever frame controller is stored now. */
    function GetFrameStatistics(): FrameStatistics
      reads this
    {
      frameController.GetFrameStatistics()
    }

    method SetGlobe(g: Globe?) returns (r: Outcome)
      requires Valid()
      modifies this
      ensures old(Attached()) ==> Attached()
      ensures Valid() && dc == old(dc) && controllers == old(controllers)
      ensures r == RH.Validate(RH.SetGlobe(g))
      ensures State() == RH.Step(old(State()), RH.SetGlobe(g))
      ensures r.Pass? <==> g != null
      ensures g != null ==> GetGlobe() == g
    {
      if g == null {
        r := Fail(IllegalArgument("missingGlobe"));
        return;
      }
      globe := g;
      r := Pass;
    }

    method SetLayers(l: LayerList?) returns (r: Outcome)
      requires Valid()
      modifies this
      ensures old(Attached()) ==> Attached()
      ensures Valid() && dc == old(dc) && controllers == old(controllers)
      ensures r == RH.Validate(RH.SetLayers(l))
      ensures State() == RH.Step(old(State()), RH.SetLayers(l))
      ensures r.Pass? <==> l != null
      ensures l != null ==> GetLayers() == l
    {
      if l == null {
        r := Fail(IllegalArgument("missingList"));
        return;
      }
      layers := l;
      r := Pass;
    }

    method SetVerticalExaggeration(v: real) returns (r: Outcome)
      requires Valid()
      modifies this
      ensures old(Attached()) ==> Attached()
      ensures Valid() && dc == old(dc) && controllers == old(controllers)
      ensures r == RH.Validate(RH.SetVerticalExaggeration(v))
      ensures State() == RH.Step(old(State()), RH.SetVerticalExaggeration(v))
      ensures r.Pass? <==> v > 0.0
      ensures GetVerticalExaggeration() == if v > 0.0 then v else old(GetVerticalExaggeration())
    {
      if v <= 0.0 {
        r := Fail(IllegalArgument("invalidVerticalExaggeration"));
        return;
      }
      verticalExaggeration := v;
      r := Pass;
    }

    method SetNavigator(n: Navigator?) returns (r: Outcome)
      requires Valid()
      modifies this
      ensures old(Attached()) ==> Attached()
      ensures Valid() && dc == old(dc) && controllers == old(controllers)
      ensures r == RH.Validate(RH.SetNavigator(n))
      ensures State() == RH.Step(old(State()), RH.SetNavigator(n))
      ensures r.Pass? <==> n != null
      ensures n != null ==> GetNavigator() == n
    {
      if n == null {
        r := Fail(IllegalArgument("missingNavigator"));
        return;
      }
      navigator := n;
      r := Pass;
    }

    /**
     * Detaches the current controller, stores the new one and attaches it. A null
     * argument is rejected before anything is detached.
     */
    method SetNavigatorController(c: NavigatorController?) returns (r: Outcome)
      requires Valid()
      modifies this, navigatorController, c
      ensures old(Attached()) ==> Attached()
      ensures Valid() && dc == old(dc)
      ensures r == RH.Validate(RH.SetNavigatorController(c))
      ensures State() == RH.Step(old(State()), RH.SetNavigatorController(c))
      ensures r.Pass? <==> c != null
      ensures c == null ==> unchanged(old(navigatorController)) && controllers == old(controllers)
      ensures c != null ==> GetNavigatorController() == c && c.host == this
      ensures c != null ==> controllers == old(controllers) + {c}
      ensures c != null && c != old(navigatorController) ==> old(navigatorController).host == null
    {
      if c == null {
        r := Fail(IllegalArgument("missingController"));
        return;
      }
      navigatorController.SetWorldWindow(null);
      navigatorController := c;
      navigatorController.SetWorldWindow(this);
      controllers := controllers + {c};
      r := Pass;
    }

    method SetFrameController(f: FrameController?) returns (r: Outcome)
      requires Valid()
      modifies this
      ensures old(Attached()) ==> Attached()
      ensures Valid() && dc == old(dc) && controllers == old(controllers)
      ensures r == RH.Validate(RH.SetFrameController(f))
      ensures State() == RH.Step(old(State()), RH.SetFrameController(f))
      ensures r.Pass? <==> f != null
      ensures f != null ==> GetFrameController() == f && GetFrameStatistics() == f.statistics
    {
      if f == null {
        r := Fail(IllegalArgument("missingController"));
        return;
      }
      frameController := f;
      r := Pass;
    }

    /** The surface now has the given size; the viewport becomes the whole of it. */
    method OnSurfaceChanged(width: int, height: int)
      requires Valid()
      modifies this
      ensures old(Attached()) ==> Attached()
      ensures Valid() && dc == old(dc) && controllers == old(controllers)
      ensures State() == RH.Step(old(State()), RH.SurfaceChanged(width, height))
      ensures viewport == SurfaceRect(width, height)
    {
      viewport := Rect(0, 0, width, height);
    }

    /** The outbound request for one more frame. */
    method RequestRender()
      modifies this`renderRequests
      ensures renderRequests == old(renderRequests) + 1
    {
      renderRequests := renderRequests + 1;
    }

    /** Resets the draw context and copies the host's scene into it. */
    method PrepareToDrawFrame()
      modifies dc
      ensures dc.Context() == RH.Prepare(Scene())
    {
      dc.Reset();
      dc.globe := globe;
      dc.layers := layers;
      dc.verticalExaggeration := verticalExaggeration;
      dc.viewport := viewport;
    }

    /**
     * One frame: prepare the context, let the navigator apply its state, draw, and
     * request one more frame exactly when drawing raised the context's flag.
     */
    method OnDrawFrame()
      requires Valid()
      modifies this, dc, frameController, frameController.statistics
      ensures old(Attached()) ==> Attached()
      ensures Valid() && dc == old(dc) && controllers == old(controllers)
      ensures State() == RH.Step(old(State()), RH.DrawFrame(dc.renderRequested))
      ensures frameController.handed
           == old(frameController.handed) + [DrawnFrame(RH.Prepare(Scene()), navigator.viewState)]
      ensures GetFrameStatistics().frameCount == old(GetFrameStatistics().frameCount) + 1
    {
      PrepareToDrawFrame();
      navigator.ApplyState(dc);
      frameController.DrawFrame(dc);
      if dc.IsRenderRequested() {
        RequestRender();
      }
    }
  }
}
