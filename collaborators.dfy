/**
 * The objects the render host drives. Their own source is not part of this model:
 * each is reduced to the state the host's frame cycle reads or writes.
 */
module Collaborators {
  import opened Geometry

  /** The globe model, an opaque reference (its ellipsoid math is not modelled). */
  class Globe {
    constructor() {}
  }

  /** The ordered layer collection, an opaque reference (its storage is not modelled). */
  class LayerList {
    constructor() {}
  }

  /** The camera state a navigator stamps into the draw context. */
  datatype ViewState = ViewState(latitude: real, longitude: real, altitude: real,
                                 heading: real, tilt: real, roll: real)

  /** The scene part of a draw context: what the host copies in before each frame, and the flag. */
  datatype FrameContext = FrameContext(globe: Globe?, layers: LayerList?, verticalExaggeration: real,
                                       viewport: Rect, renderRequested: bool)

  /** What the frame pipeline was handed for one frame: the context and the view applied to it. */
  datatype DrawnFrame = DrawnFrame(context: FrameContext, view: ViewState)

  /** The long-lived per-frame scratch object; reset and refilled at the start of every frame. */
  class DrawContext {
    var globe: Globe?
    var layers: LayerList?
    var verticalExaggeration: real
    var viewport: Rect
    var viewState: ViewState
    var renderRequested: bool

    constructor()
      ensures globe == null && layers == null && !renderRequested
    {
      globe, layers := null, null;
      verticalExaggeration := 1.0;
      viewport := EmptyRect;
      viewState := ViewState(0.0, 0.0, 0.0, 0.0, 0.0, 0.0);
      renderRequested := false;
    }

    ghost function Context(): FrameContext
      reads this
    {
      FrameContext(globe, layers, verticalExaggeration, viewport, renderRequested)
    }

    /** Starts a new frame: the render-requested flag is cleared. */
    method Reset()
      modifies this
      ensures !renderRequested
    {
      renderRequested := false;
    }

    /** Called by drawing code that needs a follow-up frame. */
    method RequestRender()
      modifies this`renderRequested
      ensures renderRequested
    {
      renderRequested := true;
    }

    predicate IsRenderRequested()
      reads this
    {
      renderRequested
    }
  }

  /** The camera model. */
  class Navigator {
    var viewState: ViewState

    constructor()
    {
      viewState := ViewState(0.0, 0.0, 0.0, 0.0, 0.0, 0.0);
    }

    /** Stamps this navigator's camera state into the draw context and touches nothing else. */
    method ApplyState(dc: DrawContext)
      modifies dc`viewState
      ensures dc.viewState == viewState
    {
      dc.viewState := viewState;
    }
  }

  /** Turns input gestures into navigator changes; knows the window it serves, if any. */
  class NavigatorController {
    /** The window this controller is attached to, or null: a lookup handle, not ownership. */
    var host: object?

    constructor()
      ensures host == null
    {
      host := null;
    }

    method SetWorldWindow(w: object?)
      modifies this`host
      ensures host == w
    {
      host := w;
    }
  }

  /** Per-pipeline accumulator of frame counters. */
  class FrameStatistics {
    var frameCount: nat

    constructor()
      ensures frameCount == 0
    {
      frameCount := 0;
    }
  }

  /** The frame drawing pipeline. */
  class FrameController {
    const statistics: FrameStatistics
    /** Every frame this pipeline has been handed, in order. */
    ghost var handed: seq<DrawnFrame>

    constructor()
      ensures fresh(statistics) && statistics.frameCount == 0 && handed == []
    {
      statistics := new FrameStatistics();
      handed := [];
    }

    function GetFrameStatistics(): FrameStatistics
    {
      statistics
    }

    /**
     * Draws one frame from the context. Drawing may ask for a follow-up frame (a resource
     * it needed was not ready yet) by raising the context's flag, and never lowers it.
     * Whether it does is not determined by anything this model holds.
     */
    method DrawFrame(dc: DrawContext)
      modifies dc`renderRequested, statistics`frameCount, this`handed
      ensures old(dc.renderRequested) ==> dc.renderRequested
      ensures handed == old(handed) + [DrawnFrame(old(dc.Context()), dc.viewState)]
      ensures statistics.frameCount == old(statistics.frameCount) + 1
    {
      handed := handed + [DrawnFrame(dc.Context(), dc.viewState)];
      if * {
        dc.RequestRender();
      }
      statistics.frameCount := statistics.frameCount + 1;
    }
  }
}
