/**
 * One rendering surface of a session (the `Canvas` component of
 * src/components/annotation/Canvas.tsx): the host's, or one viewer's.
 *
 * The surface owns its ordered canvas of shapes, the mode controller state,
 * the echo-suppression flag and the listeners. The event bus is the `outbox`
 * the host appends to; a viewer applies events handed to `Receive` in order.
 * The embedded page is reached only through a `Frame` value that says whether
 * it is there and whether it may be touched, and the 100 ms timer, the
 * library's path load and the library's stroke-finished notice are explicit
 * steps (`TimerFires`, `CompletePathLoad`, `StrokeFinished`).
 */
module AnnotationCanvas {
  import opened Wrappers
  import opened ShapeCodec
  import opened ReplayEngine
  import M = InteractionMode

  /** The embedded page as one access finds it. */
  datatype Frame =
    | NoWindow                                  // no frame element or no content window
    | CrossOrigin                               // access throws; the error is logged and swallowed
    | SameOrigin(scrollX: int, scrollY: int)    // accessible, currently scrolled to this offset

  /** The reload a viewer asks for on a `navigation` event. */
  function ViewPath(sessionId: string): (path: string)
    ensures |path| == 6 + |sessionId| && path[..6] == "/view/" && path[6..] == sessionId
  {
    "/view/" + sessionId
  }

  class Surface {
    const isHost: bool
    const sessionId: string

    /** The drawing library's canvas has been created (`fabricCanvas` is not null). */
    var ready: bool
    /** The objects on this surface's canvas, in insertion (and z-) order. */
    var canvas: seq<Shape>
    /** Path objects handed to the library's full-geometry load, not yet resolved. */
    var pathLoads: seq<ObjectData>

    var annotationMode: bool
    var tool: M.Tool
    var color: string
    /** The library's free-drawing switch and brush. */
    var drawingMode: bool
    var brushColor: string
    var brushWidth: int
    /** The `path:created` broadcaster is registered. */
    var strokeListener: bool

    /** The scroll listener is attached to the embedded page. */
    var scrollListener: bool
    /** `scrollSyncRef.current`: a programmatic scroll is in progress. */
    var scrollSync: bool
    /** Suppression timers started and not yet fired. */
    var pendingTimers: nat
    /** The last offset this surface scrolled its embedded page to. */
    var appliedOffset: Option<(int, int)>
    /** The location a `navigation` event sent this surface to. */
    var reload: Option<string>

    /** Every event this surface appended to the session stream, in order. */
    var outbox: seq<Event>

    /**
     * Role gating as an invariant: a viewer never appends and never has a
     * listener armed; a host never scrolls, reloads or loads in response to
     * the stream; and nothing is on the canvas before the canvas exists.
     */
    ghost predicate Valid()
      reads this
    {
      && (!ready ==> canvas == [] && pathLoads == [])
      && (!isHost ==> outbox == [] && !scrollListener && !strokeListener)
      && (isHost ==> !scrollSync && pendingTimers == 0 && appliedOffset.None? && reload.None? && pathLoads == [])
    }

    /** The host's canvas is what a viewer gets by replaying the whole outbox from empty. */
    ghost predicate Mirrors()
      reads this`canvas, this`outbox
    {
      ReplayCanvas([], outbox) == canvas
    }

    /** The overlay's `pointer-events` style. */
    function PointerEvents(): (p: M.PointerEvents)
      reads this`annotationMode
      ensures p == M.Auto <==> isHost && annotationMode
    {
      M.OverlayPointerEvents(isHost, annotationMode)
    }

    constructor (isHost: bool, sessionId: string)
      ensures Valid() && Mirrors()
      ensures this.isHost == isHost && this.sessionId == sessionId
      ensures !ready && canvas == [] && pathLoads == [] && outbox == []
      ensures !annotationMode && tool == M.Select && color == M.DefaultColor
      ensures !drawingMode && !strokeListener && !scrollListener
      ensures !scrollSync && pendingTimers == 0 && appliedOffset.None? && reload.None?
    {
      this.isHost, this.sessionId := isHost, sessionId;
      ready, canvas, pathLoads := false, [], [];
      annotationMode, tool, color := false, M.Select, M.DefaultColor;
      drawingMode, brushColor, brushWidth, strokeListener := false, M.DefaultColor, M.StrokeWidth, false;
      scrollListener, scrollSync, pendingTimers := false, false, 0;
      appliedOffset, reload := None, None;
      outbox := [];
    }

    /** Creating the library canvas: empty, not drawing, brush in the active colour, width 3. */
    method Mount()
      requires Valid() && !ready
      modifies this`ready, this`drawingMode, this`brushColor, this`brushWidth
      ensures Valid() && ready && !drawingMode
      ensures brushColor == color && brushWidth == M.StrokeWidth
    {
      ready := true;
      drawingMode, brushColor, brushWidth := false, color, M.StrokeWidth;
    }

    /** `broadcastEvent`: appends for a host, does nothing for a viewer. */
    method Broadcast(e: Event)
      requires Valid()
      modifies this`outbox
      ensures Valid()
      ensures outbox == if isHost then old(outbox) + [e] else old(outbox)
    {
      if isHost {
        outbox := outbox + [e];
      }
    }

    /**
     * The realtime callback. A host ignores every event. A viewer, on
     * `scroll`, raises the suppression flag, scrolls the page when it may and
     * starts a timer; on `annotation`, once its canvas exists, applies the
     * event (a path goes to the library's load instead); on `navigation`,
     * asks to reload its viewing screen.
     */
    method Receive(e: Event, frame: Frame)
      requires Valid()
      modifies this`scrollSync, this`pendingTimers, this`appliedOffset, this`canvas, this`pathLoads, this`reload
      ensures Valid()
      ensures isHost ==> unchanged(this)
      ensures !isHost ==>
        && canvas == (if ready then ApplyToCanvas(old(canvas), e) else old(canvas))
        && pathLoads == old(pathLoads) + (if ready then Requested(e) else [])
      ensures !isHost && e.Scroll? ==>
        && scrollSync && pendingTimers == old(pendingTimers) + 1
        && appliedOffset == (if frame.SameOrigin? then Some((e.x, e.y)) else old(appliedOffset))
        && reload == old(reload)
      ensures !isHost && e.Annotation? ==>
        && scrollSync == old(scrollSync) && pendingTimers == old(pendingTimers)
        && appliedOffset == old(appliedOffset) && reload == old(reload)
      ensures !isHost && e.Navigation? ==>
        && reload == Some(ViewPath(sessionId))
        && scrollSync == old(scrollSync) && pendingTimers == old(pendingTimers) && appliedOffset == old(appliedOffset)
    {
      if isHost {
        return;
      }
      match e
      case Scroll(x, y) =>
        scrollSync := true;
        if frame.SameOrigin? {
          appliedOffset := Some((x, y));
        }
        pendingTimers := pendingTimers + 1;
      case Annotation(action, obj) =>
        if ready {
          if action == "clear" {
            canvas := [];
          } else if obj.Some? {
            match Decode(obj.value)
            case Built(s) => canvas := canvas + [s];
            case LoadPath(data) => pathLoads := pathLoads + [data];
            case Unknown =>
          }
        }
      case Navigation =>
        reload := Some(ViewPath(sessionId));
    }

    /**
     * A viewer with a canvas receives `events` one by one, in stream order:
     * its canvas is their replay, its loads are theirs, every scroll starts a
     * timer and raises the flag, a readable page ends at the last scroll's
     * offset, and any navigation asks for the viewing screen.
     */
    method ReceiveAll(events: seq<Event>, frame: Frame)
      requires Valid() && !isHost && ready
      modifies this`scrollSync, this`pendingTimers, this`appliedOffset, this`canvas, this`pathLoads, this`reload
      ensures Valid()
      ensures canvas == ReplayCanvas(old(canvas), events)
      ensures pathLoads == old(pathLoads) + PathRequests(events)
      ensures pendingTimers == old(pendingTimers) + ScrollCount(events)
      ensures scrollSync == (old(scrollSync) || ScrollCount(events) > 0)
      ensures appliedOffset == if frame.SameOrigin? && LastScroll(events).Some? then LastScroll(events) else old(appliedOffset)
      ensures reload == if HasNavigation(events) then Some(ViewPath(sessionId)) else old(reload)
    {
      var i := 0;
      while i < |events|
        invariant 0 <= i <= |events|
        invariant Valid()
        invariant canvas == ReplayCanvas(old(canvas), events[..i])
        invariant pathLoads == old(pathLoads) + PathRequests(events[..i])
        invariant pendingTimers == old(pendingTimers) + ScrollCount(events[..i])
        invariant scrollSync == (old(scrollSync) || ScrollCount(events[..i]) > 0)
        invariant appliedOffset ==
          if frame.SameOrigin? && LastScroll(events[..i]).Some? then LastScroll(events[..i]) else old(appliedOffset)
        invariant reload == if HasNavigation(events[..i]) then Some(ViewPath(sessionId)) else old(reload)
      {
        Receive(events[i], frame);
        ReplayPrefixStep(old(canvas), events, i);
        SummaryPrefixStep(events, i);
        i := i + 1;
      }
      assert events[..i] == events;
    }

    /** One 100 ms suppression timer fires and lowers the flag, whatever other timers are pending. */
    method TimerFires()
      requires Valid() && pendingTimers > 0
      modifies this`scrollSync, this`pendingTimers
      ensures Valid()
      ensures !scrollSync && pendingTimers == old(pendingTimers) - 1
    {
      scrollSync := false;
      pendingTimers := pendingTimers - 1;
    }

    /**
     * The library's load of the oldest pending path resolves. The library
     * replaces the canvas contents with what it reconstructed, `loaded`,
     * which is not modelled here.
     */
    method CompletePathLoad(loaded: seq<Shape>)
      requires Valid() && pathLoads != []
      modifies this`canvas, this`pathLoads
      ensures Valid()
      ensures canvas == loaded && pathLoads == old(pathLoads)[1..]
    {
      canvas := loaded;
      pathLoads := pathLoads[1..];
    }

    /** Scroll capture is attached only on a host, and only to a page that allows it. */
    method AttachScrollListener(frame: Frame)
      requires Valid()
      modifies this`scrollListener
      ensures Valid()
      ensures scrollListener == (old(scrollListener) || (isHost && frame.SameOrigin?))
    {
      if !isHost {
        return;
      }
      if frame.SameOrigin? {
        scrollListener := true;
      }
    }

    /**
     * The host's scroll handler: nothing while the suppression flag is up or
     * when the page cannot be read; otherwise one `scroll` event with the
     * page's current offset.
     */
    method HandleScroll(frame: Frame)
      requires Valid()
      modifies this`outbox
      ensures Valid()
      ensures outbox == if scrollListener && !scrollSync && frame.SameOrigin?
        then old(outbox) + [Scroll(frame.scrollX, frame.scrollY)] else old(outbox)
      ensures old(Mirrors()) ==> Mirrors()
    {
      if !scrollListener || scrollSync {
        return;
      }
      if frame.SameOrigin? {
        Broadcast(Scroll(frame.scrollX, frame.scrollY));
        ReplaySnoc([], old(outbox), Scroll(frame.scrollX, frame.scrollY));
      }
    }

    /**
     * The tool effect: free drawing follows pen-and-Annotate, the brush takes
     * the active colour and width 3 while drawing, and a host in Annotate mode
     * (re)registers the stroke-finished broadcaster. Leaving Annotate mode does
     * not unregister it.
     */
    method ApplyToolEffect()
      requires Valid()
      modifies this`drawingMode, this`brushColor, this`brushWidth, this`strokeListener
      ensures Valid()
      ensures !old(ready) ==> unchanged(this)
      ensures old(ready) ==>
        && drawingMode == M.FreeDrawing(tool, annotationMode)
        && (drawingMode ==> brushColor == color && brushWidth == M.StrokeWidth)
        && (!drawingMode ==> brushColor == old(brushColor) && brushWidth == old(brushWidth))
        && strokeListener == (old(strokeListener) || M.ArmsStrokeListener(isHost, annotationMode))
    {
      if !ready {
        return;
      }
      drawingMode := M.FreeDrawing(tool, annotationMode);
      if drawingMode {
        brushColor, brushWidth := color, M.StrokeWidth;
      }
      if M.ArmsStrokeListener(isHost, annotationMode) {
        strokeListener := true;
      }
    }

    /**
     * The library finishes a freehand stroke (it does so only while free
     * drawing): the path joins this canvas, and the armed broadcaster appends
     * its serialization as an `add` event.
     */
    method StrokeFinished(path: ObjectData)
      requires Valid()
      modifies this`canvas, this`outbox
      ensures Valid()
      ensures canvas == if ready && drawingMode then old(canvas) + [Path(path)] else old(canvas)
      ensures outbox == if ready && drawingMode && strokeListener then old(outbox) + [AddEvent(path)] else old(outbox)
    {
      if !ready || !drawingMode {
        return;
      }
      canvas := canvas + [Path(path)];
      if strokeListener {
        Broadcast(AddEvent(path));
      }
    }

    /**
     * `handleToolClick`: a host ends in Annotate mode with `tool` active;
     * circle, rectangle and arrow, once the canvas exists, place one shape
     * locally and append its `add` event. A viewer's click does nothing.
     */
    method ToolClick(t: M.Tool)
      requires Valid()
      modifies this`annotationMode, this`tool, this`canvas, this`outbox
      ensures Valid()
      ensures !isHost ==> unchanged(this)
      ensures isHost ==>
        && annotationMode && tool == t
        && canvas == old(canvas) + (if ready then M.Placed(t, color) else [])
        && outbox == old(outbox) + (if ready then M.ToolEvents(t, color) else [])
      ensures old(Mirrors()) ==> Mirrors()
    {
      if !isHost {
        return;
      }
      if !annotationMode {
        annotationMode := true;
      }
      tool := t;
      if ready {
        PlaceShape(t);
      }
    }

    /** The placing half of `handleToolClick` on a host with a canvas: add the tool's shape and announce it. */
    method PlaceShape(t: M.Tool)
      requires Valid() && isHost && ready
      modifies this`canvas, this`outbox
      ensures Valid()
      ensures canvas == old(canvas) + M.Placed(t, color)
      ensures outbox == old(outbox) + M.ToolEvents(t, color)
      ensures old(Mirrors()) ==> Mirrors()
    {
      var shapes, events := M.Placed(t, color), M.ToolEvents(t, color);
      M.ToolClickKeepsMirror(outbox, canvas, t, color);
      canvas := canvas + shapes;
      if |events| == 1 {
        Broadcast(events[0]);
        assert outbox == old(outbox) + events;
      }
    }

    /** `handleClear`: a host with a canvas clears it, then appends `{action: "clear"}`. */
    method Clear()
      requires Valid()
      modifies this`canvas, this`outbox
      ensures Valid()
      ensures isHost && ready ==> canvas == [] && outbox == old(outbox) + [ClearEvent]
      ensures !(isHost && ready) ==> unchanged(this)
      ensures old(Mirrors()) ==> Mirrors()
    {
      if !isHost || !ready {
        return;
      }
      canvas := [];
      Broadcast(ClearEvent);
      ReplaySnoc([], old(outbox), ClearEvent);
    }

    /** `toggleAnnotationMode`: flips the mode; leaving Annotate resets the tool to select. */
    method ToggleAnnotationMode()
      requires Valid()
      modifies this`annotationMode, this`tool
      ensures Valid()
      ensures annotationMode == !old(annotationMode)
      ensures tool == if old(annotationMode) then M.Select else old(tool)
    {
      annotationMode := !annotationMode;
      if !annotationMode {
        tool := M.Select;
      }
    }

    /** The toolbar's colour choice. */
    method SetColor(c: string)
      requires Valid()
      modifies this`color
      ensures Valid()
      ensures color == c
    {
      color := c;
    }
  }

  /**
   * Delivery of the host's whole stream to a viewer whose canvas is empty:
   * the viewer ends with the host's canvas, while the host stays in sync
   * with its outbox, and has queued every path load the stream asks for.
   * Once such a load resolves, `CompletePathLoad` may replace the canvas.
   */
  method Deliver(host: Surface, viewer: Surface, frame: Frame)
    requires host != viewer
    requires host.Valid() && host.Mirrors()
    requires viewer.Valid() && !viewer.isHost && viewer.ready && viewer.canvas == []
    modifies viewer`scrollSync, viewer`pendingTimers, viewer`appliedOffset, viewer`canvas, viewer`pathLoads, viewer`reload
    ensures viewer.Valid()
    ensures viewer.canvas == host.canvas
    ensures viewer.pathLoads == old(viewer.pathLoads) + PathRequests(host.outbox)
  {
    viewer.ReceiveAll(host.outbox, frame);
  }

  /** The draw scenario: the host places a circle and a viewer gains exactly that circle. */
  method DrawScenario(sessionId: string) returns (hostCanvas: seq<Shape>, viewerCanvas: seq<Shape>)
    ensures viewerCanvas == hostCanvas
    ensures viewerCanvas == [Circle(Some(Num(100)), Some(Num(100)), Some(Num(50)), "transparent",
                                    Some(Str("#FF00FF")), Some(Num(3)))]
  {
    var host := new Surface(true, sessionId);
    var viewer := new Surface(false, sessionId);
    host.Mount();
    viewer.Mount();
    host.ToolClick(M.Circle);
    Deliver(host, viewer, NoWindow);
    hostCanvas, viewerCanvas := host.canvas, viewer.canvas;
  }

  /** A host that places a circle, a rectangle and an arrow and then clears. */
  method ClearedHost(sessionId: string, color: string) returns (host: Surface)
    ensures fresh(host) && host.Valid() && host.Mirrors()
    ensures host.isHost && host.canvas == []
  {
    host := new Surface(true, sessionId);
    host.Mount();
    host.SetColor(color);
    host.ToolClick(M.Circle);
    host.ToolClick(M.Rectangle);
    host.ToolClick(M.Arrow);
    host.Clear();
  }

  /** The clear scenario: three shapes, then a clear, leave a viewer with an empty canvas. */
  method ClearScenario(sessionId: string, color: string) returns (viewerCanvas: seq<Shape>)
    ensures viewerCanvas == []
  {
    var host := ClearedHost(sessionId, color);
    var viewer := new Surface(false, sessionId);
    viewer.Mount();
    Deliver(host, viewer, CrossOrigin);
    viewerCanvas := viewer.canvas;
  }

  /**
   * Leaving Annotate mode after drawing with the pen: the stroke broadcaster
   * stays registered, but free drawing is off, so a finished stroke appends
   * nothing and the overlay lets the pointer through again.
   */
  method BrowseStrokeScenario(sessionId: string, path: ObjectData)
    returns (armed: bool, pointer: M.PointerEvents, sent: seq<Event>)
    ensures armed && pointer == M.PassThrough && sent == []
  {
    var host := new Surface(true, sessionId);
    host.Mount();
    host.ToolClick(M.Pen);
    host.ApplyToolEffect();
    host.ToggleAnnotationMode();
    host.ApplyToolEffect();
    host.StrokeFinished(path);
    armed, pointer, sent := host.strokeListener, host.PointerEvents(), host.outbox;
  }
}
