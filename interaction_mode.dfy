/**
 * The host's interaction mode controller (src/components/annotation/Canvas.tsx):
 * the tool palette, the rules that derive pointer capture, free drawing and the
 * stroke listener from the mode, and the fixed-geometry shapes the circle,
 * rectangle and arrow tools place.
 */
module InteractionMode {
  import opened Wrappers
  import SC = ShapeCodec
  import opened ReplayEngine

  datatype Tool = Select | Pen | Circle | Rectangle | Arrow | Eraser

  /** The overlay's CSS `pointer-events`: `Auto` captures input, `PassThrough` ("none") lets it reach the page. */
  datatype PointerEvents = Auto | PassThrough

  /** The stroke colour a surface starts with. */
  const DefaultColor: string := "#FF00FF"

  /** The stroke width of every placed shape and of the freehand brush. */
  const StrokeWidth: int := 3

  /** Pointer capture of the overlay: only a host in Annotate mode takes pointer input. */
  function OverlayPointerEvents(isHost: bool, annotationMode: bool): PointerEvents {
    if isHost && annotationMode then Auto else PassThrough
  }

  /** Free drawing is on exactly with the pen in Annotate mode. */
  predicate FreeDrawing(tool: Tool, annotationMode: bool) {
    tool == Pen && annotationMode
  }

  /** The tool effect (re)arms the stroke-finished broadcaster for a host in Annotate mode. */
  predicate ArmsStrokeListener(isHost: bool, annotationMode: bool) {
    isHost && annotationMode
  }

  /** The tools that place a shape when clicked. */
  predicate PlacesShape(tool: Tool) {
    tool == Circle || tool == Rectangle || tool == Arrow
  }

  /**
   * The shape a tool click places: a circle at (100, 100) of radius 50, a
   * 100 by 100 rectangle at (100, 100), or a line from (100, 100) to
   * (200, 200) for the arrow; stroke is the active colour, width 3.
   */
  function ToolShape(tool: Tool, color: string): (s: Option<SC.Shape>)
    ensures s.Some? <==> PlacesShape(tool)
    ensures s.Some? ==> SC.FieldCoded(s.value)
    ensures s.Some? ==> s.value.stroke == Some(SC.Str(color)) && s.value.strokeWidth == Some(SC.Num(StrokeWidth))
  {
    var at := Some(SC.Num(100));
    var stroke, width := Some(SC.Str(color)), Some(SC.Num(StrokeWidth));
    match tool
    case Circle => Some(SC.Circle(at, at, Some(SC.Num(50)), SC.Transparent, stroke, width))
    case Rectangle => Some(SC.Rect(at, at, Some(SC.Num(100)), Some(SC.Num(100)), SC.Transparent, stroke, width))
    case Arrow => Some(SC.Line(at, at, Some(SC.Num(200)), Some(SC.Num(200)), stroke, width))
    case _ => None
  }

  /** The shapes a click adds to the host's own canvas: none or one. */
  function Placed(tool: Tool, color: string): (r: seq<SC.Shape>)
    ensures |r| == if PlacesShape(tool) then 1 else 0
  {
    match ToolShape(tool, color)
    case Some(s) => [s]
    case None => []
  }

  /** The events a click appends to the session stream: one `add` per placed shape. */
  function ToolEvents(tool: Tool, color: string): (r: seq<Event>)
    ensures |r| == |Placed(tool, color)|
  {
    match ToolShape(tool, color)
    case Some(s) => [AddEvent(SC.Encode(s))]
    case None => []
  }

  /** A placing tool adds its shape and appends that shape's encoding. */
  lemma PlacedOne(tool: Tool, color: string)
    requires ToolShape(tool, color).Some?
    ensures Placed(tool, color) == [ToolShape(tool, color).value]
    ensures ToolEvents(tool, color) == [AddEvent(SC.Encode(ToolShape(tool, color).value))]
  {
  }

  /** Any other tool adds and appends nothing. */
  lemma PlacedNone(tool: Tool, color: string)
    requires ToolShape(tool, color).None?
    ensures Placed(tool, color) == [] && ToolEvents(tool, color) == []
  {
  }

  /** In Browse mode the overlay lets every pointer event through and nothing draws. */
  lemma BrowseIsPassive(isHost: bool, tool: Tool)
    ensures OverlayPointerEvents(isHost, false) == PassThrough
    ensures !FreeDrawing(tool, false) && !ArmsStrokeListener(isHost, false)
  {
  }

  /** A host in Annotate mode captures the pointer and arms the broadcaster; only the pen draws freehand. */
  lemma AnnotateCaptures(tool: Tool)
    ensures OverlayPointerEvents(true, true) == Auto && ArmsStrokeListener(true, true)
    ensures FreeDrawing(tool, true) <==> tool == Pen
  {
  }

  /** A viewer's overlay never captures the pointer and never arms the broadcaster. */
  lemma ViewerIsPassive(annotationMode: bool)
    ensures OverlayPointerEvents(false, annotationMode) == PassThrough
    ensures !ArmsStrokeListener(false, annotationMode)
  {
  }

  /**
   * Convergence of one tool click: the events the click appends, replayed on
   * any viewer canvas, add exactly the shapes the click placed on the host.
   */
  lemma ToolClickReplays(canvas: seq<SC.Shape>, tool: Tool, color: string)
    ensures ReplayCanvas(canvas, ToolEvents(tool, color)) == canvas + Placed(tool, color)
  {
    match ToolShape(tool, color)
    case Some(s) =>
      ReplayEncoded(canvas, s);
      var e := AddEvent(SC.Encode(s));
      assert [e][1..] == [];
      assert ReplayCanvas(canvas, [e]) == ReplayCanvas(canvas + [s], []);
    case None =>
      assert canvas + [] == canvas;
  }

  /**
   * Convergence across the whole session, one click at a time: if replaying
   * the host's stream so far gives its canvas, it still does after a click.
   */
  lemma ToolClickKeepsMirror(outbox: seq<Event>, canvas: seq<SC.Shape>, tool: Tool, color: string)
    ensures ReplayCanvas([], outbox) == canvas ==>
      ReplayCanvas([], outbox + ToolEvents(tool, color)) == canvas + Placed(tool, color)
  {
    if ReplayCanvas([], outbox) == canvas {
      ToolClickReplays(canvas, tool, color);
      ReplayExtends(outbox, canvas, ToolEvents(tool, color), Placed(tool, color));
    }
  }

  /** The draw scenario: a default-coloured circle decodes on a viewer with exactly the host's fields. */
  lemma CircleScenario()
    ensures ReplayCanvas([], ToolEvents(Circle, DefaultColor)) ==
      [SC.Circle(Some(SC.Num(100)), Some(SC.Num(100)), Some(SC.Num(50)), "transparent",
                 Some(SC.Str("#FF00FF")), Some(SC.Num(3)))]
  {
    ToolClickReplays([], Circle, DefaultColor);
  }
  /** A rectangle click replays on a viewer as the 100 by 100 rectangle at (100, 100). */
  lemma RectScenario(color: string)
    ensures ReplayCanvas([], ToolEvents(Rectangle, color)) ==
      [SC.Rect(Some(SC.Num(100)), Some(SC.Num(100)), Some(SC.Num(100)), Some(SC.Num(100)), "transparent",
               Some(SC.Str(color)), Some(SC.Num(3)))]
  {
    ToolClickReplays([], Rectangle, color);
  }

  /** An arrow click replays on a viewer as the line from (100, 100) to (200, 200). */
  lemma ArrowScenario(color: string)
    ensures ReplayCanvas([], ToolEvents(Arrow, color)) ==
      [SC.Line(Some(SC.Num(100)), Some(SC.Num(100)), Some(SC.Num(200)), Some(SC.Num(200)),
               Some(SC.Str(color)), Some(SC.Num(3)))]
  {
    ToolClickReplays([], Arrow, color);
  }

}
