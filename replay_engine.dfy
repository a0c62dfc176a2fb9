/**
 * Session events and the viewer's replay of them onto its canvas
 * (src/components/annotation/Canvas.tsx, the realtime callback).
 *
 * The canvas is an ordered sequence of shapes (insertion order is z-order).
 * `ApplyToCanvas` is what one delivered event does to a viewer's canvas;
 * `ReplayCanvas` folds it over the event stream in insertion order.
 */
module ReplayEngine {
  import opened Wrappers
  import opened ShapeCodec

  /** One record of the session's append-only event stream: `event_type` and `event_data`. */
  datatype Event =
    | Scroll(x: int, y: int)
    | Annotation(action: string, obj: Option<ObjectData>)
    | Navigation

  /** The payload `{action: "add", object}` the host appends for one drawn object. */
  function AddEvent(o: ObjectData): Event {
    Annotation("add", Some(o))
  }

  /** The payload `{action: "clear"}`. */
  const ClearEvent: Event := Annotation("clear", None)

  /**
   * What a delivered event does to a viewer canvas: `clear` empties it; any
   * other action that carries an object is decoded, and a built shape is
   * appended last. The component never checks that the action is "add". Paths,
   * unknown tags, objectless payloads and non-annotation events leave the
   * canvas as it is (a path is loaded separately, see `PathRequest`).
   */
  function ApplyToCanvas(canvas: seq<Shape>, e: Event): seq<Shape> {
    match e
    case Annotation(action, obj) =>
      if action == "clear" then []
      else if obj.Some? && Decode(obj.value).Built? then canvas + [Decode(obj.value).shape]
      else canvas
    case _ => canvas
  }

  /** The path object a delivered event hands to the library's full-geometry load, if any. */
  function PathRequest(e: Event): (r: Option<ObjectData>)
    ensures r.Some? <==> e.Annotation? && e.action != "clear" && e.obj.Some? && Decode(e.obj.value).LoadPath?
    ensures r.Some? ==> e.obj == r
  {
    match e
    case Annotation(action, obj) =>
      if action != "clear" && obj.Some? && Decode(obj.value).LoadPath? then obj else None
    case _ => None
  }

  /** A viewer canvas after replaying `events` in order, starting from `canvas`. */
  function ReplayCanvas(canvas: seq<Shape>, events: seq<Event>): (r: seq<Shape>)
    ensures |r| <= |canvas| + |events|
    decreases |events|
  {
    if events == [] then canvas else ReplayCanvas(ApplyToCanvas(canvas, events[0]), events[1..])
  }

  /** A non-clear annotation with an object asks for a load exactly when the object is tagged "path". */
  lemma PathRequestByTag(e: Event)
    requires e.Annotation? && e.action != "clear" && e.obj.Some?
    ensures PathRequest(e).Some? <==> TypeTag(e.obj.value) == Some("path")
  {
    DecodeByTag(e.obj.value);
  }

  /** The loads one event asks for: its path object, or nothing. */
  function Requested(e: Event): seq<ObjectData> {
    if PathRequest(e).Some? then [PathRequest(e).value] else []
  }

  /**
   * The path objects a viewer hands to the library's load while replaying
   * `events`, in stream order: none exactly when no event carries a path.
   */
  function PathRequests(events: seq<Event>): (r: seq<ObjectData>)
    ensures |r| <= |events|
    decreases |events|
  {
    if events == [] then [] else Requested(events[0]) + PathRequests(events[1..])
  }

  /** A stream asks for no load exactly when none of its events carries a path. */
  lemma {:induction false} NoPathRequests(events: seq<Event>)
    ensures PathRequests(events) == [] <==> forall i | 0 <= i < |events| :: PathRequest(events[i]).None?
    decreases |events|
  {
    if events != [] {
      NoPathRequests(events[1..]);
      assert forall i | 1 <= i < |events| :: events[i] == events[1..][i - 1];
    }
  }

  /** The loads of a stream extended by one event are the old loads, then that event's. */
  lemma {:induction false} PathRequestsSnoc(events: seq<Event>, e: Event)
    ensures PathRequests(events + [e]) == PathRequests(events) + Requested(e)
    decreases |events|
  {
    if events == [] {
      assert events + [e] == [e];
      assert PathRequests([e]) == Requested(e) + PathRequests([]);
    } else {
      assert (events + [e])[1..] == events[1..] + [e];
      PathRequestsSnoc(events[1..], e);
    }
  }

  /** The number of `scroll` events in a stream. */
  function ScrollCount(events: seq<Event>): (n: nat)
    ensures n <= |events|
  {
    if events == [] then 0
    else ScrollCount(events[..|events| - 1]) + (if events[|events| - 1].Scroll? then 1 else 0)
  }

  /** The offset of the last `scroll` event in a stream, if there is one. */
  function LastScroll(events: seq<Event>): (r: Option<(int, int)>)
    ensures r.None? <==> ScrollCount(events) == 0
  {
    if events == [] then None
    else
      var e := events[|events| - 1];
      if e.Scroll? then Some((e.x, e.y)) else LastScroll(events[..|events| - 1])
  }

  /** Whether a stream holds a `navigation` event. */
  function HasNavigation(events: seq<Event>): (b: bool)
    ensures b <==> exists i | 0 <= i < |events| :: events[i].Navigation?
  {
    if events == [] then false
    else
      var init := events[..|events| - 1];
      assert forall i | 0 <= i < |init| :: init[i] == events[i];
      HasNavigation(init) || events[|events| - 1].Navigation?
  }

  /** One more event of a stream updates its scroll count, last scroll and navigation flag by that event. */
  lemma SummaryPrefixStep(events: seq<Event>, i: nat)
    requires i < |events|
    ensures ScrollCount(events[..i + 1]) == ScrollCount(events[..i]) + (if events[i].Scroll? then 1 else 0)
    ensures LastScroll(events[..i + 1]) ==
      if events[i].Scroll? then Some((events[i].x, events[i].y)) else LastScroll(events[..i])
    ensures HasNavigation(events[..i + 1]) == (HasNavigation(events[..i]) || events[i].Navigation?)
  {
    var next := events[..i + 1];
    assert next[..|next| - 1] == events[..i];
    assert next[|next| - 1] == events[i];
  }

  /** Clear empties the canvas whatever it held. */
  lemma ClearEmpties(canvas: seq<Shape>, o: Option<ObjectData>)
    ensures ApplyToCanvas(canvas, Annotation("clear", o)) == []
  {
  }

  /** Clearing twice is the same as clearing once. */
  lemma ClearIdempotent(canvas: seq<Shape>)
    ensures ApplyToCanvas(ApplyToCanvas(canvas, ClearEvent), ClearEvent) == ApplyToCanvas(canvas, ClearEvent)
  {
  }

  /**
   * A circle, rectangle or line payload appends exactly one shape at the end,
   * leaves the earlier shapes untouched, and the new shape carries the
   * payload's properties verbatim (with a transparent fill for circle and rect).
   */
  lemma AddAppendsOne(canvas: seq<Shape>, action: string, o: ObjectData)
    requires action != "clear"
    requires TypeTag(o) in {Some("circle"), Some("rect"), Some("line")}
    ensures var r := ApplyToCanvas(canvas, Annotation(action, Some(o)));
      && |r| == |canvas| + 1
      && r[..|canvas|] == canvas
      && FieldCoded(r[|canvas|])
      && Encode(r[|canvas|]) == Restrict(o, KeysRead(r[|canvas|]))
  {
    EncodeDecode(o);
    var r := ApplyToCanvas(canvas, Annotation(action, Some(o)));
    assert r == canvas + [Decode(o).shape];
    assert r[..|canvas|] == canvas;
  }

  /**
   * A payload with no obj, or whose type is none of circle, rect, line and
   * path, changes nothing; neither does a path (it goes through the load).
   */
  lemma UnrecognisedUnchanged(canvas: seq<Shape>, e: Event)
    requires e.Annotation? && e.action != "clear"
    requires e.obj.None? || TypeTag(e.obj.value) !in {Some("circle"), Some("rect"), Some("line")}
    ensures ApplyToCanvas(canvas, e) == canvas
  {
  }

  /** Scroll and navigation events never touch the canvas. */
  lemma NonAnnotationUnchanged(canvas: seq<Shape>, e: Event)
    requires !e.Annotation?
    ensures ApplyToCanvas(canvas, e) == canvas && PathRequest(e).None?
  {
  }

  /** Replaying a longer prefix is replaying the shorter one and then applying the next event. */
  lemma {:induction false} ReplaySnoc(canvas: seq<Shape>, events: seq<Event>, e: Event)
    ensures ReplayCanvas(canvas, events + [e]) == ApplyToCanvas(ReplayCanvas(canvas, events), e)
    decreases |events|
  {
    if events == [] {
      assert events + [e] == [e];
      assert ReplayCanvas(canvas, [e]) == ReplayCanvas(ApplyToCanvas(canvas, e), []);
    } else {
      assert (events + [e])[1..] == events[1..] + [e];
      ReplaySnoc(ApplyToCanvas(canvas, events[0]), events[1..], e);
    }
  }

  /** One more event of a stream: its replay and its path loads extend by that event. */
  lemma ReplayPrefixStep(canvas: seq<Shape>, events: seq<Event>, i: nat)
    requires i < |events|
    ensures ReplayCanvas(canvas, events[..i + 1]) == ApplyToCanvas(ReplayCanvas(canvas, events[..i]), events[i])
    ensures PathRequests(events[..i + 1]) == PathRequests(events[..i]) + Requested(events[i])
  {
    assert events[..i + 1] == events[..i] + [events[i]];
    ReplaySnoc(canvas, events[..i], events[i]);
    PathRequestsSnoc(events[..i], events[i]);
  }

  /** Replay composes over concatenated prefixes. */
  lemma {:induction false} ReplayConcat(canvas: seq<Shape>, a: seq<Event>, b: seq<Event>)
    ensures ReplayCanvas(canvas, a + b) == ReplayCanvas(ReplayCanvas(canvas, a), b)
    decreases |a|
  {
    if a == [] {
      assert a + b == b;
    } else {
      assert (a + b)[1..] == a[1..] + b;
      ReplayConcat(ApplyToCanvas(canvas, a[0]), a[1..], b);
    }
  }

  /**
   * Convergence is kept by an action whose appended events, replayed on the
   * host's canvas, produce the host's new canvas.
   */
  lemma ReplayExtends(outbox: seq<Event>, canvas: seq<Shape>, events: seq<Event>, added: seq<Shape>)
    requires ReplayCanvas([], outbox) == canvas
    requires ReplayCanvas(canvas, events) == canvas + added
    ensures ReplayCanvas([], outbox + events) == canvas + added
  {
    ReplayConcat([], outbox, events);
  }

  /** The host's encoding of a field-coded shape, replayed, appends that very shape. */
  lemma ReplayEncoded(canvas: seq<Shape>, s: Shape)
    requires FieldCoded(s)
    ensures ApplyToCanvas(canvas, AddEvent(Encode(s))) == canvas + [s]
  {
    DecodeEncode(s);
  }

  /**
   * A stream that ends with a clear replays to the empty canvas, whatever came
   * before; only events after the last clear matter.
   */
  lemma {:induction false} ReplayAfterClear(canvas: seq<Shape>, before: seq<Event>, after: seq<Event>)
    ensures ReplayCanvas(canvas, before + [ClearEvent] + after) == ReplayCanvas([], after)
  {
    ReplayConcat(canvas, before + [ClearEvent], after);
    ReplaySnoc(canvas, before, ClearEvent);
  }

  /** Order preservation, the scenario of adding a circle and a rectangle and then clearing. */
  lemma OrderScenario(c: Shape, r: Shape)
    requires FieldCoded(c) && FieldCoded(r)
    ensures ReplayCanvas([], [AddEvent(Encode(c)), AddEvent(Encode(r))]) == [c, r]
    ensures ReplayCanvas([], [AddEvent(Encode(c)), AddEvent(Encode(r)), ClearEvent]) == []
  {
    ReplayEncoded([], c);
    ReplayEncoded([c], r);
    assert [] + [c] == [c];
    assert [c] + [r] == [c, r];
    ReplayTwo(AddEvent(Encode(c)), AddEvent(Encode(r)), [c], [c, r]);
  }

  /** Replaying two events from the empty canvas, then a clear. */
  lemma ReplayTwo(a: Event, b: Event, after1: seq<Shape>, after2: seq<Shape>)
    requires ApplyToCanvas([], a) == after1 && ApplyToCanvas(after1, b) == after2
    ensures ReplayCanvas([], [a, b]) == after2
    ensures ReplayCanvas([], [a, b, ClearEvent]) == []
  {
    assert [a, b][1..] == [b];
    assert [b][1..] == [];
    assert ReplayCanvas([], [a, b]) == ReplayCanvas(after1, [b]);
    assert ReplayCanvas(after1, [b]) == ReplayCanvas(after2, []);
    ReplaySnoc([], [a, b], ClearEvent);
    assert [a, b] + [ClearEvent] == [a, b, ClearEvent];
  }
}
