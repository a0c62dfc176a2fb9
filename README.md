# live-mirror: the annotation and sync engine, in Dafny

This project models the part of live-mirror that keeps viewers in step with a
host. The host browses a page in an embedded frame. It draws on a transparent
overlay. It appends session events (`scroll`, `annotation`, `navigation`) to an
append-only stream, and every viewer applies them in order.

The model has six modules:

- `ShapeCodec` (shape_codec.dfy): payload objects as maps from property names
  to values, where an absent property is `None` (JavaScript `undefined`). The
  names the codec reads are constructors of `Prop`; any other JSON name is
  `Named(name)`. It
  holds the `Shape` datatype, the viewer's field-by-field `Decode`, and the
  host's `Encode`. `Decode` has three outcomes: a built circle, rectangle or
  line; a path handed to the library's full-geometry load; or nothing.
- `ReplayEngine` (replay_engine.dfy): the `Event` datatype, `ApplyToCanvas`
  (what one event does to a viewer's canvas), and `ReplayCanvas` (that step
  folded over the stream in order). It also holds the lemmas on clear, add,
  unknown payloads, and replaying prefixes.
- `InteractionMode` (interaction_mode.dfy): the tools, and the rules that
  derive pointer capture, free drawing and the stroke listener. It also
  defines the fixed shapes that the circle, rectangle and arrow tools place,
  and proves that one click converges on replay.
- `AnnotationCanvas` (annotation_canvas.dfy): the class `Surface`, which is
  one rendering surface (the host's or one viewer's). Each handler of the
  component is a method on it. `Valid()` states role gating as an object
  invariant. `Mirrors()` says the host's canvas equals the replay of its
  outbox, and the host's modelled handlers preserve it (see "## Left out"
  for the library's own changes to placed shapes). `Deliver` feeds a
  host's stream to a viewer and proves the two canvases end up equal.
- `HostSession` (host_session.dfy): the host page. It holds URL
  normalisation, the viewer link, and the class `HostPage` with
  `CreateSession` and `CopyShareLink`.
- `Wrappers` (wrappers.dfy): `Option`.

Real time, the network and the drawing library become explicit steps or
parameters:

- The 100 ms timer is the step `TimerFires`.
- The embedded page is a `Frame` value: no window, cross-origin (the access
  throws and the error is swallowed), or same-origin with its scroll offset.
- The library's path load resolves with `CompletePathLoad(loaded)`. It
  replaces the canvas with what the library rebuilt.
- The library's stroke-finished notice is `StrokeFinished(path)`.
- The database's reply to a session insert is a parameter of `CreateSession`.

Behaviour of the component worth noting:

- The viewer never checks that an annotation's action is `"add"`. Any action
  other than `"clear"` that carries an object is decoded (Canvas.tsx:96-98).
- Toggling annotation mode is not guarded by the host role. Only the button
  is host-only (Canvas.tsx:293-301, 320).
- The stroke-finished broadcaster is registered whenever a host is in Annotate
  mode, whatever the tool. Leaving Annotate mode does not unregister it
  (Canvas.tsx:218-227). It only fires while free drawing, i.e. with the pen.
- Each `scroll` event starts its own timer. The first timer to fire lowers
  the flag, even if a later event's window is still open (Canvas.tsx:90-92).
- The suppression flag is raised only on viewers and read only on the host
  (Canvas.tsx:78-79, 174). So on the host it is always down: `Valid()`
  states this, and echo suppression never blocks a host broadcast.

## Model

| member | source | states |
|---|---|---|
| `ShapeCodec.Field` | src/components/annotation/Canvas.tsx:100-128 | reading a payload property gives its value if present, and `None` (undefined) otherwise |
| `ShapeCodec.Compact` | src/components/annotation/Canvas.tsx:253 | serializing adds no property that was not written |
| `ShapeCodec.FieldCompact` | src/components/annotation/Canvas.tsx:253 | serializing drops absent (undefined) attributes: a serialized property is the attribute written for it, and absent when none was written or it was undefined |
| `ShapeCodec.Written` | src/components/annotation/Canvas.tsx:241-279 | the properties the host writes for a circle, rectangle or line, each with its attribute |
| `ShapeCodec.WrittenKeys` | src/components/annotation/Canvas.tsx:241-279 | the properties the host writes for a circle, rectangle or line are exactly the ones the decoder reads |
| `ShapeCodec.Decode` | src/components/annotation/Canvas.tsx:103-135 | the viewer's decoder: a built shape is transparent where it has a fill and is never a path; a path payload is handed on unchanged (the dispatch by tag is `DecodeByTag`, the built shapes' fields are pinned by `DecodeEncode` and `EncodeDecode`) |
| `ShapeCodec.DecodeByTag` | src/components/annotation/Canvas.tsx:103-137 | "circle", "rect" and "line" are built, "path" goes to the library's load, and any other tag (or none) is ignored |
| `ShapeCodec.Encode` | src/components/annotation/Canvas.tsx:251-279 | the host's serialization of a shape carries no property the decoder does not read |
| `ShapeCodec.DecodeEncode` | src/components/annotation/Canvas.tsx:103-129 | round trip: decoding the encoding of any circle, rect or line with transparent fill gives back the same shape |
| `ShapeCodec.EncodeDecode` | src/components/annotation/Canvas.tsx:103-129 | whatever the decoder builds has transparent fill (circle, rect), and re-encoding it gives exactly the payload restricted to the read properties (type, geometry, stroke, strokeWidth), so every field is copied verbatim |
| `ShapeCodec.Restrict` | src/components/annotation/Canvas.tsx:103-129 | the restriction of a payload keeps exactly the chosen properties |
| `ShapeCodec.SameFields` | src/components/annotation/Canvas.tsx:100 | two payload objects with the same properties are equal |
| `ShapeCodec.EncodeDecodeCircle` | src/components/annotation/Canvas.tsx:103-111 | a payload tagged "circle" decodes to a transparent circle that re-encodes to exactly its read properties |
| `ShapeCodec.EncodeDecodeRect` | src/components/annotation/Canvas.tsx:112-121 | a payload tagged "rect" decodes to a transparent rectangle that re-encodes to exactly its read properties |
| `ShapeCodec.EncodeDecodeLine` | src/components/annotation/Canvas.tsx:122-129 | a payload tagged "line" decodes to a line that re-encodes to exactly its read properties |
| `ShapeCodec.DecodeEncodeCircle` | src/components/annotation/Canvas.tsx:103-111 | round trip for circles |
| `ShapeCodec.DecodeEncodeRect` | src/components/annotation/Canvas.tsx:112-121 | round trip for rectangles |
| `ShapeCodec.DecodeEncodeLine` | src/components/annotation/Canvas.tsx:122-129 | round trip for lines |
| `ShapeCodec.EncodeCircleField` | src/components/annotation/Canvas.tsx:242-253 | an encoded circle has tag "circle", its left, top, radius, stroke and strokeWidth, and no other property |
| `ShapeCodec.EncodeRectField` | src/components/annotation/Canvas.tsx:256-268 | an encoded rectangle has tag "rect", its left, top, width, height, stroke and strokeWidth, and no other property |
| `ShapeCodec.EncodeLineField` | src/components/annotation/Canvas.tsx:271-278 | an encoded line has tag "line", its x1, y1, x2, y2, stroke and strokeWidth, and no other property |
| `ReplayEngine.ApplyToCanvas` | src/components/annotation/Canvas.tsx:93-141 | what one delivered event does to a viewer canvas; its behaviour is stated by `ClearEmpties`, `AddAppendsOne`, `UnrecognisedUnchanged` and `NonAnnotationUnchanged` |
| `ReplayEngine.ReplayCanvas` | src/components/annotation/Canvas.tsx:74-145 | a viewer canvas after applying a stream in order; it never grows by more than one shape per event |
| `ReplayEngine.PathRequest` | src/components/annotation/Canvas.tsx:96-98 | an event goes to the library's load exactly when it is a non-clear annotation carrying an object that decodes as a path, and that object goes unchanged |
| `ReplayEngine.PathRequestByTag` | src/components/annotation/Canvas.tsx:130-137 | a non-clear annotation with an object asks for a load exactly when the object is tagged "path"; an unknown tag queues nothing |
| `ReplayEngine.PathRequests` | src/components/annotation/Canvas.tsx:130-134 | the path loads a replayed stream asks for, in order, at most one per event |
| `ReplayEngine.PathRequestsSnoc` | src/components/annotation/Canvas.tsx:130-134 | a stream extended by one event asks for the old loads and then that event's |
| `ReplayEngine.NoPathRequests` | src/components/annotation/Canvas.tsx:130-134 | a stream asks for no load exactly when none of its events carries a path |
| `ReplayEngine.ScrollCount` | src/components/annotation/Canvas.tsx:78-92 | the number of scroll events in a stream, at most its length |
| `ReplayEngine.LastScroll` | src/components/annotation/Canvas.tsx:80-85 | the offset of a stream's last scroll event, absent exactly when it has none |
| `ReplayEngine.HasNavigation` | src/components/annotation/Canvas.tsx:142-143 | a stream holds a navigation event exactly when one of its events is one |
| `ReplayEngine.SummaryPrefixStep` | src/components/annotation/Canvas.tsx:78-143 | one more event updates the scroll count, last scroll and navigation flag by that event |
| `ReplayEngine.ReplayPrefixStep` | src/components/annotation/Canvas.tsx:74-145 | one more event of a stream extends both its replay and its path loads by that event |
| `ReplayEngine.ClearEmpties` | src/components/annotation/Canvas.tsx:96-97 | a clear leaves an empty canvas whatever it held, even if the payload also carries an object |
| `ReplayEngine.ClearIdempotent` | src/components/annotation/Canvas.tsx:96-97 | clearing twice is the same as clearing once |
| `ReplayEngine.AddAppendsOne` | src/components/annotation/Canvas.tsx:98-140 | a circle, rect or line payload appends exactly one shape at the end and leaves earlier shapes untouched; the new shape has transparent fill where applicable and carries exactly the payload's read fields |
| `ReplayEngine.UnrecognisedUnchanged` | src/components/annotation/Canvas.tsx:98-137 | an annotation with no object, or whose tag is not circle, rect or line (including path), leaves the canvas unchanged |
| `ReplayEngine.NonAnnotationUnchanged` | src/components/annotation/Canvas.tsx:78-144 | scroll and navigation events neither touch the canvas nor request a path load |
| `ReplayEngine.ReplaySnoc` | src/components/annotation/Canvas.tsx:74-145 | replaying a prefix extended by one event is applying that event to the replay of the prefix (events apply in stream order) |
| `ReplayEngine.ReplayConcat` | src/components/annotation/Canvas.tsx:74-145 | replay of concatenated streams is replay of the second from the result of the first |
| `ReplayEngine.ReplayAfterClear` | src/components/annotation/Canvas.tsx:96-97 | only the events after a clear determine the replayed canvas |
| `ReplayEngine.ReplayExtends` | src/components/annotation/Canvas.tsx:241-289 | if a host action's events replay to its local change, the host and the replay stay equal |
| `ReplayEngine.ReplayEncoded` | src/components/annotation/Canvas.tsx:137-139 | replaying the add event of a field-coded shape appends that very shape |
| `ReplayEngine.OrderScenario` | src/components/annotation/Canvas.tsx:96-139 | adds of a circle and a rect replay to [circle, rect]; followed by a clear they replay to [] |
| `ReplayEngine.ReplayTwo` | src/components/annotation/Canvas.tsx:74-145 | replay of a two-event stream, and of that stream followed by a clear |
| `InteractionMode.RectScenario` | src/components/annotation/Canvas.tsx:255-269 | a rectangle click replays on a viewer as the 100 by 100 rectangle at (100,100), transparent, in the active colour with width 3 |
| `InteractionMode.ArrowScenario` | src/components/annotation/Canvas.tsx:270-279 | an arrow click replays on a viewer as the line from (100,100) to (200,200) in the active colour with width 3 |
| `InteractionMode.ToolShape` | src/components/annotation/Canvas.tsx:241-280 | exactly circle, rectangle and arrow place a shape; it is field-coded, and its stroke is the active colour with width 3 |
| `InteractionMode.Placed` | src/components/annotation/Canvas.tsx:241-280 | a click places one shape for circle, rectangle and arrow, and none for select, pen and eraser |
| `InteractionMode.ToolEvents` | src/components/annotation/Canvas.tsx:251-279 | a click appends as many add events as it places shapes |
| `InteractionMode.PlacedOne` | src/components/annotation/Canvas.tsx:250-254 | a placing tool adds its shape locally and appends that shape's encoding |
| `InteractionMode.PlacedNone` | src/components/annotation/Canvas.tsx:239-241 | other tools add and append nothing |
| `InteractionMode.OverlayPointerEvents` | src/components/annotation/Canvas.tsx:317 | the overlay's pointer-events rule: only a host in Annotate mode captures the pointer (stated by `AnnotateCaptures`, `BrowseIsPassive`, `ViewerIsPassive`) |
| `InteractionMode.FreeDrawing` | src/components/annotation/Canvas.tsx:209 | the free-drawing rule: on exactly with the pen in Annotate mode |
| `InteractionMode.ArmsStrokeListener` | src/components/annotation/Canvas.tsx:218 | the tool effect registers the stroke broadcaster exactly for a host in Annotate mode |
| `InteractionMode.BrowseIsPassive` | src/components/annotation/Canvas.tsx:209-218 | in Browse mode the overlay passes the pointer through, nothing draws freehand, and the tool effect arms no broadcaster (one armed earlier stays registered, see `BrowseStrokeScenario`) |
| `InteractionMode.AnnotateCaptures` | src/components/annotation/Canvas.tsx:317 | a host in Annotate mode captures the pointer and arms the broadcaster; free drawing is on exactly with the pen |
| `InteractionMode.ViewerIsPassive` | src/components/annotation/Canvas.tsx:317 | a viewer's overlay never captures the pointer and never arms the broadcaster |
| `InteractionMode.ToolClickReplays` | src/components/annotation/Canvas.tsx:241-280 | the events of one click, replayed on any canvas, add exactly the shapes that click placed on the host |
| `InteractionMode.ToolClickKeepsMirror` | src/components/annotation/Canvas.tsx:241-280 | if the host's stream so far replays to its canvas, it still does after a click |
| `InteractionMode.CircleScenario` | src/components/annotation/Canvas.tsx:242-254 | a default-colour circle click replays on a viewer as exactly one circle at (100,100), radius 50, stroke #FF00FF, width 3, transparent fill |
| `AnnotationCanvas.ViewPath` | src/components/annotation/Canvas.tsx:143 | the reload target is "/view/" followed by the session id |
| `AnnotationCanvas.Surface.Valid` | src/components/annotation/Canvas.tsx:78-171 | role gating as an invariant: a viewer never appends and has no listener armed; a host never scrolls, reloads or loads; nothing is on the canvas before it exists |
| `AnnotationCanvas.Surface.Mirrors` | src/components/annotation/Canvas.tsx:155-167 | convergence: the host's canvas is the replay of its whole event stream from empty |
| `AnnotationCanvas.Surface.PointerEvents` | src/components/annotation/Canvas.tsx:317 | the overlay captures the pointer exactly on a host in Annotate mode |
| `AnnotationCanvas.Surface.constructor` | src/components/annotation/Canvas.tsx:19-23 | a surface starts with no canvas, Browse mode, the select tool, colour #FF00FF, no listeners, the flag down and an empty outbox |
| `AnnotationCanvas.Surface.Mount` | src/components/annotation/Canvas.tsx:26-42 | creating the library canvas: not drawing, brush in the active colour with width 3, canvas still empty |
| `AnnotationCanvas.Surface.Broadcast` | src/components/annotation/Canvas.tsx:155-167 | a host appends the event; a viewer appends nothing |
| `AnnotationCanvas.Surface.Receive` | src/components/annotation/Canvas.tsx:74-145 | a host changes nothing. A viewer: on scroll raises the flag, scrolls only a same-origin page, and starts a timer; on annotation (once its canvas exists) applies the event and queues path loads; on navigation requests a reload of /view/id |
| `AnnotationCanvas.Surface.ReceiveAll` | src/components/annotation/Canvas.tsx:74-145 | a viewer with a canvas that receives a stream in order ends with its replay and has queued exactly the stream's path loads; it has started one timer per scroll, raised the flag if any scroll came, scrolled a readable page to the last scroll's offset, and asked for the viewing screen if any navigation came |
| `AnnotationCanvas.Surface.TimerFires` | src/components/annotation/Canvas.tsx:90-92 | a firing timer lowers the suppression flag, even when the page was cross-origin |
| `AnnotationCanvas.Surface.CompletePathLoad` | src/components/annotation/Canvas.tsx:130-134 | a resolved path load replaces the canvas contents with what the library rebuilt |
| `AnnotationCanvas.Surface.AttachScrollListener` | src/components/annotation/Canvas.tsx:170-194 | scroll capture is attached only on a host and only to a same-origin page |
| `AnnotationCanvas.Surface.HandleScroll` | src/components/annotation/Canvas.tsx:173-187 | with the listener attached, the flag down and a readable page, exactly one scroll event with the page's offset is appended; otherwise nothing, and convergence is kept |
| `AnnotationCanvas.Surface.ApplyToolEffect` | src/components/annotation/Canvas.tsx:206-228 | free drawing follows pen-and-Annotate; while drawing the brush has the active colour and width 3; a host in Annotate mode arms the broadcaster, and it is never disarmed |
| `AnnotationCanvas.Surface.StrokeFinished` | src/components/annotation/Canvas.tsx:219-226 | a finished stroke joins the canvas, and the armed broadcaster appends its serialization as an add event |
| `AnnotationCanvas.Surface.ToolClick` | src/components/annotation/Canvas.tsx:230-281 | a host ends in Annotate mode with the clicked tool; once the canvas exists it places the tool's shapes and appends their events, and convergence is kept; a viewer's click changes nothing |
| `AnnotationCanvas.Surface.PlaceShape` | src/components/annotation/Canvas.tsx:241-280 | on a host with a canvas, the tool's shapes are added and their `add` events appended, and convergence is kept |
| `AnnotationCanvas.Surface.Clear` | src/components/annotation/Canvas.tsx:283-290 | a host with a canvas clears it and then appends a clear event, keeping convergence; otherwise nothing changes |
| `AnnotationCanvas.Surface.ToggleAnnotationMode` | src/components/annotation/Canvas.tsx:293-301 | the mode flips; leaving Annotate resets the tool to select |
| `AnnotationCanvas.Surface.SetColor` | src/components/annotation/Canvas.tsx:340 | the toolbar's choice becomes the active colour |
| `AnnotationCanvas.Deliver` | src/components/annotation/Canvas.tsx:74-145 | convergence: a fresh viewer that applies a mirroring host's whole stream in order ends with the host's canvas, and with exactly the stream's path loads queued (see "## Left out" for what they do once resolved) |
| `AnnotationCanvas.DrawScenario` | src/components/annotation/Canvas.tsx:241-254 | the host places a circle; the viewer gains exactly that circle with the host's fields |
| `AnnotationCanvas.ClearedHost` | src/components/annotation/Canvas.tsx:230-290 | a host that places a circle, a rectangle and an arrow and then clears is mirrored and empty |
| `AnnotationCanvas.ClearScenario` | src/components/annotation/Canvas.tsx:283-288 | three placed shapes followed by a clear leave the viewer's canvas empty |
| `AnnotationCanvas.BrowseStrokeScenario` | src/components/annotation/Canvas.tsx:206-228 | after selecting the pen and leaving Annotate mode the stroke broadcaster stays registered, yet a finished stroke appends nothing and the overlay passes the pointer through |
| `HostSession.NormalizeUrl` | src/pages/Host.tsx:28 | the stored URL starts with "http" and ends with the input; it equals the input exactly when the input starts with "http" (so "httpbin.org" is kept), and otherwise "https://" is added |
| `HostSession.NormalizeIdempotent` | src/pages/Host.tsx:28 | normalising twice is normalising once |
| `HostSession.ShareLink` | src/pages/Host.tsx:48 | the link is the origin, then "/view/", then the session id |
| `HostSession.ShareLinkInjective` | src/pages/Host.tsx:48 | distinct sessions of one origin get distinct links |
| `HostSession.HostPage.constructor` | src/pages/Host.tsx:12-15 | the page starts with an empty URL, no session and no insert sent |
| `HostSession.HostPage.EditUrl` | src/pages/Host.tsx:103 | typing sets the URL field |
| `HostSession.HostPage.CreateSession` | src/pages/Host.tsx:18-44 | an empty URL sends nothing and changes nothing; otherwise one active session with the normalised URL is requested, a success stores the reply's id and url, and a failure leaves them as they were |
| `HostSession.HostPage.CopyShareLink` | src/pages/Host.tsx:46-51 | with no (or an empty) session id there is no link; otherwise the link is origin + "/view/" + id |

## Left out

- The realtime transport is out. That covers the channel subscribe and unsubscribe, `insert`, `removeChannel`, the async plumbing, and listener removal on teardown. Events reach a viewer only through `Receive` (or `Deliver`), in stream order. The order of `outbox` is the order of the `broadcastEvent` calls; the component does not await one insert before starting the next (Canvas.tsx:251-254, 286-288), so the model assumes the stream keeps call order, and `Deliver`'s convergence rests on that. A failed event insert is not modelled: every broadcast lands in `outbox`.
- The drawing library's internals are out: rendering, `renderAll`, `toJSON`, `loadFromJSON`, and `setDimensions` on window resize.
  - `Encode` produces exactly the properties the decoder reads, under the tags the decoder expects. The tags the library really emits are not visible here.
  - A path load is queued by `Receive`. `CompletePathLoad` then replaces the canvas with a result given as a parameter. Paths are not in the convergence results: `StrokeFinished` does not keep `Mirrors()`.
- Deliver: equal canvases hold only until a queued path load resolves. A stream with a stroke followed by a clear still mirrors (the clear empties both canvases), but the viewer then holds that path in `pathLoads`, and `CompletePathLoad` may make the canvases differ. `Deliver` states which loads are queued (`PathRequests`) but not what the library rebuilds from them.
- Mirrors: changes the drawing library makes to placed shapes on the host (moving, resizing or otherwise modifying a selected object, which the host canvas allows) are never broadcast, since the component listens only to `path:created` (Canvas.tsx:31, 220). The model has no such step, so `Mirrors()` says nothing about them. `Deliver` also assumes the viewer was mounted and subscribed before the host's first event: the channel delivers only inserts made after it subscribes, and re-subscribes when the canvas changes (Canvas.tsx:64-74, 152).
- Prop: `Named(name)` stands for any JSON property name other than the codec's own (`type`, `left`, `top`, `radius`, `width`, `height`, `x1`, `y1`, `x2`, `y2`, `stroke`, `strokeWidth`). That it never spells one of them is assumed, not enforced.
- Real time is out. The 100 ms delay is the explicit `TimerFires` step.
- The page's numbers are JSON numbers (floating point). Here they are unbounded integers; no arithmetic is done on them, they are only copied.
- The DOM is reduced to the `Frame` value. That covers `contentWindow`, `scrollTo`, `scrollX`/`scrollY` and the cross-origin try/catch.
- Navigation is out: `window.location.href` becomes the `reload` field.
- UI output is out: toasts, the clipboard write (`CopyShareLink` returns the link instead), JSX, console logging, and the route guard that mounts the canvas only when both session fields are set.
- React effect scheduling is out. `ApplyToolEffect` and `Mount` are steps the caller takes after a state change. The off/on re-registration of the stroke listener is one boolean.
- The eraser has no behaviour in the component beyond becoming the active tool, and the model gives it none.
- The colour list of the toolbar and the viewer page's session lookup are not part of this model.
