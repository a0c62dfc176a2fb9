/**
 * The shape codec of the annotation overlay (src/components/annotation/Canvas.tsx).
 *
 * An annotation payload's `object` is a JSON record; here it is a map from
 * property names to values, and a property that is absent reads as `None`
 * (JavaScript's `undefined`). The names the codec uses are constructors of
 * `Prop`; every other name is `Named`. The decoder builds a circle, rectangle or line
 * by copying exactly the properties it reads; a freehand path is not built
 * field by field but handed to the drawing library's full-geometry load.
 */
module ShapeCodec {
  import opened Wrappers

  /** A JSON scalar as it travels in a payload. */
  datatype Value = Num(n: int) | Str(s: string)

  /** A shape attribute: the value copied from the payload, or `None` when absent. */
  type Attr = Option<Value>

  /**
   * A property name of a payload object: the names the codec reads and
   * writes, and `Named` for any other JSON name (never one of those above).
   */
  datatype Prop =
    | Type | Left | Top | Radius | Width | Height | X1 | Y1 | X2 | Y2 | Stroke | StrokeWidth
    | Named(name: string)

  /** The serialized form of one drawn object, as carried by `event_data.object`. */
  type ObjectData = map<Prop, Value>

  /** The fill every decoded circle and rectangle gets, so overlays never hide the page. */
  const Transparent: string := "transparent"

  /** One object on a drawing surface, in z-order position on the canvas. */
  datatype Shape =
    | Circle(left: Attr, top: Attr, radius: Attr, fill: string, stroke: Attr, strokeWidth: Attr)
    | Rect(left: Attr, top: Attr, width: Attr, height: Attr, fill: string, stroke: Attr, strokeWidth: Attr)
    | Line(x1: Attr, y1: Attr, x2: Attr, y2: Attr, stroke: Attr, strokeWidth: Attr)
    /** A freehand stroke, held as the library's own serialization of it. */
    | Path(json: ObjectData)

  /** What the viewer does with one payload object. */
  datatype Decoded =
    | Built(shape: Shape)        // a new object to append
    | LoadPath(data: ObjectData) // hand to the library's full-geometry load
    | Unknown                    // unrecognised type tag: nothing happens

  /** Reading a property of a payload object. */
  function Field(o: ObjectData, key: Prop): (a: Attr)
    ensures a.Some? <==> key in o
    ensures a.Some? ==> a.value == o[key]
  {
    if key in o then Some(o[key]) else None
  }

  /**
   * A record with every attribute written out, as `JSON.stringify` emits it:
   * an absent (undefined) attribute is dropped, present ones are kept.
   */
  function Compact(m: map<Prop, Attr>): (o: ObjectData)
    ensures o.Keys <= m.Keys
  {
    map k | k in m && m[k].Some? :: m[k].value
  }

  /** What `Compact` keeps, property by property. */
  lemma FieldCompact(m: map<Prop, Attr>, k: Prop)
    ensures Field(Compact(m), k) == if k in m then m[k] else None
  {
  }

  /** The type tag of a payload object, when it is a string. */
  function TypeTag(o: ObjectData): Option<string> {
    if Type in o && o[Type].Str? then Some(o[Type].s) else None
  }

  /**
   * The viewer's decoder: the tag is compared strictly against "circle",
   * "rect", "line" and "path", and the geometry, `stroke` and `strokeWidth`
   * are copied verbatim; circles and rectangles get a transparent fill.
   */
  function Decode(o: ObjectData): (d: Decoded)
    ensures d.LoadPath? ==> d.data == o
    ensures d.Built? ==> FieldCoded(d.shape)
  {
    match TypeTag(o)
    case Some("circle") =>
      Built(Circle(Field(o, Left), Field(o, Top), Field(o, Radius), Transparent,
                   Field(o, Stroke), Field(o, StrokeWidth)))
    case Some("rect") =>
      Built(Rect(Field(o, Left), Field(o, Top), Field(o, Width), Field(o, Height), Transparent,
                 Field(o, Stroke), Field(o, StrokeWidth)))
    case Some("line") =>
      Built(Line(Field(o, X1), Field(o, Y1), Field(o, X2), Field(o, Y2),
                 Field(o, Stroke), Field(o, StrokeWidth)))
    case Some("path") => LoadPath(o)
    case _ => Unknown
  }

  /**
   * The decoder's dispatch on the type tag: "circle", "rect" and "line" are
   * built, "path" goes to the library's load, and every other tag (or none)
   * is ignored.
   */
  lemma DecodeByTag(o: ObjectData)
    ensures Decode(o).Built? <==> TypeTag(o) in {Some("circle"), Some("rect"), Some("line")}
    ensures Decode(o).LoadPath? <==> TypeTag(o) == Some("path")
    ensures Decode(o).Unknown? <==> TypeTag(o) !in {Some("circle"), Some("rect"), Some("line"), Some("path")}
  {
  }

  /** The properties the decoder reads for each kind of shape. */
  function KeysRead(s: Shape): set<Prop> {
    match s
    case Circle(_, _, _, _, _, _) => {Type, Left, Top, Radius, Stroke, StrokeWidth}
    case Rect(_, _, _, _, _, _, _) => {Type, Left, Top, Width, Height, Stroke, StrokeWidth}
    case Line(_, _, _, _, _, _) => {Type, X1, Y1, X2, Y2, Stroke, StrokeWidth}
    case Path(json) => json.Keys
  }

  /**
   * The host's serialization of a shape (the library's `toJSON`), reduced to
   * the properties the decoder reads. A path travels as its own serialization.
   */
  function Encode(s: Shape): (o: ObjectData)
    ensures o.Keys <= KeysRead(s)
  {
    match s
    case Path(json) => json
    case _ => WrittenKeys(s); Compact(Written(s))
  }

  /** Every property the host writes for a non-path shape, absent ones included. */
  function Written(s: Shape): map<Prop, Attr>
    requires !s.Path?
  {
    match s
    case Circle(left, top, radius, _, stroke, strokeWidth) =>
      map[Type := Some(Str("circle")), Left := left, Top := top, Radius := radius,
          Stroke := stroke, StrokeWidth := strokeWidth]
    case Rect(left, top, width, height, _, stroke, strokeWidth) =>
      map[Type := Some(Str("rect")), Left := left, Top := top, Width := width, Height := height,
          Stroke := stroke, StrokeWidth := strokeWidth]
    case Line(x1, y1, x2, y2, stroke, strokeWidth) =>
      map[Type := Some(Str("line")), X1 := x1, Y1 := y1, X2 := x2, Y2 := y2,
          Stroke := stroke, StrokeWidth := strokeWidth]
  }

  /** The properties the host writes for a circle, rectangle or line are exactly those the decoder reads. */
  lemma WrittenKeys(s: Shape)
    requires !s.Path?
    ensures Written(s).Keys == KeysRead(s)
  {
  }

  /** A shape the field-by-field codec reproduces: not a path, and filled transparently. */
  predicate FieldCoded(s: Shape) {
    match s
    case Circle(_, _, _, fill, _, _) => fill == Transparent
    case Rect(_, _, _, _, fill, _, _) => fill == Transparent
    case Line(_, _, _, _, _, _) => true
    case Path(_) => false
  }

  /** Round trip: decoding the host's encoding gives back the very same shape. */
  lemma DecodeEncode(s: Shape)
    requires FieldCoded(s)
    ensures Decode(Encode(s)) == Built(s)
  {
    match s
    case Circle(_, _, _, _, _, _) => DecodeEncodeCircle(s);
    case Rect(_, _, _, _, _, _, _) => DecodeEncodeRect(s);
    case Line(_, _, _, _, _, _) => DecodeEncodeLine(s);
  }

  lemma DecodeEncodeCircle(s: Shape)
    requires s.Circle? && FieldCoded(s)
    ensures Decode(Encode(s)) == Built(s)
  {
    var o := Encode(s);
    EncodeCircleField(s, Type);
    EncodeCircleField(s, Left);
    EncodeCircleField(s, Top);
    EncodeCircleField(s, Radius);
    EncodeCircleField(s, Stroke);
    EncodeCircleField(s, StrokeWidth);
    assert TypeTag(o) == Some("circle");
  }

  lemma DecodeEncodeRect(s: Shape)
    requires s.Rect? && FieldCoded(s)
    ensures Decode(Encode(s)) == Built(s)
  {
    var o := Encode(s);
    EncodeRectField(s, Type);
    EncodeRectField(s, Left);
    EncodeRectField(s, Top);
    EncodeRectField(s, Width);
    EncodeRectField(s, Height);
    EncodeRectField(s, Stroke);
    EncodeRectField(s, StrokeWidth);
    assert TypeTag(o) == Some("rect");
  }

  lemma DecodeEncodeLine(s: Shape)
    requires s.Line?
    ensures Decode(Encode(s)) == Built(s)
  {
    var o := Encode(s);
    EncodeLineField(s, Type);
    EncodeLineField(s, X1);
    EncodeLineField(s, Y1);
    EncodeLineField(s, X2);
    EncodeLineField(s, Y2);
    EncodeLineField(s, Stroke);
    EncodeLineField(s, StrokeWidth);
    assert TypeTag(o) == Some("line");
  }

  /** Two payload objects with the same properties are the same object. */
  lemma SameFields(a: ObjectData, b: ObjectData)
    requires forall k :: Field(a, k) == Field(b, k)
    ensures a == b
  {
    assert a.Keys == b.Keys by {
      forall k ensures k in a <==> k in b {
        assert Field(a, k) == Field(b, k);
      }
    }
    forall k | k in a ensures a[k] == b[k] {
      assert Field(a, k) == Field(b, k);
    }
  }

  /** `o` restricted to the properties in `keys`. */
  function Restrict(o: ObjectData, keys: set<Prop>): (r: ObjectData)
    ensures forall k :: Field(r, k) == if k in keys then Field(o, k) else None
  {
    map k | k in o && k in keys :: o[k]
  }

  /**
   * The other direction: whatever the decoder builds, encoding it again gives
   * exactly the properties of the payload that the decoder read, no more.
   */
  lemma EncodeDecode(o: ObjectData)
    requires Decode(o).Built?
    ensures FieldCoded(Decode(o).shape)
    ensures Encode(Decode(o).shape) == Restrict(o, KeysRead(Decode(o).shape))
  {
    if TypeTag(o) == Some("circle") {
      EncodeDecodeCircle(o);
    } else if TypeTag(o) == Some("rect") {
      EncodeDecodeRect(o);
    } else {
      EncodeDecodeLine(o);
    }
  }

  lemma EncodeDecodeCircle(o: ObjectData)
    requires TypeTag(o) == Some("circle")
    ensures Decode(o).Built? && FieldCoded(Decode(o).shape)
    ensures Encode(Decode(o).shape) == Restrict(o, KeysRead(Decode(o).shape))
  {
    var s := Decode(o).shape;
    var e, want := Encode(s), Restrict(o, KeysRead(s));
    forall k ensures Field(e, k) == Field(want, k) {
      EncodeCircleField(s, k);
    }
    SameFields(e, want);
  }

  lemma EncodeDecodeRect(o: ObjectData)
    requires TypeTag(o) == Some("rect")
    ensures Decode(o).Built? && FieldCoded(Decode(o).shape)
    ensures Encode(Decode(o).shape) == Restrict(o, KeysRead(Decode(o).shape))
  {
    var s := Decode(o).shape;
    var e, want := Encode(s), Restrict(o, KeysRead(s));
    forall k ensures Field(e, k) == Field(want, k) {
      EncodeRectField(s, k);
    }
    SameFields(e, want);
  }

  lemma EncodeDecodeLine(o: ObjectData)
    requires TypeTag(o) == Some("line")
    ensures Decode(o).Built? && FieldCoded(Decode(o).shape)
    ensures Encode(Decode(o).shape) == Restrict(o, KeysRead(Decode(o).shape))
  {
    var s := Decode(o).shape;
    var e, want := Encode(s), Restrict(o, KeysRead(s));
    forall k ensures Field(e, k) == Field(want, k) {
      EncodeLineField(s, k);
    }
    SameFields(e, want);
  }

  /** Each property of an encoded circle, key by key. */
  lemma EncodeCircleField(s: Shape, k: Prop)
    requires s.Circle?
    ensures Field(Encode(s), k) ==
      if k == Type then Some(Str("circle"))
      else if k == Left then s.left
      else if k == Top then s.top
      else if k == Radius then s.radius
      else if k == Stroke then s.stroke
      else if k == StrokeWidth then s.strokeWidth
      else None
  {
    FieldCompact(Written(s), k);
  }

  /** Each property of an encoded rectangle, key by key. */
  lemma EncodeRectField(s: Shape, k: Prop)
    requires s.Rect?
    ensures Field(Encode(s), k) ==
      if k == Type then Some(Str("rect"))
      else if k == Left then s.left
      else if k == Top then s.top
      else if k == Width then s.width
      else if k == Height then s.height
      else if k == Stroke then s.stroke
      else if k == StrokeWidth then s.strokeWidth
      else None
  {
    FieldCompact(Written(s), k);
  }

  /** Each property of an encoded line, key by key. */
  lemma EncodeLineField(s: Shape, k: Prop)
    requires s.Line?
    ensures Field(Encode(s), k) ==
      if k == Type then Some(Str("line"))
      else if k == X1 then s.x1
      else if k == Y1 then s.y1
      else if k == X2 then s.x2
      else if k == Y2 then s.y2
      else if k == Stroke then s.stroke
      else if k == StrokeWidth then s.strokeWidth
      else None
  {
    FieldCompact(Written(s), k);
  }
}
