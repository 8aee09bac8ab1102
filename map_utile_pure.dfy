/** The parts of MapUtile.js that only compute a value: feature construction
    (`createFeature`), the draw-type normalisation at the head of
    `drawEventFeature`, the default rows of `createModal`, and the layer that
    `createVectorLayer` builds before adding it to the map. */
module MapUtilePure {
  import opened Wrappers
  import opened MapModel

  /** The synchronous errors the engine throws on bad configuration. */
  datatype EngineError =
    | MissingLayerId        // createVectorLayer without a truthy `id`
    | UnknownShape          // createFeature with a shape other than point/lineString/polygon
    | MissingCoordinates    // generatePulse without a geometry of at least two ordinates
    | InvalidDrawType       // the Draw interaction rejects an unrecognised type

  // ---------------------------------------------------------------------
  // createFeature

  /** `createFeature(name, coordinate = [], style, shape = 'point')`. A
      `coordinate` of `None` is the default empty array; `style` is `None`
      when the caller passes a falsy style; `shape` is `Undefined` when it is
      omitted. The new feature gets the identity `uid`. */
  function CreateFeature(uid: nat, name: Value, coordinate: Option<Coords>, style: Option<nat>, shape: Value)
    : (r: Result<Feature, EngineError>)
    ensures r.Failure? <==> shape !in {Undefined, Str("point"), Str("lineString"), Str("polygon")}
    ensures r.Failure? ==> r.error == UnknownShape
    ensures r.Success? ==> r.value.uid == uid && r.value.name == name
    ensures r.Success? ==> r.value.geometry.coords == coordinate.GetOr(List([]))
    ensures r.Success? ==> (shape in {Undefined, Str("point")} <==> r.value.geometry.kind == PointKind)
    ensures r.Success? ==> (shape == Str("lineString") <==> r.value.geometry.kind == LineStringKind)
    ensures r.Success? ==> (shape == Str("polygon") <==> r.value.geometry.kind == PolygonKind)
    ensures r.Success? && style.Some? ==> r.value.style == GivenStyle(style.value)
    ensures r.Success? && style.None? ==> r.value.style == DefaultMarker()
  {
    var coords := coordinate.GetOr(List([]));
    var kind :=
      if shape == Undefined || shape == Str("point") then Some(PointKind)
      else if shape == Str("lineString") then Some(LineStringKind)
      else if shape == Str("polygon") then Some(PolygonKind)
      else None;
    if kind.None? then Failure(UnknownShape)
    else
      var st := if style.Some? then GivenStyle(style.value) else DefaultMarker();
      Success(Feature(uid, name, Geometry(kind.value, coords), st))
  }

  /** The default marker icon: scale 0.8, anchored at the bottom centre. */
  function DefaultMarker(): FeatureStyle
  {
    MarkerIcon(0.8, 0.5, 1.0)
  }

  // ---------------------------------------------------------------------
  // Draw-type normalisation

  /** The six drawing types the engine recognises, in the order it tries
      them. */
  datatype DrawType = Point | LineString | Polygon | Circle | Square | Box

  const DrawTypes: seq<DrawType> := [Point, LineString, Polygon, Circle, Square, Box]

  function TypeName(t: DrawType): string
  {
    match t
    case Point => "Point"
    case LineString => "LineString"
    case Polygon => "Polygon"
    case Circle => "Circle"
    case Square => "Square"
    case Box => "Box"
  }

  /** The `type` argument of `drawEventFeature`: omitted (the default
      'LineString' applies), `null`, or a string. */
  datatype DrawTypeArg = DefaultType | NullType | TextType(s: string)

  /** The characters `String.prototype.trim` removes: the ECMAScript
      WhiteSpace and LineTerminator code points. */
  predicate IsJsSpace(c: char)
  {
    || c == '\U{0009}' || c == '\U{000A}' || c == '\U{000B}' || c == '\U{000C}' || c == '\U{000D}'
    || c == '\U{0020}' || c == '\U{00A0}' || c == '\U{1680}'
    || ('\U{2000}' <= c <= '\U{200A}')
    || c == '\U{2028}' || c == '\U{2029}' || c == '\U{202F}' || c == '\U{205F}'
    || c == '\U{3000}' || c == '\U{FEFF}'
  }

  function TrimStart(s: string): (r: string)
    ensures |r| <= |s| && r == s[|s| - |r|..]
    ensures |r| > 0 ==> !IsJsSpace(r[0])
    ensures forall k :: 0 <= k < |s| - |r| ==> IsJsSpace(s[k])
  {
    if |s| > 0 && IsJsSpace(s[0]) then TrimStart(s[1..]) else s
  }

  function TrimEnd(s: string): (r: string)
    ensures |r| <= |s| && r == s[..|r|]
    ensures |r| > 0 ==> !IsJsSpace(r[|r| - 1])
    ensures forall k :: |r| <= k < |s| ==> IsJsSpace(s[k])
  {
    if |s| > 0 && IsJsSpace(s[|s| - 1]) then TrimEnd(s[..|s| - 1]) else s
  }

  /** `s.trim()`. */
  function Trim(s: string): string
  {
    TrimEnd(TrimStart(s))
  }

  /** The case folding of a non-unicode `i` regular expression, restricted to
      what matters against the ASCII type names: ASCII letters fold to upper
      case, and no other character folds onto an ASCII one. */
  function Fold(c: char): char
  {
    if 'a' <= c <= 'z' then (c as int - 32) as char else c
  }

  /** `new RegExp('^' + name + '$', 'i').test(s)` for a plain-letter name. */
  predicate EqualsIgnoringCase(s: string, name: string)
  {
    |s| == |name| && forall k :: 0 <= k < |s| ==> Fold(s[k]) == Fold(name[k])
  }

  /** The first of `ts` whose name matches `s`. */
  function FindType(s: string, ts: seq<DrawType>): (r: Option<DrawType>)
    ensures r.Some? ==> r.value in ts && EqualsIgnoringCase(s, TypeName(r.value))
    ensures r.None? <==> forall k :: 0 <= k < |ts| ==> !EqualsIgnoringCase(s, TypeName(ts[k]))
  {
    if ts == [] then None
    else if EqualsIgnoringCase(s, TypeName(ts[0])) then Some(ts[0])
    else FindType(s, ts[1..])
  }

  /** The text the type test sees: an omitted type is the default
      "LineString", and a `null` type reaches the test as `undefined`, which
      the regular expression reads as the text "undefined". */
  function TypeText(arg: DrawTypeArg): string
  {
    match arg
    case DefaultType => "LineString"
    case NullType => "undefined"
    case TextType(s) => s
  }

  /** `validTypes.find(v => new RegExp(`^${v}$`, 'i').test(type?.trim()))`. */
  function NormalizeDrawType(arg: DrawTypeArg): Option<DrawType>
  {
    FindType(Trim(TypeText(arg)), DrawTypes)
  }

  /** Two different type names never match the same text: their lengths
      differ, except for Circle and Square, whose first letters differ. */
  lemma NamesDistinct(s: string, t: DrawType, u: DrawType)
    requires EqualsIgnoringCase(s, TypeName(t)) && EqualsIgnoringCase(s, TypeName(u))
    ensures t == u
  {
    if {t, u} == {Circle, Square} {
      assert Fold(TypeName(t)[0]) == Fold(s[0]) == Fold(TypeName(u)[0]);
    }
  }

  /** A text that matches a name is normalised to that name's type. */
  lemma FindTypeMatching(x: string, t: DrawType)
    requires EqualsIgnoringCase(x, TypeName(t))
    ensures FindType(x, DrawTypes) == Some(t)
  {
    var r := FindType(x, DrawTypes);
    var k := match t
      case Point => 0 case LineString => 1 case Polygon => 2
      case Circle => 3 case Square => 4 case Box => 5;
    assert DrawTypes[k] == t;
    NamesDistinct(x, r.value, t);
  }

  /** The normalisation succeeds exactly on the texts that, once trimmed,
      spell one of the six names in any mix of upper and lower case, and
      yields that type. */
  lemma NormalizeDrawTypeMatches(s: string, t: DrawType)
    ensures NormalizeDrawType(TextType(s)) == Some(t) <==> EqualsIgnoringCase(Trim(s), TypeName(t))
  {
    var x := Trim(s);
    if EqualsIgnoringCase(x, TypeName(t)) {
      FindTypeMatching(x, t);
    }
  }

  /** Each type's own name, with surrounding blanks, comes back as that
      type. */
  lemma NormalizeDrawTypeRoundTrip(t: DrawType, pre: string, post: string)
    requires forall k :: 0 <= k < |pre| ==> IsJsSpace(pre[k])
    requires forall k :: 0 <= k < |post| ==> IsJsSpace(post[k])
    ensures NormalizeDrawType(TextType(pre + TypeName(t) + post)) == Some(t)
  {
    var name := TypeName(t);
    assert !IsJsSpace(name[0]) && !IsJsSpace(name[|name| - 1]);
    TrimPadding(pre, name, post);
    FindTypeMatching(name, t);
  }

  /** An omitted type draws lines. */
  lemma NormalizeDrawTypeDefault()
    ensures NormalizeDrawType(DefaultType) == Some(LineString)
  {
    NormalizeDrawTypeRoundTrip(LineString, "", "");
    assert "" + TypeName(LineString) + "" == TypeText(DefaultType);
  }

  /** A `null` type is not recognised: no type name has nine letters. */
  lemma NormalizeDrawTypeNull()
    ensures NormalizeDrawType(NullType) == None
  {
    var u := TypeText(NullType);
    TrimPadding("", u, "");
    assert "" + u + "" == u;
    forall k | 0 <= k < |DrawTypes| ensures |TypeName(DrawTypes[k])| != |u| {
    }
  }

  /** Trimming removes exactly the blank padding around a text that neither
      starts nor ends with a blank. */
  lemma {:induction false} TrimPadding(pre: string, mid: string, post: string)
    requires forall k :: 0 <= k < |pre| ==> IsJsSpace(pre[k])
    requires forall k :: 0 <= k < |post| ==> IsJsSpace(post[k])
    requires |mid| > 0 && !IsJsSpace(mid[0]) && !IsJsSpace(mid[|mid| - 1])
    ensures Trim(pre + mid + post) == mid
  {
    assert pre + mid + post == pre + (mid + post);
    assert (mid + post)[0] == mid[0];
    TrimStartPadding(pre, mid + post);
    TrimEndPadding(mid, post);
  }

  lemma {:induction false} TrimStartPadding(pre: string, rest: string)
    requires forall k :: 0 <= k < |pre| ==> IsJsSpace(pre[k])
    requires |rest| > 0 && !IsJsSpace(rest[0])
    ensures TrimStart(pre + rest) == rest
  {
    if pre != [] {
      assert (pre + rest)[1..] == pre[1..] + rest;
      TrimStartPadding(pre[1..], rest);
    }
  }

  lemma {:induction false} TrimEndPadding(mid: string, post: string)
    requires forall k :: 0 <= k < |post| ==> IsJsSpace(post[k])
    requires |mid| > 0 && !IsJsSpace(mid[|mid| - 1])
    ensures TrimEnd(mid + post) == mid
  {
    if post != [] {
      var p := post[..|post| - 1];
      assert (mid + post)[..|mid + post| - 1] == mid + p;
      TrimEndPadding(mid, p);
    }
  }

  /** Changing the case of ASCII letters never changes the outcome. */
  lemma CaseInsensitive(s: string, s': string)
    requires |s| == |s'| && forall k :: 0 <= k < |s| ==> Fold(s[k]) == Fold(s'[k])
    ensures FindType(s, DrawTypes) == FindType(s', DrawTypes)
  {
    forall t ensures EqualsIgnoringCase(s, TypeName(t)) == EqualsIgnoringCase(s', TypeName(t)) {
    }
    var r, r' := FindType(s, DrawTypes), FindType(s', DrawTypes);
    if r.Some? && r'.Some? {
      NamesDistinct(s, r.value, r'.value);
    }
  }

  /** The library's drawing mode and geometry function for a recognised type:
      Square and Box draw as circles reshaped by `createRegularPolygon(4)` and
      `createBox()`. */
  datatype DrawMode = PointMode | LineStringMode | PolygonMode | CircleMode
  datatype GeometryFunction = NoGeometryFunction | RegularPolygon(sides: nat) | BoxFunction

  function ModeOf(t: DrawType): (r: (DrawMode, GeometryFunction))
    ensures (t == Square || t == Box) <==> r.1 != NoGeometryFunction
    ensures t in {Circle, Square, Box} <==> r.0 == CircleMode
    ensures t == Square ==> r.1 == RegularPolygon(4)
    ensures t == Box ==> r.1 == BoxFunction
  {
    match t
    case Point => (PointMode, NoGeometryFunction)
    case LineString => (LineStringMode, NoGeometryFunction)
    case Polygon => (PolygonMode, NoGeometryFunction)
    case Circle => (CircleMode, NoGeometryFunction)
    case Square => (CircleMode, RegularPolygon(4))
    case Box => (CircleMode, BoxFunction)
  }

  /** The geometry of the sketch a drawing mode produces. */
  function SketchKind(mode: DrawMode, fn: GeometryFunction): GeometryKind
  {
    match mode
    case PointMode => PointKind
    case LineStringMode => LineStringKind
    case PolygonMode => PolygonKind
    case CircleMode => if fn == NoGeometryFunction then CircleKind else PolygonKind
  }

  // ---------------------------------------------------------------------
  // createModal

  /** One line of the measurement popup: a label, a value and a class key. */
  datatype Row = Row(name: string, value: string, key: string)

  /** The rows `createModal(type, data)` lays out: `data` itself, or when it is
      empty a running total (distance for a line, area otherwise) and a hint on
      how to stop drawing. */
  function ModalRows(typ: Value, data: seq<Row>): (r: seq<Row>)
    ensures |data| > 0 ==> r == data
    ensures |data| == 0 ==> |r| == 2 && r[0].value == "0.0" && r[0].key == "calc" && r[1].key == "ing"
    ensures |data| == 0 ==> (r[0].name == TotalDistance() <==> typ == Str("LineString"))
    ensures |data| == 0 ==> (r[0].name == TotalArea() <==> typ != Str("LineString"))
  {
    if |data| == 0 then
      [ Row(if typ == Str("LineString") then TotalDistance() else TotalArea(), "0.0", "calc"),
        Row("", StopHint(), "ing") ]
    else data
  }

  function TotalDistance(): string { "총거리" }
  function TotalArea(): string { "총면적" }
  function StopHint(): string { "중지하려면 esc 또는 마우스 우클릭" }

  // ---------------------------------------------------------------------
  // createVectorLayer

  /** The options of `createVectorLayer` that the engine and its callers use.
      `visible` is `None` when omitted; `source` is `None` when falsy. */
  datatype VectorLayerOptions = VectorLayerOptions(id: Value, zIndex: Value, visible: Option<bool>, source: Option<VectorSource>)

  function IdOptions(id: string): VectorLayerOptions
  {
    VectorLayerOptions(Str(id), Undefined, None, None)
  }

  /** The source a vector layer gets when none is given. */
  function EmptySource(): VectorSource
  {
    VectorSource([], [], false)
  }

  /** The layer `createVectorLayer` builds, or the error it throws for a falsy
      `id`. */
  function NewVectorLayer(opts: VectorLayerOptions): (r: Result<Layer, EngineError>)
    ensures r.Failure? <==> !Truthy(opts.id)
    ensures r.Failure? ==> r.error == MissingLayerId
    ensures r.Success? ==> Get(r.value, "id") == opts.id && Get(r.value, "zIndex") == opts.zIndex
    ensures r.Success? ==> r.value.kind == VectorLayer(opts.source.GetOr(EmptySource()))
    ensures r.Success? ==> r.value.visible == opts.visible.GetOr(true)
    ensures r.Success? ==> r.value.style == DefaultLayerStyle
  {
    if !Truthy(opts.id) then Failure(MissingLayerId)
    else
      Success(Layer(map["id" := opts.id, "zIndex" := opts.zIndex], opts.visible.GetOr(true),
                    DefaultLayerStyle, VectorLayer(opts.source.GetOr(EmptySource()))))
  }
}
