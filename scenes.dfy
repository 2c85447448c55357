/**
 * The part loop of `render_scaffold` (render.py:120-191): the global extra
 * transform built from the command-line offsets and angle, then one pass
 * over the `parts` records that skips the ones whose construction fails or
 * that the scaffolding filter rejects, collects the vertices of the rest,
 * picks each one's style and counts them; then the limits and the camera.
 * The plotting calls are not modelled: what the model keeps of each
 * `add_collection3d` call is the list of faces and the style passed to it.
 */
module Scenes {
  import opened Wrappers
  import opened Transforms
  import opened Parts
  import opened Views

  /** The cosine and sine of the `-rz` angle, computed outside the model. */
  datatype Turn = Turn(c: real, s: real)

  /** The command-line flags the loop and the view read. */
  datatype Options = Options(
    highlight: Option<string>,
    scaffoldingOnly: bool,
    tx: real,
    ty: real,
    tz: real,
    rz: Option<Turn>,
    viewX: bool,
    viewY: bool,
    viewZ: bool)

  /** `facecolors`, `edgecolors`, `linewidths` and `alpha` of one `Poly3DCollection`. */
  datatype Style = Style(faceColor: string, edgeColor: string, lineWidth: real, alpha: real)

  const HighlightStyle := Style("red", "red", 2.0, 0.45)
  const ScaffoldStyle := Style("skyblue", "black", 0.5, 0.25)
  const GenericStyle := Style("darkred", "black", 0.5, 0.25)

  /** The name fragment that marks scaffolding parts. */
  const ScaffoldMarker := "ScaffoldingBox"

  /** One `Poly3DCollection` added to the axes. */
  datatype Collection = Collection(faces: seq<seq<Point>>, style: Style)

  /** What the loop leaves behind: the collections drawn, `all_coords` and `parts_rendered`. */
  datatype Scene = Scene(collections: seq<Collection>, allCoords: seq<seq<Point>>, rendered: nat)

  /** The axis limits and the camera, set only when something was rendered. */
  datatype View = View(limits: Limits, camera: Option<Camera>)

  // ---------------------------------------------------------------------
  // Substrings and styles
  // ---------------------------------------------------------------------

  predicate OccursAt(hay: string, needle: string, i: nat) {
    i + |needle| <= |hay| && hay[i..i + |needle|] == needle
  }

  /** Python's `needle in hay` for strings. */
  predicate Contains(hay: string, needle: string)
    ensures Contains(hay, needle) ==> |needle| <= |hay|
    ensures needle == "" ==> Contains(hay, needle)
    ensures |needle| <= |hay| && hay[..|needle|] == needle ==> Contains(hay, needle)
  {
    assert OccursAt(hay, needle, 0) <==> |needle| <= |hay| && hay[..|needle|] == needle;
    exists i: nat | i <= |hay| :: OccursAt(hay, needle, i)
  }

  /** `args.highlight and args.highlight in part.name`. */
  predicate Highlighted(name: string, highlight: Option<string>)
    ensures highlight.None? || highlight == Some("") ==> !Highlighted(name, highlight)
    ensures Highlighted(name, highlight) ==> 0 < |highlight.value| <= |name|
  {
    highlight.Some? && highlight.value != "" && Contains(name, highlight.value)
  }

  /**
   * The style of a rendered part: the highlight style takes precedence;
   * otherwise skyblue for scaffolding and darkred for anything else.
   */
  function StyleFor(name: string, highlight: Option<string>): (st: Style)
    ensures st == HighlightStyle <==> Highlighted(name, highlight)
    ensures st == ScaffoldStyle <==> !Highlighted(name, highlight) && Contains(name, ScaffoldMarker)
    ensures st == GenericStyle <==> !Highlighted(name, highlight) && !Contains(name, ScaffoldMarker)
  {
    if Highlighted(name, highlight) then HighlightStyle
    else Style(if Contains(name, ScaffoldMarker) then "skyblue" else "darkred", "black", 0.5, 0.25)
  }

  /**
   * An empty `-H` value is falsy: no part is drawn in the highlight style,
   * although the empty string occurs in every name.
   */
  lemma EmptyHighlightIgnored(name: string)
    ensures Contains(name, "")
    ensures StyleFor(name, Some("")) != HighlightStyle
    ensures StyleFor(name, Some("")) == (if Contains(name, ScaffoldMarker) then ScaffoldStyle else GenericStyle)
  {
  }

  // ---------------------------------------------------------------------
  // The global extra transform
  // ---------------------------------------------------------------------

  /** `args.tx or args.ty or args.tz`: some offset is non-zero. */
  predicate Moves(o: Options) {
    o.tx != 0.0 || o.ty != 0.0 || o.tz != 0.0
  }

  function RotationPart(o: Options): Mat4 {
    if o.rz.Some? then RotationZ(o.rz.value.c, o.rz.value.s) else Identity()
  }

  function TranslationPart(o: Options): Mat4 {
    if Moves(o) then Translation(o.tx, o.ty, o.tz) else Identity()
  }

  /** `T_extra`: the translation (when there is one) times the rotation (when there is one). */
  function ExtraTransform(o: Options): (t: Mat4)
    ensures t == MatMul(Translation(o.tx, o.ty, o.tz), RotationPart(o))
    ensures o.rz.None? ==> t == Translation(o.tx, o.ty, o.tz)
  {
    if !Moves(o) then
      assert Translation(o.tx, o.ty, o.tz) == Identity();
      IdentityLeft(RotationPart(o));
      MatMul(TranslationPart(o), RotationPart(o))
    else
      IdentityRight(Translation(o.tx, o.ty, o.tz));
      MatMul(TranslationPart(o), RotationPart(o))
  }

  /** render.py:120-127: start from the identity and multiply each present factor in from the left. */
  method BuildExtraTransform(o: Options) returns (t: Mat4)
    ensures t == ExtraTransform(o)
    ensures o.rz.None? && !Moves(o) ==> t == Identity()
    ensures o.rz.Some? && Moves(o) ==> t == MatMul(Translation(o.tx, o.ty, o.tz), RotationZ(o.rz.value.c, o.rz.value.s))
  {
    t := Identity();
    if o.rz.Some? {
      IdentityRight(RotationZ(o.rz.value.c, o.rz.value.s));
      t := MatMul(RotationZ(o.rz.value.c, o.rz.value.s), t);
    }
    IdentityLeft(t);
    if Moves(o) {
      t := MatMul(Translation(o.tx, o.ty, o.tz), t);
    } else {
      assert t == MatMul(Identity(), t);
    }
  }

  /** Without an angle and with every offset zero, `T_extra` is the identity. */
  lemma ExtraTransformDefault(o: Options)
    requires o.rz.None? && o.tx == 0.0 && o.ty == 0.0 && o.tz == 0.0
    ensures ExtraTransform(o) == Identity()
  {
    IdentityLeft(Identity());
  }

  /** `T_extra` rotates a homogeneous point first and translates it second. */
  lemma ExtraRotatesThenTranslates(o: Options, v: Vec4)
    ensures Apply(ExtraTransform(o), v) == Apply(TranslationPart(o), Apply(RotationPart(o), v))
  {
    ApplyMatMul(TranslationPart(o), RotationPart(o), v);
  }

  // ---------------------------------------------------------------------
  // The part loop
  // ---------------------------------------------------------------------

  /**
   * Record `i` becomes a rendered part: its `ecsBox` holds 16 values, so
   * that it constructs, and the filter (when on) finds the marker in its name.
   * This is stated on the record rather than through `NewPart`, so that
   * reasoning about which positions render does not unfold the vertices;
   * `RenderedStep` proves the two descriptions agree.
   */
  predicate Renders(records: seq<PartRecord>, i: nat, scaffoldingOnly: bool)
    requires i < |records|
  {
    var rec := records[i];
    rec.ecsBox.Some? && |rec.ecsBox.value| == 16
      && (!scaffoldingOnly || Contains(PartName(i, rec), ScaffoldMarker))
  }

  /** The parts rendered from the first `n` records, in input order. */
  function Rendered(records: seq<PartRecord>, n: nat, extra: Mat4, scaffoldingOnly: bool): (parts: seq<Part>)
    requires n <= |records|
    ensures |parts| <= n
    ensures forall p :: p in parts ==> |p.vertices| == 8
    ensures forall p :: p in parts ==> !scaffoldingOnly || Contains(p.name, ScaffoldMarker)
  {
    if n == 0 then []
    else
      var earlier := Rendered(records, n - 1, extra, scaffoldingOnly);
      if Renders(records, n - 1, scaffoldingOnly)
      then earlier + [NewPart(n - 1, records[n - 1], extra).value]
      else earlier
  }

  /** The faces and style of every rendered part, in order. */
  function Drawn(parts: seq<Part>, highlight: Option<string>): (cs: seq<Collection>)
    requires forall p :: p in parts ==> |p.vertices| == 8
    ensures |cs| == |parts|
    ensures forall k :: 0 <= k < |parts| ==>
      cs[k] == Collection(Faces(parts[k].vertices), StyleFor(parts[k].name, highlight))
  {
    if parts == [] then []
    else
      var last := parts[|parts| - 1];
      Drawn(parts[..|parts| - 1], highlight) + [Collection(Faces(last.vertices), StyleFor(last.name, highlight))]
  }

  /** One more record either adds the part it constructs or leaves the rendered parts as they were. */
  lemma RenderedStep(records: seq<PartRecord>, i: nat, extra: Mat4, scaffoldingOnly: bool)
    requires i < |records|
    ensures var r := NewPart(i, records[i], extra);
      Renders(records, i, scaffoldingOnly) <==> r.Ok? && (!scaffoldingOnly || Contains(r.value.name, ScaffoldMarker))
    ensures Rendered(records, i + 1, extra, scaffoldingOnly) ==
      if Renders(records, i, scaffoldingOnly)
      then Rendered(records, i, extra, scaffoldingOnly) + [NewPart(i, records[i], extra).value]
      else Rendered(records, i, extra, scaffoldingOnly)
  {
  }

  /** Appending a part appends its vertex array and its collection. */
  lemma AppendPart(parts: seq<Part>, p: Part, highlight: Option<string>)
    requires forall q :: q in parts ==> |q.vertices| == 8
    requires |p.vertices| == 8
    ensures VertexArrays(parts + [p]) == VertexArrays(parts) + [p.vertices]
    ensures Drawn(parts + [p], highlight) == Drawn(parts, highlight) + [Collection(Faces(p.vertices), StyleFor(p.name, highlight))]
  {
    assert (parts + [p])[..|parts|] == parts;
  }

  /** The vertex arrays of the rendered parts, in order: `all_coords`. */
  function VertexArrays(parts: seq<Part>): (arrays: seq<seq<Point>>)
    ensures |arrays| == |parts|
    ensures forall k :: 0 <= k < |parts| ==> arrays[k] == parts[k].vertices
  {
    if parts == [] then [] else VertexArrays(parts[..|parts| - 1]) + [parts[|parts| - 1].vertices]
  }

  /** `np.vstack(all_coords)`: the arrays one after another. */
  function Stack(arrays: seq<seq<Point>>): (pool: seq<Point>)
    ensures forall p :: p in pool <==> exists k :: 0 <= k < |arrays| && p in arrays[k]
  {
    if arrays == [] then [] else Stack(arrays[..|arrays| - 1]) + arrays[|arrays| - 1]
  }

  /**
   * The `for` loop of render.py:134-169: each record either is skipped or
   * adds its vertex array, its collection and one to the count.
   */
  method RenderParts(records: seq<PartRecord>, extra: Mat4, o: Options) returns (scene: Scene)
    ensures var parts := Rendered(records, |records|, extra, o.scaffoldingOnly);
      && scene.rendered == |parts|
      && scene.allCoords == VertexArrays(parts)
      && scene.collections == Drawn(parts, o.highlight)
  {
    var collections: seq<Collection> := [];
    var allCoords: seq<seq<Point>> := [];
    var partsRendered := 0;
    for i := 0 to |records|
      invariant partsRendered == |Rendered(records, i, extra, o.scaffoldingOnly)|
      invariant allCoords == VertexArrays(Rendered(records, i, extra, o.scaffoldingOnly))
      invariant collections == Drawn(Rendered(records, i, extra, o.scaffoldingOnly), o.highlight)
    {
      ghost var before := Rendered(records, i, extra, o.scaffoldingOnly);
      RenderedStep(records, i, extra, o.scaffoldingOnly);
      var built := NewPart(i, records[i], extra);
      if built.Err? {
        continue;
      }
      var part := built.value;
      if o.scaffoldingOnly && !Contains(part.name, ScaffoldMarker) {
        continue;
      }
      AppendPart(before, part, o.highlight);
      allCoords := allCoords + [part.vertices];
      var style := StyleFor(part.name, o.highlight);
      collections := collections + [Collection(Faces(part.vertices), style)];
      partsRendered := partsRendered + 1;
    }
    scene := Scene(collections, allCoords, partsRendered);
  }

  /**
   * `render_scaffold` from the global transform to the camera, for a
   * `parts` array already loaded.
   */
  method RenderScaffold(records: seq<PartRecord>, o: Options) returns (scene: Scene, view: Option<View>)
    ensures var parts := Rendered(records, |records|, ExtraTransform(o), o.scaffoldingOnly);
      && scene.rendered == |parts|
      && scene.allCoords == VertexArrays(parts)
      && scene.collections == Drawn(parts, o.highlight)
    ensures view.None? <==> scene.rendered == 0
    ensures view.Some? ==>
      (|Stack(scene.allCoords)| == 8 * scene.rendered
       && view.value == View(BoundingLimits(Stack(scene.allCoords)), CameraView(o.viewX, o.viewY, o.viewZ)))
  {
    var extra := BuildExtraTransform(o);
    scene := RenderParts(records, extra, o);
    if scene.allCoords == [] {
      view := None;
      return;
    }
    StackSize(scene.allCoords);
    var ac := Stack(scene.allCoords);
    view := Some(View(BoundingLimits(ac), CameraView(o.viewX, o.viewY, o.viewZ)));
  }

  // ---------------------------------------------------------------------
  // What the loop promises
  // ---------------------------------------------------------------------

  /** Stacking arrays of eight vertices each gives eight vertices per array. */
  lemma {:induction false} StackSize(arrays: seq<seq<Point>>)
    requires forall k :: 0 <= k < |arrays| ==> |arrays[k]| == 8
    ensures |Stack(arrays)| == 8 * |arrays|
  {
    if arrays != [] {
      StackSize(arrays[..|arrays| - 1]);
    }
  }

  /** The records at positions below `n` that become rendered parts. */
  function RenderingPositions(records: seq<PartRecord>, n: nat, scaffoldingOnly: bool): set<nat>
    requires n <= |records|
  {
    set i: nat | i < n && Renders(records, i, scaffoldingOnly)
  }

  /** The rendered count equals the number of records that both construct and pass the filter. */
  lemma {:induction false} RenderedCount(records: seq<PartRecord>, n: nat, extra: Mat4, scaffoldingOnly: bool)
    requires n <= |records|
    ensures |Rendered(records, n, extra, scaffoldingOnly)| == |RenderingPositions(records, n, scaffoldingOnly)|
  {
    if n > 0 {
      RenderedCount(records, n - 1, extra, scaffoldingOnly);
      PositionsStep(records, n, scaffoldingOnly);
    }
  }

  /** One more record adds its position exactly when it renders. */
  lemma PositionsStep(records: seq<PartRecord>, n: nat, scaffoldingOnly: bool)
    requires 0 < n <= |records|
    ensures var before, now := RenderingPositions(records, n - 1, scaffoldingOnly), RenderingPositions(records, n, scaffoldingOnly);
      && n - 1 !in before
      && now == if Renders(records, n - 1, scaffoldingOnly) then before + {n - 1} else before
  {
    var before, now := RenderingPositions(records, n - 1, scaffoldingOnly), RenderingPositions(records, n, scaffoldingOnly);
    if Renders(records, n - 1, scaffoldingOnly) {
      assert now == before + {n - 1};
    } else {
      assert now == before;
    }
  }

  /**
   * A record that is skipped adds no vertices: the pool holds eight
   * vertices per rendering record and nothing else.
   */
  lemma PoolSize(records: seq<PartRecord>, n: nat, extra: Mat4, scaffoldingOnly: bool)
    requires n <= |records|
    ensures |Stack(VertexArrays(Rendered(records, n, extra, scaffoldingOnly)))|
         == 8 * |RenderingPositions(records, n, scaffoldingOnly)|
  {
    var parts := Rendered(records, n, extra, scaffoldingOnly);
    var arrays := VertexArrays(parts);
    forall k | 0 <= k < |arrays|
      ensures |arrays[k]| == 8
    {
      assert parts[k] in parts;
    }
    StackSize(arrays);
    RenderedCount(records, n, extra, scaffoldingOnly);
  }

  /** The vertex pool is empty exactly when no record renders. */
  lemma PoolEmptyIffNothingRendered(records: seq<PartRecord>, extra: Mat4, scaffoldingOnly: bool)
    ensures var parts := Rendered(records, |records|, extra, scaffoldingOnly);
      Stack(VertexArrays(parts)) == [] <==> forall i :: 0 <= i < |records| ==> !Renders(records, i, scaffoldingOnly)
  {
    var n := |records|;
    PoolSize(records, n, extra, scaffoldingOnly);
    var positions := RenderingPositions(records, n, scaffoldingOnly);
    if exists i :: 0 <= i < n && Renders(records, i, scaffoldingOnly) {
      var i :| 0 <= i < n && Renders(records, i, scaffoldingOnly);
      assert i in positions;
    }
  }

  /** Every rendered part is the part some record at a rendering position constructs. */
  lemma {:induction false} RenderedComeFromRecords(records: seq<PartRecord>, n: nat, extra: Mat4, scaffoldingOnly: bool, k: nat)
    requires n <= |records|
    requires k < |Rendered(records, n, extra, scaffoldingOnly)|
    ensures exists i :: (0 <= i < n && Renders(records, i, scaffoldingOnly)
      && Rendered(records, n, extra, scaffoldingOnly)[k] == NewPart(i, records[i], extra).value)
  {
    var earlier := Rendered(records, n - 1, extra, scaffoldingOnly);
    if k < |earlier| {
      RenderedComeFromRecords(records, n - 1, extra, scaffoldingOnly, k);
      var i :| 0 <= i < n - 1 && Renders(records, i, scaffoldingOnly)
        && earlier[k] == NewPart(i, records[i], extra).value;
      assert Rendered(records, n, extra, scaffoldingOnly)[k] == earlier[k];
    } else {
      assert Renders(records, n - 1, scaffoldingOnly);
    }
  }

  /**
   * With the filter on, records named "A", "ScaffoldingBox1" and
   * "ScaffoldingBox2", each with a well-formed `ecsBox`, render two parts;
   * with the filter off, all three.
   */
  lemma ScaffoldingFilterExample(flat: seq<real>, extra: Mat4)
    requires |flat| == 16
    ensures var records := [
        PartRecord(Some("A"), None, None, None, Some(flat)),
        PartRecord(Some("ScaffoldingBox1"), None, None, None, Some(flat)),
        PartRecord(Some("ScaffoldingBox2"), None, None, None, Some(flat))];
      |Rendered(records, 3, extra, true)| == 2 && |Rendered(records, 3, extra, false)| == 3
  {
    var records := [
      PartRecord(Some("A"), None, None, None, Some(flat)),
      PartRecord(Some("ScaffoldingBox1"), None, None, None, Some(flat)),
      PartRecord(Some("ScaffoldingBox2"), None, None, None, Some(flat))];
    assert !Contains("A", ScaffoldMarker);
    assert OccursAt("ScaffoldingBox1", ScaffoldMarker, 0);
    assert OccursAt("ScaffoldingBox2", ScaffoldMarker, 0);
    assert !Renders(records, 0, true) && Renders(records, 1, true) && Renders(records, 2, true);
    assert |Rendered(records, 1, extra, true)| == 0;
    assert |Rendered(records, 2, extra, true)| == 1;
    assert Renders(records, 0, false) && Renders(records, 1, false) && Renders(records, 2, false);
    assert |Rendered(records, 1, extra, false)| == 1;
    assert |Rendered(records, 2, extra, false)| == 2;
  }

  /** The parts rendered from a shorter prefix of the records come first among those of a longer one. */
  lemma {:induction false} RenderedGrows(records: seq<PartRecord>, i: nat, n: nat, extra: Mat4, scaffoldingOnly: bool)
    requires i <= n <= |records|
    ensures Rendered(records, i, extra, scaffoldingOnly) <= Rendered(records, n, extra, scaffoldingOnly)
  {
    if i < n {
      RenderedGrows(records, i, n - 1, extra, scaffoldingOnly);
    }
  }

  /**
   * With `-b`, a record whose name contains "ScaffoldingBox" and whose
   * `ecsBox` holds 16 values renders: its part is among the parts drawn.
   */
  lemma ScaffoldRecordRenders(records: seq<PartRecord>, i: nat, extra: Mat4)
    requires i < |records|
    requires records[i].ecsBox.Some? && |records[i].ecsBox.value| == 16
    requires Contains(PartName(i, records[i]), ScaffoldMarker)
    ensures NewPart(i, records[i], extra).Ok?
    ensures NewPart(i, records[i], extra).value in Rendered(records, |records|, extra, true)
  {
    var part := NewPart(i, records[i], extra).value;
    assert Rendered(records, i + 1, extra, true) == Rendered(records, i, extra, true) + [part];
    RenderedGrows(records, i + 1, |records|, extra, true);
    assert part in Rendered(records, i + 1, extra, true);
  }

  /** A record whose `ecsBox` does not hold 16 values is skipped: the count does not include it. */
  lemma MalformedRecordSkipped(records: seq<PartRecord>, i: nat, extra: Mat4, scaffoldingOnly: bool)
    requires i < |records|
    requires records[i].ecsBox.None? || |records[i].ecsBox.value| != 16
    ensures Rendered(records, i + 1, extra, scaffoldingOnly) == Rendered(records, i, extra, scaffoldingOnly)
    ensures i !in RenderingPositions(records, |records|, scaffoldingOnly)
  {
  }
}
