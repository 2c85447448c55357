/**
 * The `Part` class of render.py: defaults for the name and the dimensions,
 * the column-major reading of the flat `ecsBox`, the eight transformed
 * corner vertices and the six faces built from them. A Python `Part` is
 * never changed after `__init__`, so it is a datatype here and its
 * construction a function that either yields the part or the error the
 * constructor raises.
 */
module Parts {
  import opened Wrappers
  import opened Transforms

  /** A world-space vertex: the first three coordinates of a transformed homogeneous point. */
  datatype Point = Point(x: real, y: real, z: real)

  /** One element of the input's `parts` array; `None` is an absent key. */
  datatype PartRecord = PartRecord(
    name: Option<string>,
    width: Option<real>,
    depth: Option<real>,
    height: Option<real>,
    ecsBox: Option<seq<real>>)

  /** Why the `ecsBox` could not be read: the key is absent, or its values do not fill a 4x4 matrix. */
  datatype EcsProblem = MissingKey | CannotReshape(size: nat)

  /** The `ValueError` raised by the constructor; it names the part. */
  datatype PartError = InvalidEcsBox(partName: string, cause: EcsProblem)

  datatype Part = Part(
    name: string,
    width: real,
    depth: real,
    height: real,
    ecs: Mat4,
    extra: Mat4,
    vertices: seq<Point>)

  // ---------------------------------------------------------------------
  // Names and dimensions
  // ---------------------------------------------------------------------

  function DigitChar(d: nat): (ch: char)
    requires d < 10
    ensures '0' <= ch <= '9'
  {
    "0123456789"[d]
  }

  predicate AllDigits(s: string) {
    forall k :: 0 <= k < |s| ==> '0' <= s[k] <= '9'
  }

  /** The decimal spelling of `n`, as Python's f-string writes an `int`. */
  function Decimal(n: nat): (s: string)
    ensures |s| >= 1 && AllDigits(s)
    ensures |s| > 1 ==> s[0] != '0'
  {
    if n < 10 then [DigitChar(n)] else Decimal(n / 10) + [DigitChar(n % 10)]
  }

  /** The number a string of decimal digits spells. */
  function DecimalValue(s: string): nat
    requires AllDigits(s)
  {
    if s == [] then 0 else 10 * DecimalValue(s[..|s| - 1]) + (s[|s| - 1] as int - '0' as int)
  }

  lemma {:induction false} DecimalRoundTrip(n: nat)
    ensures DecimalValue(Decimal(n)) == n
  {
    if n >= 10 {
      DecimalRoundTrip(n / 10);
      var s := Decimal(n);
      assert s[..|s| - 1] == Decimal(n / 10);
    }
  }

  /** The name given to the part at `index` whose record has no `name`: "Part" followed by the index in decimal. */
  function DefaultName(index: nat): (n: string)
    ensures |n| > 4 && n[..4] == "Part" && AllDigits(n[4..]) && DecimalValue(n[4..]) == index
    ensures |n| > 5 ==> n[4] != '0'
  {
    DecimalRoundTrip(index);
    var n := "Part" + Decimal(index);
    assert n[4..] == Decimal(index);
    n
  }

  /** Two records at different positions without a name never get the same default name. */
  lemma DefaultNamesDistinct(i: nat, j: nat)
    requires i != j
    ensures DefaultName(i) != DefaultName(j)
  {
  }

  /** `part_data.get("name", f"Part{index}")`. */
  function PartName(index: nat, rec: PartRecord): (n: string)
    ensures rec.name.Some? ==> n == rec.name.value
    ensures rec.name.None? ==>
      && |n| > 4 && n[..4] == "Part" && AllDigits(n[4..]) && DecimalValue(n[4..]) == index
      && (|n| > 5 ==> n[4] != '0')
  {
    if rec.name.Some? then rec.name.value else DefaultName(index)
  }

  /** A width, depth or height: the given value, or 1.0 when the key is absent. */
  function Dimension(given: Option<real>): (d: real)
    ensures given.Some? ==> d == given.value
    ensures given.None? ==> d == 1.0
  {
    if given.Some? then given.value else 1.0
  }

  // ---------------------------------------------------------------------
  // The ecsBox matrix
  // ---------------------------------------------------------------------

  /** `np.array(flat).reshape((4, 4), order="F")`: the values fill the columns one after another. */
  function ReshapeColumnMajor(flat: seq<real>): (m: Mat4)
    requires |flat| == 16
    ensures forall r, c :: 0 <= r < 4 && 0 <= c < 4 ==> m[r][c] == flat[4 * c + r]
  {
    [[flat[0], flat[4], flat[8], flat[12]],
     [flat[1], flat[5], flat[9], flat[13]],
     [flat[2], flat[6], flat[10], flat[14]],
     [flat[3], flat[7], flat[11], flat[15]]]
  }

  /** The inverse reading: a matrix written out column after column. */
  function FlattenColumnMajor(m: Mat4): (flat: seq<real>)
    ensures |flat| == 16
  {
    [m[0][0], m[1][0], m[2][0], m[3][0],
     m[0][1], m[1][1], m[2][1], m[3][1],
     m[0][2], m[1][2], m[2][2], m[3][2],
     m[0][3], m[1][3], m[2][3], m[3][3]]
  }

  lemma ReshapeFlattenRoundTrip(m: Mat4)
    ensures ReshapeColumnMajor(FlattenColumnMajor(m)) == m
  {
    MatExt(ReshapeColumnMajor(FlattenColumnMajor(m)), m);
  }

  lemma FlattenReshapeRoundTrip(flat: seq<real>)
    requires |flat| == 16
    ensures FlattenColumnMajor(ReshapeColumnMajor(flat)) == flat
  {
  }

  /**
   * A translation stored column-major keeps its offsets in the last four
   * values: the flat `ecsBox` of a part moved by (tx, ty, tz).
   */
  lemma TranslationEcsBox(tx: real, ty: real, tz: real)
    ensures ReshapeColumnMajor([1.0, 0.0, 0.0, 0.0, 0.0, 1.0, 0.0, 0.0, 0.0, 0.0, 1.0, 0.0, tx, ty, tz, 1.0])
         == Translation(tx, ty, tz)
  {
  }

  // ---------------------------------------------------------------------
  // Vertices and faces
  // ---------------------------------------------------------------------

  /** The eight local corners (x, y, z, 1) of a w x d x h box centred at the origin: bottom four, then top four. */
  function Corners(w: real, d: real, h: real): (cs: seq<Vec4>)
    ensures |cs| == 8
    ensures forall i :: 0 <= i < 4 ==>
      cs[i] == Point4(if i == 1 || i == 2 then w / 2.0 else -w / 2.0, if i < 2 then -d / 2.0 else d / 2.0, -h / 2.0)
    ensures forall i :: 0 <= i < 4 ==> cs[i + 4] == cs[i][2 := h / 2.0]
  {
    var hw, hd, hh := w / 2.0, d / 2.0, h / 2.0;
    [Point4(-hw, -hd, -hh), Point4(hw, -hd, -hh), Point4(hw, hd, -hh), Point4(-hw, hd, -hh),
     Point4(-hw, -hd, hh), Point4(hw, -hd, hh), Point4(hw, hd, hh), Point4(-hw, hd, hh)]
  }

  /** Drops the homogeneous coordinate; no division by it takes place. */
  function ToPoint(v: Vec4): Point {
    Point(v[0], v[1], v[2])
  }

  /** `_calculate_vertices`: every corner multiplied by the product `ecs @ extra`. */
  function Vertices(ecs: Mat4, extra: Mat4, w: real, d: real, h: real): (vs: seq<Point>)
    ensures |vs| == 8
    ensures forall i :: 0 <= i < 8 ==> vs[i] == ToPoint(Apply(MatMul(ecs, extra), Corners(w, d, h)[i]))
    ensures forall i {:trigger Apply(extra, Corners(w, d, h)[i])} :: 0 <= i < 8 ==>
      vs[i] == ToPoint(Apply(ecs, Apply(extra, Corners(w, d, h)[i])))
  {
    var m, cs := MatMul(ecs, extra), Corners(w, d, h);
    ApplyMatMulAll(ecs, extra, cs);
    [ToPoint(Apply(m, cs[0])), ToPoint(Apply(m, cs[1])), ToPoint(Apply(m, cs[2])), ToPoint(Apply(m, cs[3])),
     ToPoint(Apply(m, cs[4])), ToPoint(Apply(m, cs[5])), ToPoint(Apply(m, cs[6])), ToPoint(Apply(m, cs[7]))]
  }

  /** `ecs @ extra` applied to each of a list of points applies `extra` first and `ecs` second. */
  lemma ApplyMatMulAll(ecs: Mat4, extra: Mat4, cs: seq<Vec4>)
    ensures forall i :: 0 <= i < |cs| ==> Apply(MatMul(ecs, extra), cs[i]) == Apply(ecs, Apply(extra, cs[i]))
  {
    forall i | 0 <= i < |cs| {
      ApplyMatMul(ecs, extra, cs[i]);
    }
  }

  /**
   * With both transforms the identity, the vertices are the corners
   * (+-w/2, +-d/2, +-h/2) in the fixed order, and each top corner is the
   * bottom corner below it with z negated.
   */
  lemma VerticesUnderIdentity(w: real, d: real, h: real)
    ensures Vertices(Identity(), Identity(), w, d, h) ==
      [Point(-w / 2.0, -d / 2.0, -h / 2.0), Point(w / 2.0, -d / 2.0, -h / 2.0),
       Point(w / 2.0, d / 2.0, -h / 2.0), Point(-w / 2.0, d / 2.0, -h / 2.0),
       Point(-w / 2.0, -d / 2.0, h / 2.0), Point(w / 2.0, -d / 2.0, h / 2.0),
       Point(w / 2.0, d / 2.0, h / 2.0), Point(-w / 2.0, d / 2.0, h / 2.0)]
    ensures var vs := Vertices(Identity(), Identity(), w, d, h);
      forall i :: 0 <= i < 4 ==> vs[i + 4] == vs[i].(z := -vs[i].z)
  {
    IdentityRight(Identity());
    var cs := Corners(w, d, h);
    forall i | 0 <= i < 8
      ensures Apply(Identity(), cs[i]) == cs[i]
    {
      ApplyIdentity(cs[i]);
    }
  }

  /**
   * For any transforms, each top vertex lies `h` along the combined
   * matrix's third column from the bottom vertex below it: the four
   * vertical edges are parallel and of the same length.
   */
  lemma TopAboveBottom(ecs: Mat4, extra: Mat4, w: real, d: real, h: real, i: nat)
    requires i < 4
    ensures var m, vs := MatMul(ecs, extra), Vertices(ecs, extra, w, d, h);
      vs[i + 4] == Point(vs[i].x + h * m[0][2], vs[i].y + h * m[1][2], vs[i].z + h * m[2][2])
  {
    var m, cs := MatMul(ecs, extra), Corners(w, d, h);
    assert cs[i + 4] == [cs[i][0], cs[i][1], h / 2.0, cs[i][3]];
    LiftStep(m, cs[i], cs[i + 4], h);
  }

  /** The image of a corner raised from z = -h/2 to z = h/2 moves by h times the third column. */
  lemma LiftStep(m: Mat4, lo: Vec4, hi: Vec4, h: real)
    requires hi == [lo[0], lo[1], h / 2.0, lo[3]] && lo[2] == -h / 2.0
    ensures var a, b := ToPoint(Apply(m, lo)), ToPoint(Apply(m, hi));
      b == Point(a.x + h * m[0][2], a.y + h * m[1][2], a.z + h * m[2][2])
  {
    RowStep(m, lo, hi, h, 0);
    RowStep(m, lo, hi, h, 1);
    RowStep(m, lo, hi, h, 2);
  }

  /** Raising a point from z = -h/2 to z = h/2 moves its image by h times the third column. */
  lemma RowStep(m: Mat4, lo: Vec4, hi: Vec4, h: real, r: nat)
    requires r < 4
    requires hi == [lo[0], lo[1], h / 2.0, lo[3]] && lo[2] == -h / 2.0
    ensures RowTimes(m, hi, r) == RowTimes(m, lo, r) + h * m[r][2]
  {
    var rest := m[r][0] * lo[0] + m[r][1] * lo[1] + m[r][3] * lo[3];
    HalfStep(rest, m[r][2], h);
  }

  lemma HalfStep(rest: real, a: real, h: real)
    ensures rest + a * (h / 2.0) == rest + a * (-h / 2.0) + h * a
  {
  }

  /** The vertex indices of the six faces: bottom, top, then the four sides. */
  const FaceIndices: seq<seq<nat>> :=
    [[0, 1, 2, 3], [4, 5, 6, 7], [0, 1, 5, 4], [1, 2, 6, 5], [2, 3, 7, 6], [3, 0, 4, 7]]

  /** `get_faces`: six quadrilaterals of vertices. */
  function Faces(v: seq<Point>): (faces: seq<seq<Point>>)
    requires |v| == 8
    ensures |faces| == |FaceIndices| == 6
    ensures forall f :: 0 <= f < 6 ==> |faces[f]| == |FaceIndices[f]| == 4
    ensures forall f, k :: 0 <= f < 6 && 0 <= k < 4 ==> faces[f][k] == v[FaceIndices[f][k]]
  {
    [[v[0], v[1], v[2], v[3]],
     [v[4], v[5], v[6], v[7]],
     [v[0], v[1], v[5], v[4]],
     [v[1], v[2], v[6], v[5]],
     [v[2], v[3], v[7], v[6]],
     [v[3], v[0], v[4], v[7]]]
  }

  function Hit(b: bool): nat {
    if b then 1 else 0
  }

  /** How many of the six faces have vertex `k` as a corner. */
  function FacesWith(k: nat): nat {
    Hit(k in FaceIndices[0]) + Hit(k in FaceIndices[1]) + Hit(k in FaceIndices[2])
      + Hit(k in FaceIndices[3]) + Hit(k in FaceIndices[4]) + Hit(k in FaceIndices[5])
  }

  predicate Joins(p: nat, q: nat, a: nat, b: nat) {
    (p == a && q == b) || (p == b && q == a)
  }

  /** The quad `g` runs g[0], g[1], g[2], g[3] and back to g[0]; `a`-`b` is one of its edges. */
  predicate HasEdge(g: seq<nat>, a: nat, b: nat)
    requires |g| == 4
  {
    Joins(g[0], g[1], a, b) || Joins(g[1], g[2], a, b) || Joins(g[2], g[3], a, b) || Joins(g[3], g[0], a, b)
  }

  /** How many of the six faces have the edge `a`-`b`. */
  function FacesWithEdge(a: nat, b: nat): nat {
    Hit(HasEdge(FaceIndices[0], a, b)) + Hit(HasEdge(FaceIndices[1], a, b)) + Hit(HasEdge(FaceIndices[2], a, b))
      + Hit(HasEdge(FaceIndices[3], a, b)) + Hit(HasEdge(FaceIndices[4], a, b)) + Hit(HasEdge(FaceIndices[5], a, b))
  }

  /** Four distinct vertex indices, each naming one of the eight vertices. */
  predicate ProperQuad(g: seq<nat>) {
    && |g| == 4
    && g[0] < 8 && g[1] < 8 && g[2] < 8 && g[3] < 8
    && g[0] != g[1] && g[0] != g[2] && g[0] != g[3] && g[1] != g[2] && g[1] != g[3] && g[2] != g[3]
  }

  /** Every face has four distinct corners, and every vertex is a corner of exactly three faces. */
  lemma EachVertexInThreeFaces()
    ensures forall f :: 0 <= f < 6 ==> ProperQuad(FaceIndices[f])
    ensures forall k :: 0 <= k < 8 ==> FacesWith(k) == 3
  {
  }

  /** Each of the four edges of quad `g` is an edge of exactly two of the six faces. */
  predicate EdgesShared(g: seq<nat>)
    requires |g| == 4
  {
    FacesWithEdge(g[0], g[1]) == 2 && FacesWithEdge(g[1], g[2]) == 2
      && FacesWithEdge(g[2], g[3]) == 2 && FacesWithEdge(g[3], g[0]) == 2
  }

  /** Every edge of every face is an edge of exactly two faces: the six quads close up the box. */
  lemma EachEdgeInTwoFaces()
    ensures forall f :: 0 <= f < 6 ==> |FaceIndices[f]| == 4 && EdgesShared(FaceIndices[f])
  {
    assert EdgesShared(FaceIndices[0]);
    assert EdgesShared(FaceIndices[1]);
    assert EdgesShared(FaceIndices[2]);
    assert EdgesShared(FaceIndices[3]);
    assert EdgesShared(FaceIndices[4]);
    assert EdgesShared(FaceIndices[5]);
  }

  // ---------------------------------------------------------------------
  // Construction
  // ---------------------------------------------------------------------

  /**
   * `Part(index, part_data, T_extra)`: the part, or the error naming it
   * when `ecsBox` is absent or does not hold exactly 16 values.
   */
  function NewPart(index: nat, rec: PartRecord, extra: Mat4): (r: Result<Part, PartError>)
    ensures r.Ok? <==> rec.ecsBox.Some? && |rec.ecsBox.value| == 16
    ensures r.Err? ==> r.error.partName == PartName(index, rec)
    ensures r.Err? ==> (r.error.cause == MissingKey <==> rec.ecsBox.None?)
    ensures r.Ok? ==> var p := r.value;
      && p.name == PartName(index, rec)
      && p.width == Dimension(rec.width) && p.depth == Dimension(rec.depth) && p.height == Dimension(rec.height)
      && (forall i, j :: 0 <= i < 4 && 0 <= j < 4 ==> p.ecs[i][j] == rec.ecsBox.value[4 * j + i])
      && p.extra == extra
      && p.vertices == Vertices(p.ecs, extra, p.width, p.depth, p.height)
  {
    var name := PartName(index, rec);
    var w, d, h := Dimension(rec.width), Dimension(rec.depth), Dimension(rec.height);
    if rec.ecsBox.None? then
      Err(InvalidEcsBox(name, MissingKey))
    else if |rec.ecsBox.value| != 16 then
      Err(InvalidEcsBox(name, CannotReshape(|rec.ecsBox.value|)))
    else
      var ecs := ReshapeColumnMajor(rec.ecsBox.value);
      Ok(Part(name, w, d, h, ecs, extra, Vertices(ecs, extra, w, d, h)))
  }
}
