# render.py scaffold renderer — a Dafny model of its geometry and part loop

`render.py` reads a JSON document whose `parts` array describes box-shaped
parts. It renders each part as a cuboid in a 3D matplotlib plot. This
project models the computational core of the script:

- **Transforms** (`transforms.dfy`): 4x4 matrices over `real`,
  the translation and z-rotation builders, matrix product and
  matrix–vector application, with their algebra (inverses, identity laws,
  associativity of application, rotation keeping the radius).
- **Parts** (`parts.dfy`): the `Part` class. It covers:
  - the default name `Part<i>` and the default dimensions of 1.0;
  - reading the flat `ecsBox` in column-major order;
  - the error raised when `ecsBox` is missing or does not hold 16 values;
  - the eight vertices `ecs @ T_extra` applied to the local corners;
  - the six faces of `get_faces`.

  A Python `Part` never changes after `__init__`, so it is a datatype. Its
  constructor is a function returning `Result<Part, PartError>`.
- **Views** (`views.dfy`): the axis limits `render_scaffold` sets. Each axis
  is centred on the mean of the stacked vertices, and every axis has the
  same half-extent: half the largest per-axis peak-to-peak range. It also
  covers the camera overrides of `-vx`, `-vy` and `-vz`, applied in that
  order.
- **Scenes** (`scenes.dfy`): `render_scaffold` from the global extra
  transform to the camera. It covers:
  - building `T_extra` (an imperative method);
  - the `for` loop over the records (an imperative method with loop
    invariants), which skips records whose construction fails or that the
    `-b` filter rejects;
  - for each record that is kept, collecting its vertex array, picking its
    style and counting it.

  The loop is proved against a specification function `Rendered` on the
  records, and the loop's properties are lemmas about that function.

The model follows the code where the code and its comments disagree. The
comment at `render.py:68` says the ECS is applied first. The code computes
`ecs @ T_extra`, and that matrix left-multiplies the local corners, so
`T_extra` acts on a corner first and `ecs` second.
The contract of `Parts.Vertices` states this order.

## Model

| member | source | states |
|---|---|---|
| Transforms.Identity | render.py:15 | every entry (i, j) is 1 on the diagonal and 0 elsewhere, the matrix `np.eye(4)` |
| Transforms.MatMul | render.py:69 | the product `a @ b` of two affine matrices (bottom row 0, 0, 0, 1) is again affine |
| Transforms.Apply | render.py:73 | an affine matrix keeps the homogeneous coordinate w of the point it is applied to, so a point with w = 1 stays one and `[:3]` drops only that 1 |
| Transforms.Translation | render.py:13-17 | the identity everywhere except the top three entries of the last column, which hold tx, ty, tz |
| Transforms.TranslationMovesPoint | render.py:13-17 | the matrix moves the homogeneous point (x, y, z, 1) to (x+tx, y+ty, z+tz, 1) |
| Transforms.TranslationInverse | render.py:13-17 | translating by (tx, ty, tz) and then by (-tx, -ty, -tz) gives the identity |
| Transforms.RotationZ | render.py:19-28 | the identity outside the top-left 2x2 block, which is [[c, -s], [s, c]] |
| Transforms.RotationZKeepsZW | render.py:19-28 | the rotation keeps z and w and maps x, y to c·x - s·y and s·x + c·y |
| Transforms.RotationZInverse | render.py:19-28 | for c² + s² = 1, the rotation by (c, -s) undoes the rotation by (c, s) |
| Transforms.RotationZKeepsRadius | render.py:19-28 | for c² + s² = 1, the distance from the z axis is unchanged |
| Transforms.RotationZQuarterTurn | render.py:19-28 | a 90° turn (c = 0, s = 1) sends the x axis to the y axis |
| Transforms.IdentityLeft | render.py:15 | the identity (`np.eye(4)`) is a left unit of the matrix product |
| Transforms.IdentityRight | render.py:15 | the identity is a right unit of the matrix product |
| Transforms.ApplyIdentity | render.py:15 | the identity leaves every homogeneous point unchanged |
| Transforms.ApplyMatMul | render.py:69-73 | applying a product a·b to a point applies b first and a second |
| Parts.Decimal | render.py:39 | the index is written as a non-empty string of digits with no leading zero |
| Parts.DecimalRoundTrip | render.py:39 | reading the digits back gives the index |
| Parts.DefaultName | render.py:39 | the default name is "Part" followed by a digit string that reads back as the index, with no leading zero ("Part7", never "Part07") |
| Parts.PartName | render.py:39 | the record's own name when it has one; otherwise "Part" followed by the index in decimal, with no leading zero |
| Parts.Dimension | render.py:40-42 | the given width, depth or height, or 1.0 when the key is absent |
| Parts.DefaultNamesDistinct | render.py:39 | different indices give different default names `Part<i>` |
| Parts.ReshapeColumnMajor | render.py:48 | entry (r, c) of the matrix is element 4c + r of the flat `ecsBox` |
| Parts.ReshapeFlattenRoundTrip | render.py:48 | reshaping a matrix written out column by column gives the matrix back |
| Parts.FlattenReshapeRoundTrip | render.py:48 | writing out a reshaped 16-element array gives the array back |
| Parts.TranslationEcsBox | render.py:48 | a flat `ecsBox` whose last column holds (tx, ty, tz, 1) is the translation by (tx, ty, tz) |
| Parts.NewPart | render.py:38-53 | a part exists exactly when `ecsBox` is present with 16 values. The error names the part, and its cause is the missing key exactly when the key is absent. A part has the given or default name and dimensions, the column-major `ecs`, the extra transform, and the vertices of `_calculate_vertices` |
| Parts.Corners | render.py:60-66 | the eight local corners (x, y, z, 1): the bottom four at z = -h/2 run (-w/2, -d/2), (w/2, -d/2), (w/2, d/2), (-w/2, d/2), and each top corner is the bottom one with z = h/2 |
| Parts.Vertices | render.py:55-73 | eight vertices; vertex i is local corner i transformed by `ecs @ T_extra`, which is the same as `T_extra` first and `ecs` second, with the homogeneous coordinate dropped |
| Parts.LiftStep | render.py:63-73 | raising a corner from z = -h/2 to z = h/2 moves its image by h times the matrix's third column |
| Parts.VerticesUnderIdentity | render.py:55-73 | with identity transforms the vertices are the eight corners (±w/2, ±d/2, ±h/2) in the source's order, and each top vertex is the bottom one with z negated |
| Parts.TopAboveBottom | render.py:55-73 | for any transforms, top vertex i+4 lies h times the combined matrix's third column away from bottom vertex i |
| Parts.Faces | render.py:75-87 | six faces of four vertices each; corner k of face f is vertex FaceIndices[f][k] (bottom, top, four sides) |
| Parts.EachVertexInThreeFaces | render.py:79-86 | every face has four distinct vertex indices below 8, and every vertex is a corner of exactly three faces |
| Parts.EachEdgeInTwoFaces | render.py:79-86 | every edge of every face is an edge of exactly two faces, so the six quads close up the box |
| Views.Column | render.py:180 | `ac[:, a]`: the pool's coordinates along one axis, in order |
| Views.Min | render.py:180 | the minimum is an element and bounds every element from below |
| Views.Max | render.py:180 | the maximum is an element and bounds every element from above |
| Views.Span | render.py:180 | `np.ptp` is never negative |
| Views.Mean | render.py:181 | the mean of a non-empty column lies between its minimum and maximum |
| Views.Max3 | render.py:180 | the largest of three values is one of them and at least each of them |
| Views.LargestSpan | render.py:180 | `max(ptp x, ptp y, ptp z)`: at least the span of every axis, and equal to the span of one of them |
| Views.BoundingLimits | render.py:180-185 | each axis is centred on the mean of the pool along it. All three axes share one width, the largest span, which is at least the span of each axis |
| Views.BoundingCentreWithinPool | render.py:181-185 | the centre of the limits lies within the range the pool spans on each axis |
| Views.UnitCubeIsPartVertices | render.py:55-73 | a unit part whose `ecsBox` translates it by (cx, 0, 0) has the vertices of the unit cube at cx |
| Views.ThreeCubesMeanX | render.py:181 | the mean x of the pool for cubes at 0, 0 and far is far/3 |
| Views.ThreeCubesLargestSpan | render.py:180 | the largest span of that pool is at most far + 1 |
| Views.BoundingLimitsMissVertex | render.py:180-185 | for far > 6, a vertex of the third cube lies outside the limits render.py sets, and inside the midpoint-centred limits |
| Views.MidpointLimits | render.py:180-185 | corrected limits: the same width on all three axes, the largest span |
| Views.MidpointLimitsHoldPool | render.py:180-185 | every vertex of the pool lies inside the midpoint-centred limits |
| Views.CameraView | render.py:189-191 | the last true flag decides the camera (elevation, azimuth): `-vx` gives (0, 0), `-vy` gives (0, 90), `-vz` gives (90, 0), and a later flag overrides an earlier one (Z over Y over X); there is no override exactly when no flag is set |
| Scenes.Contains | render.py:143 | Python's `needle in hay`: true only when the needle is no longer than the name, always true for the empty needle, and true for a prefix |
| Scenes.Highlighted | render.py:152 | never true without a `-H` value or with an empty one; when true, the highlight is non-empty and no longer than the name |
| Scenes.EmptyHighlightIgnored | render.py:152-158 | with `-H ""` the empty string occurs in the name, yet no part gets the highlight style; each part gets its scaffold or generic style |
| Scenes.StyleFor | render.py:149-158 | the highlight style applies exactly when a non-empty highlight occurs in the name. Otherwise the style is skyblue exactly when the name contains "ScaffoldingBox", and darkred exactly when it does not |
| Scenes.ExtraTransform | render.py:120-127 | `T_extra` always equals Translation(tx, ty, tz) times the rotation part, so skipping zero offsets changes nothing; without `-rz` it is the translation alone |
| Scenes.BuildExtraTransform | render.py:120-127 | `T_extra` is Translation(tx, ty, tz)·RotationZ when both are given, and the identity when neither is |
| Scenes.ExtraTransformDefault | render.py:120-127 | with no angle and zero offsets, `T_extra` is the identity |
| Scenes.ExtraRotatesThenTranslates | render.py:121-127 | `T_extra` rotates a point first and translates it second |
| Scenes.Rendered | render.py:134-147 | at most one part per record; every part has eight vertices, and with `-b` every part's name contains "ScaffoldingBox" |
| Scenes.Drawn | render.py:149-167 | one collection per rendered part; collection k holds the faces of part k and the style its name and the highlight select |
| Scenes.VertexArrays | render.py:147 | `all_coords` holds each rendered part's vertex array, in order |
| Scenes.RenderParts | render.py:130-169 | the count, `all_coords` and the collections drawn are those of the parts of the records that construct and pass the filter, in input order |
| Scenes.RenderScaffold | render.py:120-191 | as RenderParts, with `T_extra` built from the options. The view is absent exactly when no part was rendered. Otherwise the stacked pool holds eight vertices per part, and the view is the mean-centred limits and the camera override |
| Scenes.Stack | render.py:177 | `np.vstack`: a vertex is in the pool exactly when it is in one of the arrays |
| Scenes.StackSize | render.py:177 | stacking arrays of eight vertices gives eight vertices per array |
| Scenes.RenderedCount | render.py:130-169 | `parts_rendered` equals the number of records that construct and pass the filter |
| Scenes.PositionsStep | render.py:134-144 | one more record adds its position to the rendering positions exactly when it renders |
| Scenes.PoolSize | render.py:134-177 | skipped records add no vertices: the pool holds eight vertices per rendering record |
| Scenes.PoolEmptyIffNothingRendered | render.py:172-174 | the pool is empty exactly when no record renders, which is when "No parts rendered." stops the function |
| Scenes.RenderedComeFromRecords | render.py:134-147 | every rendered part is the part constructed from some rendering record |
| Scenes.RenderedStep | render.py:134-147 | record i renders exactly when its construction succeeds and the filter passes its name; the rendered parts grow by that part exactly then |
| Scenes.RenderedGrows | render.py:134-147 | the parts rendered from a prefix of the records come first among those from a longer prefix |
| Scenes.ScaffoldRecordRenders | render.py:137-147 | with `-b`, a record with a 16-value `ecsBox` whose name contains "ScaffoldingBox" constructs, and its part is among those rendered |
| Scenes.ScaffoldingFilterExample | render.py:142-144 | records "A", "ScaffoldingBox1" and "ScaffoldingBox2" render two parts with `-b` and three without it |
| Scenes.MalformedRecordSkipped | render.py:135-140 | a record whose `ecsBox` is missing or not 16 values adds nothing and is not a rendering position |

## Left out

- Loading the JSON file, the fatal exits for an unreadable file or a missing `parts` array (render.py:96-107), the output file (render.py:200-205), `parse_args` and the `__main__` block: these are I/O. The model starts from the decoded `parts` records.
- The matplotlib calls (figure, axes, labels, title, projection type, `add_collection3d`, `set_box_aspect`, `plt.show`): these are display side effects. What the model keeps of each collection is its faces and its style. It keeps the limits and the camera as values.
- The timing (`-p`) and the printed messages: the clock and the console are not modelled.
- Transforms.RotationZ: takes the cosine and sine of the `-rz` angle as parameters, because `np.radians`, `np.cos` and `np.sin` are floating-point library calls. Floating-point rounding is not modelled either: all arithmetic is on `real`.
- Parts.NewPart: `ecsBox` is modelled as a flat sequence of numbers. It does not model non-numeric entries, nested lists that numpy also reshapes to 4x4, other JSON value types for `ecsBox`, or a present `name` that is `null` or not a string.
- Parts.NewPart: a present `width`, `depth` or `height` that is `null` or not a number is not modelled, because a dimension is a `real` or absent. In the source it raises `TypeError` in `_calculate_vertices` (render.py:60, reached from line 53 outside the `try`). The loop catches only `ValueError` (render.py:138), so the whole run stops.
- Scenes.RenderParts: an element of `parts` that is not a JSON object is not modelled, because every record is a `PartRecord`. In the source, `part_data.get` raises `AttributeError` (render.py:39), which the loop does not catch, so the whole run stops.
- Parts.NewPart: width, depth and height are taken as given, because the code does not check that they are positive.

## Findings

| source | as written | input that shows it | evidently intended | confidence | as-written member | corrected member |
|---|---|---|---|---|---|---|
| render.py:180-185 | the limits are centred on the mean of all vertices, with half-extent half the largest span | three unit parts translated to x = 0, 0 and 10: the mean x is 10/3 and the half-extent 5.5, so the x limit ends at 8.83 and the third box (x from 9.5 to 10.5) lies outside the plot | the bounds should contain every rendered vertex: centre each axis on the middle of its range (min + max)/2 | medium; not executed | Views.BoundingLimitsMissVertex | Views.MidpointLimitsHoldPool |

`Scenes.RenderScaffold` keeps the mean-centred limits the script sets.
`Views.MidpointLimits` is the corrected definition, and
`Views.MidpointLimitsHoldPool` proves that it contains every vertex.
