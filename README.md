# Quaternion bounds: a verified model

Two scripts draw the "right tetrahedron" picture of quaternion space. Eight
right-corner tetrahedra, one per octant, share a right-angle vertex O at the
origin. They lie inside the cube [-L, L]³, which is their tightest
axis-aligned box. Together they fill the octahedron |x| + |y| + |z| ≤ L
(proved for the script's L = 1):

- The static script builds the eight tetrahedra as a table T1–T8. It draws
  their four faces and prints their geometry.
- The animated script builds the same eight solids with a triple sign loop
  (the "quaternion star"). In every frame it rotates them with a unit
  quaternion made from an axis-angle sequence, and shows that quaternion's
  Euler angles.

This project models:

- the quaternion algebra, the axis-angle construction and the Euler
  conversion with its gimbal-lock clamp;
- the star's construction and face list;
- the rotation sequence and the per-frame update;
- the static table, its panels and its printed claims.

Module by module:

- `Points`: vectors of three reals, with dot product, squared length,
  squared distance, numpy's `sign` and the cube test.
- `RealMath`: numpy's `sin`, `cos`, `sqrt`, `arcsin`, `arctan2` and `pi`,
  passed in as a `Transcendentals` value.
  - Nothing is assumed about these functions except named laws:
    - sin 0 = 0 and cos 0 = 1;
    - sin² + cos² = 1;
    - |sin| ≤ 1;
    - sqrt is the non-negative root;
    - arcsin is defined on [-1, 1].
  - Each lemma's `requires` lists the laws it relies on.
- `Quaternions`:
  - the `Quaternion` class as a value type (the class never changes its
    fields after construction);
  - the Hamilton product, the conjugate and `rotate_point` (the sandwich
    q p q̄);
  - `from_axis_angle` and `to_euler`.
- `StarGeometry`: `tetrahedron_vertices`, `tetrahedron_faces`, and
  `generate_quaternion_star` as a method with its nested loops, proved
  against the function `Star`.
- `Animation`: `create_rotation_sequence` as a method with its loop, the
  cyclic frame lookup `frame % len(rotation_sequence)`, and `update` as a
  method with a loop over the tetrahedra.
  - `update` returns the quaternion, the face lists it hands to the
    artists, and the Euler angles.
- `OctantTable`: the static script's `tetrahedra` dictionary, the
  `plot_tetrahedron` face list, the two panel selections, and the facts the
  script prints.

Three points worth knowing when reading the model:

- `from_axis_angle` gives a unit quaternion for every angle, including 0,
  where it gives the identity. See `Quaternions.FromAxisAngleIsUnit` and
  `Quaternions.FromAxisAngleZero`.
- The static panels are titled by the sign of Z but are selected by key.
  See the row under "## Findings".
- The static script prints that the solids occupy the cube from (-L,-L,-L)
  to (L,L,L). They occupy the octahedron inside it; see the second row
  under "## Findings".

The source files are `Visualisations/Quaternion-Bounds-Visualisation/quaternion-bounds-anim.py`
(the animated script) and `Visualisations/Quaternion-Bounds-Visualisation/quaternion-bounds.py`
(the static script).

## Model

| member | source | states |
|---|---|---|
| Quaternions.Mul | Visualisations/Quaternion-Bounds-Visualisation/quaternion-bounds-anim.py:24-30 | The Hamilton product, with the four component formulas of `__mul__`. Its laws are the lemmas below. |
| Quaternions.Conjugate | Visualisations/Quaternion-Bounds-Visualisation/quaternion-bounds-anim.py:32-33 | The conjugate: the same scalar part and the vector part negated. |
| Quaternions.RotatePoint | Visualisations/Quaternion-Bounds-Visualisation/quaternion-bounds-anim.py:35-39 | The vector part of `(q * (0, p)) * q.conjugate()`, grouped as Python groups `self * p * self.conjugate()`. |
| Quaternions.MulIdentity | Visualisations/Quaternion-Bounds-Visualisation/quaternion-bounds-anim.py:18-30 | The default quaternion (1, 0, 0, 0) is a two-sided identity of the product. |
| Quaternions.MulAssociative | Visualisations/Quaternion-Bounds-Visualisation/quaternion-bounds-anim.py:24-30 | The product is associative, so `self * p * self.conjugate()` does not depend on grouping. |
| Quaternions.MulNormSq | Visualisations/Quaternion-Bounds-Visualisation/quaternion-bounds-anim.py:24-30 | The squared norm of a product is the product of the squared norms (the four-square identity). |
| Quaternions.AssociativityIdentityW | Visualisations/Quaternion-Bounds-Visualisation/quaternion-bounds-anim.py:24-30 | Over the components: if pq and qr are the products as `__mul__` computes them, then the scalar parts of (pq)r and p(qr) agree. The X, Y and Z lemmas do the same for the other components. |
| Quaternions.FourSquareIdentity | Visualisations/Quaternion-Bounds-Visualisation/quaternion-bounds-anim.py:24-30 | Over the components: the squared norm of the product as `__mul__` computes it is the product of the squared norms. |
| Quaternions.ConjugateInvolution | Visualisations/Quaternion-Bounds-Visualisation/quaternion-bounds-anim.py:32-33 | Conjugating twice gives back the quaternion. |
| Quaternions.ConjugateOfProduct | Visualisations/Quaternion-Bounds-Visualisation/quaternion-bounds-anim.py:24-33 | The conjugate of pq is q̄ p̄. |
| Quaternions.ConjugateNormSq | Visualisations/Quaternion-Bounds-Visualisation/quaternion-bounds-anim.py:32-33 | Conjugation keeps the squared norm. |
| Quaternions.MulConjugate | Visualisations/Quaternion-Bounds-Visualisation/quaternion-bounds-anim.py:24-33 | q q̄ and q̄ q both equal (‖q‖², 0, 0, 0). |
| Quaternions.UnitConjugateIsInverse | Visualisations/Quaternion-Bounds-Visualisation/quaternion-bounds-anim.py:24-33 | For a unit q, q q̄ and q̄ q are the identity. |
| Quaternions.SandwichIsPure | Visualisations/Quaternion-Bounds-Visualisation/quaternion-bounds-anim.py:35-39 | q (0, p) q̄ has scalar part 0, so returning only x, y, z loses nothing. |
| Quaternions.RotateScalesLength | Visualisations/Quaternion-Bounds-Visualisation/quaternion-bounds-anim.py:35-39 | For any q, the rotated point's squared length is ‖q‖⁴ times the original's. |
| Quaternions.RotatePreservesLength | Visualisations/Quaternion-Bounds-Visualisation/quaternion-bounds-anim.py:35-39 | A unit quaternion preserves squared length. |
| Quaternions.RotateLinear | Visualisations/Quaternion-Bounds-Visualisation/quaternion-bounds-anim.py:35-39 | Rotating a sum or a difference is the sum or difference of the rotations. |
| Quaternions.RotateIsIsometry | Visualisations/Quaternion-Bounds-Visualisation/quaternion-bounds-anim.py:35-39 | A unit quaternion preserves squared distances and dot products. |
| Quaternions.RotateInverse | Visualisations/Quaternion-Bounds-Visualisation/quaternion-bounds-anim.py:32-39 | For a unit q, rotating by q and then by its conjugate gives back every point. |
| Quaternions.IdentityRotation | Visualisations/Quaternion-Bounds-Visualisation/quaternion-bounds-anim.py:18-39 | The default quaternion leaves every point unchanged. |
| Quaternions.OriginFixed | Visualisations/Quaternion-Bounds-Visualisation/quaternion-bounds-anim.py:35-39 | Every quaternion keeps the origin O fixed. |
| Quaternions.QuarterTurnAboutZ | Visualisations/Quaternion-Bounds-Visualisation/quaternion-bounds-anim.py:35-39 | (c, 0, 0, c) with 2c² = 1 takes (1, 0, 0) to (0, 1, 0). |
| Quaternions.FromAxisAngle | Visualisations/Quaternion-Bounds-Visualisation/quaternion-bounds-anim.py:41-47 | The axis divided by its norm, which must not be zero. The result is cos(angle/2) and sin(angle/2) times the unit axis. |
| Quaternions.FromAxisAngleAboutZ | Visualisations/Quaternion-Bounds-Visualisation/quaternion-bounds-anim.py:41-47 | About the z axis, whose norm is 1, the result is (cos(angle/2), 0, 0, sin(angle/2)). |
| Quaternions.FromAxisAngleQuarterTurn | Visualisations/Quaternion-Bounds-Visualisation/quaternion-bounds-anim.py:35-47 | When sin(angle/2) = cos(angle/2), `from_axis_angle` about z gives (c, 0, 0, c) with 2c² = 1. The resulting rotation takes (1, 0, 0) to (0, 1, 0). |
| Quaternions.FromAxisAngleZero | Visualisations/Quaternion-Bounds-Visualisation/quaternion-bounds-anim.py:41-47 | Angle 0 gives the identity for every axis of non-zero norm. |
| Quaternions.FromAxisAngleIsUnit | Visualisations/Quaternion-Bounds-Visualisation/quaternion-bounds-anim.py:41-47 | Under sin² + cos² = 1 and the square-root law, the result is a unit quaternion for every angle and every non-zero axis. |
| Quaternions.PitchRadians | Visualisations/Quaternion-Bounds-Visualisation/quaternion-bounds-anim.py:55-56 | The pitch in radians: π/2 · sign(sinp) when abs(sinp) ≥ 1, otherwise arcsin(sinp). |
| Quaternions.ToEuler | Visualisations/Quaternion-Bounds-Visualisation/quaternion-bounds-anim.py:49-62 | Roll, pitch and yaw in degrees. Roll and yaw are `arctan2` of the written terms, and the pitch comes from PitchRadians. |
| Points.Sign | Visualisations/Quaternion-Bounds-Visualisation/quaternion-bounds-anim.py:56 | numpy's `sign`: r · v ≥ 0, r² = 1 for v ≠ 0, and r = 0 for v = 0. |
| Quaternions.GimbalLockClamp | Visualisations/Quaternion-Bounds-Visualisation/quaternion-bounds-anim.py:49-62 | sinp ≥ 1 gives a pitch of exactly 90°, and sinp ≤ -1 gives exactly -90°. Otherwise the pitch is arcsin(sinp) in degrees, and arcsin is only ever called inside its domain. |
| Quaternions.UnitSinPitchBounded | Visualisations/Quaternion-Bounds-Visualisation/quaternion-bounds-anim.py:55-56 | For a unit quaternion, -1 ≤ 2(wy - zx) ≤ 1, so over the reals the clamp fires only at exactly ±1. |
| RealMath.Normalize | Visualisations/Quaternion-Bounds-Visualisation/quaternion-bounds-anim.py:44 | `axis / np.linalg.norm(axis)`, defined only for a non-zero norm. |
| RealMath.NormalizeIsUnit | Visualisations/Quaternion-Bounds-Visualisation/quaternion-bounds-anim.py:44 | Dividing a vector by its non-zero norm gives squared length 1. |
| RealMath.UnitVectorHasUnitNorm | Visualisations/Quaternion-Bounds-Visualisation/quaternion-bounds.py:192 | A vector of squared length 1 has norm exactly 1. |
| RealMath.DegreesOfRadians | Visualisations/Quaternion-Bounds-Visualisation/quaternion-bounds-anim.py:139 | Converting 45 sin(t/2) to radians and the displayed angle back to degrees is the identity. |
| StarGeometry.TetrahedronVertices | Visualisations/Quaternion-Bounds-Visualisation/quaternion-bounds-anim.py:67-68 | Four vertices: the origin and the point at `scale` on each positive axis. |
| StarGeometry.TetrahedronFaces | Visualisations/Quaternion-Bounds-Visualisation/quaternion-bounds-anim.py:70-74 | The four triangles (0,1,2), (0,1,3), (0,2,3) and (1,2,3) of a vertex list. |
| StarGeometry.Reflect | Visualisations/Quaternion-Bounds-Visualisation/quaternion-bounds-anim.py:81 | `verts * [sx, sy, sz]`: one entry per vertex, each scaled element-wise by the sign row. |
| StarGeometry.Star | Visualisations/Quaternion-Bounds-Visualisation/quaternion-bounds-anim.py:76-83 | Eight reflected copies of the base tetrahedron, one per sign row in loop order. |
| StarGeometry.FacesPickVertices | Visualisations/Quaternion-Bounds-Visualisation/quaternion-bounds-anim.py:70-74 | There are four faces of three vertices each. Face k, slot j is vertex FaceIndices[k][j], and each face's indices increase. |
| StarGeometry.FacesOmitOneVertexEach | Visualisations/Quaternion-Bounds-Visualisation/quaternion-bounds-anim.py:70-74 | Face k is the set of all four vertices except vertex 3 - k, so the four faces are pairwise different. |
| StarGeometry.EveryTripleIsAFace | Visualisations/Quaternion-Bounds-Visualisation/quaternion-bounds-anim.py:70-74 | Every three-element subset of the four vertices is one of the faces. |
| StarGeometry.FacesCommuteWithMap | Visualisations/Quaternion-Bounds-Visualisation/quaternion-bounds-anim.py:70-74 | Mapping the vertices and then taking faces equals taking faces and then mapping each corner. |
| StarGeometry.GenerateQuaternionStar | Visualisations/Quaternion-Bounds-Visualisation/quaternion-bounds-anim.py:76-83 | The nested sign loops produce exactly `Star(scale)`: eight tetrahedra, the i-th being the base tetrahedron multiplied by sign row i. |
| StarGeometry.OctantSignsInLoopOrder | Visualisations/Quaternion-Bounds-Visualisation/quaternion-bounds-anim.py:78-81 | The sign row appended at loop step (a, b, c) is at position 4a + 2b + c and equals (SignChoices[a], SignChoices[b], SignChoices[c]). |
| StarGeometry.OctantSignsDistinct | Visualisations/Quaternion-Bounds-Visualisation/quaternion-bounds-anim.py:78-81 | The eight sign rows are ±1 and pairwise distinct, and every ±1 triple occurs at its loop position. |
| StarGeometry.StarVertices | Visualisations/Quaternion-Bounds-Visualisation/quaternion-bounds-anim.py:67-83 | Tetrahedron i has O at the origin and its k-th leg on axis k, at scale times the k-th sign. |
| StarGeometry.StarLegsAndFarFace | Visualisations/Quaternion-Bounds-Visualisation/quaternion-bounds-anim.py:67-83 | Every leg has squared length scale², the legs are pairwise perpendicular, and the far face has squared side 2·scale². |
| StarGeometry.DefaultStarHasUnitLegs | Visualisations/Quaternion-Bounds-Visualisation/quaternion-bounds-anim.py:122 | The star the animation draws (`SCALE` = 1) has unit legs at right angles and far-face sides of squared length 2. |
| StarGeometry.StarInCube | Visualisations/Quaternion-Bounds-Visualisation/quaternion-bounds-anim.py:76-83 | For scale ≥ 0, every vertex of the star lies in [-scale, scale]³. |
| StarGeometry.StarTetrahedraDistinct | Visualisations/Quaternion-Bounds-Visualisation/quaternion-bounds-anim.py:76-83 | For scale ≠ 0, the eight tetrahedra are pairwise different. |
| Animation.RotationAt | Visualisations/Quaternion-Bounds-Visualisation/quaternion-bounds-anim.py:136-140 | Entry k: the normalised axis (sin t, cos 0.7t, sin(0.3t + 1)) and the angle radians(45 sin(t/2)), at the k-th linspace point t. |
| Animation.CreateRotationSequence | Visualisations/Quaternion-Bounds-Visualisation/quaternion-bounds-anim.py:133-141 | The loop yields 200 entries. Entry k has the normalised axis (sin t, cos 0.7t, sin(0.3t + 1)) and the angle 45° sin(t/2) in radians, at the k-th linspace point t over [0, 4π]. |
| Animation.RotationAtIsBounded | Visualisations/Quaternion-Bounds-Visualisation/quaternion-bounds-anim.py:137-139 | Every entry's axis is a unit vector, and its angle lies in [-π/4, π/4]. |
| Animation.CreatedSequenceIsWellFormed | Visualisations/Quaternion-Bounds-Visualisation/quaternion-bounds-anim.py:133-149 | The created sequence is non-empty and every axis has a non-zero norm, which is all the update needs. |
| Animation.FrameRotation | Visualisations/Quaternion-Bounds-Visualisation/quaternion-bounds-anim.py:149-150 | `from_axis_angle` of entry `frame % len(rotation_sequence)`. |
| Animation.FrameRotationIsCyclic | Visualisations/Quaternion-Bounds-Visualisation/quaternion-bounds-anim.py:149-150 | The index `frame % len` is within the sequence. Frames one sequence length apart use the same quaternion, and a frame below the length uses its own entry. |
| Animation.FrameRotationIsUnit | Visualisations/Quaternion-Bounds-Visualisation/quaternion-bounds-anim.py:149-150 | The quaternion of every frame is a unit quaternion. |
| Animation.RotateAll | Visualisations/Quaternion-Bounds-Visualisation/quaternion-bounds-anim.py:153 | The rotated list has one entry per vertex: the rotation of that vertex, in the same order. |
| Animation.RotationIsInjective | Visualisations/Quaternion-Bounds-Visualisation/quaternion-bounds-anim.py:153 | A unit rotation maps distinct vertices to distinct vertices. |
| Animation.Update | Visualisations/Quaternion-Bounds-Visualisation/quaternion-bounds-anim.py:148-163 | The frame's quaternion comes from entry `frame % len`. Tetrahedron i gets the faces of its rotated original vertices, and every face corner is the rotation of the original corner, so rotations do not accumulate. The Euler angles are those of that quaternion. |
| Animation.RotatedStarKeepsShape | Visualisations/Quaternion-Bounds-Visualisation/quaternion-bounds-anim.py:148-154 | In every frame each rotated tetrahedron keeps O at the origin, legs of squared length scale², right angles at O, and a far face of squared side 2·scale². |
| Animation.ZeroAngleFrameIsStill | Visualisations/Quaternion-Bounds-Visualisation/quaternion-bounds-anim.py:148-154 | A frame whose angle is 0 leaves every vertex where it was. |
| OctantTable.Table | Visualisations/Quaternion-Bounds-Visualisation/quaternion-bounds.py:17-90 | The dictionary `tetrahedra` for leg length l as eight entries in insertion order, with each entry's O, A, B, C, colour and name. |
| OctantTable.Lookup | Visualisations/Quaternion-Bounds-Visualisation/quaternion-bounds.py:123 | `tetrahedra[id]` gives None exactly when no entry has that key. Otherwise it gives the tetrahedron of an entry with that key. |
| OctantTable.LookupFindsEveryEntry | Visualisations/Quaternion-Bounds-Visualisation/quaternion-bounds.py:17-90 | The eight keys are distinct, and looking up key i gives entry i. |
| OctantTable.PlotFaces | Visualisations/Quaternion-Bounds-Visualisation/quaternion-bounds.py:93-99 | `plot_tetrahedron`'s faces [O, A, B], [O, A, C], [O, B, C] and [A, B, C]. |
| OctantTable.PlotFacesAgreeWithAnimation | Visualisations/Quaternion-Bounds-Visualisation/quaternion-bounds.py:93-99 | The static faces OAB, OAC, OBC, ABC are the animated script's `tetrahedron_faces` of [O, A, B, C]. |
| OctantTable.PanelsPartitionTable | Visualisations/Quaternion-Bounds-Visualisation/quaternion-bounds.py:120-137 | Panels T1–T4 and T5–T8 are disjoint, together they give all keys in order, and every key they look up exists. |
| OctantTable.PrintedOctantsMatchTable | Visualisations/Quaternion-Bounds-Visualisation/quaternion-bounds.py:179-187 | For L > 0, each printed octant line names the entry at its position, that entry's name, and the octant its legs actually point into. |
| OctantTable.OctantsDistinct | Visualisations/Quaternion-Bounds-Visualisation/quaternion-bounds.py:16-90 | The eight tetrahedra lie in eight different octants. |
| OctantTable.OctantsCovered | Visualisations/Quaternion-Bounds-Visualisation/quaternion-bounds.py:16-90 | Every octant (every ±1 sign triple) holds one of the tetrahedra. |
| OctantTable.TableMatchesStar | Visualisations/Quaternion-Bounds-Visualisation/quaternion-bounds.py:17-90 | Entry StarOrder[i] of the table has the vertex list of the animated star's tetrahedron i, and the same octant, so both scripts build the same solids. |
| OctantTable.RightCornerTetrahedra | Visualisations/Quaternion-Bounds-Visualisation/quaternion-bounds.py:177 | Each tetrahedron has O at the origin, three legs of squared length L² that are pairwise perpendicular (three right triangles), and an equilateral far face of squared side 2L². |
| OctantTable.LegsOnAxes | Visualisations/Quaternion-Bounds-Visualisation/quaternion-bounds.py:17-90 | In every entry A lies on the x axis, B on the y axis and C on the z axis, each at coordinate L or -L. |
| OctantTable.PrintedLengths | Visualisations/Quaternion-Bounds-Visualisation/quaternion-bounds.py:189-193 | With L = 1, every printed distance from O is exactly L, and each far-face side has norm L·√2. |
| OctantTable.BoundedByCube | Visualisations/Quaternion-Bounds-Visualisation/quaternion-bounds.py:195 | For L ≥ 0, every vertex lies in [-L, L]³, and all six faces of the cube are reached. |
| OctantTable.CubeCornerInNoTetrahedron | Visualisations/Quaternion-Bounds-Visualisation/quaternion-bounds.py:195 | The printed claim as written: the corner (L, L, L) lies in the cube but in none of the eight solids. |
| OctantTable.UnionIsOctahedron | Visualisations/Quaternion-Bounds-Visualisation/quaternion-bounds.py:195 | For L = 1, a point lies in one of the eight solids (convex combinations of O, A, B, C) exactly when abs(x) + abs(y) + abs(z) ≤ L. |
| OctantTable.PanelTitlesMismatch | Visualisations/Quaternion-Bounds-Visualisation/quaternion-bounds.py:120-139 | T4, in the panel titled "Positive Z", points along -Z. T5, in the panel titled "Negative Z", points along +Z. |
| OctantTable.ZSignPanel | Visualisations/Quaternion-Bounds-Visualisation/quaternion-bounds.py:120-139 | The keys whose C vertex points along +Z or along -Z, in table order: the selection the panel titles describe. |
| OctantTable.ZSignPanelMembers | Visualisations/Quaternion-Bounds-Visualisation/quaternion-bounds.py:125 | A key is in the selection by Z sign exactly when its entry's C vertex has that sign. |
| OctantTable.PositiveZPanel | Visualisations/Quaternion-Bounds-Visualisation/quaternion-bounds.py:125 | The tetrahedra with positive Z are T1, T2, T3 and T5. |
| OctantTable.NegativeZPanel | Visualisations/Quaternion-Bounds-Visualisation/quaternion-bounds.py:139 | The tetrahedra with negative Z are T4, T6, T7 and T8. |

## Left out

- Drawing is not modelled: the figure, axes, legends, `Poly3DCollection` artists, `set_verts`, `set_text`, `FuncAnimation` scheduling and `plt.show`. `Animation.Update` returns the face lists and Euler angles instead of mutating artists.
- Display settings are not modelled: the colour list and `COLORS[i % len(COLORS)]`, colours, alphas, limits, titles and the explanation text. They affect only appearance.
- Printing and f-string formatting are not modelled, and neither is rounding to a few decimals. The printed claims are stated as lemmas about the exact values.
- The transcendental functions have no numeric values here; only the named laws are used. Roll and yaw are `arctan2` of the stated terms, and nothing further is proved about them. Whether the Euler convention matches a particular 3D engine is not checked.
- Floating point is modelled as exact real arithmetic. The gimbal clamp's role against rounding overshoot is described by `Quaternions.UnitSinPitchBounded`: over the reals, overshoot cannot happen.
- `np.linspace` is taken as the exact points k·4π/199.
- The static script's integer arrays (`L = 1`) are modelled as reals.
- Quaternions.FromAxisAngle: requires a non-zero axis norm. The source divides by the norm and yields NaN for a zero axis.
- Animation.CreateRotationSequence: requires that no sampled raw axis has zero norm, for the same reason.
- OctantTable.UnionIsOctahedron and OctantTable.CubeCornerInNoTetrahedron are stated for the script's L = 1 only, not for every leg length. OctantTable.BoundedByCube gives the bounding-box reading of line 195 for every L ≥ 0.
- `Quaternion` is a value datatype rather than a class, because no method of the class changes its fields.

## Findings

| source | as written | input that shows it | evidently intended | confidence | as-written member | corrected member |
|---|---|---|---|---|---|---|
| Visualisations/Quaternion-Bounds-Visualisation/quaternion-bounds.py:120-139 | The panel titled "Tetrahedra with Positive Z Component" draws T1–T4, and the one titled "Negative Z Component" draws T5–T8, both selected by key. | T4, whose C is (0, 0, -1), is drawn under the positive title. T5, whose C is (0, 0, 1), is drawn under the negative title. | Select by the sign of C.z: T1, T2, T3, T5 for positive Z, and T4, T6, T7, T8 for negative Z. | medium (the titles or the key lists may be the intended part); not executed | OctantTable.PanelTitlesMismatch | OctantTable.PositiveZPanel |
| Visualisations/Quaternion-Bounds-Visualisation/quaternion-bounds.py:195 | The script prints "Total volume occupied: Cube from (-L,-L,-L) to (L,L,L)". | The cube corner (1, 1, 1) is in the cube but is not a convex combination of O, A, B, C for any of T1–T8. | The eight solids occupy the octahedron abs(x) + abs(y) + abs(z) ≤ L; the cube is only their bounding box. | medium (the line may mean only the bounding box); not executed | OctantTable.CubeCornerInNoTetrahedron | OctantTable.UnionIsOctahedron |
