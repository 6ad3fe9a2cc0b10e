/** The geometry helpers of the animated script: the base right tetrahedron,
    its four faces, and the eight sign-reflected copies of
    `generate_quaternion_star`, one per octant. */
module StarGeometry {
  import opened Points

  /** `SCALE`. */
  const DefaultScale: real := 1.0

  /** `tetrahedron_vertices`: the origin and one point on each positive axis. */
  function TetrahedronVertices(scale: real): (r: seq<V3>)
    ensures |r| == 4
  {
    [Origin, V3(scale, 0.0, 0.0), V3(0.0, scale, 0.0), V3(0.0, 0.0, scale)]
  }

  /** `tetrahedron_faces`: the triangles (0,1,2), (0,1,3), (0,2,3), (1,2,3). */
  function TetrahedronFaces(v: seq<V3>): seq<seq<V3>>
    requires |v| >= 4
  {
    [[v[0], v[1], v[2]],
     [v[0], v[1], v[3]],
     [v[0], v[2], v[3]],
     [v[1], v[2], v[3]]]
  }

  /** The vertex indices each face of TetrahedronFaces takes, in order. */
  const FaceIndices: seq<seq<nat>> := [[0, 1, 2], [0, 1, 3], [0, 2, 3], [1, 2, 3]]

  function FaceSet(k: nat): set<nat>
    requires k < 4
  {
    set j | j in FaceIndices[k]
  }

  /** Face k picks the vertices FaceIndices[k], in increasing order. */
  lemma FacesPickVertices(v: seq<V3>)
    requires |v| >= 4
    ensures |TetrahedronFaces(v)| == 4
    ensures forall k :: 0 <= k < 4 ==> |TetrahedronFaces(v)[k]| == 3
    ensures forall k, j :: 0 <= k < 4 && 0 <= j < 3 ==>
              FaceIndices[k][j] < 4 && TetrahedronFaces(v)[k][j] == v[FaceIndices[k][j]]
    ensures forall k, j :: 0 <= k < 4 && 0 <= j < 2 ==> FaceIndices[k][j] < FaceIndices[k][j + 1]
  {
  }

  /** Face k leaves out exactly vertex 3 - k, so no face is omitted and none
      is repeated. */
  lemma FacesOmitOneVertexEach()
    ensures forall k :: 0 <= k < 4 ==> FaceSet(k) == {0, 1, 2, 3} - {3 - k}
    ensures forall k, l :: 0 <= k < 4 && 0 <= l < 4 && k != l ==> FaceSet(k) != FaceSet(l)
  {
    assert FaceSet(0) == {0, 1, 2};
    assert FaceSet(1) == {0, 1, 3};
    assert FaceSet(2) == {0, 2, 3};
    assert FaceSet(3) == {1, 2, 3};
    assert 3 !in FaceSet(0) && 2 !in FaceSet(1) && 1 !in FaceSet(2) && 0 !in FaceSet(3);
    assert 3 in FaceSet(1) && 3 in FaceSet(2) && 3 in FaceSet(3);
    assert 2 in FaceSet(0) && 2 in FaceSet(2) && 2 in FaceSet(3);
    assert 1 in FaceSet(0) && 1 in FaceSet(1) && 1 in FaceSet(3);
    assert 0 in FaceSet(0) && 0 in FaceSet(1) && 0 in FaceSet(2);
  }

  /** Every 3-element subset of the four vertex indices is one of the faces. */
  lemma EveryTripleIsAFace(s: set<nat>)
    requires s <= {0, 1, 2, 3} && |s| == 3
    ensures exists k :: 0 <= k < 4 && FaceSet(k) == s
  {
    FacesOmitOneVertexEach();
    var all: set<nat> := {0, 1, 2, 3};
    assert |all| == 4;
    DifferenceCard(all, s);
    var missing :| missing in all - s;
    var rest := all - {missing};
    DifferenceCard(all, {missing});
    assert s <= rest;
    DifferenceCard(rest, s);
    assert rest - s == {};
    assert rest == s + (rest - s);
    assert FaceSet(3 - missing) == s;
  }

  lemma DifferenceCard(a: set<nat>, b: set<nat>)
    requires b <= a
    ensures |a - b| == |a| - |b|
  {
    assert a == b + (a - b);
    assert b * (a - b) == {};
  }

  /** Computing faces commutes with moving every vertex, which is how `update`
      recomputes the faces of the rotated vertices. */
  lemma FacesCommuteWithMap(f: V3 -> V3, v: seq<V3>)
    requires |v| >= 4
    ensures |TetrahedronFaces(MapPoints(f, v))| == 4
    ensures forall k :: 0 <= k < 4 ==> |TetrahedronFaces(MapPoints(f, v))[k]| == 3
    ensures forall k, j :: 0 <= k < 4 && 0 <= j < 3 ==>
              TetrahedronFaces(MapPoints(f, v))[k][j] == f(TetrahedronFaces(v)[k][j])
  {
  }

  /** `[f(v) for v in verts]`: each vertex moved, in the same order. */
  function MapPoints(f: V3 -> V3, v: seq<V3>): (r: seq<V3>)
    ensures |r| == |v| && forall i :: 0 <= i < |v| ==> r[i] == f(v[i])
  {
    seq(|v|, i requires 0 <= i < |v| => f(v[i]))
  }

  // ---------------------------------------------------------------------
  // The eight octant copies

  /** The values each of the loops over sx, sy, sz runs through, in order. */
  const SignChoices: seq<real> := [1.0, -1.0]

  /** The eight sign rows written out, one per octant, in the order
      +++, ++-, +-+, +--, -++, -+-, --+, ---. */
  const OctantSigns: seq<V3> := [
    V3(1.0, 1.0, 1.0), V3(1.0, 1.0, -1.0), V3(1.0, -1.0, 1.0), V3(1.0, -1.0, -1.0),
    V3(-1.0, 1.0, 1.0), V3(-1.0, 1.0, -1.0), V3(-1.0, -1.0, 1.0), V3(-1.0, -1.0, -1.0)]

  /** `tetrahedron_vertices(scale) * [sx, sy, sz]`: each row scaled element-wise. */
  function Reflect(v: seq<V3>, s: V3): (r: seq<V3>)
    ensures |r| == |v| && forall k :: 0 <= k < |v| ==> r[k] == Hadamard(v[k], s)
  {
    seq(|v|, k requires 0 <= k < |v| => Hadamard(v[k], s))
  }

  /** The list `generate_quaternion_star` builds, entry by entry. */
  function Star(scale: real): (r: seq<seq<V3>>)
    ensures |r| == 8
  {
    seq(8, i requires 0 <= i < 8 => Reflect(TetrahedronVertices(scale), OctantSigns[i]))
  }

  /** `generate_quaternion_star`: three nested loops appending one reflected
      copy of the base tetrahedron per sign combination. */
  method GenerateQuaternionStar(scale: real) returns (tetraList: seq<seq<V3>>)
    ensures tetraList == Star(scale)
  {
    tetraList := [];
    for a := 0 to 2
      invariant tetraList == Star(scale)[..4 * a]
    {
      var sx := SignChoices[a];
      for b := 0 to 2
        invariant tetraList == Star(scale)[..4 * a + 2 * b]
      {
        var sy := SignChoices[b];
        for c := 0 to 2
          invariant tetraList == Star(scale)[..4 * a + 2 * b + c]
        {
          var sz := SignChoices[c];
          var verts := Reflect(TetrahedronVertices(scale), V3(sx, sy, sz));
          OctantSignsInLoopOrder(a, b, c);
          tetraList := tetraList + [verts];
        }
      }
    }
  }

  /** The sign rows follow the loops: entry 4a + 2b + c carries the a-th
      value of sx, the b-th of sy and the c-th of sz. */
  lemma OctantSignsInLoopOrder(a: nat, b: nat, c: nat)
    requires a < 2 && b < 2 && c < 2
    ensures OctantSigns[4 * a + 2 * b + c] == V3(SignChoices[a], SignChoices[b], SignChoices[c])
  {
    if a == 0 {
      if b == 0 { if c == 0 {} else {} } else { if c == 0 {} else {} }
    } else {
      if b == 0 { if c == 0 {} else {} } else { if c == 0 {} else {} }
    }
  }

  /** Where the loops put a sign row: the inverse of indexing OctantSigns. */
  function LoopPosition(s: V3): nat
  {
    4 * (if s.x == 1.0 then 0 else 1) + 2 * (if s.y == 1.0 then 0 else 1) + (if s.z == 1.0 then 0 else 1)
  }

  /** Every row is made of ±1 and sits at its own loop position, so the eight
      rows are pairwise distinct and every sign pattern appears exactly once:
      the eight tetrahedra cover the eight octants. */
  lemma OctantSignsDistinct()
    ensures forall i :: 0 <= i < 8 ==>
              OctantSigns[i].x in SignChoices && OctantSigns[i].y in SignChoices &&
              OctantSigns[i].z in SignChoices && LoopPosition(OctantSigns[i]) == i
    ensures forall i, j :: 0 <= i < 8 && 0 <= j < 8 && i != j ==> OctantSigns[i] != OctantSigns[j]
    ensures forall s: V3 :: s.x in SignChoices && s.y in SignChoices && s.z in SignChoices ==>
              LoopPosition(s) < 8 && OctantSigns[LoopPosition(s)] == s
  {
    forall s: V3 | s.x in SignChoices && s.y in SignChoices && s.z in SignChoices
      ensures LoopPosition(s) < 8 && OctantSigns[LoopPosition(s)] == s
    {
      var a := if s.x == 1.0 then 0 else 1;
      var b := if s.y == 1.0 then 0 else 1;
      var c := if s.z == 1.0 then 0 else 1;
      OctantSignsInLoopOrder(a, b, c);
    }
  }

  /** Vertex 0 of every tetrahedron is the origin; vertex k is scale times
      the k-th sign times the k-th unit axis. */
  lemma StarVertices(scale: real, i: nat)
    requires i < 8
    ensures |Star(scale)[i]| == 4
    ensures Star(scale)[i][0] == Origin
    ensures Star(scale)[i][1] == V3(scale * OctantSigns[i].x, 0.0, 0.0)
    ensures Star(scale)[i][2] == V3(0.0, scale * OctantSigns[i].y, 0.0)
    ensures Star(scale)[i][3] == V3(0.0, 0.0, scale * OctantSigns[i].z)
  {
  }

  lemma OctantSignsAreSigns(i: nat)
    requires i < 8
    ensures OctantSigns[i].x in SignChoices && OctantSigns[i].y in SignChoices && OctantSigns[i].z in SignChoices
  {
  }

  /** A leg along one axis, reflected by a sign of ±1, keeps squared length scale². */
  lemma SignedSquare(scale: real, sign: real)
    requires sign in SignChoices
    ensures (scale * sign) * (scale * sign) == scale * scale
  {
    if sign == 1.0 {
    } else {
      assert sign == -1.0;
    }
  }

  /** A right-corner tetrahedron: vertex 0 at the origin, three legs of
      squared length l2 that are pairwise perpendicular, and a far face
      with squared side 2 l2. */
  predicate RightCornerShape(t: seq<V3>, l2: real)
  {
    |t| == 4 && t[0] == Origin &&
    (forall k :: 1 <= k < 4 ==> DistSq(t[k], t[0]) == l2) &&
    (forall j, k :: 1 <= j < k < 4 ==> Dot(t[j], t[k]) == 0.0) &&
    (forall j, k :: 1 <= j < k < 4 ==> DistSq(t[j], t[k]) == 2.0 * l2)
  }

  /** Every leg from the shared vertex has squared length scale², the legs
      are pairwise perpendicular, and the far face is equilateral with
      squared side 2 scale². */
  lemma StarLegsAndFarFace(scale: real, i: nat)
    requires i < 8
    ensures RightCornerShape(Star(scale)[i], scale * scale)
  {
    var s := OctantSigns[i];
    OctantSignsAreSigns(i);
    SignedSquare(scale, s.x);
    SignedSquare(scale, s.y);
    SignedSquare(scale, s.z);
    RightCorner(scale * s.x, scale * s.y, scale * s.z, scale * scale);
    StarIsRightCornerList(scale, i);
  }

  /** The star the animation draws (`SCALE` = 1): unit legs at right angles
      and far-face sides of squared length 2. */
  lemma DefaultStarHasUnitLegs(i: nat)
    requires i < 8
    ensures RightCornerShape(Star(DefaultScale)[i], 1.0)
  {
    StarLegsAndFarFace(DefaultScale, i);
  }

  lemma StarIsRightCornerList(scale: real, i: nat)
    requires i < 8
    ensures Star(scale)[i] == RightCornerList(scale * OctantSigns[i].x, scale * OctantSigns[i].y, scale * OctantSigns[i].z)
  {
    StarVertices(scale, i);
  }

  /** The vertex list O, (a, 0, 0), (0, b, 0), (0, 0, c). */
  function RightCornerList(a: real, b: real, c: real): seq<V3>
  {
    [Origin, V3(a, 0.0, 0.0), V3(0.0, b, 0.0), V3(0.0, 0.0, c)]
  }

  /** A tetrahedron with its right-angle corner at the origin and legs of
      squared length l2 along the three axes. */
  lemma RightCorner(a: real, b: real, c: real, l2: real)
    requires a * a == l2 && b * b == l2 && c * c == l2
    ensures RightCornerShape(RightCornerList(a, b, c), l2)
  {
    var t := RightCornerList(a, b, c);
    assert DistSq(t[1], t[0]) == a * a;
    assert DistSq(t[2], t[0]) == b * b;
    assert DistSq(t[3], t[0]) == c * c;
    assert DistSq(t[1], t[2]) == a * a + b * b;
    assert DistSq(t[1], t[3]) == a * a + c * c;
    assert DistSq(t[2], t[3]) == b * b + c * c;
  }

  /** Every vertex lies in the cube [-scale, scale]³. */
  lemma StarInCube(scale: real, i: nat, k: nat)
    requires 0.0 <= scale && i < 8 && k < 4
    ensures InCube(Star(scale)[i][k], scale)
  {
    StarVertices(scale, i);
  }

  /** For a non-zero scale the eight tetrahedra are pairwise different. */
  lemma StarTetrahedraDistinct(scale: real, i: nat, j: nat)
    requires scale != 0.0 && i < 8 && j < 8 && i != j
    ensures Star(scale)[i] != Star(scale)[j]
  {
    OctantSignsDistinct();
    StarVertices(scale, i);
    StarVertices(scale, j);
    var si, sj := OctantSigns[i], OctantSigns[j];
    if si.x != sj.x {
      DistinctMultiples(scale, si.x, sj.x);
      assert Star(scale)[i][1] != Star(scale)[j][1];
    } else if si.y != sj.y {
      DistinctMultiples(scale, si.y, sj.y);
      assert Star(scale)[i][2] != Star(scale)[j][2];
    } else {
      DistinctMultiples(scale, si.z, sj.z);
      assert Star(scale)[i][3] != Star(scale)[j][3];
    }
  }

  lemma DistinctMultiples(scale: real, u: real, v: real)
    requires scale != 0.0 && u in SignChoices && v in SignChoices && u != v
    ensures scale * u != scale * v
  {
    if u == 1.0 {
      assert v == -1.0;
    } else {
      assert u == -1.0 && v == 1.0;
    }
  }
}
