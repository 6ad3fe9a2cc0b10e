/** The animated script's driver logic: the rotation sequence, the cyclic
    frame lookup and the per-frame update that rotates every vertex of every
    tetrahedron and recomputes faces and Euler angles. The plotting library's
    artists are not modelled; the update returns what it hands to them. */
module Animation {
  import opened Points
  import opened RealMath
  import opened Quaternions
  import opened StarGeometry

  datatype AxisAngle = AxisAngle(axis: V3, angle: real)

  /** The number of samples of `np.linspace(0, 4 * np.pi, 200)`. */
  const FrameCount: nat := 200

  /** The k-th of FrameCount evenly spaced time points over [0, 4π]. */
  function TimePoint(m: Transcendentals, k: nat): real
  {
    (k as real) * (4.0 * m.pi - 0.0) / ((FrameCount - 1) as real)
  }

  /** The axis before normalisation: (sin t, cos 0.7t, sin(0.3t + 1)). */
  function RawAxis(m: Transcendentals, t: real): V3
  {
    V3(m.sin(t), m.cos(t * 0.7), m.sin(t * 0.3 + 1.0))
  }

  /** No sampled raw axis is the zero vector, which the normalisation needs. */
  ghost predicate NonDegenerateAxes(m: Transcendentals)
  {
    forall k: nat :: k < FrameCount ==> Norm(m, RawAxis(m, TimePoint(m, k))) != 0.0
  }

  /** The k-th entry: the normalised axis and an angle of 45° sin(0.5t) in radians. */
  function RotationAt(m: Transcendentals, k: nat): AxisAngle
    requires Norm(m, RawAxis(m, TimePoint(m, k))) != 0.0
  {
    var t := TimePoint(m, k);
    AxisAngle(Normalize(m, RawAxis(m, t)), Radians(m, 45.0 * m.sin(t * 0.5)))
  }

  /** `create_rotation_sequence`: one entry per time point, appended in order. */
  method CreateRotationSequence(m: Transcendentals) returns (rotations: seq<AxisAngle>)
    requires NonDegenerateAxes(m)
    ensures |rotations| == FrameCount
    ensures forall k :: 0 <= k < FrameCount ==> rotations[k] == RotationAt(m, k)
  {
    rotations := [];
    for k := 0 to FrameCount
      invariant |rotations| == k
      invariant forall j :: 0 <= j < k ==> rotations[j] == RotationAt(m, j)
    {
      var t := TimePoint(m, k);
      var axis := RawAxis(m, t);
      axis := Normalize(m, axis);
      var angle := Radians(m, 45.0 * m.sin(t * 0.5));
      rotations := rotations + [AxisAngle(axis, angle)];
    }
  }

  /** Every entry of a created sequence has a unit axis, and its angle lies
      within ±45° (±π/4). */
  lemma RotationAtIsBounded(m: Transcendentals, k: nat)
    requires SqrtLaw(m) && SinBounded(m) && m.pi > 0.0
    requires Norm(m, RawAxis(m, TimePoint(m, k))) != 0.0
    ensures LengthSq(RotationAt(m, k).axis) == 1.0
    ensures -(m.pi / 4.0) <= RotationAt(m, k).angle <= m.pi / 4.0
  {
    var t := TimePoint(m, k);
    NormalizeIsUnit(m, RawAxis(m, t));
    var d := 45.0 * m.sin(t * 0.5);
    assert -45.0 <= d <= 45.0;
    assert 0.0 <= (45.0 - d) * m.pi;
    assert 0.0 <= (d + 45.0) * m.pi;
  }

  /** The update may look up any entry: the sequence is non-empty and every
      axis has a non-zero norm. */
  ghost predicate WellFormedSequence(m: Transcendentals, rotations: seq<AxisAngle>)
  {
    |rotations| > 0 &&
    forall i :: 0 <= i < |rotations| ==> Norm(m, rotations[i].axis) != 0.0
  }

  /** The sequence the script creates satisfies what the update needs. */
  lemma CreatedSequenceIsWellFormed(m: Transcendentals, rotations: seq<AxisAngle>)
    requires SqrtLaw(m) && NonDegenerateAxes(m)
    requires |rotations| == FrameCount
    requires forall k :: 0 <= k < FrameCount ==> rotations[k] == RotationAt(m, k)
    ensures WellFormedSequence(m, rotations)
  {
    forall i | 0 <= i < |rotations|
      ensures Norm(m, rotations[i].axis) != 0.0
    {
      var t := TimePoint(m, i);
      NormalizeIsUnit(m, RawAxis(m, t));
      UnitVectorHasUnitNorm(m, rotations[i].axis);
    }
  }

  /** The quaternion of a frame: entry `frame % len(rotation_sequence)`. */
  function FrameRotation(m: Transcendentals, rotations: seq<AxisAngle>, frame: nat): Q
    requires WellFormedSequence(m, rotations)
  {
    var entry := rotations[frame % |rotations|];
    FromAxisAngle(m, entry.axis, entry.angle)
  }

  /** The lookup wraps around: frames one sequence length apart use the same
      rotation. */
  lemma FrameRotationIsCyclic(m: Transcendentals, rotations: seq<AxisAngle>, frame: nat)
    requires WellFormedSequence(m, rotations)
    ensures 0 <= frame % |rotations| < |rotations|
    ensures FrameRotation(m, rotations, frame + |rotations|) == FrameRotation(m, rotations, frame)
    ensures frame < |rotations| ==>
              FrameRotation(m, rotations, frame) == FromAxisAngle(m, rotations[frame].axis, rotations[frame].angle)
  {
    ModShift(frame, |rotations|);
    if frame < |rotations| {
      assert frame % |rotations| == frame;
    }
  }

  /** An integer multiple of n strictly between -n and n is 0 n. */
  lemma SmallMultipleIsZero(k: int, n: int)
    requires n > 0 && -n < k * n < n
    ensures k == 0
  {
  }

  /** Adding the modulus does not change the remainder. */
  lemma ModShift(a: nat, n: nat)
    requires n > 0
    ensures (a + n) % n == a % n
  {
    var q, r := a / n, a % n;
    var q2, r2 := (a + n) / n, (a + n) % n;
    assert a == q * n + r;
    assert a + n == q2 * n + r2;
    assert (q2 - q - 1) * n == r - r2;
    SmallMultipleIsZero(q2 - q - 1, n);
  }

  /** Every frame's quaternion is a unit quaternion. */
  lemma FrameRotationIsUnit(m: Transcendentals, rotations: seq<AxisAngle>, frame: nat)
    requires WellFormedSequence(m, rotations) && PythagoreanLaw(m) && SqrtLaw(m)
    ensures NormSq(FrameRotation(m, rotations, frame)) == 1.0
  {
    var entry := rotations[frame % |rotations|];
    FromAxisAngleIsUnit(m, entry.axis, entry.angle);
  }

  /** `[q.rotate_point(v) for v in verts]`. */
  function RotateAll(q: Q, verts: seq<V3>): (r: seq<V3>)
    ensures |r| == |verts| && forall i :: 0 <= i < |verts| ==> r[i] == RotatePoint(q, verts[i])
  {
    MapPoints(p => RotatePoint(q, p), verts)
  }

  /** What one call of `update` produces: the quaternion, the faces handed to
      each tetrahedron's artist, and the Euler angles shown in the text. */
  datatype Frame = Frame(q: Q, faces: seq<seq<seq<V3>>>, euler: Euler)

  /** `update(frame)`: the tetrahedra passed in are the original, unrotated
      ones, so rotations do not accumulate from frame to frame. */
  method Update(m: Transcendentals, rotations: seq<AxisAngle>, tetras: seq<seq<V3>>, frame: nat)
    returns (out: Frame)
    requires WellFormedSequence(m, rotations)
    requires forall i :: 0 <= i < |tetras| ==> |tetras[i]| >= 4
    requires ArcsinDomain(m) && m.pi != 0.0
    ensures out.q == FrameRotation(m, rotations, frame)
    ensures out.euler == ToEuler(m, out.q)
    ensures |out.faces| == |tetras|
    ensures forall i :: 0 <= i < |tetras| ==> out.faces[i] == TetrahedronFaces(RotateAll(out.q, tetras[i]))
    ensures forall i, k, j :: 0 <= i < |tetras| && 0 <= k < 4 && 0 <= j < 3 ==>
              |out.faces[i]| == 4 && |out.faces[i][k]| == 3 &&
              out.faces[i][k][j] == RotatePoint(out.q, TetrahedronFaces(tetras[i])[k][j])
  {
    var entry := rotations[frame % |rotations|];
    var q := FromAxisAngle(m, entry.axis, entry.angle);
    var drawn: seq<seq<seq<V3>>> := [];
    for i := 0 to |tetras|
      invariant |drawn| == i
      invariant forall j :: 0 <= j < i ==> drawn[j] == TetrahedronFaces(RotateAll(q, tetras[j]))
    {
      var rotated := RotateAll(q, tetras[i]);
      drawn := drawn + [TetrahedronFaces(rotated)];
    }
    out := Frame(q, drawn, ToEuler(m, q));
    forall i | 0 <= i < |tetras|
      ensures forall k, j :: 0 <= k < 4 && 0 <= j < 3 ==>
                |out.faces[i]| == 4 && |out.faces[i][k]| == 3 &&
                out.faces[i][k][j] == RotatePoint(q, TetrahedronFaces(tetras[i])[k][j])
    {
      FacesCommuteWithMap(p => RotatePoint(q, p), tetras[i]);
    }
  }

  /** A unit rotation maps distinct vertices to distinct vertices, so the
      rotated vertex list is a one-to-one image of the original. */
  lemma RotationIsInjective(q: Q, a: V3, b: V3)
    requires NormSq(q) == 1.0 && RotatePoint(q, a) == RotatePoint(q, b)
    ensures a == b
  {
    RotateInverse(q, a);
    RotateInverse(q, b);
  }

  /** A right-corner tetrahedron with squared leg length l2 stays one
      under any unit rotation. */
  lemma RotationKeepsRightCorner(q: Q, t: seq<V3>, l2: real)
    requires NormSq(q) == 1.0 && RightCornerShape(t, l2)
    ensures RightCornerShape(RotateAll(q, t), l2)
  {
    var r := RotateAll(q, t);
    OriginFixed(q);
    forall j, k | 0 <= j < 4 && 0 <= k < 4
      ensures DistSq(r[j], r[k]) == DistSq(t[j], t[k]) && Dot(r[j], r[k]) == Dot(t[j], t[k])
    {
      RotateIsIsometry(q, t[j], t[k]);
    }
  }

  /** In every frame each rotated octant tetrahedron keeps its shape: the
      shared vertex stays at the origin, every leg keeps squared length
      scale², the legs stay perpendicular and the far face keeps squared
      side 2 scale². */
  lemma RotatedStarKeepsShape(m: Transcendentals, rotations: seq<AxisAngle>, frame: nat,
                              scale: real, i: nat)
    requires WellFormedSequence(m, rotations) && PythagoreanLaw(m) && SqrtLaw(m)
    requires i < 8
    ensures RightCornerShape(RotateAll(FrameRotation(m, rotations, frame), Star(scale)[i]), scale * scale)
  {
    FrameRotationIsUnit(m, rotations, frame);
    StarVertices(scale, i);
    StarLegsAndFarFace(scale, i);
    RotationKeepsRightCorner(FrameRotation(m, rotations, frame), Star(scale)[i], scale * scale);
  }

  /** A frame whose angle is 0 draws every tetrahedron where it started. */
  lemma ZeroAngleFrameIsStill(m: Transcendentals, rotations: seq<AxisAngle>, frame: nat, verts: seq<V3>)
    requires WellFormedSequence(m, rotations) && ZeroAngleLaw(m)
    requires rotations[frame % |rotations|].angle == 0.0
    ensures RotateAll(FrameRotation(m, rotations, frame), verts) == verts
  {
    var entry := rotations[frame % |rotations|];
    FromAxisAngleZero(m, entry.axis);
    forall k | 0 <= k < |verts|
      ensures RotatePoint(Identity, verts[k]) == verts[k]
    {
      IdentityRotation(verts[k]);
    }
  }
}
