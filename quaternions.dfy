/** The `Quaternion` class of the animated script: an immutable value with
    the Hamilton product, the conjugate, point rotation, construction from an
    axis and an angle, and conversion to Euler angles. */
module Quaternions {
  import opened Points
  import opened RealMath

  /** q = w + x i + y j + z k */
  datatype Q = Q(w: real, x: real, y: real, z: real)

  /** `Quaternion()` with its default arguments (1, 0, 0, 0). */
  const Identity: Q := Q(1.0, 0.0, 0.0, 0.0)

  /** `__mul__`: the Hamilton product, component by component as written. */
  function Mul(a: Q, b: Q): Q
  {
    Q(a.w * b.w - a.x * b.x - a.y * b.y - a.z * b.z,
      a.w * b.x + a.x * b.w + a.y * b.z - a.z * b.y,
      a.w * b.y - a.x * b.z + a.y * b.w + a.z * b.x,
      a.w * b.z + a.x * b.y - a.y * b.x + a.z * b.w)
  }

  /** `conjugate`: the vector part negated. */
  function Conjugate(q: Q): Q
  {
    Q(q.w, -q.x, -q.y, -q.z)
  }

  /** The squared norm w² + x² + y² + z². */
  function NormSq(q: Q): real
  {
    q.w * q.w + q.x * q.x + q.y * q.y + q.z * q.z
  }

  /** A point embedded as the pure quaternion `Quaternion(0, *point)`. */
  function Pure(p: V3): Q
  {
    Q(0.0, p.x, p.y, p.z)
  }

  /** The vector part `[x, y, z]`. */
  function Vector(q: Q): V3
  {
    V3(q.x, q.y, q.z)
  }

  /** `rotate_point`: the vector part of `(q * p) * q.conjugate()`. */
  function RotatePoint(q: Q, p: V3): V3
  {
    Vector(Mul(Mul(q, Pure(p)), Conjugate(q)))
  }

  // ---------------------------------------------------------------------
  // Algebraic identities of the product as written

  lemma ConjugateInvolution(q: Q)
    ensures Conjugate(Conjugate(q)) == q
  {
  }

  lemma ConjugateOfProduct(p: Q, q: Q)
    ensures Conjugate(Mul(p, q)) == Mul(Conjugate(q), Conjugate(p))
  {
    ConjugateOfProductW(p, q);
    ConjugateOfProductX(p, q);
    ConjugateOfProductY(p, q);
    ConjugateOfProductZ(p, q);
  }

  lemma ConjugateOfProductW(p: Q, q: Q)
    ensures Conjugate(Mul(p, q)).w == Mul(Conjugate(q), Conjugate(p)).w
  {
  }

  lemma ConjugateOfProductX(p: Q, q: Q)
    ensures Conjugate(Mul(p, q)).x == Mul(Conjugate(q), Conjugate(p)).x
  {
  }

  lemma ConjugateOfProductY(p: Q, q: Q)
    ensures Conjugate(Mul(p, q)).y == Mul(Conjugate(q), Conjugate(p)).y
  {
  }

  lemma ConjugateOfProductZ(p: Q, q: Q)
    ensures Conjugate(Mul(p, q)).z == Mul(Conjugate(q), Conjugate(p)).z
  {
  }

  lemma MulIdentity(q: Q)
    ensures Mul(Identity, q) == q && Mul(q, Identity) == q
  {
  }

  /** The associativity identity for one component, stated over the
      components so that the products q p and q r appear as plain terms. */
  lemma AssociativityIdentityW(p: Q, q: Q, r: Q, pq: Q, qr: Q)
    ensures (pq.w == p.w * q.w - p.x * q.x - p.y * q.y - p.z * q.z &&
             pq.x == p.w * q.x + p.x * q.w + p.y * q.z - p.z * q.y &&
             pq.y == p.w * q.y - p.x * q.z + p.y * q.w + p.z * q.x &&
             pq.z == p.w * q.z + p.x * q.y - p.y * q.x + p.z * q.w &&
             qr.w == q.w * r.w - q.x * r.x - q.y * r.y - q.z * r.z &&
             qr.x == q.w * r.x + q.x * r.w + q.y * r.z - q.z * r.y &&
             qr.y == q.w * r.y - q.x * r.z + q.y * r.w + q.z * r.x &&
             qr.z == q.w * r.z + q.x * r.y - q.y * r.x + q.z * r.w) ==>
            pq.w * r.w - pq.x * r.x - pq.y * r.y - pq.z * r.z == p.w * qr.w - p.x * qr.x - p.y * qr.y - p.z * qr.z
  {
  }

  lemma AssociativityIdentityX(p: Q, q: Q, r: Q, pq: Q, qr: Q)
    ensures (pq.w == p.w * q.w - p.x * q.x - p.y * q.y - p.z * q.z &&
             pq.x == p.w * q.x + p.x * q.w + p.y * q.z - p.z * q.y &&
             pq.y == p.w * q.y - p.x * q.z + p.y * q.w + p.z * q.x &&
             pq.z == p.w * q.z + p.x * q.y - p.y * q.x + p.z * q.w &&
             qr.w == q.w * r.w - q.x * r.x - q.y * r.y - q.z * r.z &&
             qr.x == q.w * r.x + q.x * r.w + q.y * r.z - q.z * r.y &&
             qr.y == q.w * r.y - q.x * r.z + q.y * r.w + q.z * r.x &&
             qr.z == q.w * r.z + q.x * r.y - q.y * r.x + q.z * r.w) ==>
            pq.w * r.x + pq.x * r.w + pq.y * r.z - pq.z * r.y == p.w * qr.x + p.x * qr.w + p.y * qr.z - p.z * qr.y
  {
  }

  lemma AssociativityIdentityY(p: Q, q: Q, r: Q, pq: Q, qr: Q)
    ensures (pq.w == p.w * q.w - p.x * q.x - p.y * q.y - p.z * q.z &&
             pq.x == p.w * q.x + p.x * q.w + p.y * q.z - p.z * q.y &&
             pq.y == p.w * q.y - p.x * q.z + p.y * q.w + p.z * q.x &&
             pq.z == p.w * q.z + p.x * q.y - p.y * q.x + p.z * q.w &&
             qr.w == q.w * r.w - q.x * r.x - q.y * r.y - q.z * r.z &&
             qr.x == q.w * r.x + q.x * r.w + q.y * r.z - q.z * r.y &&
             qr.y == q.w * r.y - q.x * r.z + q.y * r.w + q.z * r.x &&
             qr.z == q.w * r.z + q.x * r.y - q.y * r.x + q.z * r.w) ==>
            pq.w * r.y - pq.x * r.z + pq.y * r.w + pq.z * r.x == p.w * qr.y - p.x * qr.z + p.y * qr.w + p.z * qr.x
  {
  }

  lemma AssociativityIdentityZ(p: Q, q: Q, r: Q, pq: Q, qr: Q)
    ensures (pq.w == p.w * q.w - p.x * q.x - p.y * q.y - p.z * q.z &&
             pq.x == p.w * q.x + p.x * q.w + p.y * q.z - p.z * q.y &&
             pq.y == p.w * q.y - p.x * q.z + p.y * q.w + p.z * q.x &&
             pq.z == p.w * q.z + p.x * q.y - p.y * q.x + p.z * q.w &&
             qr.w == q.w * r.w - q.x * r.x - q.y * r.y - q.z * r.z &&
             qr.x == q.w * r.x + q.x * r.w + q.y * r.z - q.z * r.y &&
             qr.y == q.w * r.y - q.x * r.z + q.y * r.w + q.z * r.x &&
             qr.z == q.w * r.z + q.x * r.y - q.y * r.x + q.z * r.w) ==>
            pq.w * r.z + pq.x * r.y - pq.y * r.x + pq.z * r.w == p.w * qr.z + p.x * qr.y - p.y * qr.x + p.z * qr.w
  {
  }

  lemma MulAssociativeW(a: Q, b: Q, c: Q)
    ensures Mul(Mul(a, b), c).w == Mul(a, Mul(b, c)).w
  {
    AssociativityIdentityW(a, b, c, Mul(a, b), Mul(b, c));
  }

  lemma MulAssociativeX(a: Q, b: Q, c: Q)
    ensures Mul(Mul(a, b), c).x == Mul(a, Mul(b, c)).x
  {
    AssociativityIdentityX(a, b, c, Mul(a, b), Mul(b, c));
  }

  lemma MulAssociativeY(a: Q, b: Q, c: Q)
    ensures Mul(Mul(a, b), c).y == Mul(a, Mul(b, c)).y
  {
    AssociativityIdentityY(a, b, c, Mul(a, b), Mul(b, c));
  }

  lemma MulAssociativeZ(a: Q, b: Q, c: Q)
    ensures Mul(Mul(a, b), c).z == Mul(a, Mul(b, c)).z
  {
    AssociativityIdentityZ(a, b, c, Mul(a, b), Mul(b, c));
  }

  /** The product is associative. */
  lemma MulAssociative(a: Q, b: Q, c: Q)
    ensures Mul(Mul(a, b), c) == Mul(a, Mul(b, c))
  {
    MulAssociativeW(a, b, c);
    MulAssociativeX(a, b, c);
    MulAssociativeY(a, b, c);
    MulAssociativeZ(a, b, c);
  }

  /** q q̄ = q̄ q = (|q|², 0, 0, 0). */
  lemma MulConjugate(q: Q)
    ensures Mul(q, Conjugate(q)) == Q(NormSq(q), 0.0, 0.0, 0.0)
    ensures Mul(Conjugate(q), q) == Q(NormSq(q), 0.0, 0.0, 0.0)
  {
  }

  /** For a unit quaternion the conjugate is the inverse. */
  lemma UnitConjugateIsInverse(q: Q)
    requires NormSq(q) == 1.0
    ensures Mul(q, Conjugate(q)) == Identity && Mul(Conjugate(q), q) == Identity
  {
    MulConjugate(q);
  }

  lemma ConjugateNormSq(q: Q)
    ensures NormSq(Conjugate(q)) == NormSq(q)
  {
  }

  /** The norm is multiplicative (Euler's four-square identity). */
  lemma MulNormSq(a: Q, b: Q)
    ensures NormSq(Mul(a, b)) == NormSq(a) * NormSq(b)
  {
    FourSquareIdentity(a, b, Mul(a, b));
  }

  lemma FourSquareIdentity(p: Q, q: Q, pq: Q)
    ensures (pq.w == p.w * q.w - p.x * q.x - p.y * q.y - p.z * q.z &&
             pq.x == p.w * q.x + p.x * q.w + p.y * q.z - p.z * q.y &&
             pq.y == p.w * q.y - p.x * q.z + p.y * q.w + p.z * q.x &&
             pq.z == p.w * q.z + p.x * q.y - p.y * q.x + p.z * q.w) ==>
            pq.w * pq.w + pq.x * pq.x + pq.y * pq.y + pq.z * pq.z
              == (p.w * p.w + p.x * p.x + p.y * p.y + p.z * p.z) * (q.w * q.w + q.x * q.x + q.y * q.y + q.z * q.z)
  {
  }

  // ---------------------------------------------------------------------
  // Rotation of points

  /** q (0, p) q̄ has scalar part exactly 0, so keeping only x, y, z loses nothing. */
  lemma SandwichIsPure(q: Q, p: V3)
    ensures Mul(Mul(q, Pure(p)), Conjugate(q)).w == 0.0
    ensures Pure(RotatePoint(q, p)) == Mul(Mul(q, Pure(p)), Conjugate(q))
  {
  }

  /** Without the unit-norm obligation the point is scaled by |q|², not
      merely rotated: |rotate(q, p)|² = |q|⁴ |p|². */
  lemma RotateScalesLength(q: Q, p: V3)
    ensures LengthSq(RotatePoint(q, p)) == NormSq(q) * NormSq(q) * LengthSq(p)
  {
    var s := Mul(Mul(q, Pure(p)), Conjugate(q));
    SandwichIsPure(q, p);
    assert LengthSq(RotatePoint(q, p)) == NormSq(s);
    MulNormSq(Mul(q, Pure(p)), Conjugate(q));
    MulNormSq(q, Pure(p));
    ConjugateNormSq(q);
    assert NormSq(Pure(p)) == LengthSq(p);
  }

  /** A unit quaternion preserves the squared length of every point. */
  lemma RotatePreservesLength(q: Q, p: V3)
    requires NormSq(q) == 1.0
    ensures LengthSq(RotatePoint(q, p)) == LengthSq(p)
  {
    RotateScalesLength(q, p);
  }

  /** Rotation is linear in the point. */
  lemma RotateLinear(q: Q, a: V3, b: V3)
    ensures RotatePoint(q, Add(a, b)) == Add(RotatePoint(q, a), RotatePoint(q, b))
    ensures RotatePoint(q, Sub(a, b)) == Sub(RotatePoint(q, a), RotatePoint(q, b))
  {
  }

  /** A unit quaternion preserves distances and dot products, so right
      angles and edge lengths survive the rotation. */
  lemma RotateIsIsometry(q: Q, a: V3, b: V3)
    requires NormSq(q) == 1.0
    ensures DistSq(RotatePoint(q, a), RotatePoint(q, b)) == DistSq(a, b)
    ensures Dot(RotatePoint(q, a), RotatePoint(q, b)) == Dot(a, b)
  {
    RotateLinear(q, a, b);
    RotatePreservesLength(q, Sub(a, b));
    RotatePreservesLength(q, a);
    RotatePreservesLength(q, b);
    Polarization(a, b);
    Polarization(RotatePoint(q, a), RotatePoint(q, b));
  }

  lemma Polarization(a: V3, b: V3)
    ensures 2.0 * Dot(a, b) == LengthSq(a) + LengthSq(b) - DistSq(a, b)
  {
  }

  /** Rotating by q and then by its conjugate returns the original point. */
  lemma RotateInverse(q: Q, p: V3)
    requires NormSq(q) == 1.0
    ensures RotatePoint(Conjugate(q), RotatePoint(q, p)) == p
  {
    var c, P := Conjugate(q), Pure(p);
    SandwichIsPure(q, p);
    ConjugateInvolution(q);
    UnitConjugateIsInverse(q);
    calc {
      Mul(Mul(c, Pure(RotatePoint(q, p))), Conjugate(c));
      Mul(Mul(c, Mul(Mul(q, P), c)), q);
      { MulAssociative(c, Mul(q, P), c); }
      Mul(Mul(Mul(c, Mul(q, P)), c), q);
      { MulAssociative(c, q, P); }
      Mul(Mul(Mul(Mul(c, q), P), c), q);
      Mul(Mul(Mul(Identity, P), c), q);
      { MulIdentity(P); }
      Mul(Mul(P, c), q);
      { MulAssociative(P, c, q); }
      Mul(P, Mul(c, q));
      Mul(P, Identity);
      { MulIdentity(P); }
      P;
    }
  }

  /** The default quaternion leaves every point where it is. */
  lemma IdentityRotation(p: V3)
    ensures RotatePoint(Identity, p) == p
  {
    assert Mul(Identity, Pure(p)) == Pure(p);
    assert Conjugate(Identity) == Identity;
    assert Mul(Pure(p), Identity) == Pure(p);
  }

  /** Every quaternion keeps the origin fixed. */
  lemma OriginFixed(q: Q)
    ensures RotatePoint(q, Origin) == Origin
  {
  }

  // ---------------------------------------------------------------------
  // Axis-angle construction

  /** `from_axis_angle`: the axis divided by its norm (which must not be
      zero), then w = cos(angle / 2) and vector part sin(angle / 2) times the
      unit axis. */
  function FromAxisAngle(m: Transcendentals, axis: V3, angle: real): Q
    requires Norm(m, axis) != 0.0
  {
    var u := Normalize(m, axis);
    var half := angle / 2.0;
    var s := m.sin(half);
    Q(m.cos(half), u.x * s, u.y * s, u.z * s)
  }

  /** Angle 0 gives the identity, for any admissible axis. */
  lemma FromAxisAngleZero(m: Transcendentals, axis: V3)
    requires ZeroAngleLaw(m) && Norm(m, axis) != 0.0
    ensures FromAxisAngle(m, axis, 0.0) == Identity
  {
    assert 0.0 / 2.0 == 0.0;
  }

  /** The construction yields a unit quaternion. */
  lemma FromAxisAngleIsUnit(m: Transcendentals, axis: V3, angle: real)
    requires PythagoreanLaw(m) && SqrtLaw(m) && Norm(m, axis) != 0.0
    ensures NormSq(FromAxisAngle(m, axis, angle)) == 1.0
  {
    var u := Normalize(m, axis);
    NormalizeIsUnit(m, axis);
    var half := angle / 2.0;
    var s, c := m.sin(half), m.cos(half);
    assert s * s + c * c == 1.0;
    calc {
      NormSq(FromAxisAngle(m, axis, angle));
      c * c + (u.x * s) * (u.x * s) + (u.y * s) * (u.y * s) + (u.z * s) * (u.z * s);
      c * c + LengthSq(u) * (s * s);
      1.0;
    }
  }

  /** The worked example: a quarter turn about z (cos = sin = 1/√2 at π/4)
      takes (1, 0, 0) to (0, 1, 0). */
  lemma QuarterTurnAboutZ(c: real)
    requires 2.0 * c * c == 1.0
    ensures RotatePoint(Q(c, 0.0, 0.0, c), V3(1.0, 0.0, 0.0)) == V3(0.0, 1.0, 0.0)
  {
  }

  /** The z axis has norm 1 under the square-root law. */
  lemma ZAxisHasUnitNorm(m: Transcendentals)
    requires SqrtLaw(m)
    ensures Norm(m, V3(0.0, 0.0, 1.0)) == 1.0
  {
    UnitVectorHasUnitNorm(m, V3(0.0, 0.0, 1.0));
  }

  /** An axis of norm 1 is used as it is. */
  lemma FromUnitAxis(m: Transcendentals, axis: V3, angle: real)
    requires Norm(m, axis) == 1.0
    ensures FromAxisAngle(m, axis, angle) ==
              Q(m.cos(angle / 2.0), axis.x * m.sin(angle / 2.0), axis.y * m.sin(angle / 2.0), axis.z * m.sin(angle / 2.0))
  {
    assert Normalize(m, axis) == axis;
  }

  /** `from_axis_angle` about the z axis gives (cos(angle/2), 0, 0, sin(angle/2)). */
  lemma FromAxisAngleAboutZ(m: Transcendentals, angle: real)
    requires Norm(m, V3(0.0, 0.0, 1.0)) == 1.0
    ensures FromAxisAngle(m, V3(0.0, 0.0, 1.0), angle) == Q(m.cos(angle / 2.0), 0.0, 0.0, m.sin(angle / 2.0))
  {
    FromUnitAxis(m, V3(0.0, 0.0, 1.0), angle);
  }

  /** At an angle whose half has equal sine and cosine (a quarter turn),
      `from_axis_angle` about z builds exactly the quaternion of the worked
      example, so it takes (1, 0, 0) to (0, 1, 0). */
  lemma FromAxisAngleQuarterTurn(m: Transcendentals, angle: real)
    requires SqrtLaw(m) && PythagoreanLaw(m) && m.cos(angle / 2.0) == m.sin(angle / 2.0)
    ensures Norm(m, V3(0.0, 0.0, 1.0)) == 1.0
    ensures FromAxisAngle(m, V3(0.0, 0.0, 1.0), angle) == Q(m.cos(angle / 2.0), 0.0, 0.0, m.cos(angle / 2.0))
    ensures 2.0 * m.cos(angle / 2.0) * m.cos(angle / 2.0) == 1.0
    ensures RotatePoint(FromAxisAngle(m, V3(0.0, 0.0, 1.0), angle), V3(1.0, 0.0, 0.0)) == V3(0.0, 1.0, 0.0)
  {
    ZAxisHasUnitNorm(m);
    FromAxisAngleAboutZ(m, angle);
    var c := m.cos(angle / 2.0);
    assert m.sin(angle / 2.0) * m.sin(angle / 2.0) + c * c == 1.0;
    QuarterTurnAboutZ(c);
  }

  // ---------------------------------------------------------------------
  // Euler angles

  datatype Euler = Euler(roll: real, pitch: real, yaw: real)

  /** The sin(pitch) term 2 (w y - z x). */
  function SinPitch(q: Q): real
  {
    2.0 * (q.w * q.y - q.z * q.x)
  }

  /** The pitch in radians with the gimbal-lock clamp: at or beyond ±1 the
      arcsine is replaced by ±π/2 with the sign of the term. */
  function PitchRadians(m: Transcendentals, sinp: real): real
    requires ArcsinDomain(m)
  {
    if (if sinp < 0.0 then -sinp else sinp) >= 1.0 then m.pi / 2.0 * Sign(sinp)
    else m.arcsin(sinp)
  }

  /** `to_euler`: roll, pitch and yaw in degrees. */
  function ToEuler(m: Transcendentals, q: Q): Euler
    requires ArcsinDomain(m) && m.pi != 0.0
  {
    var sinrCosp := 2.0 * (q.w * q.x + q.y * q.z);
    var cosrCosp := 1.0 - 2.0 * (q.x * q.x + q.y * q.y);
    var roll := m.arctan2(sinrCosp, cosrCosp);
    var pitch := PitchRadians(m, SinPitch(q));
    var sinyCosp := 2.0 * (q.w * q.z + q.x * q.y);
    var cosyCosp := 1.0 - 2.0 * (q.y * q.y + q.z * q.z);
    var yaw := m.arctan2(sinyCosp, cosyCosp);
    Euler(Degrees(m, roll), Degrees(m, pitch), Degrees(m, yaw))
  }

  /** The clamp: when |sinp| >= 1 the pitch is exactly +90° or -90° with the
      sign of sinp; otherwise it is the arcsine of sinp, taken strictly
      inside (-1, 1). */
  lemma GimbalLockClamp(m: Transcendentals, q: Q)
    requires ArcsinDomain(m) && m.pi != 0.0
    ensures SinPitch(q) >= 1.0 ==> ToEuler(m, q).pitch == 90.0
    ensures SinPitch(q) <= -1.0 ==> ToEuler(m, q).pitch == -90.0
    ensures -1.0 < SinPitch(q) < 1.0 ==> ToEuler(m, q).pitch == Degrees(m, m.arcsin(SinPitch(q)))
  {
    var sinp := SinPitch(q);
    if sinp >= 1.0 {
      assert PitchRadians(m, sinp) == m.pi / 2.0;
      assert m.pi / 2.0 * 180.0 / m.pi == 90.0;
    } else if sinp <= -1.0 {
      assert PitchRadians(m, sinp) == -(m.pi / 2.0);
      assert -(m.pi / 2.0) * 180.0 / m.pi == -90.0;
    }
  }

  /** For a unit quaternion |sinp| <= 1, so over the reals the clamp fires
      only at exactly ±1 (it guards against rounding overshoot). */
  lemma UnitSinPitchBounded(q: Q)
    requires NormSq(q) == 1.0
    ensures -1.0 <= SinPitch(q) <= 1.0
  {
    SquareNonNegative(q.w - q.y);
    SquareNonNegative(q.z + q.x);
    SquareNonNegative(q.w + q.y);
    SquareNonNegative(q.z - q.x);
    assert (q.w - q.y) * (q.w - q.y) + (q.z + q.x) * (q.z + q.x) == NormSq(q) - SinPitch(q);
    assert (q.w + q.y) * (q.w + q.y) + (q.z - q.x) * (q.z - q.x) == NormSq(q) + SinPitch(q);
  }
}
