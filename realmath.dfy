/** The floating-point library functions the scripts call (numpy's `sin`,
    `cos`, `sqrt` inside `linalg.norm`, `arcsin`, `arctan2` and the constant
    `pi`), taken as parameters over the reals. Nothing is assumed of them
    except the laws below, and each lemma names the laws it relies on. */
module RealMath {
  import opened Points

  datatype Transcendentals = Transcendentals(
    sin: real -> real,
    cos: real -> real,
    sqrt: real -> real,
    arcsin: real --> real,
    arctan2: (real, real) -> real,
    pi: real)

  /** sin 0 = 0 and cos 0 = 1. */
  predicate ZeroAngleLaw(m: Transcendentals)
  {
    m.sin(0.0) == 0.0 && m.cos(0.0) == 1.0
  }

  /** sin² a + cos² a = 1 for every angle. */
  ghost predicate PythagoreanLaw(m: Transcendentals)
  {
    forall a :: m.sin(a) * m.sin(a) + m.cos(a) * m.cos(a) == 1.0
  }

  ghost predicate SinBounded(m: Transcendentals)
  {
    forall a :: -1.0 <= m.sin(a) <= 1.0
  }

  /** sqrt is the non-negative square root on non-negative arguments. */
  ghost predicate SqrtLaw(m: Transcendentals)
  {
    forall v :: 0.0 <= v ==> 0.0 <= m.sqrt(v) && m.sqrt(v) * m.sqrt(v) == v
  }

  /** arcsin is defined on [-1, 1] (outside it numpy returns NaN). */
  ghost predicate ArcsinDomain(m: Transcendentals)
  {
    forall v :: -1.0 <= v <= 1.0 ==> m.arcsin.requires(v)
  }

  /** `np.linalg.norm` of a 3-vector. */
  function Norm(m: Transcendentals, v: V3): real
  {
    m.sqrt(LengthSq(v))
  }

  /** `v / np.linalg.norm(v)`, which needs a non-zero norm. */
  function Normalize(m: Transcendentals, v: V3): V3
    requires Norm(m, v) != 0.0
  {
    var n := Norm(m, v);
    V3(v.x / n, v.y / n, v.z / n)
  }

  /** `np.degrees`. */
  function Degrees(m: Transcendentals, r: real): real
    requires m.pi != 0.0
  {
    r * 180.0 / m.pi
  }

  /** `np.radians`. */
  function Radians(m: Transcendentals, d: real): real
  {
    d * m.pi / 180.0
  }

  /** A vector divided by its non-zero norm has unit length. */
  lemma NormalizeIsUnit(m: Transcendentals, v: V3)
    requires SqrtLaw(m) && Norm(m, v) != 0.0
    ensures LengthSq(Normalize(m, v)) == 1.0
  {
    var n := Norm(m, v);
    assert n * n == LengthSq(v);
    var u := Normalize(m, v);
    assert u.x * n == v.x && u.y * n == v.y && u.z * n == v.z;
    calc {
      LengthSq(u) * (n * n);
      (u.x * n) * (u.x * n) + (u.y * n) * (u.y * n) + (u.z * n) * (u.z * n);
      LengthSq(v);
      1.0 * (n * n);
    }
    assert n * n != 0.0;
  }

  /** The degree conversion undoes the radian conversion. */
  lemma DegreesOfRadians(m: Transcendentals, d: real)
    requires m.pi != 0.0
    ensures Degrees(m, Radians(m, d)) == d
  {
  }

  /** A unit vector has norm 1 under the square-root law. */
  lemma UnitVectorHasUnitNorm(m: Transcendentals, v: V3)
    requires SqrtLaw(m) && LengthSq(v) == 1.0
    ensures Norm(m, v) == 1.0
  {
    var n := m.sqrt(1.0);
    assert n >= 0.0 && n * n == 1.0;
    if n < 1.0 {
      SquareBelowOne(n);
      assert false;
    } else if n > 1.0 {
      SquareAboveOne(n);
      assert false;
    }
  }

  lemma SquareBelowOne(v: real)
    requires 0.0 <= v < 1.0
    ensures v * v < 1.0
  {
    assert v * v <= v * 1.0;
  }

  lemma SquareAboveOne(v: real)
    requires 1.0 < v
    ensures 1.0 < v * v
  {
    assert v * 1.0 <= v * v;
  }
}
