/** Three-component real vectors: the numpy arrays of length 3 that both
    scripts use for vertices, axes and points. */
module Points {

  datatype V3 = V3(x: real, y: real, z: real)

  /** The shared right-angle vertex `O = (0, 0, 0)`. */
  const Origin: V3 := V3(0.0, 0.0, 0.0)

  function Add(p: V3, q: V3): V3
  {
    V3(p.x + q.x, p.y + q.y, p.z + q.z)
  }

  function Sub(p: V3, q: V3): V3
  {
    V3(p.x - q.x, p.y - q.y, p.z - q.z)
  }

  function Scale(k: real, p: V3): V3
  {
    V3(k * p.x, k * p.y, k * p.z)
  }

  /** Element-wise product, as numpy's `*` between a vertex and a sign row. */
  function Hadamard(p: V3, s: V3): V3
  {
    V3(p.x * s.x, p.y * s.y, p.z * s.z)
  }

  function Dot(p: V3, q: V3): real
  {
    p.x * q.x + p.y * q.y + p.z * q.z
  }

  /** Squared Euclidean length; norms are stated squared to avoid a square root. */
  function LengthSq(p: V3): real
  {
    Dot(p, p)
  }

  function DistSq(p: V3, q: V3): real
  {
    LengthSq(Sub(p, q))
  }

  /** The point lies in the cube [-l, l]³. */
  predicate InCube(p: V3, l: real)
  {
    -l <= p.x <= l && -l <= p.y <= l && -l <= p.z <= l
  }

  /** numpy's `sign`: 1, -1 or 0. */
  function Sign(v: real): (r: real)
    ensures r * v >= 0.0 && (v != 0.0 ==> r * r == 1.0) && (v == 0.0 ==> r == 0.0)
  {
    if v > 0.0 then 1.0 else if v < 0.0 then -1.0 else 0.0
  }

  function Abs(v: real): (r: real)
    ensures r >= 0.0 && (r == v || r == -v)
  {
    if v < 0.0 then -v else v
  }

  lemma SquareNonNegative(v: real)
    ensures v * v >= 0.0
  {
  }
}
