/**
  Vertex coordinates and the index-range scaling every sculpting step applies:
  for each chosen vertex, some of its coordinates are multiplied by one factor.
 */
module Geometry {

  /** A vertex position `co` (real arithmetic stands in for Blender's floats). */
  datatype Vec3 = Vec3(x: real, y: real, z: real)

  /** The coordinates a step multiplies: `co.x` and `co.y`, `co.z` alone, or all three. */
  datatype Axes = XY | Z | XYZ

  /**
    One coordinate multiplied by a factor. Naming the product keeps the
    nonlinear real arithmetic out of the solver's way until a proof needs it.
   */
  function Mul(c: real, f: real): real {
    c * f
  }

  /** `v` with the coordinates named by `axes` multiplied by `f`. */
  function Scale(v: Vec3, axes: Axes, f: real): (r: Vec3)
    ensures axes == XY ==> r.z == v.z
    ensures axes == Z ==> r.x == v.x && r.y == v.y
    ensures f == 1.0 ==> r == v
  {
    match axes
    case XY => Vec3(Mul(v.x, f), Mul(v.y, f), v.z)
    case Z => Vec3(v.x, v.y, Mul(v.z, f))
    case XYZ => Vec3(Mul(v.x, f), Mul(v.y, f), Mul(v.z, f))
  }

  /** The vertex list after scaling the `axes` coordinates of every vertex whose index is in `sel`. */
  function ScaledAt(vs: seq<Vec3>, sel: set<int>, axes: Axes, f: real): (r: seq<Vec3>)
    ensures |r| == |vs|
  {
    seq(|vs|, i requires 0 <= i < |vs| => if i in sel then Scale(vs[i], axes, f) else vs[i])
  }

  /** Squared distance from the origin. */
  function NormSquared(v: Vec3): real {
    v.x * v.x + v.y * v.y + v.z * v.z
  }

  /** Scaling one vertex twice multiplies by the product of the factors. */
  lemma ScaleCompose(v: Vec3, axes: Axes, f: real, g: real)
    ensures Scale(Scale(v, axes, f), axes, g) == Scale(v, axes, f * g)
  {
    assert v.x * f * g == v.x * (f * g);
    assert v.y * f * g == v.y * (f * g);
    assert v.z * f * g == v.z * (f * g);
  }

  /** Two scalings of one vertex commute. */
  lemma ScaleCommute(v: Vec3, axesA: Axes, f: real, axesB: Axes, g: real)
    ensures Scale(Scale(v, axesA, f), axesB, g) == Scale(Scale(v, axesB, g), axesA, f)
  {
    assert v.x * f * g == v.x * g * f;
    assert v.y * f * g == v.y * g * f;
    assert v.z * f * g == v.z * g * f;
  }

  /** Two loops over disjoint index sets with the same factor make one scaling over their union. */
  lemma ScaledAtUnion(vs: seq<Vec3>, a: set<int>, b: set<int>, axes: Axes, f: real)
    requires a * b == {}
    ensures ScaledAt(ScaledAt(vs, a, axes, f), b, axes, f) == ScaledAt(vs, a + b, axes, f)
  {
    var lhs, rhs := ScaledAt(ScaledAt(vs, a, axes, f), b, axes, f), ScaledAt(vs, a + b, axes, f);
    forall i | 0 <= i < |vs| ensures lhs[i] == rhs[i] {
      assert i in a && i in b ==> i in a * b;
    }
  }

  /** Scalings commute: the order of two index-range steps does not matter. */
  lemma ScaledAtCommute(vs: seq<Vec3>, a: set<int>, axesA: Axes, f: real, b: set<int>, axesB: Axes, g: real)
    ensures ScaledAt(ScaledAt(vs, a, axesA, f), b, axesB, g) == ScaledAt(ScaledAt(vs, b, axesB, g), a, axesA, f)
  {
    var lhs, rhs := ScaledAt(ScaledAt(vs, a, axesA, f), b, axesB, g), ScaledAt(ScaledAt(vs, b, axesB, g), a, axesA, f);
    forall i | 0 <= i < |vs| ensures lhs[i] == rhs[i] {
      if i in a && i in b {
        ScaleCommute(vs[i], axesA, f, axesB, g);
      }
    }
  }

  /** A scaling by a non-zero factor is undone by scaling with its reciprocal. */
  lemma ScaledAtInverse(vs: seq<Vec3>, sel: set<int>, axes: Axes, f: real)
    requires f != 0.0
    ensures ScaledAt(ScaledAt(vs, sel, axes, f), sel, axes, 1.0 / f) == vs
  {
    var back := ScaledAt(ScaledAt(vs, sel, axes, f), sel, axes, 1.0 / f);
    forall i | 0 <= i < |vs| ensures back[i] == vs[i] {
      if i in sel {
        ScaleCompose(vs[i], axes, f, 1.0 / f);
        assert f * (1.0 / f) == 1.0;
      }
    }
  }

  /** Scaling all three coordinates by `k` multiplies the squared distance from the origin by `k * k`. */
  lemma UniformScaleNorm(v: Vec3, k: real)
    ensures NormSquared(Scale(v, XYZ, k)) == k * k * NormSquared(v)
  {
  }
}
