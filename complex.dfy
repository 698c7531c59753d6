/** Complex numbers as pairs of reals, the element type of the density-matrix
    state vectors.  Only the field operations the solvers use are defined. */
module Cplx {

  datatype Complex = Complex(re: real, im: real)

  const Zero: Complex := Complex(0.0, 0.0)
  const One: Complex := Complex(1.0, 0.0)
  /** The imaginary unit `1j`. */
  const J: Complex := Complex(0.0, 1.0)

  function OfReal(r: real): Complex { Complex(r, 0.0) }

  function Add(a: Complex, b: Complex): Complex { Complex(a.re + b.re, a.im + b.im) }

  function Sub(a: Complex, b: Complex): Complex { Complex(a.re - b.re, a.im - b.im) }

  function Neg(a: Complex): Complex { Complex(-a.re, -a.im) }

  function Mul(a: Complex, b: Complex): Complex
  {
    Complex(a.re * b.re - a.im * b.im, a.re * b.im + a.im * b.re)
  }

  /** Multiplication by a real scalar. */
  function Scale(r: real, a: Complex): Complex { Complex(r * a.re, r * a.im) }

  function Conj(a: Complex): Complex { Complex(a.re, -a.im) }

  /** The squared modulus |a|^2. */
  function Norm2(a: Complex): real { a.re * a.re + a.im * a.im }

  type Vec = seq<Complex>

  /** Element-wise sum of two vectors of the same length. */
  function VAdd(a: Vec, b: Vec): (r: Vec)
    requires |a| == |b|
    ensures |r| == |a|
  {
    seq(|a|, k requires 0 <= k < |a| => Add(a[k], b[k]))
  }

  /** A vector multiplied by a real scalar. */
  function VScale(c: real, a: Vec): (r: Vec)
    ensures |r| == |a|
  {
    seq(|a|, k requires 0 <= k < |a| => Scale(c, a[k]))
  }

  function ZeroVec(n: nat): (r: Vec)
    ensures |r| == n
  {
    seq(n, k => Zero)
  }

  lemma VScaleOne(v: Vec)
    ensures VScale(1.0, v) == v
  {
    assert forall k :: 0 <= k < |v| ==> VScale(1.0, v)[k] == v[k];
  }

  lemma VScaleCompose(a: real, b: real, v: Vec)
    ensures VScale(a, VScale(b, v)) == VScale(a * b, v)
  {
    forall k | 0 <= k < |v| ensures VScale(a, VScale(b, v))[k] == VScale(a * b, v)[k] {
      assert a * (b * v[k].re) == (a * b) * v[k].re;
      assert a * (b * v[k].im) == (a * b) * v[k].im;
    }
  }

  lemma VAddScales(a: real, b: real, v: Vec)
    ensures VAdd(VScale(a, v), VScale(b, v)) == VScale(a + b, v)
  {
    forall k | 0 <= k < |v| ensures VAdd(VScale(a, v), VScale(b, v))[k] == VScale(a + b, v)[k] {
      assert a * v[k].re + b * v[k].re == (a + b) * v[k].re;
      assert a * v[k].im + b * v[k].im == (a + b) * v[k].im;
    }
  }
}

/** Failure-compatible result types for the error paths of the source. */
module Outcomes {

  datatype Option<+T> = None | Some(value: T)

  datatype Result<+T, +E> = Ok(value: T) | Err(error: E)
}

/** Points and vectors of the two-dimensional Brillouin zone. */
module Plane {

  datatype Point = Point(x: real, y: real)

  function Add(a: Point, b: Point): Point { Point(a.x + b.x, a.y + b.y) }

  function Sub(a: Point, b: Point): Point { Point(a.x - b.x, a.y - b.y) }

  function Scale(r: real, a: Point): Point { Point(r * a.x, r * a.y) }

  function Dot(a: Point, b: Point): real { a.x * b.x + a.y * b.y }

  /** The in-plane normal `(d.y, -d.x)` used for `E_ort` and the orthogonal offset. */
  function Ortho(d: Point): Point { Point(d.y, -d.x) }
}
