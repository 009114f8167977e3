/**
 * Numeric building blocks shared by the Berry-curvature-dipole model:
 * complex numbers as pairs of reals, Python's int() on a float, 3-vectors of
 * fractional k-space coordinates, and the [E_num, 9] tensor tables with the
 * element-wise numpy operations the source applies to them.
 */
module Numerics {

  datatype Option<T> = None | Some(value: T)

  datatype Result<T, E> = Success(value: T) | Failure(error: E)

  // ---------------------------------------------------------------------------
  // Complex numbers
  // ---------------------------------------------------------------------------

  datatype Complex = Complex(re: real, im: real)

  function Mul(x: Complex, y: Complex): Complex
  {
    Complex(x.re * y.re - x.im * y.im, x.re * y.im + x.im * y.re)
  }

  /** Re(z * 2i / c) for a real, non-zero c, written as -2 Im(z) / c. */
  function ReTimesTwoIOver(z: Complex, c: real): real
    requires c != 0.0
  {
    -2.0 * z.im / c
  }

  /** -2 Im(z) / c is indeed the real part of z * 2i / c. */
  lemma ReTimesTwoIOverIsRealPart(z: Complex, c: real)
    requires c != 0.0
    ensures ReTimesTwoIOver(z, c) == Mul(z, Complex(0.0, 2.0)).re / c
  {
  }

  function Abs(x: real): real
  {
    if x < 0.0 then -x else x
  }

  // ---------------------------------------------------------------------------
  // Python int() on a float: truncation toward zero
  // ---------------------------------------------------------------------------

  /** Python's int(x): the integer part of x, rounding toward zero. */
  function Trunc(x: real): (r: int)
    ensures 0.0 <= x ==> r >= 0 && r as real <= x < r as real + 1.0
    ensures x < 0.0 ==> r <= 0 && r as real - 1.0 < x <= r as real
  {
    if x >= 0.0 then x.Floor else -((-x).Floor)
  }

  // ---------------------------------------------------------------------------
  // Fractional k-space coordinates
  // ---------------------------------------------------------------------------

  datatype Vec3 = Vec3(x: real, y: real, z: real)

  function VAdd(a: Vec3, b: Vec3): Vec3
  {
    Vec3(a.x + b.x, a.y + b.y, a.z + b.z)
  }

  function VSub(a: Vec3, b: Vec3): Vec3
  {
    Vec3(a.x - b.x, a.y - b.y, a.z - b.z)
  }

  /** numpy's vector / scalar. */
  function VDiv(a: Vec3, d: real): Vec3
    requires d != 0.0
  {
    Vec3(a.x / d, a.y / d, a.z / d)
  }

  // ---------------------------------------------------------------------------
  // [rows, 9] tensor tables
  // ---------------------------------------------------------------------------

  /** Columns of a table row: the flattened 3x3 tensor, column a*3+b. */
  const Cols: nat := 9

  type Tensor = seq<seq<real>>

  ghost predicate Shaped(t: Tensor, rows: nat)
  {
    |t| == rows && forall e :: 0 <= e < rows ==> |t[e]| == Cols
  }

  ghost predicate AllShaped(ts: seq<Tensor>, rows: nat)
  {
    forall i :: 0 <= i < |ts| ==> Shaped(ts[i], rows)
  }

  /** np.zeros([rows, 9]). */
  function Zero(rows: nat): (z: Tensor)
    ensures Shaped(z, rows)
    ensures forall e, j :: 0 <= e < rows && 0 <= j < Cols ==> z[e][j] == 0.0
  {
    seq(rows, _ => seq(Cols, _ => 0.0))
  }

  /** Element-wise a + b. */
  function Add(a: Tensor, b: Tensor): (r: Tensor)
    requires Shaped(a, |a|) && Shaped(b, |a|)
    ensures Shaped(r, |a|)
    ensures forall e, j :: 0 <= e < |a| && 0 <= j < Cols ==> r[e][j] == a[e][j] + b[e][j]
  {
    seq(|a|, e requires 0 <= e < |a| => seq(Cols, j requires 0 <= j < Cols => a[e][j] + b[e][j]))
  }

  /** Element-wise a - b. */
  function Sub(a: Tensor, b: Tensor): (r: Tensor)
    requires Shaped(a, |a|) && Shaped(b, |a|)
    ensures Shaped(r, |a|)
    ensures forall e, j :: 0 <= e < |a| && 0 <= j < Cols ==> r[e][j] == a[e][j] - b[e][j]
  {
    seq(|a|, e requires 0 <= e < |a| => seq(Cols, j requires 0 <= j < Cols => a[e][j] - b[e][j]))
  }

  /** Element-wise t * c. */
  function Scale(t: Tensor, c: real): (r: Tensor)
    requires Shaped(t, |t|)
    ensures Shaped(r, |t|)
    ensures forall e, j :: 0 <= e < |t| && 0 <= j < Cols ==> r[e][j] == t[e][j] * c
  {
    seq(|t|, e requires 0 <= e < |t| => seq(Cols, j requires 0 <= j < Cols => t[e][j] * c))
  }

  /** Element-wise t / d. */
  function Div(t: Tensor, d: real): (r: Tensor)
    requires Shaped(t, |t|) && d != 0.0
    ensures Shaped(r, |t|)
    ensures forall e, j :: 0 <= e < |t| && 0 <= j < Cols ==> r[e][j] == t[e][j] / d
  {
    seq(|t|, e requires 0 <= e < |t| => seq(Cols, j requires 0 <= j < Cols => t[e][j] / d))
  }

  /** Two tables of the same shape are equal when their entries are. */
  lemma TensorExt(a: Tensor, b: Tensor, rows: nat)
    requires Shaped(a, rows) && Shaped(b, rows)
    requires forall e, j :: 0 <= e < rows && 0 <= j < Cols ==> a[e][j] == b[e][j]
    ensures a == b
  {
    forall e | 0 <= e < rows
      ensures a[e] == b[e]
    {
      assert forall j :: 0 <= j < Cols ==> a[e][j] == b[e][j];
    }
  }

  /** Sum of a sequence of tables, left to right, starting from zero. */
  function Sum(ts: seq<Tensor>, rows: nat): (r: Tensor)
    requires AllShaped(ts, rows)
    ensures Shaped(r, rows)
  {
    if |ts| == 0 then Zero(rows) else Add(Sum(ts[..|ts| - 1], rows), ts[|ts| - 1])
  }

  lemma AddZeroRight(a: Tensor, rows: nat)
    requires Shaped(a, rows)
    ensures Add(a, Zero(rows)) == a
  {
    TensorExt(Add(a, Zero(rows)), a, rows);
  }

  lemma AddAssoc(a: Tensor, b: Tensor, c: Tensor, rows: nat)
    requires Shaped(a, rows) && Shaped(b, rows) && Shaped(c, rows)
    ensures Add(Add(a, b), c) == Add(a, Add(b, c))
  {
    TensorExt(Add(Add(a, b), c), Add(a, Add(b, c)), rows);
  }

  /**
   * Summation does not depend on how the sequence is split: the sum of a
   * concatenation is the sum of the two parts' sums. This is what makes a
   * sum-reduction over any block partition of the points equal to the
   * single-worker sum.
   */
  lemma {:induction false} SumConcat(a: seq<Tensor>, b: seq<Tensor>, rows: nat)
    requires AllShaped(a, rows) && AllShaped(b, rows)
    ensures AllShaped(a + b, rows)
    ensures Sum(a + b, rows) == Add(Sum(a, rows), Sum(b, rows))
  {
    if |b| == 0 {
      assert a + b == a;
      AddZeroRight(Sum(a, rows), rows);
    } else {
      var b' := b[..|b| - 1];
      var x := b[|b| - 1];
      assert (a + b)[..|a + b| - 1] == a + b';
      assert (a + b)[|a + b| - 1] == x;
      SumConcat(a, b', rows);
      AddAssoc(Sum(a, rows), Sum(b', rows), x, rows);
    }
  }
}
