/**
  One- and two-dimensional arrays of numbers, as the `ndarray` crate's
  `Array1` and `Array2` are used by the controller and the deformable
  mirrors: zero-filled construction, element-wise sum, scaling by a
  scalar and the matrix-vector product.
*/
module Vectors {

  type Vector = seq<real>

  /** A matrix as its sequence of rows. */
  type Matrix = seq<seq<real>>

  /** `Array1::zeros(n)`. */
  function Zeros(n: nat): (v: Vector)
    ensures |v| == n
    ensures forall i :: 0 <= i < n ==> v[i] == 0.0
  {
    seq(n, _ => 0.0)
  }

  /** `Array2::zeros((rows, cols))`. */
  function ZeroMatrix(rows: nat, cols: nat): (m: Matrix)
    ensures Shape(m, rows, cols)
    ensures forall i :: 0 <= i < rows ==> m[i] == Zeros(cols)
  {
    seq(rows, _ => Zeros(cols))
  }

  /** `m` has `rows` rows of `cols` entries each. */
  predicate Shape(m: Matrix, rows: nat, cols: nat) {
    |m| == rows && forall i :: 0 <= i < rows ==> |m[i]| == cols
  }

  predicate IsZero(v: Vector) {
    forall i :: 0 <= i < |v| ==> v[i] == 0.0
  }

  /** Element-wise sum of two vectors of one length. */
  function Add(a: Vector, b: Vector): (r: Vector)
    requires |a| == |b|
    ensures |r| == |a|
  {
    seq(|a|, i requires 0 <= i < |a| => a[i] + b[i])
  }

  /** Every entry of `v` multiplied by `k`. */
  function Scale(k: real, v: Vector): (r: Vector)
    ensures |r| == |v|
  {
    seq(|v|, i requires 0 <= i < |v| => k * v[i])
  }

  /** Inner product, summed from the first entry to the last. */
  function Dot(a: Vector, b: Vector): real
    requires |a| == |b|
  {
    if |a| == 0 then 0.0
    else Dot(a[..|a| - 1], b[..|b| - 1]) + a[|a| - 1] * b[|b| - 1]
  }

  /** The matrix-vector product `m.dot(v)`: one inner product per row. */
  function MatVec(m: Matrix, v: Vector): (r: Vector)
    requires forall i :: 0 <= i < |m| ==> |m[i]| == |v|
    ensures |r| == |m|
  {
    seq(|m|, i requires 0 <= i < |m| => Dot(m[i], v))
  }

  /** A zero row has inner product zero with any vector. */
  lemma {:induction false} DotZeros(n: nat, v: Vector)
    requires |v| == n
    ensures Dot(Zeros(n), v) == 0.0
  {
    if n > 0 {
      assert Zeros(n)[..n - 1] == Zeros(n - 1);
      DotZeros(n - 1, v[..n - 1]);
    }
  }

  /** The zero matrix maps every vector to the zero vector. */
  lemma {:induction false} ZeroMatrixAnnihilates(rows: nat, cols: nat, v: Vector)
    requires |v| == cols
    ensures MatVec(ZeroMatrix(rows, cols), v) == Zeros(rows)
  {
    var m := ZeroMatrix(rows, cols);
    forall i | 0 <= i < rows ensures MatVec(m, v)[i] == 0.0 {
      DotZeros(cols, v);
    }
  }

  /** Adding the zero vector changes nothing. */
  lemma {:induction false} AddZeros(a: Vector)
    ensures Add(a, Zeros(|a|)) == a
  {
  }

  /** Scaling the zero vector gives the zero vector. */
  lemma {:induction false} ScaleZeros(k: real, n: nat)
    ensures Scale(k, Zeros(n)) == Zeros(n)
  {
  }
}
