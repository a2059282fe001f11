/**
  The `f32` arithmetic of the controller and the mirrors, with every
  non-finite value (NaN or an infinity) collapsed into `None`. Such a value
  absorbs: a sum or product with one is again non-finite, whatever the
  other operand. Rounding is not modelled: finite values are exact reals.
*/
module Floats {
  import opened Wrappers
  import opened Vectors

  /** An `f32`: `Some(x)` a finite value, `None` a non-finite one. */
  type F32 = Option<real>

  type F32Vector = seq<F32>

  /** `a + b` in `f32`. */
  function Plus(a: F32, b: F32): (r: F32)
    ensures r.Some? <==> a.Some? && b.Some?
    ensures r.Some? ==> r.value == a.value + b.value
  {
    if a.Some? && b.Some? then Some(a.value + b.value) else None
  }

  /** `a * b` in `f32`: even `0 * NaN` and `0 * ∞` are non-finite. */
  function Times(a: F32, b: F32): (r: F32)
    ensures r.Some? <==> a.Some? && b.Some?
    ensures r.Some? ==> r.value == a.value * b.value
  {
    if a.Some? && b.Some? then Some(a.value * b.value) else None
  }

  /** Every entry of `v` is a finite number. */
  predicate Finite(v: F32Vector) {
    forall k :: 0 <= k < |v| ==> v[k].Some?
  }

  /** The numbers of a finite vector. */
  function Values(v: F32Vector): (r: Vector)
    requires Finite(v)
    ensures |r| == |v|
    ensures forall k :: 0 <= k < |v| ==> Some(r[k]) == v[k]
  {
    seq(|v|, k requires 0 <= k < |v| => v[k].value)
  }

  /** A vector of numbers as `f32` values. */
  function Lift(v: Vector): (r: F32Vector)
    ensures |r| == |v| && Finite(r)
    ensures forall k :: 0 <= k < |v| ==> r[k] == Some(v[k])
  {
    seq(|v|, k requires 0 <= k < |v| => Some(v[k]))
  }

  /** `n` non-finite entries. */
  function NonFinite(n: nat): (r: F32Vector)
    ensures |r| == n
    ensures forall k :: 0 <= k < n ==> r[k] == None
  {
    seq(n, _ => None)
  }

  /** Element-wise `a + b`. */
  function AddF32(a: F32Vector, b: F32Vector): (r: F32Vector)
    requires |a| == |b|
    ensures |r| == |a|
  {
    seq(|a|, i requires 0 <= i < |a| => Plus(a[i], b[i]))
  }

  /** Every entry of `v` multiplied by `k`. */
  function ScaleF32(k: real, v: F32Vector): (r: F32Vector)
    ensures |r| == |v|
  {
    seq(|v|, i requires 0 <= i < |v| => Times(Some(k), v[i]))
  }

  /** Inner product of a row of numbers with an `f32` vector, summed from
      the first entry to the last. */
  function DotF32(row: Vector, v: F32Vector): F32
    requires |row| == |v|
  {
    if |row| == 0 then Some(0.0)
    else Plus(DotF32(row[..|row| - 1], v[..|v| - 1]), Times(Some(row[|row| - 1]), v[|v| - 1]))
  }

  /** The matrix-vector product `m.dot(v)` in `f32`. */
  function MatVecF32(m: Matrix, v: F32Vector): (r: F32Vector)
    requires forall i :: 0 <= i < |m| ==> |m[i]| == |v|
    ensures |r| == |m|
  {
    seq(|m|, i requires 0 <= i < |m| => DotF32(m[i], v))
  }

  /** `Values` undoes `Lift`. */
  lemma {:induction false} ValuesOfLift(v: Vector)
    ensures Values(Lift(v)) == v
  {
  }

  /** The `f32` inner product is the exact one on a finite vector, and
      non-finite as soon as one entry is. */
  lemma {:induction false} DotF32Exact(row: Vector, v: F32Vector)
    requires |row| == |v|
    ensures Finite(v) ==> DotF32(row, v) == Some(Dot(row, Values(v)))
    ensures !Finite(v) ==> DotF32(row, v) == None
  {
    var n := |row|;
    if n > 0 {
      var init := v[..n - 1];
      DotF32Exact(row[..n - 1], init);
      if Finite(v) {
        assert Finite(init);
        var last, a := Values(v)[n - 1], row[n - 1];
        var before := Dot(row[..n - 1], Values(init));
        assert Values(v)[..n - 1] == Values(init);
        assert v[n - 1] == Some(last);
        assert Dot(row, Values(v)) == before + a * last;
        var d, t := DotF32(row[..n - 1], init), Times(Some(a), v[n - 1]);
        assert d.Some? && d.value == before;
        assert t.Some? && t.value == a * last;
        var r := DotF32(row, v);
        assert r == Plus(d, t);
        assert r.Some? && r.value == before + a * last;
      } else if Finite(init) {
        assert v[n - 1] == None;
      }
    }
  }
}
