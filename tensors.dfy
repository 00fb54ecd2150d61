/**
 * Dense real-valued tensors as nested sequences, their shapes, and the
 * reduction `Sum` that every tensor expression of the reducer is built from.
 */
module Tensors {

  type Vector = seq<real>
  type Matrix = seq<Vector>
  type Tensor3 = seq<Matrix>
  type Tensor4 = seq<Tensor3>

  predicate IsMatrix(m: Matrix, rows: nat, cols: nat) {
    |m| == rows && forall i | 0 <= i < rows :: |m[i]| == cols
  }

  predicate IsTensor3(x: Tensor3, a: nat, b: nat, c: nat) {
    |x| == a && forall i | 0 <= i < a :: IsMatrix(x[i], b, c)
  }

  predicate IsTensor4(x: Tensor4, a: nat, b: nat, c: nat, d: nat) {
    |x| == a && forall i | 0 <= i < a :: IsTensor3(x[i], b, c, d)
  }

  /** The sum of the entries of a vector (torch.sum along one axis). */
  function Sum(v: Vector): real
  {
    if |v| == 0 then 0.0 else v[0] + Sum(v[1..])
  }

  /** Scaling every entry by `c` scales the sum by `c`. */
  lemma {:induction false} SumScale(v: Vector, r: Vector, c: real)
    requires |r| == |v|
    requires forall j | 0 <= j < |v| :: r[j] == v[j] * c
    ensures Sum(r) == Sum(v) * c
  {
    if |v| > 0 {
      SumScale(v[1..], r[1..], c);
    }
  }

  /** A vector whose entries are all `c` sums to its length times `c`. */
  lemma {:induction false} SumConstant(v: Vector, c: real)
    requires forall j | 0 <= j < |v| :: v[j] == c
    ensures Sum(v) == |v| as real * c
  {
    if |v| > 0 {
      SumConstant(v[1..], c);
    }
  }

  /** A sum of non-negative entries is non-negative. */
  lemma {:induction false} SumNonNegative(v: Vector)
    requires forall j | 0 <= j < |v| :: v[j] >= 0.0
    ensures Sum(v) >= 0.0
  {
    if |v| > 0 {
      SumNonNegative(v[1..]);
    }
  }

  /** Changing one entry by `delta`, and no other, changes the sum by `delta`. */
  lemma {:induction false} SumPointChange(u: Vector, v: Vector, j: nat, delta: real)
    requires |u| == |v| && j < |v|
    requires forall m | 0 <= m < |v| :: u[m] == v[m] + (if m == j then delta else 0.0)
    ensures Sum(u) == Sum(v) + delta
  {
    if j == 0 {
      assert u[1..] == v[1..];
    } else {
      SumPointChange(u[1..], v[1..], j - 1, delta);
    }
  }

  /** Setting the first entry to zero removes it from the sum. */
  lemma SumZeroHead(v: Vector)
    requires |v| >= 1
    ensures Sum(v[0 := 0.0]) == Sum(v[1..])
  {
    assert v[0 := 0.0][1..] == v[1..];
  }
}
