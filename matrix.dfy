/** Dense real vectors and matrices, the stand-in for the Eigen `VectorXd` and
    `MatrixXd` values that the fusion controller and its Kalman filter pass
    around. Values are sequences (row-major); the filter's own storage is
    `array`/`array2`, and `MatOf`, `Fill` and `Assign` move between the two. */
module Matrix {

  type Vec = seq<real>
  type Mat = seq<seq<real>>

  /** `m` has `rows` rows of `cols` entries each. */
  predicate IsMat(m: Mat, rows: nat, cols: nat) {
    |m| == rows && forall i | 0 <= i < rows :: |m[i]| == cols
  }

  function Zero(rows: nat, cols: nat): (z: Mat)
    ensures IsMat(z, rows, cols)
    ensures forall i, j | 0 <= i < rows && 0 <= j < cols :: z[i][j] == 0.0
  {
    seq(rows, _ => seq(cols, _ => 0.0))
  }

  type Vec4 = v: Vec | |v| == 4 witness [0.0, 0.0, 0.0, 0.0]
  type Mat4 = m: Mat | IsMat(m, 4, 4) witness Zero(4, 4)

  /** Two 4-vectors are equal when their four entries are. */
  lemma Vec4Ext(u: Vec, v: Vec)
    requires |u| == |v| == 4
    requires u[0] == v[0] && u[1] == v[1] && u[2] == v[2] && u[3] == v[3]
    ensures u == v
  {
  }

  /** Two 4x4 matrices are equal when their sixteen entries are. */
  lemma Mat4Ext(a: Mat4, b: Mat4)
    requires a[0][0] == b[0][0] && a[0][1] == b[0][1] && a[0][2] == b[0][2] && a[0][3] == b[0][3]
    requires a[1][0] == b[1][0] && a[1][1] == b[1][1] && a[1][2] == b[1][2] && a[1][3] == b[1][3]
    requires a[2][0] == b[2][0] && a[2][1] == b[2][1] && a[2][2] == b[2][2] && a[2][3] == b[2][3]
    requires a[3][0] == b[3][0] && a[3][1] == b[3][1] && a[3][2] == b[3][2] && a[3][3] == b[3][3]
    ensures a == b
  {
    Vec4Ext(a[0], b[0]);
    Vec4Ext(a[1], b[1]);
    Vec4Ext(a[2], b[2]);
    Vec4Ext(a[3], b[3]);
    forall i | 0 <= i < 4
      ensures a[i] == b[i]
    {
      if i == 0 {
      } else if i == 1 {
      } else if i == 2 {
      } else {
      }
    }
  }

  /** The matrix `m` with the single entry (i, j) replaced by `v`: Eigen's
      coefficient assignment `m(i, j) = v` on a value. */
  function Set(m: Mat4, i: nat, j: nat, v: real): (r: Mat4)
    requires i < 4 && j < 4
    ensures r[i][j] == v
  {
    m[i := m[i][j := v]]
  }

  function Dot(u: Vec, v: Vec): real
    requires |u| == |v|
  {
    if |u| == 0 then 0.0 else u[0] * v[0] + Dot(u[1..], v[1..])
  }

  /** The dot product of two 4-vectors written out. */
  lemma Dot4(u: Vec, v: Vec)
    requires |u| == |v| == 4
    ensures Dot(u, v) == u[0] * v[0] + u[1] * v[1] + u[2] * v[2] + u[3] * v[3]
  {
    var u1, v1 := u[1..], v[1..];
    var u2, v2 := u1[1..], v1[1..];
    var u3, v3 := u2[1..], v2[1..];
    assert Dot(u3, v3) == u3[0] * v3[0] + Dot(u3[1..], v3[1..]);
    assert Dot(u3[1..], v3[1..]) == 0.0;
    assert Dot(u2, v2) == u2[0] * v2[0] + Dot(u3, v3);
    assert Dot(u1, v1) == u1[0] * v1[0] + Dot(u2, v2);
  }

  /** Matrix-vector product `m * v`. */
  function MatVec(m: Mat, v: Vec): (r: Vec)
    requires forall i | 0 <= i < |m| :: |m[i]| == |v|
    ensures |r| == |m| && forall i | 0 <= i < |m| :: r[i] == Dot(m[i], v)
  {
    seq(|m|, i requires 0 <= i < |m| => Dot(m[i], v))
  }

  /** The quadratic form `v' * m * v`. */
  function QuadForm(m: Mat, v: Vec): real
    requires |m| == |v| && forall i | 0 <= i < |m| :: |m[i]| == |v|
  {
    Dot(v, MatVec(m, v))
  }

  /** `pow(x, n)` for a natural exponent, as repeated multiplication. */
  function Pow(x: real, n: nat): real {
    if n == 0 then 1.0 else x * Pow(x, n - 1)
  }

  /** The powers 2, 3 and 4 used by the process-noise model, as products. */
  lemma {:induction false} PowSmall(x: real)
    ensures Pow(x, 2) == x * x
    ensures Pow(x, 3) == x * x * x
    ensures Pow(x, 4) == x * x * x * x
  {
    assert Pow(x, 1) == x * Pow(x, 0);
    assert Pow(x, 2) == x * Pow(x, 1);
    assert Pow(x, 3) == x * Pow(x, 2);
    assert Pow(x, 4) == x * Pow(x, 3);
  }

  /** The value held by a 4x4 array. */
  function MatOf(a: array2<real>): (m: Mat4)
    reads a
    requires a.Length0 == 4 && a.Length1 == 4
    ensures forall i, j | 0 <= i < 4 && 0 <= j < 4 :: m[i][j] == a[i, j]
  {
    [[a[0, 0], a[0, 1], a[0, 2], a[0, 3]],
     [a[1, 0], a[1, 1], a[1, 2], a[1, 3]],
     [a[2, 0], a[2, 1], a[2, 2], a[2, 3]],
     [a[3, 0], a[3, 1], a[3, 2], a[3, 3]]]
  }

  /** Overwrites every entry of the 4x4 array `a` with the matrix `m`. */
  method Fill(a: array2<real>, m: Mat4)
    requires a.Length0 == 4 && a.Length1 == 4
    modifies a
    ensures MatOf(a) == m
  {
    forall i, j | 0 <= i < 4 && 0 <= j < 4 {
      a[i, j] := m[i][j];
    }
    Mat4Ext(MatOf(a), m);
  }

  /** Overwrites every entry of `a` with the vector `v`. */
  method FillVec(a: array<real>, v: Vec)
    requires |v| == a.Length
    modifies a
    ensures a[..] == v
  {
    forall i | 0 <= i < a.Length {
      a[i] := v[i];
    }
  }

  /** Eigen's in-place coefficient assignment `a(i, j) = v` on a 4x4 array. */
  method Assign(a: array2<real>, i: nat, j: nat, v: real)
    requires a.Length0 == 4 && a.Length1 == 4 && i < 4 && j < 4
    modifies a
    ensures MatOf(a) == Set(old(MatOf(a)), i, j, v)
  {
    ghost var before := MatOf(a);
    a[i, j] := v;
    Mat4Ext(MatOf(a), Set(before, i, j, v));
  }
}
