/**
 * `Mat4`: the 4×4 matrix of the math module, an immutable `Copy` value holding
 * `[[f64; 4]; 4]` in row-major order, and its product with a `Vec4`.
 */
module Mat {
  import opened Vec

  /** A Rust `[[f64; 4]; 4]`, row by row. */
  type Grid4 = s: seq<Row4> | |s| == 4 witness [Zeros, Zeros, Zeros, Zeros]

  datatype Mat4 = Mat4(value: Grid4) {

    /** `AsRef<[[f64; 4]; 4]>`: the underlying array. */
    function AsRef(): Grid4 { value }
  }

  /** `From<[[f64; 4]; 4]>`: wraps the array, which `AsRef` gives back unchanged. */
  function From(a: Grid4): (m: Mat4)
    ensures m.AsRef() == a
  {
    Mat4(a)
  }

  /** The identity matrix. */
  function Identity(): Mat4
  {
    Mat4([[1.0, 0.0, 0.0, 0.0],
          [0.0, 1.0, 0.0, 0.0],
          [0.0, 0.0, 1.0, 0.0],
          [0.0, 0.0, 0.0, 1.0]])
  }

  /**
   * `Mul<Vec4> for Mat4`: component i of the result is the sum over j of
   * m[i][j] * v[j]. Both operands are values, so neither is changed.
   */
  function MulVec(m: Mat4, v: Vec4): Vec4
  {
    New(
      m.value[0][0] * v.value[0] + m.value[0][1] * v.value[1] + m.value[0][2] * v.value[2] + m.value[0][3] * v.value[3],
      m.value[1][0] * v.value[0] + m.value[1][1] * v.value[1] + m.value[1][2] * v.value[2] + m.value[1][3] * v.value[3],
      m.value[2][0] * v.value[0] + m.value[2][1] * v.value[1] + m.value[2][2] * v.value[2] + m.value[2][3] * v.value[3],
      m.value[3][0] * v.value[0] + m.value[3][1] * v.value[1] + m.value[3][2] * v.value[2] + m.value[3][3] * v.value[3])
  }

  /**
   * `Mul<Mat4> for Vec4`: `v * m` swaps its operands and is the same column-vector
   * product `m * v` (row i of m against v), not a row-vector product.
   */
  function VecMulMat(v: Vec4, m: Mat4): (r: Vec4)
    ensures forall i :: 0 <= i < 4 ==> r.value[i] == Dot(m.value[i], v.value)
  {
    MulVecRows(m, v);
    MulVec(m, v)
  }

  /** Component i of M v is row i of M against v, for every i. */
  lemma MulVecRows(m: Mat4, v: Vec4)
    ensures forall i :: 0 <= i < 4 ==> MulVec(m, v).value[i] == Dot(m.value[i], v.value)
  {
    forall i | 0 <= i < 4
      ensures MulVec(m, v).value[i] == Dot(m.value[i], v.value)
    {
      Dot4(m.value[i], v.value);
    }
  }

  /** The identity matrix maps every vector to itself. */
  lemma IdentityMul(v: Vec4)
    ensures MulVec(Identity(), v) == v
  {
    var r := MulVec(Identity(), v);
    MulVecRows(Identity(), v);
    forall i | 0 <= i < 4
      ensures r.value[i] == v.value[i]
    {
      Dot4(Identity().value[i], v.value);
    }
  }

  /** Dot is linear in its second argument. */
  lemma {:induction false} DotLinear(row: seq<real>, a: real, u: seq<real>, b: real, v: seq<real>, c: seq<real>)
    requires |row| == |u| == |v| == |c|
    requires forall j :: 0 <= j < |c| ==> c[j] == a * u[j] + b * v[j]
    ensures Dot(row, c) == a * Dot(row, u) + b * Dot(row, v)
  {
    if |row| > 0 {
      DotLinear(row[1..], a, u[1..], b, v[1..], c[1..]);
      Distribute(row[0], a, u[0], b, v[0], Dot(row[1..], u[1..]), Dot(row[1..], v[1..]));
    }
  }

  /** The one step of algebra DotLinear needs. */
  lemma Distribute(r: real, a: real, u: real, b: real, v: real, x: real, y: real)
    ensures r * (a * u + b * v) + (a * x + b * y) == a * (r * u + x) + b * (r * v + y)
  {
    calc {
      r * (a * u + b * v) + (a * x + b * y);
      r * (a * u) + r * (b * v) + a * x + b * y;
      a * (r * u) + b * (r * v) + a * x + b * y;
    }
  }

  /** One row of the product is linear in the vector. */
  lemma RowLinear(row: Row4, a: real, u: Vec4, b: real, v: Vec4)
    ensures Dot(row, Combine(a, u, b, v).value) == a * Dot(row, u.value) + b * Dot(row, v.value)
  {
    DotLinear(row, a, u.value, b, v.value, Combine(a, u, b, v).value);
  }

  /** The product is linear: M (a·u + b·v) = a·(M u) + b·(M v). */
  lemma MulLinear(m: Mat4, a: real, u: Vec4, b: real, v: Vec4)
    ensures MulVec(m, Combine(a, u, b, v)) == Combine(a, MulVec(m, u), b, MulVec(m, v))
  {
    var lhs := MulVec(m, Combine(a, u, b, v));
    var rhs := Combine(a, MulVec(m, u), b, MulVec(m, v));
    MulVecRows(m, Combine(a, u, b, v));
    MulVecRows(m, u);
    MulVecRows(m, v);
    RowLinear(m.value[0], a, u, b, v);
    RowLinear(m.value[1], a, u, b, v);
    RowLinear(m.value[2], a, u, b, v);
    RowLinear(m.value[3], a, u, b, v);
    Ext(lhs, rhs);
  }

  /** A last row (0, 0, 0, 1) carries w through unchanged. */
  lemma AffineKeepsW(m: Mat4, v: Vec4)
    requires m.value[3] == [0.0, 0.0, 0.0, 1.0]
    ensures MulVec(m, v).W() == v.W()
  {
  }
}
