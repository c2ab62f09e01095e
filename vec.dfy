/**
 * `Vec4`: the four-component homogeneous vector of the math module, an immutable
 * `Copy` value holding `[f64; 4]` (modelled over `real`).
 */
module Vec {

  /** A Rust `[f64; 4]`. */
  type Row4 = s: seq<real> | |s| == 4 witness [0.0, 0.0, 0.0, 0.0]

  /** A Rust `[f64; 2]`, the result of the 2×4 product. */
  type Pair = s: seq<real> | |s| == 2 witness [0.0, 0.0]

  /** The all-zero `[f64; 4]`. */
  const Zeros: Row4 := [0.0, 0.0, 0.0, 0.0]

  /** A Rust `[[f64; 4]; 2]`. */
  type Rows2 = s: seq<Row4> | |s| == 2 witness [Zeros, Zeros]

  /** A Rust `i32`, the component type of the integer triples a `Vec4` is built from. */
  newtype i32 = x: int | -0x8000_0000 <= x < 0x8000_0000

  datatype Vec4 = Vec4(value: Row4) {

    function X(): real { value[0] }
    function Y(): real { value[1] }
    function Z(): real { value[2] }
    function W(): real { value[3] }

    /** `AsRef<[f64; 4]>`: the underlying array. */
    function AsRef(): Row4 { value }
  }

  /**
   * The sum over j of a[j] * b[j]: the reference definition against which every
   * unrolled four-term product of the source is stated.
   */
  function Dot(a: seq<real>, b: seq<real>): real
    requires |a| == |b|
    decreases |a|
  {
    if |a| == 0 then 0.0 else a[0] * b[0] + Dot(a[1..], b[1..])
  }

  /** The sum over four components is the four-term expression the source writes out. */
  lemma Dot4(a: Row4, b: Row4)
    ensures Dot(a, b) == a[0] * b[0] + a[1] * b[1] + a[2] * b[2] + a[3] * b[3]
  {
    assert a[1..][1..] == a[2..] && b[1..][1..] == b[2..];
    assert a[2..][1..] == a[3..] && b[2..][1..] == b[3..];
    assert a[3..][1..] == [] && b[3..][1..] == [];
    assert Dot(a[3..], b[3..]) == a[3] * b[3];
    assert Dot(a[2..], b[2..]) == a[2] * b[2] + a[3] * b[3];
    assert Dot(a[1..], b[1..]) == a[1] * b[1] + a[2] * b[2] + a[3] * b[3];
  }

  /** Two vectors with the same four components are equal. */
  lemma Ext(u: Vec4, v: Vec4)
    requires u.X() == v.X() && u.Y() == v.Y() && u.Z() == v.Z() && u.W() == v.W()
    ensures u == v
  {
    assert forall i | 0 <= i < 4 :: u.value[i] == v.value[i];
  }

  /** `Vec4::new`: components read back in order through the accessors. */
  function New(x: real, y: real, z: real, w: real): (v: Vec4)
    ensures v.X() == x && v.Y() == y && v.Z() == z && v.W() == w
  {
    Vec4([x, y, z, w])
  }

  /** `Vec4::default()` (derived): every component 0. */
  function Default(): (v: Vec4)
    ensures forall i :: 0 <= i < 4 ==> v.value[i] == 0.0
  {
    Vec4([0.0, 0.0, 0.0, 0.0])
  }

  /** `From<[f64; 4]>`: wraps the array, which `AsRef` gives back unchanged. */
  function From(a: Row4): (v: Vec4)
    ensures v.AsRef() == a
    ensures v.X() == a[0] && v.Y() == a[1] && v.Z() == a[2] && v.W() == a[3]
  {
    Vec4(a)
  }

  /** `From<(i32, i32, i32)>`: a point with w = 1. */
  function FromTriple(t: (i32, i32, i32)): (v: Vec4)
    ensures v.X() == t.0 as int as real && v.Y() == t.1 as int as real
    ensures v.Z() == t.2 as int as real && v.W() == 1.0
  {
    Vec4([t.0 as int as real, t.1 as int as real, t.2 as int as real, 1.0])
  }

  /** `From<&(i32, i32, i32)>`: the same conversion through a borrow. */
  function FromTripleRef(t: (i32, i32, i32)): (v: Vec4)
    ensures v.X() == t.0 as int as real && v.Y() == t.1 as int as real
    ensures v.Z() == t.2 as int as real && v.W() == 1.0
  {
    var (x, y, z) := t;
    Vec4([x as int as real, y as int as real, z as int as real, 1.0])
  }

  /** The owned and the borrowed triple conversions agree. */
  lemma FromTriplesAgree(t: (i32, i32, i32))
    ensures FromTripleRef(t) == FromTriple(t)
  {
    assert FromTripleRef(t).value == FromTriple(t).value;
  }

  /**
   * `Mul<[[f64; 4]; 2]> for Vec4`: the dot products of the vector with the two rows.
   */
  function MulRows(v: Vec4, rhs: Rows2): (r: Pair)
    ensures forall k :: 0 <= k < 2 ==> r[k] == Dot(v.value, rhs[k])
  {
    Dot4(v.value, rhs[0]);
    Dot4(v.value, rhs[1]);
    [
      v.value[0] * rhs[0][0] + v.value[1] * rhs[0][1] + v.value[2] * rhs[0][2] + v.value[3] * rhs[0][3],
      v.value[0] * rhs[1][0] + v.value[1] * rhs[1][1] + v.value[2] * rhs[1][2] + v.value[3] * rhs[1][3]
    ]
  }

  /** a·u + b·v, componentwise: used to state that the matrix product is linear. */
  function Combine(a: real, u: Vec4, b: real, v: Vec4): (r: Vec4)
    ensures forall i :: 0 <= i < 4 ==> r.value[i] == a * u.value[i] + b * v.value[i]
  {
    New(a * u.X() + b * v.X(), a * u.Y() + b * v.Y(), a * u.Z() + b * v.Z(), a * u.W() + b * v.W())
  }
}
