/**
 * Vectors, 3x3 matrices and the rounding rules shared by the C++ and the
 * Python cell.  A box matrix keeps the three box vectors as its COLUMNS:
 * the program fills `m[0][1] = b·cos γ`, `m[1][1] = b·sin γ`, so column 1
 * is the second box vector.
 *
 * The trigonometric functions, the square root, the arc cosine and the
 * value of pi are not computed by the model; they come in as a `Trig`
 * record, and the lemmas that need a fact about them (cos 90° = 0) say so
 * in their `requires`.
 */
module CellMath {

  import opened Common

  type Vec3 = v: seq<real> | |v| == 3 witness [0.0, 0.0, 0.0]
  type Mat3 = m: seq<Vec3> | |m| == 3 witness [Zero3, Zero3, Zero3]

  datatype Trig = Trig(cos: real -> real, sin: real -> real, sqrt: real -> real,
                       acos: real -> real, pi: real)

  /** The functions of the record, applied. */
  function Cos(t: Trig, x: real): real { t.cos(x) }
  function Sin(t: Trig, x: real): real { t.sin(x) }
  function Sqrt(t: Trig, x: real): real { t.sqrt(x) }
  function Acos(t: Trig, x: real): real { t.acos(x) }

  /** `deg / 180.0 * M_PI` (C++) and `np.deg2rad(deg)` (Python). */
  function Rad(t: Trig, deg: real): real { deg / 180.0 * t.pi }

  /** The trigonometric facts at a right angle. */
  predicate RightAngleFacts(t: Trig)
  {
    Cos(t, Rad(t, 90.0)) == 0.0 && Sin(t, Rad(t, 90.0)) == 1.0 && Sqrt(t, 1.0) == 1.0
  }

  /** `sqrt` behaves as the square root on the non-negative reals. */
  ghost predicate IsSquareRoot(t: Trig)
  {
    forall x: real :: x >= 0.0 ==> Sqrt(t, x) >= 0.0 && Sqrt(t, x) * Sqrt(t, x) == x
  }

  const Zero3: Vec3 := [0.0, 0.0, 0.0]
  const ZeroMat: Mat3 := [Zero3, Zero3, Zero3]
  const Identity: Mat3 := [[1.0, 0.0, 0.0], [0.0, 1.0, 0.0], [0.0, 0.0, 1.0]]

  function Dot(u: Vec3, v: Vec3): real { u[0] * v[0] + u[1] * v[1] + u[2] * v[2] }

  function Column(m: Mat3, j: nat): Vec3
    requires j < 3
  {
    [m[0][j], m[1][j], m[2][j]]
  }

  /** `m @ v`: row i of m dotted with v. */
  function MatVec(m: Mat3, v: Vec3): (r: Vec3)
    ensures forall i :: 0 <= i < 3 ==> r[i] == Dot(m[i], v)
  {
    [Dot(m[0], v), Dot(m[1], v), Dot(m[2], v)]
  }

  /** `u[0] * v[0] + ... + u[n-1] * v[n-1]`: a dot product accumulated term by term. */
  function DotUpTo(u: Vec3, v: Vec3, n: nat): real
    requires n <= 3
  {
    if n == 0 then 0.0 else DotUpTo(u, v, n - 1) + u[n - 1] * v[n - 1]
  }

  /** Accumulating all three terms gives the dot product, in either order of the factors. */
  lemma DotUpToFull(u: Vec3, v: Vec3)
    ensures DotUpTo(u, v, 3) == Dot(u, v) == Dot(v, u)
  {
    assert DotUpTo(u, v, 1) == u[0] * v[0];
    assert DotUpTo(u, v, 2) == u[0] * v[0] + u[1] * v[1];
  }

  /** `mᵀ @ v`: column j of m dotted with v. */
  function TransposeVec(m: Mat3, v: Vec3): (r: Vec3)
    ensures forall j :: 0 <= j < 3 ==> r[j] == Dot(Column(m, j), v)
  {
    [Dot(Column(m, 0), v), Dot(Column(m, 1), v), Dot(Column(m, 2), v)]
  }

  function Add(u: Vec3, v: Vec3): Vec3 { [u[0] + v[0], u[1] + v[1], u[2] + v[2]] }
  function Sub(u: Vec3, v: Vec3): Vec3 { [u[0] - v[0], u[1] - v[1], u[2] - v[2]] }
  function Scale(c: real, v: Vec3): Vec3 { [c * v[0], c * v[1], c * v[2]] }

  function MatMul(a: Mat3, b: Mat3): Mat3
  {
    [[Dot(a[0], Column(b, 0)), Dot(a[0], Column(b, 1)), Dot(a[0], Column(b, 2))],
     [Dot(a[1], Column(b, 0)), Dot(a[1], Column(b, 1)), Dot(a[1], Column(b, 2))],
     [Dot(a[2], Column(b, 0)), Dot(a[2], Column(b, 1)), Dot(a[2], Column(b, 2))]]
  }

  /** The six-term cofactor expansion of the determinant (`Cell::volume`). */
  function Det(m: Mat3): real
  {
    m[0][0] * m[1][1] * m[2][2] + m[0][1] * m[1][2] * m[2][0] + m[0][2] * m[1][0] * m[2][1]
    - m[0][2] * m[1][1] * m[2][0] - m[0][1] * m[1][0] * m[2][2] - m[0][0] * m[1][2] * m[2][1]
  }

  predicate UpperTriangular(m: Mat3) { m[1][0] == 0.0 && m[2][0] == 0.0 && m[2][1] == 0.0 }

  /** An upper-triangular determinant is the product of the diagonal. */
  lemma DetUpperTriangular(m: Mat3)
    requires UpperTriangular(m)
    ensures Det(m) == m[0][0] * m[1][1] * m[2][2]
  {
  }

  function Adjugate(m: Mat3): Mat3
  {
    [[m[1][1] * m[2][2] - m[1][2] * m[2][1], m[0][2] * m[2][1] - m[0][1] * m[2][2], m[0][1] * m[1][2] - m[0][2] * m[1][1]],
     [m[1][2] * m[2][0] - m[1][0] * m[2][2], m[0][0] * m[2][2] - m[0][2] * m[2][0], m[0][2] * m[1][0] - m[0][0] * m[1][2]],
     [m[1][0] * m[2][1] - m[1][1] * m[2][0], m[0][1] * m[2][0] - m[0][0] * m[2][1], m[0][0] * m[1][1] - m[0][1] * m[1][0]]]
  }

  /** `np.linalg.inv`: the inverse when the determinant is not zero, otherwise LinAlgError. */
  function Inverse(m: Mat3): (r: Option<Mat3>)
    ensures r.Some? <==> Det(m) != 0.0
  {
    var d := Det(m);
    if d == 0.0 then None
    else
      Some(DivideAll(Adjugate(m), d))
  }

  /** Every entry of `a` divided by `d`. */
  function DivideAll(a: Mat3, d: real): (r: Mat3)
    requires d != 0.0
    ensures forall i, j :: 0 <= i < 3 && 0 <= j < 3 ==> r[i][j] == a[i][j] / d
  {
    [[a[0][0] / d, a[0][1] / d, a[0][2] / d],
     [a[1][0] / d, a[1][1] / d, a[1][2] / d],
     [a[2][0] / d, a[2][1] / d, a[2][2] / d]]
  }

  /** Entry (i, j) of a product, written out. */
  lemma MatMulEntry(x: Mat3, y: Mat3, i: nat, j: nat)
    requires i < 3 && j < 3
    ensures MatMul(x, y)[i][j] == x[i][0] * y[0][j] + x[i][1] * y[1][j] + x[i][2] * y[2][j]
  {
  }

  /** Replacing equals by equals inside a dot product (both orders of the factors). */
  lemma Subst3(a: real, b: real, c: real, x: real, y: real, z: real, X: real, Y: real, Z: real)
    requires x == X && y == Y && z == Z
    ensures a * x + b * y + c * z == a * X + b * Y + c * Z
  {
  }

  lemma Subst3Left(a: real, b: real, c: real, x: real, y: real, z: real, X: real, Y: real, Z: real)
    requires x == X && y == Y && z == Z
    ensures x * a + y * b + z * c == X * a + Y * b + Z * c
  {
  }

  /**
   * Entry (r, k) of `m · m⁻¹` and of `m⁻¹ · m` is 1 on the diagonal and 0
   * elsewhere; a..i name m's entries row by row and D is its determinant.
   */
  /** Dividing each term of a dot product by `D` divides the sum. */
  lemma OverD(a: real, b: real, c: real, x: real, y: real, z: real, D: real)
    requires D != 0.0
    ensures a * (x / D) + b * (y / D) + c * (z / D) == (a * x + b * y + c * z) / D
  {
  }

  lemma OverDLeft(a: real, b: real, c: real, x: real, y: real, z: real, D: real)
    requires D != 0.0
    ensures (x / D) * a + (y / D) * b + (z / D) * c == (x * a + y * b + z * c) / D
  {
  }

  lemma InverseRightEntry00Scalar(a: real, b: real, c: real, d: real, e: real, f: real, g: real, h: real, i: real, D: real, x: real, y: real, z: real)
    requires D == a * e * i + b * f * g + c * d * h - c * e * g - b * d * i - a * f * h && D != 0.0
    requires x == e * i - f * h && y == f * g - d * i && z == d * h - e * g
    ensures a * (x / D) + b * (y / D) + c * (z / D) == 1.0
  {
    OverD(a, b, c, x, y, z, D);
    assert a * x + b * y + c * z == D;
  }

  lemma InverseRightEntry00(m: Mat3)
    requires Det(m) != 0.0
    ensures MatMul(m, Inverse(m).value)[0][0] == 1.0
  {
    var inv, adj, D := Inverse(m).value, Adjugate(m), Det(m);
    var a, b, c, d, e, f, g, h, i := m[0][0], m[0][1], m[0][2], m[1][0], m[1][1], m[1][2], m[2][0], m[2][1], m[2][2];
    assert inv[0][0] == adj[0][0] / D && inv[1][0] == adj[1][0] / D && inv[2][0] == adj[2][0] / D;
    MatMulEntry(m, inv, 0, 0);
    Subst3(a, b, c, inv[0][0], inv[1][0], inv[2][0], adj[0][0] / D, adj[1][0] / D, adj[2][0] / D);
    InverseRightEntry00Scalar(a, b, c, d, e, f, g, h, i, D, adj[0][0], adj[1][0], adj[2][0]);
  }

  lemma InverseRightEntry01Scalar(a: real, b: real, c: real, d: real, e: real, f: real, g: real, h: real, i: real, D: real, x: real, y: real, z: real)
    requires D == a * e * i + b * f * g + c * d * h - c * e * g - b * d * i - a * f * h && D != 0.0
    requires x == c * h - b * i && y == a * i - c * g && z == b * g - a * h
    ensures a * (x / D) + b * (y / D) + c * (z / D) == 0.0
  {
    OverD(a, b, c, x, y, z, D);
    assert a * x + b * y + c * z == 0.0;
  }

  lemma InverseRightEntry01(m: Mat3)
    requires Det(m) != 0.0
    ensures MatMul(m, Inverse(m).value)[0][1] == 0.0
  {
    var inv, adj, D := Inverse(m).value, Adjugate(m), Det(m);
    var a, b, c, d, e, f, g, h, i := m[0][0], m[0][1], m[0][2], m[1][0], m[1][1], m[1][2], m[2][0], m[2][1], m[2][2];
    assert inv[0][1] == adj[0][1] / D && inv[1][1] == adj[1][1] / D && inv[2][1] == adj[2][1] / D;
    MatMulEntry(m, inv, 0, 1);
    Subst3(a, b, c, inv[0][1], inv[1][1], inv[2][1], adj[0][1] / D, adj[1][1] / D, adj[2][1] / D);
    InverseRightEntry01Scalar(a, b, c, d, e, f, g, h, i, D, adj[0][1], adj[1][1], adj[2][1]);
  }

  lemma InverseRightEntry02Scalar(a: real, b: real, c: real, d: real, e: real, f: real, g: real, h: real, i: real, D: real, x: real, y: real, z: real)
    requires D == a * e * i + b * f * g + c * d * h - c * e * g - b * d * i - a * f * h && D != 0.0
    requires x == b * f - c * e && y == c * d - a * f && z == a * e - b * d
    ensures a * (x / D) + b * (y / D) + c * (z / D) == 0.0
  {
    OverD(a, b, c, x, y, z, D);
    assert a * x + b * y + c * z == 0.0;
  }

  lemma InverseRightEntry02(m: Mat3)
    requires Det(m) != 0.0
    ensures MatMul(m, Inverse(m).value)[0][2] == 0.0
  {
    var inv, adj, D := Inverse(m).value, Adjugate(m), Det(m);
    var a, b, c, d, e, f, g, h, i := m[0][0], m[0][1], m[0][2], m[1][0], m[1][1], m[1][2], m[2][0], m[2][1], m[2][2];
    assert inv[0][2] == adj[0][2] / D && inv[1][2] == adj[1][2] / D && inv[2][2] == adj[2][2] / D;
    MatMulEntry(m, inv, 0, 2);
    Subst3(a, b, c, inv[0][2], inv[1][2], inv[2][2], adj[0][2] / D, adj[1][2] / D, adj[2][2] / D);
    InverseRightEntry02Scalar(a, b, c, d, e, f, g, h, i, D, adj[0][2], adj[1][2], adj[2][2]);
  }

  lemma InverseRightEntry10Scalar(a: real, b: real, c: real, d: real, e: real, f: real, g: real, h: real, i: real, D: real, x: real, y: real, z: real)
    requires D == a * e * i + b * f * g + c * d * h - c * e * g - b * d * i - a * f * h && D != 0.0
    requires x == e * i - f * h && y == f * g - d * i && z == d * h - e * g
    ensures d * (x / D) + e * (y / D) + f * (z / D) == 0.0
  {
    OverD(d, e, f, x, y, z, D);
    assert d * x + e * y + f * z == 0.0;
  }

  lemma InverseRightEntry10(m: Mat3)
    requires Det(m) != 0.0
    ensures MatMul(m, Inverse(m).value)[1][0] == 0.0
  {
    var inv, adj, D := Inverse(m).value, Adjugate(m), Det(m);
    var a, b, c, d, e, f, g, h, i := m[0][0], m[0][1], m[0][2], m[1][0], m[1][1], m[1][2], m[2][0], m[2][1], m[2][2];
    assert inv[0][0] == adj[0][0] / D && inv[1][0] == adj[1][0] / D && inv[2][0] == adj[2][0] / D;
    MatMulEntry(m, inv, 1, 0);
    Subst3(d, e, f, inv[0][0], inv[1][0], inv[2][0], adj[0][0] / D, adj[1][0] / D, adj[2][0] / D);
    InverseRightEntry10Scalar(a, b, c, d, e, f, g, h, i, D, adj[0][0], adj[1][0], adj[2][0]);
  }

  lemma InverseRightEntry11Scalar(a: real, b: real, c: real, d: real, e: real, f: real, g: real, h: real, i: real, D: real, x: real, y: real, z: real)
    requires D == a * e * i + b * f * g + c * d * h - c * e * g - b * d * i - a * f * h && D != 0.0
    requires x == c * h - b * i && y == a * i - c * g && z == b * g - a * h
    ensures d * (x / D) + e * (y / D) + f * (z / D) == 1.0
  {
    OverD(d, e, f, x, y, z, D);
    assert d * x + e * y + f * z == D;
  }

  lemma InverseRightEntry11(m: Mat3)
    requires Det(m) != 0.0
    ensures MatMul(m, Inverse(m).value)[1][1] == 1.0
  {
    var inv, adj, D := Inverse(m).value, Adjugate(m), Det(m);
    var a, b, c, d, e, f, g, h, i := m[0][0], m[0][1], m[0][2], m[1][0], m[1][1], m[1][2], m[2][0], m[2][1], m[2][2];
    assert inv[0][1] == adj[0][1] / D && inv[1][1] == adj[1][1] / D && inv[2][1] == adj[2][1] / D;
    MatMulEntry(m, inv, 1, 1);
    Subst3(d, e, f, inv[0][1], inv[1][1], inv[2][1], adj[0][1] / D, adj[1][1] / D, adj[2][1] / D);
    InverseRightEntry11Scalar(a, b, c, d, e, f, g, h, i, D, adj[0][1], adj[1][1], adj[2][1]);
  }

  lemma InverseRightEntry12Scalar(a: real, b: real, c: real, d: real, e: real, f: real, g: real, h: real, i: real, D: real, x: real, y: real, z: real)
    requires D == a * e * i + b * f * g + c * d * h - c * e * g - b * d * i - a * f * h && D != 0.0
    requires x == b * f - c * e && y == c * d - a * f && z == a * e - b * d
    ensures d * (x / D) + e * (y / D) + f * (z / D) == 0.0
  {
    OverD(d, e, f, x, y, z, D);
    assert d * x + e * y + f * z == 0.0;
  }

  lemma InverseRightEntry12(m: Mat3)
    requires Det(m) != 0.0
    ensures MatMul(m, Inverse(m).value)[1][2] == 0.0
  {
    var inv, adj, D := Inverse(m).value, Adjugate(m), Det(m);
    var a, b, c, d, e, f, g, h, i := m[0][0], m[0][1], m[0][2], m[1][0], m[1][1], m[1][2], m[2][0], m[2][1], m[2][2];
    assert inv[0][2] == adj[0][2] / D && inv[1][2] == adj[1][2] / D && inv[2][2] == adj[2][2] / D;
    MatMulEntry(m, inv, 1, 2);
    Subst3(d, e, f, inv[0][2], inv[1][2], inv[2][2], adj[0][2] / D, adj[1][2] / D, adj[2][2] / D);
    InverseRightEntry12Scalar(a, b, c, d, e, f, g, h, i, D, adj[0][2], adj[1][2], adj[2][2]);
  }

  lemma InverseRightEntry20Scalar(a: real, b: real, c: real, d: real, e: real, f: real, g: real, h: real, i: real, D: real, x: real, y: real, z: real)
    requires D == a * e * i + b * f * g + c * d * h - c * e * g - b * d * i - a * f * h && D != 0.0
    requires x == e * i - f * h && y == f * g - d * i && z == d * h - e * g
    ensures g * (x / D) + h * (y / D) + i * (z / D) == 0.0
  {
    OverD(g, h, i, x, y, z, D);
    assert g * x + h * y + i * z == 0.0;
  }

  lemma InverseRightEntry20(m: Mat3)
    requires Det(m) != 0.0
    ensures MatMul(m, Inverse(m).value)[2][0] == 0.0
  {
    var inv, adj, D := Inverse(m).value, Adjugate(m), Det(m);
    var a, b, c, d, e, f, g, h, i := m[0][0], m[0][1], m[0][2], m[1][0], m[1][1], m[1][2], m[2][0], m[2][1], m[2][2];
    assert inv[0][0] == adj[0][0] / D && inv[1][0] == adj[1][0] / D && inv[2][0] == adj[2][0] / D;
    MatMulEntry(m, inv, 2, 0);
    Subst3(g, h, i, inv[0][0], inv[1][0], inv[2][0], adj[0][0] / D, adj[1][0] / D, adj[2][0] / D);
    InverseRightEntry20Scalar(a, b, c, d, e, f, g, h, i, D, adj[0][0], adj[1][0], adj[2][0]);
  }

  lemma InverseRightEntry21Scalar(a: real, b: real, c: real, d: real, e: real, f: real, g: real, h: real, i: real, D: real, x: real, y: real, z: real)
    requires D == a * e * i + b * f * g + c * d * h - c * e * g - b * d * i - a * f * h && D != 0.0
    requires x == c * h - b * i && y == a * i - c * g && z == b * g - a * h
    ensures g * (x / D) + h * (y / D) + i * (z / D) == 0.0
  {
    OverD(g, h, i, x, y, z, D);
    assert g * x + h * y + i * z == 0.0;
  }

  lemma InverseRightEntry21(m: Mat3)
    requires Det(m) != 0.0
    ensures MatMul(m, Inverse(m).value)[2][1] == 0.0
  {
    var inv, adj, D := Inverse(m).value, Adjugate(m), Det(m);
    var a, b, c, d, e, f, g, h, i := m[0][0], m[0][1], m[0][2], m[1][0], m[1][1], m[1][2], m[2][0], m[2][1], m[2][2];
    assert inv[0][1] == adj[0][1] / D && inv[1][1] == adj[1][1] / D && inv[2][1] == adj[2][1] / D;
    MatMulEntry(m, inv, 2, 1);
    Subst3(g, h, i, inv[0][1], inv[1][1], inv[2][1], adj[0][1] / D, adj[1][1] / D, adj[2][1] / D);
    InverseRightEntry21Scalar(a, b, c, d, e, f, g, h, i, D, adj[0][1], adj[1][1], adj[2][1]);
  }

  lemma InverseRightEntry22Scalar(a: real, b: real, c: real, d: real, e: real, f: real, g: real, h: real, i: real, D: real, x: real, y: real, z: real)
    requires D == a * e * i + b * f * g + c * d * h - c * e * g - b * d * i - a * f * h && D != 0.0
    requires x == b * f - c * e && y == c * d - a * f && z == a * e - b * d
    ensures g * (x / D) + h * (y / D) + i * (z / D) == 1.0
  {
    OverD(g, h, i, x, y, z, D);
    assert g * x + h * y + i * z == D;
  }

  lemma InverseRightEntry22(m: Mat3)
    requires Det(m) != 0.0
    ensures MatMul(m, Inverse(m).value)[2][2] == 1.0
  {
    var inv, adj, D := Inverse(m).value, Adjugate(m), Det(m);
    var a, b, c, d, e, f, g, h, i := m[0][0], m[0][1], m[0][2], m[1][0], m[1][1], m[1][2], m[2][0], m[2][1], m[2][2];
    assert inv[0][2] == adj[0][2] / D && inv[1][2] == adj[1][2] / D && inv[2][2] == adj[2][2] / D;
    MatMulEntry(m, inv, 2, 2);
    Subst3(g, h, i, inv[0][2], inv[1][2], inv[2][2], adj[0][2] / D, adj[1][2] / D, adj[2][2] / D);
    InverseRightEntry22Scalar(a, b, c, d, e, f, g, h, i, D, adj[0][2], adj[1][2], adj[2][2]);
  }

  lemma InverseLeftEntry00Scalar(a: real, b: real, c: real, d: real, e: real, f: real, g: real, h: real, i: real, D: real, x: real, y: real, z: real)
    requires D == a * e * i + b * f * g + c * d * h - c * e * g - b * d * i - a * f * h && D != 0.0
    requires x == e * i - f * h && y == c * h - b * i && z == b * f - c * e
    ensures (x / D) * a + (y / D) * d + (z / D) * g == 1.0
  {
    OverDLeft(a, d, g, x, y, z, D);
    assert x * a + y * d + z * g == D;
  }

  lemma InverseLeftEntry00(m: Mat3)
    requires Det(m) != 0.0
    ensures MatMul(Inverse(m).value, m)[0][0] == 1.0
  {
    var inv, adj, D := Inverse(m).value, Adjugate(m), Det(m);
    var a, b, c, d, e, f, g, h, i := m[0][0], m[0][1], m[0][2], m[1][0], m[1][1], m[1][2], m[2][0], m[2][1], m[2][2];
    assert inv[0][0] == adj[0][0] / D && inv[0][1] == adj[0][1] / D && inv[0][2] == adj[0][2] / D;
    MatMulEntry(inv, m, 0, 0);
    Subst3Left(a, d, g, inv[0][0], inv[0][1], inv[0][2], adj[0][0] / D, adj[0][1] / D, adj[0][2] / D);
    InverseLeftEntry00Scalar(a, b, c, d, e, f, g, h, i, D, adj[0][0], adj[0][1], adj[0][2]);
  }

  lemma InverseLeftEntry01Scalar(a: real, b: real, c: real, d: real, e: real, f: real, g: real, h: real, i: real, D: real, x: real, y: real, z: real)
    requires D == a * e * i + b * f * g + c * d * h - c * e * g - b * d * i - a * f * h && D != 0.0
    requires x == e * i - f * h && y == c * h - b * i && z == b * f - c * e
    ensures (x / D) * b + (y / D) * e + (z / D) * h == 0.0
  {
    OverDLeft(b, e, h, x, y, z, D);
    assert x * b + y * e + z * h == 0.0;
  }

  lemma InverseLeftEntry01(m: Mat3)
    requires Det(m) != 0.0
    ensures MatMul(Inverse(m).value, m)[0][1] == 0.0
  {
    var inv, adj, D := Inverse(m).value, Adjugate(m), Det(m);
    var a, b, c, d, e, f, g, h, i := m[0][0], m[0][1], m[0][2], m[1][0], m[1][1], m[1][2], m[2][0], m[2][1], m[2][2];
    assert inv[0][0] == adj[0][0] / D && inv[0][1] == adj[0][1] / D && inv[0][2] == adj[0][2] / D;
    MatMulEntry(inv, m, 0, 1);
    Subst3Left(b, e, h, inv[0][0], inv[0][1], inv[0][2], adj[0][0] / D, adj[0][1] / D, adj[0][2] / D);
    InverseLeftEntry01Scalar(a, b, c, d, e, f, g, h, i, D, adj[0][0], adj[0][1], adj[0][2]);
  }

  lemma InverseLeftEntry02Scalar(a: real, b: real, c: real, d: real, e: real, f: real, g: real, h: real, i: real, D: real, x: real, y: real, z: real)
    requires D == a * e * i + b * f * g + c * d * h - c * e * g - b * d * i - a * f * h && D != 0.0
    requires x == e * i - f * h && y == c * h - b * i && z == b * f - c * e
    ensures (x / D) * c + (y / D) * f + (z / D) * i == 0.0
  {
    OverDLeft(c, f, i, x, y, z, D);
    assert x * c + y * f + z * i == 0.0;
  }

  lemma InverseLeftEntry02(m: Mat3)
    requires Det(m) != 0.0
    ensures MatMul(Inverse(m).value, m)[0][2] == 0.0
  {
    var inv, adj, D := Inverse(m).value, Adjugate(m), Det(m);
    var a, b, c, d, e, f, g, h, i := m[0][0], m[0][1], m[0][2], m[1][0], m[1][1], m[1][2], m[2][0], m[2][1], m[2][2];
    assert inv[0][0] == adj[0][0] / D && inv[0][1] == adj[0][1] / D && inv[0][2] == adj[0][2] / D;
    MatMulEntry(inv, m, 0, 2);
    Subst3Left(c, f, i, inv[0][0], inv[0][1], inv[0][2], adj[0][0] / D, adj[0][1] / D, adj[0][2] / D);
    InverseLeftEntry02Scalar(a, b, c, d, e, f, g, h, i, D, adj[0][0], adj[0][1], adj[0][2]);
  }

  lemma InverseLeftEntry10Scalar(a: real, b: real, c: real, d: real, e: real, f: real, g: real, h: real, i: real, D: real, x: real, y: real, z: real)
    requires D == a * e * i + b * f * g + c * d * h - c * e * g - b * d * i - a * f * h && D != 0.0
    requires x == f * g - d * i && y == a * i - c * g && z == c * d - a * f
    ensures (x / D) * a + (y / D) * d + (z / D) * g == 0.0
  {
    OverDLeft(a, d, g, x, y, z, D);
    assert x * a + y * d + z * g == 0.0;
  }

  lemma InverseLeftEntry10(m: Mat3)
    requires Det(m) != 0.0
    ensures MatMul(Inverse(m).value, m)[1][0] == 0.0
  {
    var inv, adj, D := Inverse(m).value, Adjugate(m), Det(m);
    var a, b, c, d, e, f, g, h, i := m[0][0], m[0][1], m[0][2], m[1][0], m[1][1], m[1][2], m[2][0], m[2][1], m[2][2];
    assert inv[1][0] == adj[1][0] / D && inv[1][1] == adj[1][1] / D && inv[1][2] == adj[1][2] / D;
    MatMulEntry(inv, m, 1, 0);
    Subst3Left(a, d, g, inv[1][0], inv[1][1], inv[1][2], adj[1][0] / D, adj[1][1] / D, adj[1][2] / D);
    InverseLeftEntry10Scalar(a, b, c, d, e, f, g, h, i, D, adj[1][0], adj[1][1], adj[1][2]);
  }

  lemma InverseLeftEntry11Scalar(a: real, b: real, c: real, d: real, e: real, f: real, g: real, h: real, i: real, D: real, x: real, y: real, z: real)
    requires D == a * e * i + b * f * g + c * d * h - c * e * g - b * d * i - a * f * h && D != 0.0
    requires x == f * g - d * i && y == a * i - c * g && z == c * d - a * f
    ensures (x / D) * b + (y / D) * e + (z / D) * h == 1.0
  {
    OverDLeft(b, e, h, x, y, z, D);
    assert x * b + y * e + z * h == D;
  }

  lemma InverseLeftEntry11(m: Mat3)
    requires Det(m) != 0.0
    ensures MatMul(Inverse(m).value, m)[1][1] == 1.0
  {
    var inv, adj, D := Inverse(m).value, Adjugate(m), Det(m);
    var a, b, c, d, e, f, g, h, i := m[0][0], m[0][1], m[0][2], m[1][0], m[1][1], m[1][2], m[2][0], m[2][1], m[2][2];
    assert inv[1][0] == adj[1][0] / D && inv[1][1] == adj[1][1] / D && inv[1][2] == adj[1][2] / D;
    MatMulEntry(inv, m, 1, 1);
    Subst3Left(b, e, h, inv[1][0], inv[1][1], inv[1][2], adj[1][0] / D, adj[1][1] / D, adj[1][2] / D);
    InverseLeftEntry11Scalar(a, b, c, d, e, f, g, h, i, D, adj[1][0], adj[1][1], adj[1][2]);
  }

  lemma InverseLeftEntry12Scalar(a: real, b: real, c: real, d: real, e: real, f: real, g: real, h: real, i: real, D: real, x: real, y: real, z: real)
    requires D == a * e * i + b * f * g + c * d * h - c * e * g - b * d * i - a * f * h && D != 0.0
    requires x == f * g - d * i && y == a * i - c * g && z == c * d - a * f
    ensures (x / D) * c + (y / D) * f + (z / D) * i == 0.0
  {
    OverDLeft(c, f, i, x, y, z, D);
    assert x * c + y * f + z * i == 0.0;
  }

  lemma InverseLeftEntry12(m: Mat3)
    requires Det(m) != 0.0
    ensures MatMul(Inverse(m).value, m)[1][2] == 0.0
  {
    var inv, adj, D := Inverse(m).value, Adjugate(m), Det(m);
    var a, b, c, d, e, f, g, h, i := m[0][0], m[0][1], m[0][2], m[1][0], m[1][1], m[1][2], m[2][0], m[2][1], m[2][2];
    assert inv[1][0] == adj[1][0] / D && inv[1][1] == adj[1][1] / D && inv[1][2] == adj[1][2] / D;
    MatMulEntry(inv, m, 1, 2);
    Subst3Left(c, f, i, inv[1][0], inv[1][1], inv[1][2], adj[1][0] / D, adj[1][1] / D, adj[1][2] / D);
    InverseLeftEntry12Scalar(a, b, c, d, e, f, g, h, i, D, adj[1][0], adj[1][1], adj[1][2]);
  }

  lemma InverseLeftEntry20Scalar(a: real, b: real, c: real, d: real, e: real, f: real, g: real, h: real, i: real, D: real, x: real, y: real, z: real)
    requires D == a * e * i + b * f * g + c * d * h - c * e * g - b * d * i - a * f * h && D != 0.0
    requires x == d * h - e * g && y == b * g - a * h && z == a * e - b * d
    ensures (x / D) * a + (y / D) * d + (z / D) * g == 0.0
  {
    OverDLeft(a, d, g, x, y, z, D);
    assert x * a + y * d + z * g == 0.0;
  }

  lemma InverseLeftEntry20(m: Mat3)
    requires Det(m) != 0.0
    ensures MatMul(Inverse(m).value, m)[2][0] == 0.0
  {
    var inv, adj, D := Inverse(m).value, Adjugate(m), Det(m);
    var a, b, c, d, e, f, g, h, i := m[0][0], m[0][1], m[0][2], m[1][0], m[1][1], m[1][2], m[2][0], m[2][1], m[2][2];
    assert inv[2][0] == adj[2][0] / D && inv[2][1] == adj[2][1] / D && inv[2][2] == adj[2][2] / D;
    MatMulEntry(inv, m, 2, 0);
    Subst3Left(a, d, g, inv[2][0], inv[2][1], inv[2][2], adj[2][0] / D, adj[2][1] / D, adj[2][2] / D);
    InverseLeftEntry20Scalar(a, b, c, d, e, f, g, h, i, D, adj[2][0], adj[2][1], adj[2][2]);
  }

  lemma InverseLeftEntry21Scalar(a: real, b: real, c: real, d: real, e: real, f: real, g: real, h: real, i: real, D: real, x: real, y: real, z: real)
    requires D == a * e * i + b * f * g + c * d * h - c * e * g - b * d * i - a * f * h && D != 0.0
    requires x == d * h - e * g && y == b * g - a * h && z == a * e - b * d
    ensures (x / D) * b + (y / D) * e + (z / D) * h == 0.0
  {
    OverDLeft(b, e, h, x, y, z, D);
    assert x * b + y * e + z * h == 0.0;
  }

  lemma InverseLeftEntry21(m: Mat3)
    requires Det(m) != 0.0
    ensures MatMul(Inverse(m).value, m)[2][1] == 0.0
  {
    var inv, adj, D := Inverse(m).value, Adjugate(m), Det(m);
    var a, b, c, d, e, f, g, h, i := m[0][0], m[0][1], m[0][2], m[1][0], m[1][1], m[1][2], m[2][0], m[2][1], m[2][2];
    assert inv[2][0] == adj[2][0] / D && inv[2][1] == adj[2][1] / D && inv[2][2] == adj[2][2] / D;
    MatMulEntry(inv, m, 2, 1);
    Subst3Left(b, e, h, inv[2][0], inv[2][1], inv[2][2], adj[2][0] / D, adj[2][1] / D, adj[2][2] / D);
    InverseLeftEntry21Scalar(a, b, c, d, e, f, g, h, i, D, adj[2][0], adj[2][1], adj[2][2]);
  }

  lemma InverseLeftEntry22Scalar(a: real, b: real, c: real, d: real, e: real, f: real, g: real, h: real, i: real, D: real, x: real, y: real, z: real)
    requires D == a * e * i + b * f * g + c * d * h - c * e * g - b * d * i - a * f * h && D != 0.0
    requires x == d * h - e * g && y == b * g - a * h && z == a * e - b * d
    ensures (x / D) * c + (y / D) * f + (z / D) * i == 1.0
  {
    OverDLeft(c, f, i, x, y, z, D);
    assert x * c + y * f + z * i == D;
  }

  lemma InverseLeftEntry22(m: Mat3)
    requires Det(m) != 0.0
    ensures MatMul(Inverse(m).value, m)[2][2] == 1.0
  {
    var inv, adj, D := Inverse(m).value, Adjugate(m), Det(m);
    var a, b, c, d, e, f, g, h, i := m[0][0], m[0][1], m[0][2], m[1][0], m[1][1], m[1][2], m[2][0], m[2][1], m[2][2];
    assert inv[2][0] == adj[2][0] / D && inv[2][1] == adj[2][1] / D && inv[2][2] == adj[2][2] / D;
    MatMulEntry(inv, m, 2, 2);
    Subst3Left(c, f, i, inv[2][0], inv[2][1], inv[2][2], adj[2][0] / D, adj[2][1] / D, adj[2][2] / D);
    InverseLeftEntry22Scalar(a, b, c, d, e, f, g, h, i, D, adj[2][0], adj[2][1], adj[2][2]);
  }

  /** The matrix `Inverse` returns is a two-sided inverse. */
  lemma InverseIsInverse(m: Mat3)
    requires Det(m) != 0.0
    ensures MatMul(m, Inverse(m).value) == Identity
    ensures MatMul(Inverse(m).value, m) == Identity
  {
    var inv := Inverse(m).value;
    var p, q := MatMul(m, inv), MatMul(inv, m);
    InverseRightEntry00(m); InverseRightEntry01(m); InverseRightEntry02(m);
    InverseRightEntry10(m); InverseRightEntry11(m); InverseRightEntry12(m);
    InverseRightEntry20(m); InverseRightEntry21(m); InverseRightEntry22(m);
    InverseLeftEntry00(m); InverseLeftEntry01(m); InverseLeftEntry02(m);
    InverseLeftEntry10(m); InverseLeftEntry11(m); InverseLeftEntry12(m);
    InverseLeftEntry20(m); InverseLeftEntry21(m); InverseLeftEntry22(m);
    assert p[0] == Identity[0] && p[1] == Identity[1] && p[2] == Identity[2];
    assert q[0] == Identity[0] && q[1] == Identity[1] && q[2] == Identity[2];
  }

  // ---------------------------------------------------------------------
  // The upper-triangular box matrix

  /** `(cos α - cos β cos γ)² / sin² γ`, the shear term under both square roots. */
  function Shear(ca: real, cb: real, cg: real, sg: real): real
    requires sg != 0.0
  {
    var q := (ca - cb * cg) / sg;
    q * q
  }

  /**
   * The box matrix both cells fill in from the lengths a, b, c, the cosines
   * of α, β, γ, sin γ, and the square root h that scales the third diagonal
   * entry.
   */
  function TriangularBox(a: real, b: real, c: real, ca: real, cb: real, cg: real, sg: real, h: real): (m: Mat3)
    requires sg != 0.0
    ensures UpperTriangular(m)
  {
    [[a, b * cg, c * cb],
     [0.0, b * sg, c * (ca - cb * cg) / sg],
     [0.0, 0.0, c * h]]
  }

  /** Its determinant is the product of the diagonal a · b sin γ · c h. */
  lemma TriangularBoxVolume(a: real, b: real, c: real, ca: real, cb: real, cg: real, sg: real, h: real)
    requires sg != 0.0
    ensures Det(TriangularBox(a, b, c, ca, cb, cg, sg, h)) == a * (b * sg) * (c * h)
  {
    DetUpperTriangular(TriangularBox(a, b, c, ca, cb, cg, sg, h));
  }

  lemma ZeroProduct3(x: real, y: real, z: real)
    ensures x * y * z == 0.0 <==> x == 0.0 || y == 0.0 || z == 0.0
  {
  }

  /** The volume vanishes exactly when one of a, b, c or h is zero. */
  lemma TriangularBoxVacuum(a: real, b: real, c: real, ca: real, cb: real, cg: real, sg: real, h: real)
    requires sg != 0.0
    ensures Det(TriangularBox(a, b, c, ca, cb, cg, sg, h)) == 0.0
        <==> a == 0.0 || b == 0.0 || c == 0.0 || h == 0.0
  {
    TriangularBoxVolume(a, b, c, ca, cb, cg, sg, h);
    ZeroProduct3(a, b * sg, c * h);
    ZeroProduct3(b, sg, 1.0);
    ZeroProduct3(c, h, 1.0);
  }

  /** Right angles (cosines 0, sin γ = 1, h = 1) give diag(a, b, c). */
  lemma TriangularBoxRightAngles(a: real, b: real, c: real)
    ensures TriangularBox(a, b, c, 0.0, 0.0, 0.0, 1.0, 1.0)
         == [[a, 0.0, 0.0], [0.0, b, 0.0], [0.0, 0.0, c]]
  {
  }

  lemma SquareSum2(b: real, cg: real, sg: real)
    requires sg * sg + cg * cg == 1.0
    ensures (b * cg) * (b * cg) + (b * sg) * (b * sg) == b * b
  {
    assert (b * cg) * (b * cg) + (b * sg) * (b * sg) == b * b * (sg * sg + cg * cg);
  }

  lemma SquareSum3(c: real, cb: real, q: real, h: real)
    requires cb * cb + q * q + h * h == 1.0
    ensures (c * cb) * (c * cb) + (c * q) * (c * q) + (c * h) * (c * h) == c * c
  {
    assert (c * cb) * (c * cb) + (c * q) * (c * q) + (c * h) * (c * h) == c * c * (cb * cb + q * q + h * h);
  }

  lemma ScaledQuotient(c: real, x: real, sg: real)
    requires sg != 0.0
    ensures c * x / sg == c * (x / sg)
  {
  }

  /**
   * The squared lengths of the three columns are a², b², c² when
   * sin² γ + cos² γ = 1 and cos² β + (shear) + h² = 1.
   */
  lemma TriangularBoxNorms(a: real, b: real, c: real, ca: real, cb: real, cg: real, sg: real, h: real)
    requires sg != 0.0
    requires sg * sg + cg * cg == 1.0
    requires cb * cb + Shear(ca, cb, cg, sg) + h * h == 1.0
    ensures var m := TriangularBox(a, b, c, ca, cb, cg, sg, h);
            && Dot(Column(m, 0), Column(m, 0)) == a * a
            && Dot(Column(m, 1), Column(m, 1)) == b * b
            && Dot(Column(m, 2), Column(m, 2)) == c * c
  {
    var m := TriangularBox(a, b, c, ca, cb, cg, sg, h);
    assert Column(m, 0) == [a, 0.0, 0.0];
    assert Column(m, 1) == [b * cg, b * sg, 0.0];
    SquareSum2(b, cg, sg);
    ThirdColumnNorm(c, ca, cb, cg, sg, h, Column(m, 2));
  }

  /** The third column `[c cos β, c (cos α - cos β cos γ) / sin γ, c h]` has squared length c². */
  lemma ThirdColumnNorm(c: real, ca: real, cb: real, cg: real, sg: real, h: real, col: Vec3)
    requires sg != 0.0
    requires cb * cb + Shear(ca, cb, cg, sg) + h * h == 1.0
    requires col == [c * cb, c * (ca - cb * cg) / sg, c * h]
    ensures Dot(col, col) == c * c
  {
    var q := (ca - cb * cg) / sg;
    ScaledQuotient(c, ca - cb * cg, sg);
    assert col[1] == c * q;
    SquareSum3(c, cb, q, h);
  }

  /**
   * The normalised dot products of the columns are cos α (columns 1, 2),
   * cos β (columns 0, 2) and cos γ (columns 0, 1).
   */
  lemma TriangularBoxCosines(a: real, b: real, c: real, ca: real, cb: real, cg: real, sg: real, h: real)
    requires sg != 0.0 && a != 0.0 && b != 0.0 && c != 0.0
    ensures var m := TriangularBox(a, b, c, ca, cb, cg, sg, h);
            && b * c != 0.0 && a * c != 0.0 && a * b != 0.0
            && Dot(Column(m, 1), Column(m, 2)) / (b * c) == ca
            && Dot(Column(m, 0), Column(m, 2)) / (a * c) == cb
            && Dot(Column(m, 0), Column(m, 1)) / (a * b) == cg
  {
    var m := TriangularBox(a, b, c, ca, cb, cg, sg, h);
    var x := ca - cb * cg;
    ScaledQuotient(c, x, sg);
    assert (b * sg) * (c * (x / sg)) == (b * c) * x;
    assert Dot(Column(m, 1), Column(m, 2)) == (b * c) * ca;
    assert Dot(Column(m, 0), Column(m, 2)) == (a * c) * cb;
    assert Dot(Column(m, 0), Column(m, 1)) == (a * b) * cg;
  }

  // ---------------------------------------------------------------------
  // Rounding

  /** `np.rint` / `np.round`: to the nearest integer, ties to even. */
  function RoundHalfEven(x: real): (n: int)
    ensures -0.5 <= x - n as real <= 0.5
    ensures x - n as real == 0.5 || x - n as real == -0.5 ==> n % 2 == 0
  {
    var f := x.Floor;
    var d := x - f as real;
    if d < 0.5 then f else if d > 0.5 then f + 1 else if f % 2 == 0 then f else f + 1
  }

  /** C++ `std::round`: to the nearest integer, ties away from zero. */
  function RoundHalfAway(x: real): (n: int)
    ensures -0.5 <= x - n as real <= 0.5
    ensures x - n as real == 0.5 ==> x < 0.0
    ensures x - n as real == -0.5 ==> x > 0.0
  {
    if x >= 0.0 then (x + 0.5).Floor else -((-x + 0.5).Floor)
  }

  datatype Rounding = HalfEven | HalfAway

  function Round(mode: Rounding, x: real): (n: int)
    ensures -0.5 <= x - n as real <= 0.5
  {
    match mode
    case HalfEven => RoundHalfEven(x)
    case HalfAway => RoundHalfAway(x)
  }

  /** Each component rounded to the nearest integer (kept as a real). */
  function RoundVec(mode: Rounding, f: Vec3): (n: Vec3)
    ensures forall j :: 0 <= j < 3 ==> n[j] == Round(mode, f[j]) as real
  {
    [Round(mode, f[0]) as real, Round(mode, f[1]) as real, Round(mode, f[2]) as real]
  }

  /** `f -= round(f)`: fractional coordinates wrapped into [-1/2, 1/2]. */
  function Wrap(mode: Rounding, f: Vec3): (w: Vec3)
    ensures forall j :: 0 <= j < 3 ==> -0.5 <= w[j] <= 0.5
  {
    Sub(f, RoundVec(mode, f))
  }

  /**
   * Minimum image through fractional coordinates: `inv` takes a position to
   * fractional coordinates, these are wrapped, and `m` takes them back.
   */
  function FractionalImage(mode: Rounding, m: Mat3, inv: Mat3, p: Vec3): Vec3
  {
    MatVec(m, Wrap(mode, MatVec(inv, p)))
  }

  lemma AssocScalar(a0: real, a1: real, a2: real,
                    b00: real, b01: real, b02: real, b10: real, b11: real, b12: real,
                    b20: real, b21: real, b22: real, v0: real, v1: real, v2: real)
    ensures a0 * (b00 * v0 + b01 * v1 + b02 * v2) + a1 * (b10 * v0 + b11 * v1 + b12 * v2)
            + a2 * (b20 * v0 + b21 * v1 + b22 * v2)
         == (a0 * b00 + a1 * b10 + a2 * b20) * v0 + (a0 * b01 + a1 * b11 + a2 * b21) * v1
            + (a0 * b02 + a1 * b12 + a2 * b22) * v2
  {
  }

  lemma MatVecMatMulRow(a: Mat3, b: Mat3, v: Vec3, i: nat)
    requires i < 3
    ensures MatVec(a, MatVec(b, v))[i] == MatVec(MatMul(a, b), v)[i]
  {
    var bv, ab := MatVec(b, v), MatMul(a, b);
    assert bv[0] == b[0][0] * v[0] + b[0][1] * v[1] + b[0][2] * v[2];
    assert bv[1] == b[1][0] * v[0] + b[1][1] * v[1] + b[1][2] * v[2];
    assert bv[2] == b[2][0] * v[0] + b[2][1] * v[1] + b[2][2] * v[2];
    MatMulEntry(a, b, i, 0);
    MatMulEntry(a, b, i, 1);
    MatMulEntry(a, b, i, 2);
    AssocScalar(a[i][0], a[i][1], a[i][2], b[0][0], b[0][1], b[0][2], b[1][0], b[1][1], b[1][2],
                b[2][0], b[2][1], b[2][2], v[0], v[1], v[2]);
  }

  /** Applying b and then a is applying their product. */
  lemma MatVecMatMul(a: Mat3, b: Mat3, v: Vec3)
    ensures MatVec(a, MatVec(b, v)) == MatVec(MatMul(a, b), v)
  {
    MatVecMatMulRow(a, b, v, 0);
    MatVecMatMulRow(a, b, v, 1);
    MatVecMatMulRow(a, b, v, 2);
  }

  lemma MatVecIdentity(v: Vec3)
    ensures MatVec(Identity, v) == v
  {
  }

  lemma MatVecSub(m: Mat3, u: Vec3, v: Vec3)
    ensures MatVec(m, Sub(u, v)) == Sub(MatVec(m, u), MatVec(m, v))
  {
    var l, r := MatVec(m, Sub(u, v)), Sub(MatVec(m, u), MatVec(m, v));
    assert l[0] == r[0] && l[1] == r[1] && l[2] == r[2];
  }

  /**
   * When `inv` is a right inverse of `m`, the fractional image is the
   * position moved by a whole lattice vector `m · n` with integer n.
   */
  lemma FractionalImageIsLatticeShift(mode: Rounding, m: Mat3, inv: Mat3, p: Vec3)
    requires MatMul(m, inv) == Identity
    ensures FractionalImage(mode, m, inv, p) == Sub(p, MatVec(m, RoundVec(mode, MatVec(inv, p))))
  {
    var f := MatVec(inv, p);
    MatVecSub(m, f, RoundVec(mode, f));
    MatVecMatMul(m, inv, p);
    MatVecIdentity(p);
  }

  /**
   * When `inv` is a left inverse of `m`, the fractional coordinates of the
   * image are the wrapped ones, so each lies in [-1/2, 1/2].
   */
  lemma FractionalImageInCell(mode: Rounding, m: Mat3, inv: Mat3, p: Vec3)
    requires MatMul(inv, m) == Identity
    ensures MatVec(inv, FractionalImage(mode, m, inv, p)) == Wrap(mode, MatVec(inv, p))
    ensures forall j :: 0 <= j < 3 ==> -0.5 <= MatVec(inv, FractionalImage(mode, m, inv, p))[j] <= 0.5
  {
    var w := Wrap(mode, MatVec(inv, p));
    MatVecMatMul(inv, m, w);
    MatVecIdentity(w);
  }

  // ---------------------------------------------------------------------
  // Corners

  function Half(bit: nat): real { if bit == 0 then -0.5 else 0.5 }

  /** The fractional corner (x, y, z) picked by the bits i, j, k: -0.5 for 0, 0.5 for 1. */
  function Corner(i: nat, j: nat, k: nat): Vec3
  {
    [Half(i), Half(j), Half(k)]
  }

  /** The corner stored at row `4i + 2j + k` of the bounding edges. */
  function CornerAt(idx: nat): (v: Vec3)
    requires idx < 8
    ensures v == Corner(idx / 4, idx / 2 % 2, idx % 2)
  {
    Corner(idx / 4, idx / 2 % 2, idx % 2)
  }

  /** Flipping every bit gives the opposite corner. */
  lemma CornerOpposite(i: nat, j: nat, k: nat)
    requires i < 2 && j < 2 && k < 2
    ensures Corner(1 - i, 1 - j, 1 - k) == Scale(-1.0, Corner(i, j, k))
  {
  }

  lemma MatVecScale(m: Mat3, c: real, v: Vec3)
    ensures MatVec(m, Scale(c, v)) == Scale(c, MatVec(m, v))
  {
    var l, r := MatVec(m, Scale(c, v)), Scale(c, MatVec(m, v));
    assert l[0] == r[0] && l[1] == r[1] && l[2] == r[2];
  }

  lemma TransposeVecScale(m: Mat3, c: real, v: Vec3)
    ensures TransposeVec(m, Scale(c, v)) == Scale(c, TransposeVec(m, v))
  {
    var l, r := TransposeVec(m, Scale(c, v)), Scale(c, TransposeVec(m, v));
    assert l[0] == r[0] && l[1] == r[1] && l[2] == r[2];
  }

  // ---------------------------------------------------------------------
  // Orthorhombic image

  function Abs(x: real): real { if x < 0.0 then -x else x }

  /** `x - l * round(x / l)`: one coordinate moved by whole box lengths towards 0. */
  function OrthoAxis(mode: Rounding, x: real, l: real): real
    requires l != 0.0
  {
    x - l * Round(mode, x / l) as real
  }

  /** `pos - L * round(pos / L)` on each axis. */
  function OrthoImage(mode: Rounding, lengths: Vec3, p: Vec3): Vec3
    requires lengths[0] != 0.0 && lengths[1] != 0.0 && lengths[2] != 0.0
  {
    [OrthoAxis(mode, p[0], lengths[0]), OrthoAxis(mode, p[1], lengths[1]), OrthoAxis(mode, p[2], lengths[2])]
  }

  /** `x` lies within half of the length `l` from 0. */
  predicate WithinHalf(x: real, l: real) { -Abs(l) / 2.0 <= x <= Abs(l) / 2.0 }

  lemma WrapAxisBound(p: real, l: real, n: real)
    requires l != 0.0
    requires -0.5 <= p / l - n <= 0.5
    ensures WithinHalf(p - l * n, l)
  {
    var f := p / l - n;
    assert p - l * n == l * f;
    if l > 0.0 {
      assert -l / 2.0 <= l * f <= l / 2.0;
    } else {
      assert l / 2.0 <= l * f <= -l / 2.0;
    }
  }

  lemma OrthoAxisBound(mode: Rounding, p: real, l: real)
    requires l != 0.0
    ensures WithinHalf(OrthoAxis(mode, p, l), l)
  {
    WrapAxisBound(p, l, Round(mode, p / l) as real);
  }

  /** Each component of the orthorhombic image lies within half a box length of 0. */
  lemma OrthoImageBound(mode: Rounding, lengths: Vec3, p: Vec3)
    requires lengths[0] != 0.0 && lengths[1] != 0.0 && lengths[2] != 0.0
    ensures forall j :: 0 <= j < 3 ==> WithinHalf(OrthoImage(mode, lengths, p)[j], lengths[j])
  {
    OrthoAxisBound(mode, p[0], lengths[0]);
    OrthoAxisBound(mode, p[1], lengths[1]);
    OrthoAxisBound(mode, p[2], lengths[2]);
  }

  /** A position already inside the box (strictly within half a length) is its own image. */
  lemma OrthoImageInside(mode: Rounding, lengths: Vec3, p: Vec3)
    requires lengths[0] != 0.0 && lengths[1] != 0.0 && lengths[2] != 0.0
    requires forall j :: 0 <= j < 3 ==> Abs(p[j]) < Abs(lengths[j]) / 2.0
    ensures OrthoImage(mode, lengths, p) == p
  {
    RoundInside(mode, p[0], lengths[0]);
    RoundInside(mode, p[1], lengths[1]);
    RoundInside(mode, p[2], lengths[2]);
  }

  lemma PositiveFactor(x: real, l: real)
    requires (l > 0.0 && x * l > 0.0) || (l < 0.0 && x * l < 0.0)
    ensures x > 0.0
  {
  }

  lemma QuotientInside(p: real, l: real, q: real)
    requires l != 0.0 && Abs(p) < Abs(l) / 2.0 && p == q * l
    ensures -0.5 < q < 0.5
  {
    assert (0.5 - q) * l == l / 2.0 - p;
    assert (q + 0.5) * l == p + l / 2.0;
    PositiveFactor(0.5 - q, l);
    PositiveFactor(q + 0.5, l);
  }

  lemma RoundInside(mode: Rounding, p: real, l: real)
    requires l != 0.0 && Abs(p) < Abs(l) / 2.0
    ensures Round(mode, p / l) == 0
  {
    var q := p / l;
    assert p == q * l;
    QuotientInside(p, l, q);
    var n := Round(mode, q);
    assert -0.5 <= q - n as real <= 0.5;
  }

  // ---------------------------------------------------------------------
  // Closeness

  /** `np.isclose(a, b)` with the default tolerances rtol = 1e-5, atol = 1e-8. */
  predicate IsClose(a: real, b: real)
  {
    var d := if a >= b then a - b else b - a;
    var m := if b >= 0.0 then b else -b;
    d <= 0.00000001 + 0.00001 * m
  }

  /** `np.allclose` on two 3-vectors. */
  predicate AllClose(u: Vec3, v: Vec3)
  {
    IsClose(u[0], v[0]) && IsClose(u[1], v[1]) && IsClose(u[2], v[2])
  }

  /** `allclose` is reflexive, so every cell equals itself. */
  lemma AllCloseReflexive(u: Vec3)
    ensures AllClose(u, u)
  {
  }

  /** The largest finite double, Python's `sys.float_info.max` = 2^1024 - 2^971. */
  const FloatMax: real := 179769313486231570814527423731704356798070567525844996598917476803157260780028538760589558632766878171540458953514382464234321326889464182768467546703537516986049910576551282076245490090389328944075868508455133942304583236903222948165808559332123348274797826204144723168738177180919299881250404026184124858368.0
}
