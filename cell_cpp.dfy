/**
 * The C++ `Cell` (cpp/src/cell/cell.cpp): three box lengths, three box
 * angles in degrees and the box matrix derived from them, with volume,
 * vacuum test, the eight corners of the box and the minimum image.
 *
 * `std::vector<std::vector<double>>` results of fixed or input-dependent
 * size are modelled as `array2<real>`; the trigonometric functions come in
 * as a `Trig` record.
 */
module CellCpp {

  import opened CellMath

  /** sin² β - (cos α - cos β cos γ)² / sin² γ: what `_setup_box_matrix` takes the square root of. */
  function HeightSquared(t: Trig, angles: Vec3): real
    requires Sin(t, Rad(t, angles[2])) != 0.0
  {
    var sb := Sin(t, Rad(t, angles[1]));
    sb * sb - Shear(Cos(t, Rad(t, angles[0])), Cos(t, Rad(t, angles[1])), Cos(t, Rad(t, angles[2])), Sin(t, Rad(t, angles[2])))
  }

  /**
   * `_setup_box_matrix`: the box vectors as columns, the first along x, the
   * second in the xy-plane, so the matrix is upper triangular.
   */
  function BoxMatrix(t: Trig, lengths: Vec3, angles: Vec3): Mat3
    requires Sin(t, Rad(t, angles[2])) != 0.0
  {
    TriangularBox(lengths[0], lengths[1], lengths[2],
                  Cos(t, Rad(t, angles[0])), Cos(t, Rad(t, angles[1])), Cos(t, Rad(t, angles[2])),
                  Sin(t, Rad(t, angles[2])), Sqrt(t, HeightSquared(t, angles)))
  }

  /**
   * The built matrix is upper triangular with diagonal (a, b sin γ, c sqrt(h)),
   * so its volume is their product, and it is a vacuum exactly when a, b,
   * c or the square root is zero.
   */
  lemma BoxMatrixVolume(t: Trig, lengths: Vec3, angles: Vec3)
    requires Sin(t, Rad(t, angles[2])) != 0.0
    ensures UpperTriangular(BoxMatrix(t, lengths, angles))
    ensures Det(BoxMatrix(t, lengths, angles))
         == lengths[0] * (lengths[1] * Sin(t, Rad(t, angles[2]))) * (lengths[2] * Sqrt(t, HeightSquared(t, angles)))
    ensures Det(BoxMatrix(t, lengths, angles)) == 0.0
        <==> lengths[0] == 0.0 || lengths[1] == 0.0 || lengths[2] == 0.0 || Sqrt(t, HeightSquared(t, angles)) == 0.0
  {
    var ca, cb, cg := Cos(t, Rad(t, angles[0])), Cos(t, Rad(t, angles[1])), Cos(t, Rad(t, angles[2]));
    var sg, h := Sin(t, Rad(t, angles[2])), Sqrt(t, HeightSquared(t, angles));
    TriangularBoxVolume(lengths[0], lengths[1], lengths[2], ca, cb, cg, sg, h);
    TriangularBoxVacuum(lengths[0], lengths[1], lengths[2], ca, cb, cg, sg, h);
  }

  /** With right angles everywhere the box matrix is diag(a, b, c). */
  lemma BoxMatrixOrthorhombic(t: Trig, lengths: Vec3, angles: Vec3)
    requires RightAngleFacts(t) && IsOrthorhombicAngles(angles)
    ensures Sin(t, Rad(t, angles[2])) == 1.0
    ensures BoxMatrix(t, lengths, angles)
         == [[lengths[0], 0.0, 0.0], [0.0, lengths[1], 0.0], [0.0, 0.0, lengths[2]]]
  {
    RightAngleEntries(t, angles);
    TriangularBoxRightAngles(lengths[0], lengths[1], lengths[2]);
  }

  lemma RightAngleHeight(ca: real, cb: real, cg: real, sb: real, sg: real)
    requires ca == 0.0 && cb == 0.0 && cg == 0.0 && sb == 1.0 && sg == 1.0
    ensures sb * sb - Shear(ca, cb, cg, sg) == 1.0
  {
  }

  lemma SqrtAt(t: Trig, x: real, y: real)
    requires x == y
    ensures Sqrt(t, x) == Sqrt(t, y)
  {
  }

  lemma SameAngle(t: Trig, x: real, y: real)
    requires x == y
    ensures Rad(t, x) == Rad(t, y)
  {
  }

  /** At right angles the cosines are 0, sin γ is 1 and so is the height factor. */
  lemma RightAngleEntries(t: Trig, angles: Vec3)
    requires RightAngleFacts(t) && IsOrthorhombicAngles(angles)
    ensures Cos(t, Rad(t, angles[0])) == 0.0 && Cos(t, Rad(t, angles[1])) == 0.0 && Cos(t, Rad(t, angles[2])) == 0.0
    ensures Sin(t, Rad(t, angles[2])) == 1.0 && Sqrt(t, HeightSquared(t, angles)) == 1.0
  {
    SameAngle(t, angles[0], 90.0);
    SameAngle(t, angles[1], 90.0);
    SameAngle(t, angles[2], 90.0);
    assert HeightSquared(t, angles) == 1.0;
    SqrtAt(t, HeightSquared(t, angles), 1.0);
  }

  /** The Euclidean norm of column j, `sqrt(m[0][j]² + m[1][j]² + m[2][j]²)`. */
  function ColumnLength(t: Trig, m: Mat3, j: nat): real
    requires j < 3
  {
    Sqrt(t, Dot(Column(m, j), Column(m, j)))
  }

  /** The angle in degrees between two vectors of the given lengths. */
  function AngleBetween(t: Trig, u: Vec3, v: Vec3, lu: real, lv: real): real
    requires lu * lv != 0.0 && t.pi != 0.0
  {
    Acos(t, Dot(u, v) / (lu * lv)) * 180.0 / t.pi
  }

  /** All three column lengths are nonzero, so the angles are defined. */
  predicate HasNonzeroColumns(t: Trig, m: Mat3)
  {
    ColumnLength(t, m, 0) != 0.0 && ColumnLength(t, m, 1) != 0.0 && ColumnLength(t, m, 2) != 0.0
  }

  /** The lengths `init_from_box_matrix` derives: the column norms. */
  function LengthsOf(t: Trig, m: Mat3): (l: Vec3)
    ensures forall j :: 0 <= j < 3 ==> l[j] == ColumnLength(t, m, j)
  {
    [ColumnLength(t, m, 0), ColumnLength(t, m, 1), ColumnLength(t, m, 2)]
  }

  /** The angles `init_from_box_matrix` derives: α between columns 1 and 2, β between 0 and 2, γ between 0 and 1. */
  function AnglesOf(t: Trig, m: Mat3): Vec3
    requires HasNonzeroColumns(t, m) && t.pi != 0.0
  {
    var l := LengthsOf(t, m);
    [AngleBetween(t, Column(m, 1), Column(m, 2), l[1], l[2]),
     AngleBetween(t, Column(m, 0), Column(m, 2), l[0], l[2]),
     AngleBetween(t, Column(m, 0), Column(m, 1), l[0], l[1])]
  }

  /** Under a genuine square root each derived length is the non-negative norm. */
  lemma LengthsOfAreNorms(t: Trig, m: Mat3)
    requires IsSquareRoot(t)
    ensures forall j :: 0 <= j < 3 ==>
      LengthsOf(t, m)[j] >= 0.0 && LengthsOf(t, m)[j] * LengthsOf(t, m)[j] == Dot(Column(m, j), Column(m, j))
  {
    forall j | 0 <= j < 3
      ensures LengthsOf(t, m)[j] >= 0.0 && LengthsOf(t, m)[j] * LengthsOf(t, m)[j] == Dot(Column(m, j), Column(m, j))
    {
      var n := Dot(Column(m, j), Column(m, j));
      assert n == m[0][j] * m[0][j] + m[1][j] * m[1][j] + m[2][j] * m[2][j];
      assert n >= 0.0;
    }
  }

  /** Orthorhombic corners of the cell: entry j is ±L_j / 2. */
  predicate IsOrthorhombicAngles(angles: Vec3)
  {
    angles[0] == 90.0 && angles[1] == 90.0 && angles[2] == 90.0
  }

  predicate NonzeroLengths(lengths: Vec3)
  {
    lengths[0] != 0.0 && lengths[1] != 0.0 && lengths[2] != 0.0
  }

  /** Entry j of the orthorhombic image is the image along axis j. */
  lemma OrthoImageEntry(lengths: Vec3, p: Vec3, j: nat)
    requires NonzeroLengths(lengths) && j < 3
    ensures OrthoImage(HalfAway, lengths, p)[j] == OrthoAxis(HalfAway, p[j], lengths[j])
  {
  }

  /** Along one axis, rounding half away from zero, as the loop computes it. */
  lemma OrthoAxisHalfAway(x: real, l: real)
    requires l != 0.0
    ensures OrthoAxis(HalfAway, x, l) == x - l * RoundHalfAway(x / l) as real
  {
  }

  /** The C++ triclinic image as written: `m · wrap(mᵀ · p)`, rounding half away from zero. */
  function ImageAsWritten(m: Mat3, p: Vec3): Vec3
  {
    MatVec(m, Wrap(HalfAway, TransposeVec(m, p)))
  }

  class Cell {
    var lengths: Vec3
    var angles: Vec3
    var matrix: Mat3

    /** `Cell()`: lengths, angles and matrix all zero. */
    constructor ()
      ensures lengths == Zero3 && angles == Zero3 && matrix == ZeroMat
      ensures IsVacuum()
    {
      lengths, angles, matrix := Zero3, Zero3, ZeroMat;
    }

    /** `Cell(a, b, c, alpha, beta, gamma)`: stores the parameters and builds the matrix. */
    constructor Init(t: Trig, a: real, b: real, c: real, alpha: real, beta: real, gamma: real)
      requires Sin(t, Rad(t, gamma)) != 0.0
      ensures lengths == [a, b, c] && angles == [alpha, beta, gamma]
      ensures matrix == BoxMatrix(t, lengths, angles)
    {
      lengths := [a, b, c];
      angles := [alpha, beta, gamma];
      matrix := BoxMatrix(t, [a, b, c], [alpha, beta, gamma]);
    }

    /** `volume()`: the six-term cofactor determinant of the matrix. */
    function Volume(): (v: real)
      reads this
      ensures UpperTriangular(matrix) ==> v == matrix[0][0] * matrix[1][1] * matrix[2][2]
    {
      DetUpperTriangularWhen(matrix);
      Det(matrix)
    }

    /** `is_vacuum()`: the volume is exactly zero. */
    predicate IsVacuum()
      reads this
    {
      Volume() == 0.0
    }

    predicate IsOrthorhombic()
      reads this
    {
      IsOrthorhombicAngles(angles)
    }

    /**
     * `bounding_edges()`: row `4i + 2j + k` is the corner (x, y, z) picked
     * by i, j, k, multiplied column by column with the ROWS of the matrix,
     * i.e. `matrixᵀ · (x, y, z)`.
     */
    method BoundingEdges() returns (edges: array2<real>)
      ensures fresh(edges) && edges.Length0 == 8 && edges.Length1 == 3
      ensures forall idx, col :: 0 <= idx < 8 && 0 <= col < 3 ==>
        edges[idx, col] == TransposeVec(matrix, CornerAt(idx))[col]
    {
      edges := new real[8, 3]((_, _) => 0.0);
      var values := [-0.5, 0.5];
      for i := 0 to 2
        invariant forall idx, col :: 0 <= idx < 4 * i && 0 <= col < 3 ==>
          edges[idx, col] == TransposeVec(matrix, CornerAt(idx))[col]
      {
        var x := values[i];
        for j := 0 to 2
          invariant forall idx, col :: 0 <= idx < 4 * i + 2 * j && 0 <= col < 3 ==>
            edges[idx, col] == TransposeVec(matrix, CornerAt(idx))[col]
        {
          var y := values[j];
          for k := 0 to 2
            invariant forall idx, col :: 0 <= idx < 4 * i + 2 * j + k && 0 <= col < 3 ==>
              edges[idx, col] == TransposeVec(matrix, CornerAt(idx))[col]
          {
            var z := values[k];
            var idx := i * 4 + j * 2 + k;
            assert CornerAt(idx) == [x, y, z];
            EdgeRow(edges, idx, x, y, z);
          }
        }
      }
    }

    /** The innermost loop of `bounding_edges`: row `idx` becomes `matrixᵀ · (x, y, z)`. */
    method EdgeRow(edges: array2<real>, idx: nat, x: real, y: real, z: real)
      requires edges.Length0 == 8 && edges.Length1 == 3 && idx < 8
      modifies edges
      ensures forall c :: 0 <= c < 3 ==> edges[idx, c] == TransposeVec(matrix, [x, y, z])[c]
      ensures forall e, c :: 0 <= e < 8 && e != idx && 0 <= c < 3 ==> edges[e, c] == old(edges[e, c])
    {
      for col := 0 to 3
        invariant forall e, c :: 0 <= e < 8 && e != idx && 0 <= c < 3 ==> edges[e, c] == old(edges[e, c])
        invariant forall c :: 0 <= c < col ==> edges[idx, c] == TransposeVec(matrix, [x, y, z])[c]
      {
        edges[idx, col] := matrix[0][col] * x + matrix[1][col] * y + matrix[2][col] * z;
      }
    }

    /**
     * `image(pos)`: each position moved into the cell. Orthorhombic cells
     * (all three angles exactly 90) subtract whole box lengths per axis;
     * otherwise positions go through fractional coordinates, as written
     * with `matrixᵀ` where the inverse belongs.
     */
    method Image(pos: seq<Vec3>) returns (image: array2<real>)
      requires IsOrthorhombic() ==> NonzeroLengths(lengths)
      ensures fresh(image) && image.Length0 == |pos| && image.Length1 == 3
      ensures IsOrthorhombic() ==> forall i, j :: 0 <= i < |pos| && 0 <= j < 3 ==>
        image[i, j] == OrthoImage(HalfAway, lengths, pos[i])[j]
      ensures !IsOrthorhombic() ==> forall i, j :: 0 <= i < |pos| && 0 <= j < 3 ==>
        image[i, j] == ImageAsWritten(matrix, pos[i])[j]
    {
      var n := |pos|;
      image := new real[n, 3]((_, _) => 0.0);
      if angles[0] == 90.0 && angles[1] == 90.0 && angles[2] == 90.0 {
        OrthoRows(pos, image);
      } else {
        var fractional := new real[n, 3]((_, _) => 0.0);
        for i := 0 to n
          invariant forall a, b :: 0 <= a < i && 0 <= b < 3 ==>
            fractional[a, b] == Wrap(HalfAway, TransposeVec(matrix, pos[a]))[b]
          invariant forall a, b :: i <= a < n && 0 <= b < 3 ==> fractional[a, b] == 0.0
          invariant forall a, b :: 0 <= a < n && 0 <= b < 3 ==> image[a, b] == 0.0
        {
          FractionalRow(pos, fractional, i);
        }
        for i := 0 to n
          invariant forall a, b :: 0 <= a < i && 0 <= b < 3 ==> image[a, b] == ImageAsWritten(matrix, pos[a])[b]
          invariant forall a, b :: i <= a < n && 0 <= b < 3 ==> image[a, b] == 0.0
          invariant forall a, b :: 0 <= a < n && 0 <= b < 3 ==>
            fractional[a, b] == Wrap(HalfAway, TransposeVec(matrix, pos[a]))[b]
        {
          CartesianRow(pos, fractional, image, i);
        }
      }
    }

    /** The orthorhombic branch of `image`: `pos - lengths * round(pos / lengths)` entry by entry. */
    method OrthoRows(pos: seq<Vec3>, image: array2<real>)
      requires NonzeroLengths(lengths)
      requires image.Length0 == |pos| && image.Length1 == 3
      modifies image
      ensures forall i, j :: 0 <= i < |pos| && 0 <= j < 3 ==> image[i, j] == OrthoImage(HalfAway, lengths, pos[i])[j]
    {
      for i := 0 to |pos|
        invariant forall a, b :: 0 <= a < i && 0 <= b < 3 ==> image[a, b] == OrthoImage(HalfAway, lengths, pos[a])[b]
      {
        OrthoRow(pos, image, i);
      }
    }

    /** One position of the orthorhombic branch: each coordinate minus its nearest whole box length. */
    method OrthoRow(pos: seq<Vec3>, image: array2<real>, i: nat)
      requires NonzeroLengths(lengths)
      requires image.Length0 == |pos| && image.Length1 == 3 && i < |pos|
      modifies image
      ensures forall b :: 0 <= b < 3 ==> image[i, b] == OrthoImage(HalfAway, lengths, pos[i])[b]
      ensures forall a, b :: 0 <= a < |pos| && a != i && 0 <= b < 3 ==> image[a, b] == old(image[a, b])
    {
      for j := 0 to 3
        invariant forall a, b :: 0 <= a < |pos| && a != i && 0 <= b < 3 ==> image[a, b] == old(image[a, b])
        invariant forall b :: 0 <= b < j ==> image[i, b] == OrthoImage(HalfAway, lengths, pos[i])[b]
      {
        var scaled := pos[i][j] / lengths[j];
        image[i, j] := pos[i][j] - lengths[j] * RoundHalfAway(scaled) as real;
        OrthoAxisHalfAway(pos[i][j], lengths[j]);
        OrthoImageEntry(lengths, pos[i], j);
      }
    }

    /** First loop of the triclinic `image`, for position i: `matrixᵀ · pos[i]`, then wrapped. */
    method FractionalRow(pos: seq<Vec3>, fractional: array2<real>, i: nat)
      requires fractional.Length0 == |pos| && fractional.Length1 == 3 && i < |pos|
      requires forall b :: 0 <= b < 3 ==> fractional[i, b] == 0.0
      modifies fractional
      ensures forall b :: 0 <= b < 3 ==> fractional[i, b] == Wrap(HalfAway, TransposeVec(matrix, pos[i]))[b]
      ensures forall a, b :: 0 <= a < |pos| && a != i && 0 <= b < 3 ==> fractional[a, b] == old(fractional[a, b])
    {
      for j := 0 to 3
        invariant forall a, b :: 0 <= a < |pos| && a != i && 0 <= b < 3 ==> fractional[a, b] == old(fractional[a, b])
        invariant forall b :: 0 <= b < j ==> fractional[i, b] == TransposeVec(matrix, pos[i])[b]
        invariant forall b :: j <= b < 3 ==> fractional[i, b] == 0.0
      {
        AccumulateDot(fractional, i, j, pos[i], Column(matrix, j));
      }
      for j := 0 to 3
        invariant forall a, b :: 0 <= a < |pos| && a != i && 0 <= b < 3 ==> fractional[a, b] == old(fractional[a, b])
        invariant forall b :: 0 <= b < j ==> fractional[i, b] == Wrap(HalfAway, TransposeVec(matrix, pos[i]))[b]
        invariant forall b :: j <= b < 3 ==> fractional[i, b] == TransposeVec(matrix, pos[i])[b]
      {
        fractional[i, j] := fractional[i, j] - RoundHalfAway(fractional[i, j]) as real;
      }
    }

    /** Second loop of the triclinic `image`, for position i: `matrix · fractional[i]`. */
    method CartesianRow(pos: seq<Vec3>, fractional: array2<real>, image: array2<real>, i: nat)
      requires fractional.Length0 == |pos| && fractional.Length1 == 3 && i < |pos|
      requires image.Length0 == |pos| && image.Length1 == 3 && image != fractional
      requires forall b :: 0 <= b < 3 ==> fractional[i, b] == Wrap(HalfAway, TransposeVec(matrix, pos[i]))[b]
      requires forall b :: 0 <= b < 3 ==> image[i, b] == 0.0
      modifies image
      ensures forall b :: 0 <= b < 3 ==> image[i, b] == ImageAsWritten(matrix, pos[i])[b]
      ensures forall a, b :: 0 <= a < |pos| && a != i && 0 <= b < 3 ==> image[a, b] == old(image[a, b])
    {
      var f := Wrap(HalfAway, TransposeVec(matrix, pos[i]));
      assert [fractional[i, 0], fractional[i, 1], fractional[i, 2]] == f;
      for j := 0 to 3
        invariant forall a, b :: 0 <= a < |pos| && a != i && 0 <= b < 3 ==> image[a, b] == old(image[a, b])
        invariant forall b :: 0 <= b < j ==> image[i, b] == ImageAsWritten(matrix, pos[i])[b]
        invariant forall b :: j <= b < 3 ==> image[i, b] == 0.0
      {
        AccumulateDot(image, i, j, f, matrix[j]);
      }
    }

    /**
     * `init_from_box_matrix(m)`: takes the matrix as given and derives the
     * lengths (column norms) and the angles (arc cosines of the normalised
     * column dot products) from it.
     */
    method InitFromBoxMatrix(t: Trig, m: Mat3)
      requires HasNonzeroColumns(t, m) && t.pi != 0.0
      modifies this
      ensures matrix == m && lengths == LengthsOf(t, m) && angles == AnglesOf(t, m)
    {
      matrix := m;
      lengths := [ColumnLength(t, m, 0), ColumnLength(t, m, 1), ColumnLength(t, m, 2)];
      angles := [AngleBetween(t, Column(m, 1), Column(m, 2), lengths[1], lengths[2]),
                 AngleBetween(t, Column(m, 0), Column(m, 2), lengths[0], lengths[2]),
                 AngleBetween(t, Column(m, 0), Column(m, 1), lengths[0], lengths[1])];
    }
  }

  /**
   * The innermost loop of `image`: entry (i, j) of a zeroed buffer
   * accumulates `u[k] * v[k]` for k = 0, 1, 2, and ends as `u · v`; no
   * other entry changes.
   */
  method AccumulateDot(dst: array2<real>, i: nat, j: nat, u: Vec3, v: Vec3)
    requires i < dst.Length0 && j < dst.Length1 && dst[i, j] == 0.0
    modifies dst
    ensures dst[i, j] == Dot(u, v)
    ensures forall a, b :: 0 <= a < dst.Length0 && 0 <= b < dst.Length1 && (a != i || b != j) ==> dst[a, b] == old(dst[a, b])
  {
    for k := 0 to 3
      invariant dst[i, j] == DotUpTo(u, v, k)
      invariant forall a, b :: 0 <= a < dst.Length0 && 0 <= b < dst.Length1 && (a != i || b != j) ==> dst[a, b] == old(dst[a, b])
    {
      dst[i, j] := dst[i, j] + u[k] * v[k];
    }
    DotUpToFull(u, v);
  }

  lemma DetUpperTriangularWhen(m: Mat3)
    ensures UpperTriangular(m) ==> Det(m) == m[0][0] * m[1][1] * m[2][2]
  {
    if UpperTriangular(m) {
      DetUpperTriangular(m);
    }
  }

  // ---------------------------------------------------------------------
  // Round trip: building the matrix and reading lengths and angles back

  /** `sqrt(x * x) == x` for a non-negative x, when `sqrt` is a genuine square root. */
  lemma SqrtOfSquare(t: Trig, x: real, sq: real)
    requires IsSquareRoot(t) && x >= 0.0 && sq == x * x
    ensures Sqrt(t, sq) == x
  {
    var s := Sqrt(t, sq);
    assert sq >= 0.0;
    assert s >= 0.0 && s * s == sq;
    assert (s - x) * (s + x) == 0.0;
    ZeroFactor(s - x, s + x);
  }

  lemma ZeroFactor(u: real, v: real)
    requires u * v == 0.0
    ensures u == 0.0 || v == 0.0
  {
  }

  /** `acos(cos(θ))` gives θ back, in degrees. */
  predicate AcosInverts(t: Trig, deg: real)
  {
    Acos(t, Cos(t, Rad(t, deg))) == Rad(t, deg)
  }

  /** `sin² θ + cos² θ == 1`. */
  predicate Pythagorean(t: Trig, deg: real)
  {
    Sin(t, Rad(t, deg)) * Sin(t, Rad(t, deg)) + Cos(t, Rad(t, deg)) * Cos(t, Rad(t, deg)) == 1.0
  }

  lemma DegreesBack(t: Trig, deg: real)
    requires t.pi != 0.0
    ensures Rad(t, deg) * 180.0 / t.pi == deg
  {
  }

  /** Built lengths are read back unchanged. */
  lemma LengthsRoundTrip(t: Trig, lengths: Vec3, angles: Vec3)
    requires IsSquareRoot(t)
    requires lengths[0] > 0.0 && lengths[1] > 0.0 && lengths[2] > 0.0
    requires Sin(t, Rad(t, angles[2])) != 0.0
    requires Pythagorean(t, angles[1]) && Pythagorean(t, angles[2])
    requires HeightSquared(t, angles) >= 0.0
    ensures LengthsOf(t, BoxMatrix(t, lengths, angles)) == lengths
  {
    var ca, cb, cg := Cos(t, Rad(t, angles[0])), Cos(t, Rad(t, angles[1])), Cos(t, Rad(t, angles[2]));
    var sb, sg, h := Sin(t, Rad(t, angles[1])), Sin(t, Rad(t, angles[2])), Sqrt(t, HeightSquared(t, angles));
    SquareOfSqrt(t, HeightSquared(t, angles));
    HeightIdentity(cb, sb, Shear(ca, cb, cg, sg), HeightSquared(t, angles), h);
    TriangularLengths(t, lengths, ca, cb, cg, sg, h);
  }

  /** The column lengths of the triangular box are the lengths it was built from. */
  lemma TriangularLengths(t: Trig, lengths: Vec3, ca: real, cb: real, cg: real, sg: real, h: real)
    requires IsSquareRoot(t)
    requires lengths[0] > 0.0 && lengths[1] > 0.0 && lengths[2] > 0.0
    requires sg != 0.0 && sg * sg + cg * cg == 1.0
    requires cb * cb + Shear(ca, cb, cg, sg) + h * h == 1.0
    ensures LengthsOf(t, TriangularBox(lengths[0], lengths[1], lengths[2], ca, cb, cg, sg, h)) == lengths
  {
    var m := TriangularBox(lengths[0], lengths[1], lengths[2], ca, cb, cg, sg, h);
    TriangularBoxNorms(lengths[0], lengths[1], lengths[2], ca, cb, cg, sg, h);
    ColumnLengthOf(t, m, 0, lengths[0]);
    ColumnLengthOf(t, m, 1, lengths[1]);
    ColumnLengthOf(t, m, 2, lengths[2]);
  }

  lemma SquareOfSqrt(t: Trig, x: real)
    requires IsSquareRoot(t) && x >= 0.0
    ensures Sqrt(t, x) * Sqrt(t, x) == x
  {
  }

  /** `cos² β + shear + h² = 1` when `h² = sin² β - shear` and `sin² β + cos² β = 1`. */
  lemma HeightIdentity(cb: real, sb: real, shear: real, hs: real, h: real)
    requires sb * sb + cb * cb == 1.0 && hs == sb * sb - shear && h * h == hs
    ensures cb * cb + shear + h * h == 1.0
  {
  }

  /** A column whose squared norm is `l²`, for `l >= 0`, has length `l`. */
  lemma ColumnLengthOf(t: Trig, m: Mat3, j: nat, l: real)
    requires IsSquareRoot(t) && j < 3 && l >= 0.0
    requires Dot(Column(m, j), Column(m, j)) == l * l
    ensures ColumnLength(t, m, j) == l
  {
    SqrtOfSquare(t, l, Dot(Column(m, j), Column(m, j)));
  }

  /**
   * Reading lengths and angles back from a matrix built out of them
   * (`init_from_box_matrix` after the constructor) gives the same lengths
   * and angles, for positive lengths and a non-degenerate cell, when sqrt,
   * sin, cos and acos behave as they do on the reals.
   */
  lemma InitFromBoxMatrixRoundTrip(t: Trig, lengths: Vec3, angles: Vec3)
    requires IsSquareRoot(t) && t.pi != 0.0
    requires lengths[0] > 0.0 && lengths[1] > 0.0 && lengths[2] > 0.0
    requires Sin(t, Rad(t, angles[2])) != 0.0
    requires Pythagorean(t, angles[1]) && Pythagorean(t, angles[2])
    requires AcosInverts(t, angles[0]) && AcosInverts(t, angles[1]) && AcosInverts(t, angles[2])
    requires HeightSquared(t, angles) >= 0.0
    ensures HasNonzeroColumns(t, BoxMatrix(t, lengths, angles))
    ensures LengthsOf(t, BoxMatrix(t, lengths, angles)) == lengths
    ensures AnglesOf(t, BoxMatrix(t, lengths, angles)) == angles
  {
    var ca, cb, cg := Cos(t, Rad(t, angles[0])), Cos(t, Rad(t, angles[1])), Cos(t, Rad(t, angles[2]));
    var sg, h := Sin(t, Rad(t, angles[2])), Sqrt(t, HeightSquared(t, angles));
    var m := BoxMatrix(t, lengths, angles);
    assert m == TriangularBox(lengths[0], lengths[1], lengths[2], ca, cb, cg, sg, h);
    LengthsRoundTrip(t, lengths, angles);
    BoxMatrixAngles(t, lengths, angles);
  }

  /** The angles between the built columns, measured with the given lengths, are the given angles. */
  lemma BoxMatrixAngles(t: Trig, lengths: Vec3, angles: Vec3)
    requires t.pi != 0.0
    requires lengths[0] != 0.0 && lengths[1] != 0.0 && lengths[2] != 0.0
    requires Sin(t, Rad(t, angles[2])) != 0.0
    requires AcosInverts(t, angles[0]) && AcosInverts(t, angles[1]) && AcosInverts(t, angles[2])
    ensures var m := BoxMatrix(t, lengths, angles);
            && lengths[1] * lengths[2] != 0.0 && lengths[0] * lengths[2] != 0.0 && lengths[0] * lengths[1] != 0.0
            && AngleBetween(t, Column(m, 1), Column(m, 2), lengths[1], lengths[2]) == angles[0]
            && AngleBetween(t, Column(m, 0), Column(m, 2), lengths[0], lengths[2]) == angles[1]
            && AngleBetween(t, Column(m, 0), Column(m, 1), lengths[0], lengths[1]) == angles[2]
  {
    var ca, cb, cg := Cos(t, Rad(t, angles[0])), Cos(t, Rad(t, angles[1])), Cos(t, Rad(t, angles[2]));
    var sg, h := Sin(t, Rad(t, angles[2])), Sqrt(t, HeightSquared(t, angles));
    var m := BoxMatrix(t, lengths, angles);
    assert m == TriangularBox(lengths[0], lengths[1], lengths[2], ca, cb, cg, sg, h);
    TriangularBoxAngle(t, lengths[0], lengths[1], lengths[2], ca, cb, cg, sg, h, 1, 2, ca, angles[0]);
    TriangularBoxAngle(t, lengths[0], lengths[1], lengths[2], ca, cb, cg, sg, h, 0, 2, cb, angles[1]);
    TriangularBoxAngle(t, lengths[0], lengths[1], lengths[2], ca, cb, cg, sg, h, 0, 1, cg, angles[2]);
  }

  /** One angle of the triangular box: columns i and j are `deg` apart when their cosine is cos(deg). */
  lemma TriangularBoxAngle(t: Trig, a: real, b: real, c: real, ca: real, cb: real, cg: real, sg: real, h: real,
                           i: nat, j: nat, cosine: real, deg: real)
    requires sg != 0.0 && a != 0.0 && b != 0.0 && c != 0.0 && t.pi != 0.0
    requires (i, j, cosine) == (1, 2, ca) || (i, j, cosine) == (0, 2, cb) || (i, j, cosine) == (0, 1, cg)
    requires cosine == Cos(t, Rad(t, deg)) && AcosInverts(t, deg)
    ensures [a, b, c][i] * [a, b, c][j] != 0.0
    ensures AngleBetween(t, Column(TriangularBox(a, b, c, ca, cb, cg, sg, h), i),
                            Column(TriangularBox(a, b, c, ca, cb, cg, sg, h), j), [a, b, c][i], [a, b, c][j]) == deg
  {
    var m := TriangularBox(a, b, c, ca, cb, cg, sg, h);
    TriangularBoxCosines(a, b, c, ca, cb, cg, sg, h);
    if i == 1 {
      AngleOfCosine(t, Column(m, 1), Column(m, 2), b, c, deg);
    } else if j == 2 {
      AngleOfCosine(t, Column(m, 0), Column(m, 2), a, c, deg);
    } else {
      AngleOfCosine(t, Column(m, 0), Column(m, 1), a, b, deg);
    }
  }

  /** Two vectors whose normalised dot product is cos θ are θ degrees apart. */
  lemma AngleOfCosine(t: Trig, u: Vec3, v: Vec3, lu: real, lv: real, deg: real)
    requires lu * lv != 0.0 && t.pi != 0.0
    requires Dot(u, v) / (lu * lv) == Cos(t, Rad(t, deg))
    requires AcosInverts(t, deg)
    ensures AngleBetween(t, u, v, lu, lv) == deg
  {
    DegreesBack(t, deg);
  }

  // ---------------------------------------------------------------------
  // The triclinic image

  /**
   * The image the fractional-coordinate method is meant to compute:
   * fractional coordinates through the INVERSE matrix, rounded half away
   * from zero as `std::round` does.
   */
  function ImageIntended(m: Mat3, p: Vec3): Vec3
    requires Det(m) != 0.0
  {
    FractionalImage(HalfAway, m, Inverse(m).value, p)
  }

  /**
   * The intended image is the position moved by a whole lattice vector,
   * and its fractional coordinates lie in [-1/2, 1/2].
   */
  lemma ImageIntendedIsMinimumImage(m: Mat3, p: Vec3)
    requires Det(m) != 0.0
    ensures ImageIntended(m, p) == Sub(p, MatVec(m, RoundVec(HalfAway, MatVec(Inverse(m).value, p))))
    ensures forall j :: 0 <= j < 3 ==> -0.5 <= MatVec(Inverse(m).value, ImageIntended(m, p))[j] <= 0.5
  {
    InverseIsInverse(m);
    FractionalImageIsLatticeShift(HalfAway, m, Inverse(m).value, p);
    FractionalImageInCell(HalfAway, m, Inverse(m).value, p);
  }

  /** A sheared cell (γ ≠ 90°) with box vectors (1, 0, 0), (0.5, 1, 0), (0, 0, 1). */
  const ShearedBox: Mat3 := [[1.0, 0.5, 0.0], [0.0, 1.0, 0.0], [0.0, 0.0, 1.0]]

  /**
   * The triclinic branch as written moves the point (0.4, 0, 0), which lies
   * inside the sheared cell, to (0.5, 0.2, 0); the intended image leaves it
   * where it is.
   */
  lemma ImageAsWrittenMovesInteriorPoint()
    ensures ImageAsWritten(ShearedBox, [0.4, 0.0, 0.0]) == [0.5, 0.2, 0.0]
    ensures Det(ShearedBox) != 0.0 && ImageIntended(ShearedBox, [0.4, 0.0, 0.0]) == [0.4, 0.0, 0.0]
  {
    var p: Vec3 := [0.4, 0.0, 0.0];
    var f: Vec3 := [0.4, 0.2, 0.0];
    assert TransposeVec(ShearedBox, p) == f;
    SmallCoordinatesStay(f);
    ShearedBoxInverse();
    assert MatVec(Inverse(ShearedBox).value, p) == p;
    SmallCoordinatesStay(p);
  }

  /** Coordinates of magnitude below one half round to 0 and stay as they are. */
  lemma SmallCoordinatesStay(f: Vec3)
    requires -0.5 < f[0] < 0.5 && -0.5 < f[1] < 0.5 && -0.5 < f[2] < 0.5
    ensures Wrap(HalfAway, f) == f
  {
    assert RoundHalfAway(f[0]) == 0 && RoundHalfAway(f[1]) == 0 && RoundHalfAway(f[2]) == 0;
    assert RoundVec(HalfAway, f) == Zero3;
  }

  /** The sheared box has determinant 1 and undoes its shear. */
  lemma ShearedBoxInverse()
    ensures Det(ShearedBox) == 1.0
    ensures Inverse(ShearedBox).value == [[1.0, -0.5, 0.0], [0.0, 1.0, 0.0], [0.0, 0.0, 1.0]]
  {
    assert Adjugate(ShearedBox) == [[1.0, -0.5, 0.0], [0.0, 1.0, 0.0], [0.0, 0.0, 1.0]];
  }

  // ---------------------------------------------------------------------
  // The corners

  /** The corner as the box vectors (columns) scaled by ±1/2 and summed. */
  lemma MatVecIsColumnSum(m: Mat3, v: Vec3)
    ensures MatVec(m, v) == Add(Add(Scale(v[0], Column(m, 0)), Scale(v[1], Column(m, 1))), Scale(v[2], Column(m, 2)))
  {
    var l, r := MatVec(m, v), Add(Add(Scale(v[0], Column(m, 0)), Scale(v[1], Column(m, 1))), Scale(v[2], Column(m, 2)));
    assert l[0] == r[0] && l[1] == r[1] && l[2] == r[2];
  }

  /**
   * `bounding_edges` combines the ROWS of the matrix: for the sheared cell
   * its last corner is (0.5, 0.75, 0.5), while the corner of the box,
   * `matrix · (0.5, 0.5, 0.5)`, is (0.75, 0.5, 0.5).
   */
  lemma BoundingEdgesUsesRows()
    ensures TransposeVec(ShearedBox, CornerAt(7)) == [0.5, 0.75, 0.5]
    ensures MatVec(ShearedBox, CornerAt(7)) == [0.75, 0.5, 0.5]
  {
    assert CornerAt(7) == [0.5, 0.5, 0.5];
  }

  /** Opposite rows of the C++ corner table are negatives of each other. */
  lemma EdgesAsWrittenOpposite(m: Mat3, i: nat, j: nat, k: nat)
    requires i < 2 && j < 2 && k < 2
    ensures TransposeVec(m, Corner(1 - i, 1 - j, 1 - k)) == Scale(-1.0, TransposeVec(m, Corner(i, j, k)))
  {
    CornerOpposite(i, j, k);
    TransposeVecScale(m, -1.0, Corner(i, j, k));
  }
}
