/**
 * The Python `Cell` (PQAnalysis/core/cell/cell.py with the setters and
 * getters of _standard_properties.py): box lengths, box angles, the box
 * matrix derived from them and its inverse, with the corners of the box,
 * the volume, the minimum image and the tolerance-based comparison.
 *
 * `np.linalg.inv` raising `LinAlgError` on a singular matrix is modelled
 * by an `Option`: `None` in `inverseBoxMatrix` stands for that error.
 */
module CellPy {

  import opened Common
  import opened CellMath
  import CellCpp

  /**
   * `setup_box_matrix`: the box vectors as columns, with the third diagonal
   * entry `z * sqrt(1 - cos² β - ((cos α - cos β cos γ) / sin γ)²)`.
   */
  function BoxMatrix(t: Trig, lengths: Vec3, angles: Vec3): Mat3
    requires Sin(t, Rad(t, angles[2])) != 0.0
  {
    TriangularBox(lengths[0], lengths[1], lengths[2],
                  Cos(t, Rad(t, angles[0])), Cos(t, Rad(t, angles[1])), Cos(t, Rad(t, angles[2])),
                  Sin(t, Rad(t, angles[2])), Sqrt(t, HeightSquared(t, angles)))
  }

  /** `1 - cos² β - ((cos α - cos β cos γ) / sin γ)²`, what `setup_box_matrix` takes the square root of. */
  function HeightSquared(t: Trig, angles: Vec3): real
    requires Sin(t, Rad(t, angles[2])) != 0.0
  {
    1.0 - Cos(t, Rad(t, angles[1])) * Cos(t, Rad(t, angles[1]))
    - Shear(Cos(t, Rad(t, angles[0])), Cos(t, Rad(t, angles[1])), Cos(t, Rad(t, angles[2])), Sin(t, Rad(t, angles[2])))
  }

  /**
   * The matrix is upper triangular with first column (x, 0, 0) and second
   * column (y cos γ, y sin γ, 0), and its determinant is the product of
   * the diagonal.
   */
  lemma BoxMatrixShape(t: Trig, lengths: Vec3, angles: Vec3)
    requires Sin(t, Rad(t, angles[2])) != 0.0
    ensures var m := BoxMatrix(t, lengths, angles);
            && UpperTriangular(m)
            && Column(m, 0) == [lengths[0], 0.0, 0.0]
            && Column(m, 1) == [lengths[1] * Cos(t, Rad(t, angles[2])), lengths[1] * Sin(t, Rad(t, angles[2])), 0.0]
            && Det(m) == m[0][0] * m[1][1] * m[2][2]
  {
    DetUpperTriangular(BoxMatrix(t, lengths, angles));
  }

  /** Right angles give diag(x, y, z). */
  lemma BoxMatrixOrthorhombic(t: Trig, lengths: Vec3, angles: Vec3)
    requires RightAngleFacts(t) && CellCpp.IsOrthorhombicAngles(angles)
    ensures Sin(t, Rad(t, angles[2])) == 1.0
    ensures BoxMatrix(t, lengths, angles)
         == [[lengths[0], 0.0, 0.0], [0.0, lengths[1], 0.0], [0.0, 0.0, lengths[2]]]
  {
    var r := Rad(t, angles[1]);
    assert Sin(t, r) == 1.0 && Cos(t, r) == 0.0;
    assert CellCpp.Pythagorean(t, angles[1]);
    CellCpp.BoxMatrixOrthorhombic(t, lengths, angles);
    BoxMatrixMatchesCpp(t, lengths, angles);
  }

  /**
   * The Python and the C++ constructions give the same matrix whenever
   * sin² β + cos² β = 1: one takes the square root of
   * `1 - cos² β - shear²`, the other of `sin² β - shear²`.
   */
  lemma BoxMatrixMatchesCpp(t: Trig, lengths: Vec3, angles: Vec3)
    requires Sin(t, Rad(t, angles[2])) != 0.0
    requires CellCpp.Pythagorean(t, angles[1])
    ensures BoxMatrix(t, lengths, angles) == CellCpp.BoxMatrix(t, lengths, angles)
  {
    var ca, cb, cg := Cos(t, Rad(t, angles[0])), Cos(t, Rad(t, angles[1])), Cos(t, Rad(t, angles[2]));
    var sb, sg := Sin(t, Rad(t, angles[1])), Sin(t, Rad(t, angles[2]));
    var s := Shear(ca, cb, cg, sg);
    assert sb * sb + cb * cb == 1.0;
    assert HeightSquared(t, angles) == CellCpp.HeightSquared(t, angles);
  }

  /** The default lengths of `Cell()`: `sys.float_info.max` on every axis. */
  const DefaultLengths: Vec3 := [FloatMax, FloatMax, FloatMax]

  /** The default angles of `Cell()`. */
  const RightAngles: Vec3 := [90.0, 90.0, 90.0]

  /** The positions handed to `image`: one vector of shape (3,) or an (N, 3) array. */
  datatype Positions = One(p: Vec3) | Many(ps: seq<Vec3>)

  class Cell {
    /** numpy's `cos`, `sin` and `sqrt`. */
    const t: Trig
    var boxLengths: Vec3
    var boxAngles: Vec3
    var boxMatrix: Mat3
    /** `None` where `np.linalg.inv` raises `LinAlgError`. */
    var inverseBoxMatrix: Option<Mat3>

    /** The matrix is the one built from the lengths and angles, and the inverse belongs to it. */
    predicate Valid()
      reads this
    {
      && Sin(t, Rad(t, boxAngles[2])) != 0.0
      && boxMatrix == BoxMatrix(t, boxLengths, boxAngles)
      && inverseBoxMatrix == Inverse(boxMatrix)
    }

    /** `Cell(x, y, z, alpha, beta, gamma)`. */
    constructor (t: Trig, x: real, y: real, z: real, alpha: real, beta: real, gamma: real)
      requires Sin(t, Rad(t, gamma)) != 0.0
      ensures this.t == t && boxLengths == [x, y, z] && boxAngles == [alpha, beta, gamma] && Valid()
      ensures X() == x && Y() == y && Z() == z && Alpha() == alpha && Beta() == beta && Gamma() == gamma
    {
      this.t := t;
      boxLengths := [x, y, z];
      boxAngles := [alpha, beta, gamma];
      var m := BoxMatrix(t, [x, y, z], [alpha, beta, gamma]);
      boxMatrix := m;
      inverseBoxMatrix := Inverse(m);
    }

    /** `Cell()`: every length is `sys.float_info.max` and every angle 90, so the box is diagonal. */
    function X(): real reads this { boxLengths[0] }
    function Y(): real reads this { boxLengths[1] }
    function Z(): real reads this { boxLengths[2] }
    function Alpha(): real reads this { boxAngles[0] }
    function Beta(): real reads this { boxAngles[1] }
    function Gamma(): real reads this { boxAngles[2] }

    /** The `_box_matrix` setter: stores the matrix and recomputes the inverse. */
    method SetMatrix(m: Mat3)
      modifies this
      ensures boxMatrix == m && inverseBoxMatrix == Inverse(m)
      ensures boxLengths == old(boxLengths) && boxAngles == old(boxAngles)
      ensures inverseBoxMatrix.Some? ==>
                MatMul(m, inverseBoxMatrix.value) == Identity && MatMul(inverseBoxMatrix.value, m) == Identity
    {
      boxMatrix := m;
      inverseBoxMatrix := Inverse(m);
      if Det(m) != 0.0 {
        InverseIsInverse(m);
      }
    }

    /** The `box_lengths` setter: stores the lengths and rebuilds the matrix (and so the inverse). */
    method SetBoxLengths(lengths: Vec3)
      requires Valid()
      modifies this
      ensures boxLengths == lengths && boxAngles == old(boxAngles) && Valid()
    {
      boxLengths := lengths;
      SetMatrix(BoxMatrix(t, boxLengths, boxAngles));
    }

    /** The `box_angles` setter: stores the angles and rebuilds the matrix (and so the inverse). */
    method SetBoxAngles(angles: Vec3)
      requires Sin(t, Rad(t, angles[2])) != 0.0
      modifies this
      ensures boxAngles == angles && boxLengths == old(boxLengths) && Valid()
    {
      boxAngles := angles;
      SetMatrix(BoxMatrix(t, boxLengths, boxAngles));
    }

    /**
     * `bounding_edges`: row `4i + 2j + k` is `box_matrix @ (x, y, z)` for the
     * corner picked by i, j, k, i.e. a sum of the box vectors scaled by ±1/2.
     */
    method BoundingEdges() returns (edges: array2<real>)
      ensures fresh(edges) && edges.Length0 == 8 && edges.Length1 == 3
      ensures forall idx, col :: 0 <= idx < 8 && 0 <= col < 3 ==>
        edges[idx, col] == MatVec(boxMatrix, CornerAt(idx))[col]
    {
      edges := new real[8, 3]((_, _) => 0.0);
      var values := [-0.5, 0.5];
      for i := 0 to 2
        invariant forall idx, col :: 0 <= idx < 4 * i && 0 <= col < 3 ==>
          edges[idx, col] == MatVec(boxMatrix, CornerAt(idx))[col]
      {
        for j := 0 to 2
          invariant forall idx, col :: 0 <= idx < 4 * i + 2 * j && 0 <= col < 3 ==>
            edges[idx, col] == MatVec(boxMatrix, CornerAt(idx))[col]
        {
          for k := 0 to 2
            invariant forall idx, col :: 0 <= idx < 4 * i + 2 * j + k && 0 <= col < 3 ==>
              edges[idx, col] == MatVec(boxMatrix, CornerAt(idx))[col]
          {
            var idx := i * 4 + j * 2 + k;
            assert CornerAt(idx) == [values[i], values[j], values[k]];
            SetEdgeRow(edges, idx, MatVec(boxMatrix, [values[i], values[j], values[k]]));
          }
        }
      }
    }

    /** `edges[idx, :] = v`. */
    static method SetEdgeRow(edges: array2<real>, idx: nat, v: Vec3)
      requires edges.Length0 == 8 && edges.Length1 == 3 && idx < 8
      modifies edges
      ensures forall c :: 0 <= c < 3 ==> edges[idx, c] == v[c]
      ensures forall e, c :: 0 <= e < 8 && e != idx && 0 <= c < 3 ==> edges[e, c] == old(edges[e, c])
    {
      for col := 0 to 3
        invariant forall e, c :: 0 <= e < 8 && e != idx && 0 <= c < 3 ==> edges[e, c] == old(edges[e, c])
        invariant forall c :: 0 <= c < col ==> edges[idx, c] == v[c]
      {
        edges[idx, col] := v[col];
      }
    }

    /** `volume`: the determinant of the box matrix. */
    function Volume(): (v: real)
      reads this
      ensures Valid() ==> v == boxLengths[0] * boxMatrix[1][1] * boxMatrix[2][2]
    {
      if Valid() then BoxMatrixShape(t, boxLengths, boxAngles); Det(boxMatrix)
      else Det(boxMatrix)
    }

    /** The orthorhombic test of `image`: all three angles exactly 90. */
    predicate IsOrthorhombic()
      reads this
    {
      Alpha() == 90.0 && Beta() == 90.0 && Gamma() == 90.0
    }

    /** Where `image` is defined: nonzero lengths on the orthorhombic path, an inverse otherwise. */
    predicate CanImage()
      reads this
    {
      if IsOrthorhombic() then CellCpp.NonzeroLengths(boxLengths) else inverseBoxMatrix.Some?
    }

    /**
     * The image of one position: `pos - L * rint(pos / L)` for an
     * orthorhombic cell, otherwise through fractional coordinates
     * `inverse @ pos`, wrapped with `np.round` (ties to even), and back.
     */
    function ImageOf(p: Vec3): Vec3
      reads this
      requires CanImage()
    {
      if IsOrthorhombic() then OrthoImage(HalfEven, boxLengths, p)
      else FractionalImage(HalfEven, boxMatrix, inverseBoxMatrix.value, p)
    }

    /** `image(pos)`: every position imaged, with the shape of `pos` kept. */
    function Image(pos: Positions): (r: Positions)
      reads this
      requires CanImage()
      ensures r.One? <==> pos.One?
      ensures pos.One? ==> r.p == ImageOf(pos.p)
      ensures pos.Many? ==> |r.ps| == |pos.ps| && forall i :: 0 <= i < |pos.ps| ==> r.ps[i] == ImageOf(pos.ps[i])
    {
      match pos
      case One(p) => One(ImageOf(p))
      case Many(ps) => Many(seq(|ps|, i requires 0 <= i < |ps| && CanImage() reads this => ImageOf(ps[i])))
    }

    /** `__eq__`: lengths and angles agree up to `np.allclose`; the matrix is not compared. */
    predicate Equals(other: Cell)
      reads this, other
    {
      AllClose(boxLengths, other.boxLengths) && AllClose(boxAngles, other.boxAngles)
    }
  }

  /** `Cell()`: the constructor with its default arguments. */
  method DefaultCell(t: Trig) returns (c: Cell)
    requires RightAngleFacts(t)
    ensures fresh(c) && c.t == t && c.boxLengths == DefaultLengths && c.boxAngles == RightAngles && c.Valid()
  {
    assert Sin(t, Rad(t, 90.0)) == 1.0;
    c := new Cell(t, FloatMax, FloatMax, FloatMax, 90.0, 90.0, 90.0);
  }

  // ---------------------------------------------------------------------
  // Properties

  /** The volume is x · y sin γ · the third diagonal entry of the built matrix. */
  lemma VolumeOfCell(c: Cell)
    requires c.Valid()
    ensures c.Volume() == c.X() * (c.Y() * Sin(c.t, Rad(c.t, c.Gamma()))) * c.boxMatrix[2][2]
  {
    BoxMatrixShape(c.t, c.boxLengths, c.boxAngles);
  }

  /** Right angles and positive lengths give a diagonal matrix, which has an inverse. */
  lemma PositiveOrthorhombicBox(t: Trig, lengths: Vec3, angles: Vec3)
    requires RightAngleFacts(t) && CellCpp.IsOrthorhombicAngles(angles)
    requires lengths[0] > 0.0 && lengths[1] > 0.0 && lengths[2] > 0.0
    ensures Sin(t, Rad(t, angles[2])) != 0.0
    ensures BoxMatrix(t, lengths, angles) == [[lengths[0], 0.0, 0.0], [0.0, lengths[1], 0.0], [0.0, 0.0, lengths[2]]]
    ensures Inverse(BoxMatrix(t, lengths, angles)).Some?
  {
    BoxMatrixOrthorhombic(t, lengths, angles);
    DiagonalInverse(lengths[0], lengths[1], lengths[2]);
  }

  /** A diagonal matrix with positive entries has an inverse. */
  lemma DiagonalInverse(a: real, b: real, c: real)
    requires a > 0.0 && b > 0.0 && c > 0.0
    ensures Inverse([[a, 0.0, 0.0], [0.0, b, 0.0], [0.0, 0.0, c]]).Some?
  {
    DiagonalDet(a, b, c);
    assert a * b > 0.0;
    assert a * b * c > 0.0;
  }

  lemma DiagonalDet(a: real, b: real, c: real)
    ensures Det([[a, 0.0, 0.0], [0.0, b, 0.0], [0.0, 0.0, c]]) == a * b * c
  {
  }

  /** `Cell(1, 2, 3)`: the matrix is diag(1, 2, 3) and the volume 6. */
  lemma CellOneTwoThree(c: Cell)
    requires RightAngleFacts(c.t) && c.Valid()
    requires c.boxLengths == [1.0, 2.0, 3.0] && c.boxAngles == [90.0, 90.0, 90.0]
    ensures c.boxMatrix == [[1.0, 0.0, 0.0], [0.0, 2.0, 0.0], [0.0, 0.0, 3.0]]
    ensures c.Volume() == 6.0
  {
    BoxMatrixOrthorhombic(c.t, c.boxLengths, c.boxAngles);
    DiagonalDet(1.0, 2.0, 3.0);
  }

  /** `Cell()` has the diagonal matrix diag(max, max, max), which has an inverse. */
  lemma DefaultCellBox(c: Cell)
    requires RightAngleFacts(c.t) && c.Valid()
    requires c.boxLengths == DefaultLengths && c.boxAngles == RightAngles
    ensures c.boxMatrix == [[FloatMax, 0.0, 0.0], [0.0, FloatMax, 0.0], [0.0, 0.0, FloatMax]]
    ensures c.inverseBoxMatrix.Some?
  {
    PositiveOrthorhombicBox(c.t, c.boxLengths, c.boxAngles);
  }

  /** Each corner is the sum of the box vectors (columns) scaled by ±1/2, and opposite corners are negatives. */
  lemma EdgesAreCorners(m: Mat3, i: nat, j: nat, k: nat)
    requires i < 2 && j < 2 && k < 2
    ensures MatVec(m, Corner(i, j, k))
         == Add(Add(Scale(Half(i), Column(m, 0)), Scale(Half(j), Column(m, 1))), Scale(Half(k), Column(m, 2)))
    ensures MatVec(m, Corner(1 - i, 1 - j, 1 - k)) == Scale(-1.0, MatVec(m, Corner(i, j, k)))
  {
    CellCpp.MatVecIsColumnSum(m, Corner(i, j, k));
    CornerOpposite(i, j, k);
    MatVecScale(m, -1.0, Corner(i, j, k));
  }

  /**
   * What `image` guarantees: on the orthorhombic path each coordinate lies
   * within half a box length of 0; otherwise the image is the position
   * moved by a whole lattice vector and its fractional coordinates lie in
   * [-1/2, 1/2].
   */
  lemma ImageIsMinimumImage(c: Cell, p: Vec3)
    requires c.Valid() && c.CanImage()
    ensures c.IsOrthorhombic() ==>
      forall j :: 0 <= j < 3 ==> WithinHalf(c.ImageOf(p)[j], c.boxLengths[j])
    ensures !c.IsOrthorhombic() ==>
      && c.ImageOf(p) == Sub(p, MatVec(c.boxMatrix, RoundVec(HalfEven, MatVec(c.inverseBoxMatrix.value, p))))
      && forall j :: 0 <= j < 3 ==> -0.5 <= MatVec(c.inverseBoxMatrix.value, c.ImageOf(p))[j] <= 0.5
  {
    if c.IsOrthorhombic() {
      OrthoImageBound(HalfEven, c.boxLengths, p);
    } else {
      InverseIsInverse(c.boxMatrix);
      FractionalImageIsLatticeShift(HalfEven, c.boxMatrix, c.inverseBoxMatrix.value, p);
      FractionalImageInCell(HalfEven, c.boxMatrix, c.inverseBoxMatrix.value, p);
    }
  }

  /** Two cells with the same lengths and angles are equal whatever their matrices hold. */
  lemma EqualsIgnoresMatrix(a: Cell, b: Cell)
    requires a.boxLengths == b.boxLengths && a.boxAngles == b.boxAngles
    ensures a.Equals(b) && b.Equals(a)
  {
    AllCloseReflexive(a.boxLengths);
    AllCloseReflexive(a.boxAngles);
  }

  /**
   * `np.allclose` scales its tolerance by the SECOND argument, so `==` on
   * cells is not symmetric: x = 1000 and x = 1000.0100001 compare equal
   * one way round only.
   */
  lemma EqualsNotSymmetric(a: Cell, b: Cell)
    requires a.boxLengths == [1000.0, 1.0, 1.0] && b.boxLengths == [1000.0100001, 1.0, 1.0]
    requires a.boxAngles == b.boxAngles
    ensures a.Equals(b) && !b.Equals(a)
  {
    AllCloseReflexive(a.boxAngles);
  }
}
