# PQAnalysis core, modelled in Dafny

This project models the discrete and geometric core of PQAnalysis. PQAnalysis is a Python package, with a C++ cell extension, for analysing molecular-dynamics simulations run with PQ and QMCFC. It covers the following:

- **The periodic simulation cell.** This is the C++ `Cell` and the Python `Cell` with its setters:
  - the upper-triangular box matrix built from three lengths and three angles;
  - the volume as the cofactor determinant, and the vacuum test;
  - the eight corners of the box (`bounding_edges`);
  - the minimum image, with the orthorhombic fast path and the triclinic path through fractional coordinates;
  - the reconstruction of lengths and angles from a matrix (`init_from_box_matrix`);
  - tolerance-based cell equality.

  Vectors and matrices are over `real`. Rounding is modelled exactly: `np.rint` and `np.round` round half to even, `std::round` rounds half away from zero. `cos`, `sin`, `sqrt`, `acos` and pi come in as a `Trig` record. The lemmas that need a fact about them (cos 90° = 0, sqrt of a square, acos of a cosine) state it as a precondition.
- **Input files.** This covers:
  - the case-insensitive, duplicate-rejecting `InputDictionary`, with its type inference and its `array` and `range` constructions;
  - the typed `_parse_*` readers of the analysis input file;
  - the digit-string arithmetic of the PQ input-file reader (`_increase_digit_string`, the digit extraction, the continuation checks and file renaming).
- **Topology.** This covers:
  - the topology-file reader (comment stripping, block splitting, the per-block parsers) and writer (per-block lines, type checks, block ordering);
  - the bonded topology (unique index sets, linker filters, shake-bond extension);
  - residues with their length-checked setters, and the QM residue;
  - the `Topology` residue setup that partitions atoms into residues;
  - the atom-count consistency rules of an atomic system.
- **Analysis and file layouts.** This covers:
  - RDF bin setup, binning, normalisation and integration;
  - the NEP writer's train/test/validation split and its guards;
  - trajectory-file frame counting, window generation and last-cell inheritance;
  - the token-level rules of the frame, restart and moldescriptor readers and of the restart writer.

Operations that update an object in place are methods of a Dafny `class` with `modifies` clauses. Examples are the cells, `InputDictionary`, `Residue`, `BondedTopology`, `Topology`, the NEP writer and the PQ input reader. Each such method is proved against a specification function. Readers and writers whose source loops over lines are methods with loop invariants, proved equal to recursive specification functions. The properties the source promises are lemmas about those functions. Python exceptions are modelled as `Err` values carrying the exception class name.

## Model

| member | source | states |
|---|---|---|
| CellCpp.Cell.constructor | cpp/src/cell/cell.cpp:5-10 | `Cell()` has zero lengths, zero angles and the zero matrix, and is a vacuum |
| CellCpp.Cell.Init | cpp/src/cell/cell.cpp:12-24 | the lengths and angles are stored as given, and the matrix is the one `_setup_box_matrix` builds from them |
| CellCpp.BoxMatrixVolume | cpp/src/cell/cell.cpp:26-56 | the built matrix is upper triangular; its determinant is a · b sin γ · c·sqrt(h); it is zero exactly when a, b, c or the square root is zero |
| CellCpp.BoxMatrixOrthorhombic | cpp/src/cell/cell.cpp:26-56 | with three right angles the built matrix is diag(a, b, c) |
| CellCpp.RightAngleEntries | cpp/src/cell/cell.cpp:34-53 | at right angles the cosines are 0, sin γ is 1 and the height factor under the square root is 1 |
| CellCpp.Cell.BoundingEdges | cpp/src/cell/cell.cpp:58-91 | returns an 8×3 array; row 4i+2j+k is matrixᵀ·(x, y, z) for the corner picked by i, j, k from {-0.5, 0.5} |
| CellCpp.Cell.EdgeRow | cpp/src/cell/cell.cpp:80-85 | the innermost loop fills row idx with matrixᵀ·(x, y, z) and leaves the other rows unchanged |
| CellCpp.BoundingEdgesUsesRows | cpp/src/cell/cell.cpp:82-84 | for a sheared box the C++ corner (0.5, 0.75, 0.5) differs from the box corner matrix·(½, ½, ½) = (0.75, 0.5, 0.5) |
| CellCpp.EdgesAsWrittenOpposite | cpp/src/cell/cell.cpp:58-91 | opposite rows of the C++ corner table are negatives of each other |
| CellCpp.Cell.Volume | cpp/src/cell/cell.cpp:93-102 | the six-term cofactor determinant reduces to the diagonal product for an upper-triangular matrix |
| CellCpp.DetUpperTriangularWhen | cpp/src/cell/cell.cpp:93-102 | an upper-triangular determinant is the product of its diagonal |
| CellCpp.Cell.Image | cpp/src/cell/cell.cpp:110-167 | returns an N×3 array. When all three angles are exactly 90, entry (i, j) is pos − L·round(pos/L). Otherwise it is matrix·wrap(matrixᵀ·pos), as written |
| CellCpp.Cell.OrthoRows | cpp/src/cell/cell.cpp:119-130 | the orthorhombic loop gives every row of the image |
| CellCpp.Cell.OrthoRow | cpp/src/cell/cell.cpp:124-128 | one position: each coordinate minus its nearest whole box length; other rows unchanged |
| CellCpp.OrthoImageEntry | cpp/src/cell/cell.cpp:126-127 | entry j of the orthorhombic image is the image along axis j |
| CellCpp.OrthoAxisHalfAway | cpp/src/cell/cell.cpp:126-127 | along one axis the image is x − l·std::round(x/l), rounding half away from zero |
| CellCpp.Cell.FractionalRow | cpp/src/cell/cell.cpp:137-151 | the first triclinic loop leaves wrap(matrixᵀ·pos[i]) in row i; other rows unchanged |
| CellCpp.Cell.CartesianRow | cpp/src/cell/cell.cpp:154-163 | the second triclinic loop leaves matrix·fractional[i] in row i; other rows unchanged |
| CellCpp.AccumulateDot | cpp/src/cell/cell.cpp:141-144 | accumulating u[k]·v[k] into a zeroed entry leaves the dot product there and changes nothing else |
| CellCpp.ImageAsWrittenMovesInteriorPoint | cpp/src/cell/cell.cpp:137-151 | the as-written triclinic image moves the interior point (0.4, 0, 0) of a sheared cell to (0.5, 0.2, 0); the intended image keeps it |
| CellCpp.ImageIntendedIsMinimumImage | cpp/src/cell/cell.cpp:133-163 | the intended triclinic image (through the inverse) is the position minus a whole lattice vector, with fractional coordinates in [-½, ½] |
| CellCpp.SmallCoordinatesStay | cpp/src/cell/cell.cpp:147-150 | fractional coordinates of magnitude below ½ are unchanged by the wrap |
| CellCpp.ShearedBoxInverse | cpp/src/cell/cell.cpp:137-151 | the sheared example box has determinant 1, and its inverse undoes the shear |
| CellCpp.Cell.InitFromBoxMatrix | cpp/src/cell/cell.cpp:169-218 | stores the matrix. The lengths become the column norms and the angles the arc cosines of the normalised column dot products |
| CellCpp.LengthsOf | cpp/src/cell/cell.cpp:175-191 | length j is the Euclidean norm of column j |
| CellCpp.LengthsOfAreNorms | cpp/src/cell/cell.cpp:175-191 | under a genuine square root each length is the non-negative number whose square is the column's squared norm |
| CellCpp.LengthsRoundTrip | cpp/src/cell/cell.cpp:175-191 | reading the lengths back from a built matrix gives the lengths it was built from |
| CellCpp.TriangularLengths | cpp/src/cell/cell.cpp:175-191 | the column lengths of the triangular box are a, b, c |
| CellCpp.InitFromBoxMatrixRoundTrip | cpp/src/cell/cell.cpp:169-218 | `init_from_box_matrix` after the constructor recovers the lengths and angles (positive lengths, non-degenerate cell, genuine sqrt/sin/cos/acos) |
| CellCpp.BoxMatrixAngles | cpp/src/cell/cell.cpp:193-215 | the angles between the built columns are the given α, β, γ |
| CellCpp.TriangularBoxAngle | cpp/src/cell/cell.cpp:193-215 | columns i and j of the triangular box are `deg` apart when their cosine is cos(deg) |
| CellCpp.AngleOfCosine | cpp/src/cell/cell.cpp:193-215 | vectors whose normalised dot product is cos θ are θ degrees apart |
| CellCpp.BoxMatrix | cpp/src/cell/cell.cpp:26-56 | the box vectors as columns, the first along x and the second in the xy-plane, built with `_setup_box_matrix`'s third diagonal entry c·sqrt(sin² β - …); `BoxMatrixVolume` and `BoxMatrixOrthorhombic` state its shape, volume and right-angle form |
| CellCpp.ImageAsWritten | cpp/src/cell/cell.cpp:133-163 | the triclinic branch as written: the position multiplied by the transposed box matrix, wrapped by rounding half away from zero, and multiplied back; `ImageAsWrittenMovesInteriorPoint` shows a point inside the cell it moves |
| CellCpp.ImageIntended | PQAnalysis/core/cell/cell.py:163-174 | the triclinic image through the inverse box matrix, as the Python `Cell.image` computes it; `ImageIntendedIsMinimumImage` states it is a lattice shift into [-1/2, 1/2] |
| CellMath.MatVec | PQAnalysis/core/cell/cell.py:128 | entry i of `m @ v` is row i of m dotted with v |
| CellMath.TransposeVec | cpp/src/cell/cell.cpp:82-84 | entry j of mᵀ·v is column j of m dotted with v |
| CellMath.DotUpToFull | cpp/src/cell/cell.cpp:141-144 | accumulating three terms gives the dot product, in either order of the factors |
| CellMath.DetUpperTriangular | cpp/src/cell/cell.cpp:93-102 | an upper-triangular determinant is the diagonal product |
| CellMath.Inverse | PQAnalysis/core/cell/_standard_properties.py:102 | `np.linalg.inv` succeeds exactly when the determinant is nonzero |
| CellMath.InverseIsInverse | PQAnalysis/core/cell/_standard_properties.py:102 | the returned matrix is a two-sided inverse |
| CellMath.TriangularBox | PQAnalysis/core/cell/cell.py:97-112 | the box matrix both cells fill in is upper triangular |
| CellMath.TriangularBoxVolume | cpp/src/cell/cell.cpp:93-102 | its determinant is a · b sin γ · c h |
| CellMath.TriangularBoxVacuum | cpp/src/cell/cell.cpp:104-108 | its volume vanishes exactly when a, b, c or h is zero |
| CellMath.TriangularBoxRightAngles | PQAnalysis/core/cell/cell.py:104-110 | right angles give diag(a, b, c) |
| CellMath.TriangularBoxNorms | cpp/src/cell/cell.cpp:175-191 | the squared column lengths are a², b², c² when sin²γ + cos²γ = 1 and the height identity holds |
| CellMath.ThirdColumnNorm | cpp/src/cell/cell.cpp:186-190 | the third column has squared length c² |
| CellMath.TriangularBoxCosines | cpp/src/cell/cell.cpp:193-215 | the normalised column dot products are cos α, cos β and cos γ |
| CellMath.RoundHalfEven | PQAnalysis/core/cell/cell.py:160 | `np.rint` is within ½ of its argument, and a tie goes to the even integer |
| CellMath.RoundHalfAway | cpp/src/cell/cell.cpp:127 | `std::round` is within ½ of its argument, and a tie goes away from zero |
| CellMath.Round | PQAnalysis/core/cell/cell.py:170 | either rounding is within ½ of its argument |
| CellMath.RoundVec | PQAnalysis/core/cell/cell.py:170 | each component is rounded |
| CellMath.Wrap | PQAnalysis/core/cell/cell.py:170 | `f -= round(f)` leaves every component in [-½, ½] |
| CellMath.MatVecMatMul | PQAnalysis/core/cell/cell.py:168-172 | applying b and then a is applying their product |
| CellMath.FractionalImageIsLatticeShift | PQAnalysis/core/cell/cell.py:163-174 | with a right inverse, the fractional image is the position minus a whole lattice vector |
| CellMath.FractionalImageInCell | PQAnalysis/core/cell/cell.py:163-174 | with a left inverse, the image's fractional coordinates are the wrapped ones, in [-½, ½] |
| CellMath.CornerAt | PQAnalysis/core/cell/cell.py:124-128 | row idx holds the corner picked by the bits of idx = 4i + 2j + k |
| CellMath.CornerOpposite | PQAnalysis/core/cell/cell.py:124-128 | flipping every bit gives the opposite corner |
| CellMath.OrthoAxisBound | PQAnalysis/core/cell/cell.py:159-161 | one orthorhombic coordinate lies within half a box length of 0 |
| CellMath.OrthoImageBound | PQAnalysis/core/cell/cell.py:159-161 | every orthorhombic coordinate lies within half a box length of 0 |
| CellMath.OrthoImageInside | PQAnalysis/core/cell/cell.py:159-161 | a position strictly inside the box is its own image |
| CellMath.RoundInside | PQAnalysis/core/cell/cell.py:160 | a coordinate strictly inside rounds to 0 |
| CellMath.AllCloseReflexive | PQAnalysis/core/cell/cell.py:195-196 | `np.allclose(u, u)` holds |
| CellMath.AllClose | PQAnalysis/core/cell/cell.py:195-196 | `np.allclose` on two 3-vectors with rtol 1e-5 and atol 1e-8, component by component; `AllCloseReflexive` states every vector is close to itself |
| CellPy.BoxMatrixShape | PQAnalysis/core/cell/cell.py:88-112 | `setup_box_matrix` is upper triangular with first column (x, 0, 0) and second column (y cos γ, y sin γ, 0); its determinant is the diagonal product |
| CellPy.BoxMatrixOrthorhombic | PQAnalysis/core/cell/cell.py:88-112 | right angles give diag(x, y, z) |
| CellPy.BoxMatrixMatchesCpp | PQAnalysis/core/cell/cell.py:109-110 | whenever sin²β + cos²β = 1, the Python matrix equals the C++ one |
| CellPy.Cell.constructor | PQAnalysis/core/cell/cell.py:55-86 | stores the lengths and angles, builds the matrix and its inverse; the x..gamma getters return the arguments |
| CellPy.DefaultCell | PQAnalysis/core/cell/cell.py:55-62 | `Cell()` has every length `sys.float_info.max` and every angle 90 |
| CellPy.DefaultCellBox | PQAnalysis/core/cell/cell.py:55-86 | `Cell()` has the matrix diag(max, max, max), which has an inverse |
| CellPy.CellOneTwoThree | tests/core/test_cell.py:12-22 | `Cell(1, 2, 3)` has matrix diag(1, 2, 3) and volume 6 |
| CellPy.Cell.SetMatrix | PQAnalysis/core/cell/_standard_properties.py:98-102 | the `_box_matrix` setter stores the matrix and recomputes the inverse, changing nothing else |
| CellPy.Cell.SetBoxLengths | PQAnalysis/core/cell/_standard_properties.py:30-34 | stores the lengths, keeps the angles, rebuilds the matrix and inverse |
| CellPy.Cell.SetBoxAngles | PQAnalysis/core/cell/_standard_properties.py:45-49 | stores the angles, keeps the lengths, rebuilds the matrix and inverse |
| CellPy.Cell.BoundingEdges | PQAnalysis/core/cell/cell.py:114-130 | returns an 8×3 array whose row 4i+2j+k is `box_matrix @ (x, y, z)` |
| CellPy.Cell.SetEdgeRow | PQAnalysis/core/cell/cell.py:128 | `edges[idx, :] = v` changes row idx only |
| CellPy.EdgesAreCorners | PQAnalysis/core/cell/cell.py:114-130 | each corner is the sum of the box vectors scaled by ±½, and opposite corners are negatives |
| CellPy.Cell.Volume | PQAnalysis/core/cell/cell.py:132-142 | the determinant equals x times the second and third diagonal entries |
| CellPy.VolumeOfCell | PQAnalysis/core/cell/cell.py:132-142 | the volume is x · y sin γ · the third diagonal entry |
| CellPy.PositiveOrthorhombicBox | PQAnalysis/core/cell/cell.py:88-112 | right angles and positive lengths give a diagonal, invertible matrix |
| CellPy.DiagonalInverse | PQAnalysis/core/cell/_standard_properties.py:102 | a diagonal matrix with positive entries has an inverse |
| CellPy.Cell.Image | PQAnalysis/core/cell/cell.py:144-174 | keeps the shape of the input, (3,) or (N, 3), and images each position |
| CellPy.ImageIsMinimumImage | PQAnalysis/core/cell/cell.py:159-174 | orthorhombic: each coordinate lies within half a box length of 0. Triclinic: the image is the position minus a lattice vector, with fractional coordinates in [-½, ½] |
| CellPy.EqualsIgnoresMatrix | PQAnalysis/core/cell/cell.py:176-197 | cells with the same lengths and angles compare equal whatever their matrices hold |
| CellPy.EqualsNotSymmetric | PQAnalysis/core/cell/cell.py:195-196 | `np.allclose` scales its tolerance by the second argument, so cell equality is not symmetric |
| CellPy.BoxMatrix | PQAnalysis/core/cell/cell.py:88-112 | `setup_box_matrix`: the box vectors as columns with third diagonal entry z·sqrt(1 - cos² β - ((cos α - cos β cos γ)/sin γ)²); `BoxMatrixShape`, `BoxMatrixOrthorhombic` and `BoxMatrixMatchesCpp` state its shape |
| CellPy.Cell.Equals | PQAnalysis/core/cell/cell.py:176-197 | `__eq__`: lengths and angles agree up to `np.allclose`, the box matrix is not compared; `EqualsIgnoresMatrix` states the consequence |
| AtomicSystems.Counts | PQAnalysis/atomic_system/_properties.py:42-48 | the five counts are the topology's atom count and the lengths of pos, vel, forces and charges |
| AtomicSystems.NonZero | PQAnalysis/atomic_system/_properties.py:49 | keeps exactly the nonzero counts |
| AtomicSystems.NAtoms | PQAnalysis/atomic_system/_properties.py:30-63 | succeeds exactly when the nonzero counts agree, and returns their common value; 0 exactly when every count is 0; otherwise AtomicSystemError |
| AtomicSystems.NAtomsOfTopologyOnly | PQAnalysis/atomic_system/_properties.py:42-63 | with no arrays, `n_atoms` is the topology's atom count |
| AtomicSystems.PbcOfCells | PQAnalysis/atomic_system/_properties.py:25-28 | a system with the default `Cell()` is not periodic; one with a 10 Å box is |
| AtomicSystems.AtomicMasses | PQAnalysis/atomic_system/_properties.py:65-69 | succeeds exactly when every atom has a mass, giving the masses in order; otherwise AtomicSystemMassError |
| AtomicSystems.Mass | PQAnalysis/atomic_system/_properties.py:71-74 | defined exactly when the atomic masses are |
| AtomicSystems.MassConcat | PQAnalysis/atomic_system/_properties.py:71-74 | the mass of two groups of atoms together is the sum of their masses |
| AtomicSystems.MassOfOne | PQAnalysis/atomic_system/_properties.py:71-74 | one atom weighs what its element weighs |
| AtomicSystems.Relative | PQAnalysis/atomic_system/_properties.py:84 | each position is imaged relative to the first and shifted back |
| AtomicSystems.CenterOfMass | PQAnalysis/atomic_system/_properties.py:76-92 | checks positions, then masses, then `n_atoms`, raising the matching error; an empty system gives the zero vector. `CenterOfMassIsWeightedAverage` and `CenterOfMassTranslates` state the value for any other system |
| AtomicSystems.CenterOfMassOfOne | PQAnalysis/atomic_system/_properties.py:76-92 | one atom of nonzero mass has its centre of mass at its position |
| AtomicSystems.RelativeOfIdentity | PQAnalysis/atomic_system/_properties.py:84 | with the identity as image, the positions relative to the first atom are the positions themselves |
| AtomicSystems.CenterOfMassIsWeightedAverage | PQAnalysis/atomic_system/_properties.py:76-92 | for any non-empty system of non-zero total mass under the identity image, the centre of mass exists and the total mass times it is Σ mᵢ·posᵢ: it is the mass-weighted average of the positions |
| AtomicSystems.WeightedShifted | PQAnalysis/atomic_system/_properties.py:86-88 | moving every position by t adds the total mass times t to the mass-weighted sum |
| AtomicSystems.CenterOfMassTranslates | PQAnalysis/atomic_system/_properties.py:76-92 | under the identity image, moving every atom of a non-empty system of non-zero total mass by t moves its centre of mass by t |
| AtomicSystems.CombinedNameConcat | PQAnalysis/atomic_system/_properties.py:94-97 | the combined name of two groups is the first group's followed by the second's |
| AtomicSystems.CombinedNameAt | PQAnalysis/atomic_system/_properties.py:94-97 | atom i's name appears in the combined name right after the names before it |
| AtomicSystems.BuildCustomElement | PQAnalysis/atomic_system/_properties.py:104-107 | the custom element has the combined name, atomic number -1 and the system's mass, and exists exactly when the mass does |
| AtomicSystems.Pbc | PQAnalysis/atomic_system/_properties.py:25-28 | `pbc`: the cell's lengths and angles are not both close to those of `Cell()`; `PbcOfCells` states the default and a 10 Å box |
| AtomicSystems.CombinedName | PQAnalysis/atomic_system/_properties.py:94-97 | every atom's name fits within the combined name; `CombinedNameConcat` and `CombinedNameAt` state where each name appears |
| Bonded.IndexSet | PQAnalysis/topology/bonded_topology/_topology_properties.py:20-28 | a set comprehension over the list holds exactly the values some item gives, and is no larger than the list |
| Bonded.Positions | PQAnalysis/topology/bonded_topology/_topology_properties.py:30-33 | the positions of the items passing the test: each passes, they increase strictly, and every passing position is among them |
| Bonded.Filter | PQAnalysis/topology/bonded_topology/_topology_properties.py:30-33 | the filtered list keeps each item satisfying the test with its multiplicity and drops the others, so it is no longer than the list; `FilterPositions` states that it keeps their order |
| Bonded.FilterPositions | PQAnalysis/topology/bonded_topology/_topology_properties.py:30-33 | item k of the filtered list is the item at the k-th passing position, so the list is the order-preserving subsequence of passing items |
| Bonded.FilterSnoc | PQAnalysis/topology/bonded_topology/_topology_properties.py:30-33 | one more item at the end of the list is kept at the end of the result exactly when it passes |
| Bonded.FilterConcat | PQAnalysis/topology/bonded_topology/_topology_properties.py:30-33 | filtering a concatenation is the concatenation of the filtered parts, in order |
| Bonded.FilterOne | PQAnalysis/topology/bonded_topology/_topology_properties.py:30-33 | a single item is kept exactly when it passes |
| Bonded.IdenticalBondsExample | tests/topology/bonded_topology/test_bondedTopology.py:118-122 | two identical bonds give the unique index set {1} |
| Bonded.BondedTopology.constructor | PQAnalysis/topology/bonded_topology/bonded_topology.py:39-72 | each missing list becomes an empty one; the ordering keys are kept as given |
| Bonded.BondedTopology.UniqueBond1Indices | PQAnalysis/topology/bonded_topology/_topology_properties.py:20-23 | exactly the first indices of the bonds, no more of them than bonds |
| Bonded.BondedTopology.UniqueBond2Indices | PQAnalysis/topology/bonded_topology/_topology_properties.py:25-28 | exactly the second indices of the bonds |
| Bonded.BondedTopology.BondLinkers | PQAnalysis/topology/bonded_topology/_topology_properties.py:30-33 | exactly the linker bonds, with multiplicity, in their order in the list: item k is the one at the k-th linker position |
| Bonded.BondedTopology.UniqueAngle1Indices | PQAnalysis/topology/bonded_topology/_topology_properties.py:35-38 | exactly the first indices of the angles |
| Bonded.BondedTopology.UniqueAngle2Indices | PQAnalysis/topology/bonded_topology/_topology_properties.py:40-43 | exactly the second indices of the angles |
| Bonded.BondedTopology.UniqueAngle3Indices | PQAnalysis/topology/bonded_topology/_topology_properties.py:45-48 | exactly the third indices of the angles |
| Bonded.BondedTopology.AngleLinkers | PQAnalysis/topology/bonded_topology/_topology_properties.py:50-53 | exactly the linker angles, with multiplicity, in their order in the list: item k is the one at the k-th linker position |
| Bonded.BondedTopology.UniqueDihedral1Indices | PQAnalysis/topology/bonded_topology/_topology_properties.py:55-58 | exactly the first indices of the dihedrals |
| Bonded.BondedTopology.UniqueDihedral2Indices | PQAnalysis/topology/bonded_topology/_topology_properties.py:60-63 | exactly the second indices of the dihedrals |
| Bonded.BondedTopology.UniqueDihedral3Indices | PQAnalysis/topology/bonded_topology/_topology_properties.py:65-68 | exactly the third indices of the dihedrals |
| Bonded.BondedTopology.UniqueDihedral4Indices | PQAnalysis/topology/bonded_topology/_topology_properties.py:70-73 | exactly the fourth indices of the dihedrals |
| Bonded.BondedTopology.DihedralLinkers | PQAnalysis/topology/bonded_topology/_topology_properties.py:75-78 | exactly the linker dihedrals, with multiplicity, in their order in the list: item k is the one at the k-th linker position |
| Bonded.BondedTopology.UniqueImproper1Indices | PQAnalysis/topology/bonded_topology/_topology_properties.py:80-83 | exactly the first indices of the impropers |
| Bonded.BondedTopology.UniqueImproper2Indices | PQAnalysis/topology/bonded_topology/_topology_properties.py:85-88 | exactly the second indices of the impropers |
| Bonded.BondedTopology.UniqueImproper3Indices | PQAnalysis/topology/bonded_topology/_topology_properties.py:90-93 | exactly the third indices of the impropers |
| Bonded.BondedTopology.UniqueImproper4Indices | PQAnalysis/topology/bonded_topology/_topology_properties.py:95-98 | exactly the fourth indices of the impropers |
| Bonded.BondedTopology.ImproperLinkers | PQAnalysis/topology/bonded_topology/_topology_properties.py:100-103 | exactly the linker impropers, with multiplicity, in their order in the list: item k is the one at the k-th linker position |
| Bonded.BondedTopology.UniqueShakeIndices | PQAnalysis/topology/bonded_topology/_topology_properties.py:105-108 | exactly the first indices of the shake bonds |
| Bonded.BondedTopology.UniqueShakeTargetIndices | PQAnalysis/topology/bonded_topology/_topology_properties.py:110-113 | exactly the second indices of the shake bonds |
| Bonded.BondedTopology.ShakeLinkers | PQAnalysis/topology/bonded_topology/_topology_properties.py:115-118 | exactly the linker shake bonds, with multiplicity, in their order in the list: item k is the one at the k-th linker position |
| Bonded.BondedTopology.ExtendShakeBonds | PQAnalysis/topology/bonded_topology/bonded_topology.py:74-137 | returns the checks' verdict. On an error nothing changes; on success the shake bonds gain the shifted copies after the existing ones, and every other field is unchanged |
| Bonded.MaxIndex | PQAnalysis/topology/bonded_topology/bonded_topology.py:113-116 | the largest index over both ends: no end exceeds it, and some end attains it |
| Bonded.ExtensionCheck | PQAnalysis/topology/bonded_topology/bonded_topology.py:107-127 | succeeds exactly when one extension or a per-copy count is given, there are shake bonds, and a given per-copy count is at least the largest index |
| Bonded.Shifted | PQAnalysis/topology/bonded_topology/bonded_topology.py:133-136 | a shifted copy has as many bonds as the original |
| Bonded.ExtensionsAt | PQAnalysis/topology/bonded_topology/bonded_topology.py:129-137 | n copies of the shake bonds, one after another; copy i has both indices moved by n_atoms + i·per and everything else kept |
| Bonded.ExtensionKeepsExisting | PQAnalysis/topology/bonded_topology/bonded_topology.py:129-137 | the bonds already there stay in front, unchanged, and exactly n·len(shake_bonds) bonds follow |
| Common.Words | PQAnalysis/io/moldescriptor_reader.py:84 | `str.split()` gives non-empty tokens without blanks |
| Common.Strip | PQAnalysis/io/moldescriptor_reader.py:84 | `str.strip()` is no longer than its input and neither starts nor ends with a blank |
| Common.BeforeHash | PQAnalysis/io/moldescriptor_reader.py:83 | `line.split('#')[0]` is the longest prefix without '#' |
| Common.Split | PQAnalysis/io/nep/nep_writer.py:451 | `s.split(sep)` gives at least one piece, none containing the separator, and joining the pieces gives s back |
| Common.Lower | PQAnalysis/io/moldescriptor_reader.py:86 | `str.lower()` keeps the length and lowers each character |
| Common.Upper | PQAnalysis/io/traj_file/frame_reader.py:241 | `str.upper()` keeps the length and raises each character |
| Common.WordsCons | PQAnalysis/io/moldescriptor_reader.py:84 | a token followed by blanks splits off as one word |
| Common.WordsOfJoin | PQAnalysis/io/restart_file/restart_reader.py:143 | splitting tokens joined by blanks gives the tokens back |
| Common.WordsAppend | PQAnalysis/io/moldescriptor_reader.py:84 | two texts with blanks between them split into the words of the one, then the other |
| Common.NatToStringValue | PQAnalysis/io/input_file_reader/pq/pq_input_file_reader.py:278-281 | `str(n)` reads back as n |
| Common.ParseIntToString | PQAnalysis/io/restart_file/restart_writer.py:220 | `int(str(i)) == i` |
| Common.Find | PQAnalysis/io/input_file_reader/pq/pq_input_file_reader.py:320-329 | the first occurrence of a character, or the length when there is none |
| Common.SumRealConcat | PQAnalysis/atomic_system/_properties.py:74 | the sum of two lists together is the sum of their sums |
| Common.ParseInt | PQAnalysis/io/restart_file/restart_reader.py:277 | a token that `int()` accepts is non-empty, all digits after an optional sign, and begins with '-' when its value is negative; `ParseIntToString` states `int(str(i)) == i` |
| Common.ParseReal | PQAnalysis/io/restart_file/restart_reader.py:176 | `float()` on a token in decimal or exponent notation with an optional sign; anything else is refused |
| FrameReader.ParseReals | PQAnalysis/io/traj_file/frame_reader.py:326 | `float` on every token succeeds exactly when each token is a number, and keeps the order; otherwise ValueError |
| FrameReader.ReadHeaderLine | PQAnalysis/io/traj_file/frame_reader.py:292-341 | a header of 1, 4 or 7 tokens gives the atom count and the cell; exactly the other token counts are a FrameReaderError, and a token that is no number a ValueError |
| FrameReader.HeaderCell | PQAnalysis/io/traj_file/frame_reader.py:324-334 | no numbers give `Cell()`, three give the lengths with right angles, six the lengths and angles |
| FrameReader.HeaderTokens | PQAnalysis/io/traj_file/frame_reader.py:326-330 | the header's numbers are tokens 1.. read as floats, in order |
| FrameReader.OrthorhombicHeader | PQAnalysis/io/traj_file/frame_reader.py:324-327 | the numbers of a 4-token header are the cell's lengths, and its angles are right angles |
| FrameReader.TriclinicHeader | PQAnalysis/io/traj_file/frame_reader.py:328-331 | the numbers of a 7-token header are the lengths and then the angles |
| FrameReader.AtomCountOnly | PQAnalysis/io/traj_file/frame_reader.py:332-334 | the header "3" gives 3 atoms and `Cell()` |
| FrameReader.ThreeTokensRejected | PQAnalysis/io/traj_file/frame_reader.py:335-339 | a header of three tokens is a FrameReaderError |
| FrameReader.ScalarLine | PQAnalysis/io/traj_file/frame_reader.py:411-420 | a charge line is a FrameReaderError exactly when it has other than 2 tokens; otherwise the name is token 0 and the value token 1 |
| FrameReader.Scalars | PQAnalysis/io/traj_file/frame_reader.py:408-422 | reading n charge lines gives n names and n values, and needs 2 + n lines |
| FrameReader.ScalarsInOrder | PQAnalysis/io/traj_file/frame_reader.py:410-420 | atom i has the name and value of line 2 + i |
| FrameReader.ScalarsSucceed | PQAnalysis/io/traj_file/frame_reader.py:410-420 | all n lines well formed means the charges are read |
| FrameReader.FailureStays | PQAnalysis/io/traj_file/frame_reader.py:410-420 | once a line fails, reading more lines fails the same way |
| FrameReader.ReadScalar | PQAnalysis/io/traj_file/frame_reader.py:380-422 | a negative count is numpy's ValueError; otherwise the loop's result is `Scalars` over the charge-line reader |
| FrameReader.ReadAtomLines | PQAnalysis/io/traj_file/frame_reader.py:408-422 | the loop of `_read_scalar`, for any line reader, computes `Scalars` |
| FrameReader.Tail | PQAnalysis/io/traj_file/frame_reader.py:249-250 | `value[1:]` drops the first item, and is empty for an empty list |
| FrameReader.CheckQmcfc | PQAnalysis/io/traj_file/frame_reader.py:214-252 | other engines pass names and values through. QMCFC succeeds exactly when the first atom is X in either case, and drops that atom from names and values |
| FrameReader.DummyInEitherCase | PQAnalysis/io/traj_file/frame_reader.py:241 | "x" and "X" are both accepted as the QMCFC dummy atom |
| FrameReader.AtomLines | PQAnalysis/io/traj_file/frame_reader.py:371 | `splitted_frame_string[2:]` is the lines after the header and comment, or none |
| FrameReader.Read | PQAnalysis/io/traj_file/frame_reader.py:59-212 | a header error is passed on; a ValueError of the coordinate parser becomes a FrameReaderError, as in `_read_xyz`; a scalar-line or QMCFC error is passed on. Otherwise the cell comes from the header, the format picks the quantity (positions, velocities, forces or charges), and the names and values are what `_check_qmcfc` leaves |
| InputDict.LowerIdempotent | PQAnalysis/io/input_file_reader/input_file_parser.py:160 | lowercasing twice is lowercasing once, so a stored key is its own lookup key |
| InputDict.InputDictionary.constructor | PQAnalysis/io/input_file_reader/input_file_parser.py:140-192 | a new dictionary is empty |
| InputDict.InputDictionary.Get | PQAnalysis/io/input_file_reader/input_file_parser.py:140-166 | succeeds exactly when the lowercased key is stored, returning its triple; otherwise PQKeyError |
| InputDict.InputDictionary.Set | PQAnalysis/io/input_file_reader/input_file_parser.py:168-192 | a key already stored in any case is a PQKeyError and nothing changes. Otherwise the triple is stored under the lowercased key, appended to the key order; every other key's lookup is unchanged and the dictionary stays valid |
| InputDict.InputDictionary.GetValue | PQAnalysis/io/input_file_reader/input_file_parser.py:194-208 | component 0 of the triple, defined exactly when the key is stored |
| InputDict.InputDictionary.GetType | PQAnalysis/io/input_file_reader/input_file_parser.py:226-240 | component 1 of the triple |
| InputDict.InputDictionary.GetLine | PQAnalysis/io/input_file_reader/input_file_parser.py:210-224 | component 2 of the triple |
| InputDict.InputDictionary.Keys | PQAnalysis/io/input_file_reader/input_file_parser.py:242-251 | exactly the stored keys, each once |
| InputDict.KeysCount | PQAnalysis/io/input_file_reader/input_file_parser.py:242-251 | a duplicate-free list holding exactly a map's keys has the map's size |
| InputDict.GetIgnoresCase | PQAnalysis/io/input_file_reader/input_file_parser.py:160 | lookup does not depend on the key's case |
| InputDict.InferIsMostGeneral | PQAnalysis/io/input_file_reader/input_file_parser.py:395-432 | the inferred type is one of the items' types and at least as general as every primitive among them; inference fails exactly when there is no str and either a bool is mixed with another type or no primitive type is present |
| InputDict.InferExamples | tests/io/inputFileReader/test_transformers.py:69-100 | ["bool", "int"] is refused; ["str", "bool"] gives str; ["int", "float"] gives float |
| InputDict.Tags | PQAnalysis/io/input_file_reader/input_file_parser.py:470-472 | the type tags of the items, in order |
| InputDict.ArrayContents | PQAnalysis/io/input_file_reader/input_file_parser.py:434-484 | fails exactly on a non-primitive item or on a bool mixed with another type. Otherwise it keeps one value per item, in order, converted to the most general type, and is tagged "list(T)" with the first item's line |
| InputDict.ArrayExamples | PQAnalysis/io/input_file_reader/input_file_parser.py:474-484 | [1, 1.0] becomes [1.0, 1.0] of type list(float); [1, True] and an array holding a range are refused |
| InputDict.RangeList | PQAnalysis/io/input_file_reader/input_file_parser.py:502-504 | element k of `range(start, stop, step)` is start + k·step, strictly short of stop; the range is non-empty exactly when stop lies beyond start in the step's direction |
| InputDict.RangeValues | PQAnalysis/io/input_file_reader/input_file_parser.py:486-506 | two items give every integer from the first up to the second; three give every step-th integer from the first towards the third, the middle item being the step |
| InputDict.RangeLength | PQAnalysis/io/input_file_reader/input_file_parser.py:502-504 | with step 1 a range holds stop − start integers, or none |
| InputDict.RangeExample | tests/io/inputFileReader/test_transformers.py:196-220 | the items 1, 4, 20 give range(1, 20, 4) = 1, 5, 9, 13, 17 |
| InputDict.InferMostGeneralType | PQAnalysis/io/input_file_reader/input_file_parser.py:395-432 | the inferred type is one of the items' types and primitive; a failure is a PQTypeError |
| InputDict.Array | PQAnalysis/io/input_file_reader/input_file_parser.py:434-484 | `array`: a PQTypeError for a non-primitive item, otherwise the items converted to their most general type under the tag `list(T)`; `ArrayContents` states its contents and errors |
| InputDict.Range | PQAnalysis/io/input_file_reader/input_file_parser.py:486-506 | `range`: `range(a, b)` for two items, `range(a, c, b)` for three or more, with Python's IndexError, TypeError and ValueError; `RangeValues` and `RangeLength` state its values |
| InputDict.InputDictionary.Equals | PQAnalysis/io/input_file_reader/input_file_parser.py:253-269 | `__eq__`: the same triples under the same keys, whatever the order they were set in |
| Parse.ParseReal | PQAnalysis/io/input_file_reader/pq_analysis/_parse.py:63-96 | nothing exactly when the key is absent; InputFileError exactly when the stored tag is neither float nor int; otherwise the stored value |
| Parse.ParsePositiveReal | PQAnalysis/io/input_file_reader/pq_analysis/_parse.py:23-59 | nothing exactly when the key is absent; an accepted value is a number not below 0, so 0 passes; an error exactly when `_parse_real` fails or the number is negative |
| Parse.ParseInt | PQAnalysis/io/input_file_reader/pq_analysis/_parse.py:147-179 | nothing exactly when the key is absent; InputFileError exactly when the tag is not int; otherwise the stored value |
| Parse.ParsePositiveInt | PQAnalysis/io/input_file_reader/pq_analysis/_parse.py:183-218 | an accepted value is at least 1; an error exactly when `_parse_int` fails or the value is below 1 |
| Parse.Strings | PQAnalysis/io/input_file_reader/pq_analysis/_parse.py:133-134 | the strings of a list of string values, in order |
| Parse.ParseFiles | PQAnalysis/io/input_file_reader/pq_analysis/_parse.py:100-143 | "str" gives a one-element list; "glob" and "list(str)" give the stored list; exactly the other tags are refused |
| Parse.ParseString | PQAnalysis/io/input_file_reader/pq_analysis/_parse.py:222-257 | an error exactly when the tag is not str; otherwise the stored string |
| Parse.ParseBool | PQAnalysis/io/input_file_reader/pq_analysis/_parse.py:261-293 | an error exactly when the tag is not bool; otherwise the stored flag |
| Parse.ParseIgnoresCase | PQAnalysis/io/input_file_reader/pq_analysis/_parse.py:85-88 | every lookup gives the same outcome for keys that lowercase alike |
| Parse.ZeroBoundaries | PQAnalysis/io/input_file_reader/pq_analysis/_parse.py:53-59 | the positive-real check accepts 0 (as float or int) while the positive-int check refuses 0 |
| PqInput.Zeros | PQAnalysis/io/input_file_reader/pq/pq_input_file_reader.py:284 | `"0" * n` is n zeros, none when n is not positive |
| PqInput.Pad | PQAnalysis/io/input_file_reader/pq/pq_input_file_reader.py:283-286 | zero padding to a width leaves a string of that width, or the string itself when it is wider |
| PqInput.LeadingZeros | PQAnalysis/io/input_file_reader/pq/pq_input_file_reader.py:278 | the count of leading '0' characters that `lstrip('0')` removes |
| PqInput.Significant | PQAnalysis/io/input_file_reader/pq/pq_input_file_reader.py:278-279 | `lstrip('0')`, or "0" when nothing is left, is a non-empty digit string |
| PqInput.SignificantValue | PQAnalysis/io/input_file_reader/pq/pq_input_file_reader.py:278-279 | stripping leading zeros keeps the value |
| PqInput.IncreaseDigitString | PQAnalysis/io/input_file_reader/pq/pq_input_file_reader.py:243-286 | refused with PQValueError exactly when the string holds a non-digit |
| PqInput.IncreaseDigitStringIsPadded | PQAnalysis/io/input_file_reader/pq/pq_input_file_reader.py:278-286 | the result is int(s) + 1 written with zeros padded back to the width of s |
| PqInput.IncreaseDigitStringValue | PQAnalysis/io/input_file_reader/pq/pq_input_file_reader.py:278-281 | `int(_increase_digit_string(s)) == int(s) + 1`, with the empty string counting as 0 |
| PqInput.IncreaseDigitStringLength | PQAnalysis/io/input_file_reader/pq/pq_input_file_reader.py:247-248 | the length is kept unless the increased number needs more digits |
| PqInput.IncreaseDigitStringCarry | PQAnalysis/io/input_file_reader/pq/pq_input_file_reader.py:253 | "099" becomes "100" |
| PqInput.IncreaseDigitStringGrows | PQAnalysis/io/input_file_reader/pq/pq_input_file_reader.py:254 | "999" becomes "1000" |
| PqInput.IncreaseDigitStringKeepsWidth | PQAnalysis/io/input_file_reader/pq/pq_input_file_reader.py:251 | "0009" becomes "0010" |
| PqInput.IncreaseDigitStringEdges | tests/io/inputFileReader/PQ/test_PQ_inputFileReader.py:42-43 | "" becomes "1", and a string with a dot is refused |
| PqInput.DigitsValueLeadingZeros | PQAnalysis/io/input_file_reader/pq/pq_input_file_reader.py:247 | leading zeros do not change the value of a digit string |
| PqInput.PadValue | PQAnalysis/io/input_file_reader/pq/pq_input_file_reader.py:283-286 | a zero-padded number has the number's value |
| PqInput.NatToStringLengthMonotone | PQAnalysis/io/input_file_reader/pq/pq_input_file_reader.py:283 | `str(n)` never gets shorter as n grows |
| PqInput.IncreasePadded | PQAnalysis/io/input_file_reader/pq/pq_input_file_reader.py:123-126 | increasing a padded number gives the next number padded to the same width |
| PqInput.IncreaseTimesPadded | PQAnalysis/io/input_file_reader/pq/pq_input_file_reader.py:123-165 | after k > 0 increases the string is int(s) + k padded to the width of s |
| PqInput.IncreaseTimesNext | PQAnalysis/io/input_file_reader/pq/pq_input_file_reader.py:163-165 | one more increase continues the sequence |
| PqInput.IncreaseTimesValue | PQAnalysis/io/input_file_reader/pq/pq_input_file_reader.py:123-165 | after k increases the value has grown by k |
| PqInput.RunEnd | PQAnalysis/io/input_file_reader/pq/pq_input_file_reader.py:320 | the end of the run of digits from i |
| PqInput.RegexMatchIsRun | PQAnalysis/io/input_file_reader/pq/pq_input_file_reader.py:320 | the greedy `\d+\.` matching from i ends exactly where the digit run from i ends |
| PqInput.SearchFrom | PQAnalysis/io/input_file_reader/pq/pq_input_file_reader.py:320 | `re.search` finds the leftmost start of a match, or reports that there is none |
| PqInput.DigitStringIsLeftmostMatch | PQAnalysis/io/input_file_reader/pq/pq_input_file_reader.py:290-329 | the result is the leftmost match of `\d+\.` without its dot, and PQValueError is raised exactly when there is no match |
| PqInput.DigitStringIsDigits | PQAnalysis/io/input_file_reader/pq/pq_input_file_reader.py:329 | the extracted string is non-empty and all digits |
| PqInput.DigitStringExamples | PQAnalysis/io/input_file_reader/pq/pq_input_file_reader.py:297-302 | "input_099.in.asdf" gives "099"; "input.in" is refused |
| PqInput.ReplaceSame | PQAnalysis/io/input_file_reader/pq/pq_input_file_reader.py:134-139 | replacing a string by itself changes nothing |
| PqInput.ReplaceAbsent | PQAnalysis/io/input_file_reader/pq/pq_input_file_reader.py:138-139 | a text without the pattern is left as it is |
| PqInput.ActualNAgrees | PQAnalysis/io/input_file_reader/pq/pq_input_file_reader.py:200-239 | a number is found exactly when some output key is present, and then it is the number of every output file present, read with a '.' appended |
| PqInput.ActualNPresent | PQAnalysis/io/input_file_reader/pq/pq_input_file_reader.py:221-231 | a number that was found is a non-empty digit string |
| PqInput.ActualNErrStays | PQAnalysis/io/input_file_reader/pq/pq_input_file_reader.py:225-229 | once a prefix of the output keys disagrees, the whole loop fails |
| PqInput.ContinueNumbers | PQAnalysis/io/input_file_reader/pq/pq_input_file_reader.py:101-117 | on success the three numbers are digit strings, the output number equals the input file's and the start number is one less |
| PqInput.ContinuedFiles | PQAnalysis/io/input_file_reader/pq/pq_input_file_reader.py:123-165 | n new files, one per iteration |
| PqInput.PqInputFileReader.constructor | PQAnalysis/io/input_file_reader/pq/pq_input_file_reader.py:40-58 | everything starts empty and nothing is written |
| PqInput.PqInputFileReader.Read | PQAnalysis/io/input_file_reader/pq/pq_input_file_reader.py:60-80 | stores the parsed dictionary and raw text; fails exactly when no start file is defined |
| PqInput.PqInputFileReader.RenameFiles | PQAnalysis/io/input_file_reader/pq/pq_input_file_reader.py:130-152 | the raw text with each listed file's name replaced by its renamed form |
| PqInput.PqInputFileReader.ParseActualN | PQAnalysis/io/input_file_reader/pq/pq_input_file_reader.py:200-239 | the loop returns the number the output files agree on, and fails when they disagree or none is present |
| PqInput.PqInputFileReader.CheckNumbers | PQAnalysis/io/input_file_reader/pq/pq_input_file_reader.py:101-117 | stores the numbers as found; the outcome is what `ContinueNumbers` says |
| PqInput.PqInputFileReader.NextInputFile | PQAnalysis/io/input_file_reader/pq/pq_input_file_reader.py:123-165 | one iteration: every number is increased once more, and the (k+1)-th file is the renamed raw text under the renamed input-file name |
| PqInput.PqInputFileReader.ContinueInputFile | PQAnalysis/io/input_file_reader/pq/pq_input_file_reader.py:82-165 | writes nothing when a check fails; otherwise writes the n continued files in order, the k-th with every number increased by k |
| PqInput.StartN | PQAnalysis/io/input_file_reader/pq/pq_input_file_reader.py:167-197 | a missing start file is a PQKeyError and a name without a number a PQValueError; it succeeds exactly when the start file has a number and the ring-polymer start file, if any, has the same one, and returns that digit string |
| PqInput.DigitStringFromFilename | PQAnalysis/io/input_file_reader/pq/pq_input_file_reader.py:290-329 | the number found is a non-empty digit string shorter than the name; the only failure is PQValueError |
| PqInput.Replace | PQAnalysis/io/input_file_reader/pq/pq_input_file_reader.py:138-139 | Python's `str.replace`: every non-overlapping occurrence, left to right; `ReplaceSame` and `ReplaceAbsent` state when it changes nothing |
| Rdf.Min3 | PQAnalysis/analysis/rdf/rdf.py:794 | the minimum of three box lengths is one of them and no larger than any |
| Rdf.MinLength | PQAnalysis/analysis/rdf/rdf.py:794 | the smallest box length over all cells bounds every box length of every cell |
| Rdf.InferRMax | PQAnalysis/analysis/rdf/rdf.py:758-794 | an RDFError unless every cell is periodic, numpy's ValueError for no cell, otherwise half the smallest box length |
| Rdf.CheckRMax | PQAnalysis/analysis/rdf/rdf.py:676-717 | for a periodic trajectory the radius is lowered to half the smallest box length when larger and kept otherwise; for a vacuum trajectory it is kept |
| Rdf.Trunc | PQAnalysis/analysis/rdf/rdf.py:752 | Python's `int()` on a float truncates toward zero, within one of its argument |
| Rdf.WholeBins | PQAnalysis/analysis/rdf/rdf.py:752-753 | the truncated count of bins is non-negative and the bins it gives end within one width below the radius asked for |
| Rdf.EdgeOfWidth | PQAnalysis/analysis/rdf/rdf.py:336 | n bins of width `(r_max - r_min) / n` end exactly at `r_max` |
| Rdf.CalculateNBins | PQAnalysis/analysis/rdf/rdf.py:720-755 | a ZeroDivisionError exactly for a zero width; otherwise the radius returned is the end of the last whole bin, and for a positive width and `r_min <= r_max` it lies between `r_min` and `r_max`, less than one width short of `r_max` |
| Rdf.Arange | PQAnalysis/analysis/rdf/rdf.py:635 | `np.arange` fails for a zero step and otherwise lists `start + k·step` |
| Rdf.MiddleQuotient | PQAnalysis/analysis/rdf/rdf.py:635 | the quotient `np.arange` takes the ceiling of is n - 1/2 for n bins |
| Rdf.MiddlePointsCount | PQAnalysis/analysis/rdf/rdf.py:635-637 | for n >= 0 bins, `np.arange` yields exactly n middle points, so the assertion holds |
| Rdf.MiddlePointsNegative | PQAnalysis/analysis/rdf/rdf.py:635-637 | for a negative number of bins there is no middle point |
| Rdf.ArangeOfBins | PQAnalysis/analysis/rdf/rdf.py:635-637 | the middle points number exactly the bins if and only if that number is non-negative |
| Rdf.MiddlePoints | PQAnalysis/analysis/rdf/rdf.py:608-639 | a ZeroDivisionError for zero width, an AssertionError exactly for a negative number of bins, otherwise one middle point per bin, half a width above its lower edge |
| Rdf.BinSetup | PQAnalysis/analysis/rdf/rdf.py:231-345 | a mixed periodic and vacuum trajectory, neither count nor width, or all three of count, a width other than 0.0 and a radius other than 0.0 (Python's `all`) are RDFErrors; a width of 0.0, which `PositiveReal` admits, always fails; on success the radius is the end of the last bin and a given width or count is kept |
| Rdf.ZeroRadiusIgnored | PQAnalysis/analysis/rdf/rdf.py:286-313 | with count and any admissible width given, a radius of 0.0 is falsy for `all` and ignored: the setup is the one from count and width alone |
| Rdf.ZeroWidthRejected | PQAnalysis/analysis/rdf/rdf.py:286-336 | for a periodic trajectory a width of 0.0 is a ZeroDivisionError, whether the count or the radius goes with it |
| Rdf.FromCountAndWidth | PQAnalysis/analysis/rdf/rdf.py:297-314 | with count and width given the width is kept and the radius is the end of the last whole bin; a width of 0.0 fails |
| Rdf.FromRadius | PQAnalysis/analysis/rdf/rdf.py:316-336 | with only one of count and width given, the given one is kept and the radius is the end of the last bin; a given width of 0.0 fails |
| Rdf.BinSetupCovers | PQAnalysis/analysis/rdf/rdf.py:316-332 | for a radius at least `r_min`, the bins are a non-negative number of the given width, end at or below the radius and at most half the smallest box, and within one width of a radius that needed no lowering |
| Rdf.BinOfDistance | PQAnalysis/analysis/rdf/rdf.py:601 | a distance in `[r_min + k·Δr, r_min + (k+1)·Δr)` falls into bin k |
| Rdf.BinOfDistanceDownwards | PQAnalysis/analysis/rdf/rdf.py:601 | with a negative width, a distance in `(r_min + (k+1)·Δr, r_min + k·Δr]` falls into bin k |
| Rdf.FloorOfScaled | PQAnalysis/analysis/rdf/rdf.py:601 | `floor_divide`: a value whose multiple by w lies in `[k·w, (k+1)·w)` has floor k |
| Rdf.DownwardBinsExample | PQAnalysis/analysis/rdf/rdf.py:574-605 | two bins between `r_min` 3.0 and `r_max` 1.0 have width -1.0 and middle points 2.5 and 1.5; the distance 2.5 is counted in bin 0 and 0.5 and 3.5 in none |
| Rdf.CountBelow | PQAnalysis/analysis/rdf/rdf.py:605 | the number of indices inside `[0, n)` is at most the number of indices |
| Rdf.Indices | PQAnalysis/analysis/rdf/rdf.py:601 | one bin index per distance, each the floor of `(d - r_min) / Δr`, for a width of either sign |
| Rdf.AddToBins | PQAnalysis/analysis/rdf/rdf.py:574-605 | exactly `n_bins` counts, for a width of either sign; `AddToBinsTotal` states what they count |
| Rdf.CountBelowStep | PQAnalysis/analysis/rdf/rdf.py:605 | the indices below n + 1 are those below n plus those equal to n |
| Rdf.SumOfCounts | PQAnalysis/analysis/rdf/rdf.py:605 | the counts of the first n bins add up to the indices inside `[0, n)` |
| Rdf.AddToBinsTotal | PQAnalysis/analysis/rdf/rdf.py:574-605 | the bins hold every distance whose index is inside `[0, n_bins)` once and none other, so they total at most the number of distances |
| Rdf.Norm | PQAnalysis/analysis/rdf/rdf.py:797-837 | one normalisation per bin |
| Rdf.NormTelescopes | PQAnalysis/analysis/rdf/rdf.py:828-837 | the first m shell normalisations add up to the ball of radius `m·Δr`, `4/3 π (mΔr)³`, times density, reference atoms and frames |
| Rdf.ShellsTelescope | PQAnalysis/analysis/rdf/rdf.py:830-833 | shells 0 to m-1 add up to m³ unit volumes |
| Rdf.Integration | PQAnalysis/analysis/rdf/rdf.py:840-865 | an error exactly when the number of reference atoms times frames is zero, otherwise one entry per bin |
| Rdf.IntegrationSteps | PQAnalysis/analysis/rdf/rdf.py:865 | the integral starts with the first bin's share, each step adds one bin's share, and the last entry is the total over all bins |
| Rdf.IntegrationMonotone | PQAnalysis/analysis/rdf/rdf.py:865 | with non-negative bins and a positive divisor the integral never decreases |
| Rdf.Accumulated | PQAnalysis/analysis/rdf/rdf.py:472-496 | the bins keep their number after adding the counts of every distance list, for a width of either sign |
| Rdf.SumAddCounts | PQAnalysis/analysis/rdf/rdf.py:491 | adding bin counts adds their totals |
| Rdf.AccumulatedTotal | PQAnalysis/analysis/rdf/rdf.py:472-496 | the counts added over all frames never exceed the number of distances seen |
| Rdf.SetupSpec | PQAnalysis/analysis/rdf/rdf.py:231-345 | for any admissible count and width, the errors are those of the bin setup and then of the middle points; on success one middle point per bin and a non-zero width |
| Rdf.RdfAnalysis.constructor | PQAnalysis/analysis/rdf/rdf.py:165-181 | `r_min` defaults to 0.0, there are no bins yet and every frame is still to come |
| Rdf.RdfAnalysis.NextFrame | PQAnalysis/analysis/rdf/rdf.py:211 | `next` yields the first frame still to come and drops it from those the generator will yield; nothing else changes |
| Rdf.RdfAnalysis.SetupBins | PQAnalysis/analysis/rdf/rdf.py:231-345 | the new count, width, radius and middle points are those of `SetupSpec`, with `n_bins` zero counts, and the cells and the frames to come are unchanged |
| Rdf.RdfAnalysis.CalculateBins | PQAnalysis/analysis/rdf/rdf.py:460-496 | the bins become the old bins plus the counts of every frame the generator still yields, the generator is used up, all else unchanged |
| Rdf.NewRdfAsWritten | PQAnalysis/analysis/rdf/rdf.py:196-218 | as written: an RDFError for an empty trajectory, otherwise the outcome of `SetupSpec`, with all frames but the first left to bin |
| Rdf.NewRdf | PQAnalysis/analysis/rdf/rdf.py:196-218 | corrected: an RDFError for an empty trajectory, otherwise the outcome of `SetupSpec`, with every frame left to bin |
| Rdf.FirstFrameNotBinned | PQAnalysis/analysis/rdf/rdf.py:211 | a one-frame trajectory with one distance in the only bin: the frames left as written add nothing, every frame adds one count |
| Rdf.BinIndex | PQAnalysis/analysis/rdf/rdf.py:601 | for any non-zero width, the bin k of a distance is the one whose edges `r_min + k·Δr` and `r_min + (k+1)·Δr` enclose it, bins running downwards for a negative width; `BinOfDistance` and `BinOfDistanceDownwards` are the converse |
| Rdf.Shell | PQAnalysis/analysis/rdf/rdf.py:830-833 | the k-th shell is `(k+1)³ - k³` unit volumes, weighted; `ShellsTelescope` states shells 0 to m-1 add up to m³ |
| Residues.AtLeast1D | PQAnalysis/core/residue.py:100-101 | `np.atleast_1d`: a number becomes a one-entry list, a list is kept |
| Residues.LookupAll | PQAnalysis/core/residue.py:98 | the symbols all resolve exactly when every lookup succeeds, and then give their elements in order |
| Residues.NormaliseElements | PQAnalysis/core/residue.py:89-98 | one element or one symbol becomes a one-entry list, a list of elements is kept, a list of symbols is looked up |
| Residues.Residue.constructor | PQAnalysis/core/residue.py:83-101 | the fields hold the name, id, total charge and the three per-atom lists |
| Residues.Residue.SetElements | PQAnalysis/core/residue.py:210-231 | a ResidueError exactly for a list of another length, leaving everything unchanged; otherwise only the elements change, and the common-length invariant is kept |
| Residues.Residue.SetAtomTypes | PQAnalysis/core/residue.py:246-267 | the same for the atom types |
| Residues.Residue.SetPartialCharges | PQAnalysis/core/residue.py:282-303 | the same for the partial charges |
| Residues.NewResidue | PQAnalysis/core/residue.py:50-108 | fails exactly when an element symbol is unknown or the three lengths differ (a ResidueError); otherwise a fresh residue with the normalised lists whose lengths agree |
| Residues.QMChargeAsWritten | PQAnalysis/core/residue.py:375-394 | the partial charge of `QMResidue` is the atomic number of an element, and an AttributeError for a symbol |
| Residues.QMResidueOfSymbolFails | PQAnalysis/core/residue.py:375-394 | a QM residue built from a symbol always fails as written |
| Residues.ResolveElement | PQAnalysis/core/residue.py:375 | a symbol goes through the element table, an element is kept |
| Residues.QMCharge | PQAnalysis/core/residue.py:375-394 | with the symbol resolved first, the charge is the atomic number of the resolved element and fails only when resolution fails or gives the empty element |
| Residues.QMChargeAgrees | PQAnalysis/core/residue.py:375-394 | wherever the code as written works the corrected charge agrees with it, and a symbol gives the charge of its element |
| Residues.QMResidueOf | PQAnalysis/core/residue.py:375-394 | a fresh residue "QM", id 0, total charge 0, one atom of type 0 whose partial charge is its atomic number |
| Residues.NewQMResidue | PQAnalysis/core/residue.py:375-394 | the corrected QM residue: fails exactly when the charge does, otherwise the QM residue of the resolved element |
| Residues.EqualsIgnoresNameCase | PQAnalysis/core/residue.py:332-354 | residues whose names differ only in case and whose other fields agree are equal |
| Residues.Residue.Equals | PQAnalysis/core/residue.py:332-355 | `__eq__`: names equal ignoring case, equal ids and elements, and charges and types close |
| RestartReader.CheckSources | PQAnalysis/io/restart_file/restart_reader.py:83-90 | a RestartFileReaderError exactly when both a moldescriptor file and reference residues are given |
| RestartReader.Kind | PQAnalysis/io/restart_file/restart_reader.py:127-143 | comment, blank, `step` and `chi` lines are skipped, a first token `box` in any case makes the box line, every other line is an atom line, with the stripped line's tokens |
| RestartReader.KeywordsInAnyCase | PQAnalysis/io/restart_file/restart_reader.py:136 | a line starting with `BoX` is a box line |
| RestartReader.StripTokenThen | PQAnalysis/io/restart_file/restart_reader.py:134 | stripping keeps a leading token in front, followed by a blank or nothing |
| RestartReader.StripFrontToken | PQAnalysis/io/restart_file/restart_reader.py:134 | the same for a token at the start of any line |
| RestartReader.ParseBox | PQAnalysis/io/restart_file/restart_reader.py:147-187 | one token gives `Cell()`, four and seven give a cell, any other count is a RestartFileReaderError, and an unparsable value a ValueError |
| RestartReader.OrthorhombicBox | PQAnalysis/io/restart_file/restart_reader.py:175-177 | four tokens give those lengths and right angles |
| RestartReader.TriclinicBox | PQAnalysis/io/restart_file/restart_reader.py:179-182 | seven tokens give those lengths and angles |
| RestartReader.AtomLinesOf | PQAnalysis/io/restart_file/restart_reader.py:142-143 | every collected atom line is the tokens of some atom line of the file re-joined by blanks |
| RestartReader.LastBox | PQAnalysis/io/restart_file/restart_reader.py:136-137 | the tokens of a box line of the file, or none when there is no box line |
| RestartReader.ScanCollects | PQAnalysis/io/restart_file/restart_reader.py:123-143 | reading collects every atom line in file order and the cell of the last box line, `Cell()` when there is none |
| RestartReader.ScanFails | PQAnalysis/io/restart_file/restart_reader.py:136-137 | reading the lines fails only at a box line that does not parse |
| RestartReader.AtomLineTokens | PQAnalysis/io/restart_file/restart_reader.py:143 | re-splitting a collected atom line gives back its tokens |
| RestartReader.ReadLines | PQAnalysis/io/restart_file/restart_reader.py:123-143 | the loop computes `Scan` |
| RestartReader.ScanStaysFailed | PQAnalysis/io/restart_file/restart_reader.py:137 | once a box line fails, the rest of the file changes nothing |
| RestartReader.ParseAtomLine | PQAnalysis/io/restart_file/restart_reader.py:268-280 | a RestartFileReaderError exactly for a count other than 12 or 21 tokens; otherwise name, residue id, position, velocity and force from their columns, or a ValueError |
| RestartReader.AtomRowOf | PQAnalysis/io/restart_file/restart_reader.py:270-280 | the same on the tokens of a line |
| RestartReader.ParseVec | PQAnalysis/io/restart_file/restart_reader.py:278-280 | three tokens give a vector exactly when each is a number |
| RestartReader.PreviousStepIgnored | PQAnalysis/io/restart_file/restart_reader.py:199-240 | the nine QMCFC columns of the previous step change nothing |
| RestartReader.Rows | PQAnalysis/io/restart_file/restart_reader.py:267-280 | all rows in order when every line reads, else the error of a failing line |
| RestartReader.FrameOf | PQAnalysis/io/restart_file/restart_reader.py:282-300 | no atoms is a RestartFileReaderError; otherwise one atom per row with its columns in order |
| RestartReader.ParseAtoms | PQAnalysis/io/restart_file/restart_reader.py:189-300 | `_parse_atoms` is the first row error, or the frame of all rows |
| RestartReader.CollectAtoms | PQAnalysis/io/restart_file/restart_reader.py:261-286 | the loop appending each line's columns computes the frame of the rows |
| RestartReader.FrameOfColumns | PQAnalysis/io/restart_file/restart_reader.py:288-300 | a frame whose columns agree with the rows row by row is the frame of those rows |
| RestartReader.RowsStayFailed | PQAnalysis/io/restart_file/restart_reader.py:270-274 | once a line fails, the later lines change nothing |
| RestartReader.Read | PQAnalysis/io/restart_file/restart_reader.py:97-145 | reading fails with the error of the lines' scan, else parses the atom lines with the cell found |
| RestartReader.NoAtomsRejected | PQAnalysis/io/restart_file/restart_reader.py:282-286 | a file without atom lines is a RestartFileReaderError, whatever its box |
| RestartReader.NoAtomLines | PQAnalysis/io/restart_file/restart_reader.py:142-143 | a file without atom lines collects none |
| RestartReader.Scan | PQAnalysis/io/restart_file/restart_reader.py:123-143 | the loop over the lines: the latest box line's cell and the atom lines; `ScanCollects` and `ScanFails` state its outcome |
| RestartWriter.WordsOfTriple | PQAnalysis/io/restart_file/restart_writer.py:221-223 | three printed coordinates split into those three tokens |
| RestartWriter.BoxLineTokens | PQAnalysis/io/restart_file/restart_writer.py:153-165 | the box line splits into `Box`, the three lengths and the three angles as printed |
| RestartWriter.BoxLineRoundTrip | PQAnalysis/io/restart_file/restart_writer.py:153-165 | the restart reader takes the written box line back to the same lengths and angles |
| RestartWriter.BoxOfTokens | PQAnalysis/io/restart_file/restart_reader.py:179-182 | the seven tokens of a written box line parse to its lengths and angles |
| RestartWriter.BoxColumns | PQAnalysis/io/restart_file/restart_reader.py:180-181 | the lengths are columns 1 to 3 and the angles 4 to 6 |
| RestartWriter.BoxOfVecs | PQAnalysis/io/restart_file/restart_reader.py:179-182 | seven tokens whose length and angle columns parse give that cell |
| RestartWriter.Counters | PQAnalysis/io/restart_file/restart_writer.py:190-203 | an array counter must have the atom count (else a RestartFileWriterError) and is kept, one integer is repeated for every atom, no counter gives `range(n_atoms)` |
| RestartWriter.AtomLines | PQAnalysis/io/restart_file/restart_writer.py:167-232 | on success one line per atom, the i-th from the i-th atom's name, counter, residue id, position, and velocity and force (zeros when absent); a bad counter array is an error |
| RestartWriter.LinesOf | PQAnalysis/io/restart_file/restart_writer.py:209-232 | an IndexError exactly when the atoms, positions or residue ids fall short; otherwise the line of each atom |
| RestartWriter.GetAtomLines | PQAnalysis/io/restart_file/restart_writer.py:167-232 | the method computes `AtomLines` |
| RestartWriter.BuildLines | PQAnalysis/io/restart_file/restart_writer.py:207-232 | the loop computes `LinesOf` |
| RestartWriter.Lines | PQAnalysis/io/restart_file/restart_writer.py:123-151 | the box line first, then the atom lines, failing exactly when they do |
| RestartWriter.AtomLineTokens | PQAnalysis/io/restart_file/restart_writer.py:218-228 | an atom line splits into name, counter, residue id and the nine numbers, which engines other than PQ repeat (12 or 21 tokens) |
| RestartWriter.RepeatedNumbers | PQAnalysis/io/restart_file/restart_writer.py:225-228 | the numbers written once more split into the same tokens twice |
| RestartWriter.NumbersTokens | PQAnalysis/io/restart_file/restart_writer.py:221-223 | the nine numbers split into nine tokens |
| RestartWriter.Numbers | PQAnalysis/io/restart_file/restart_writer.py:221-223 | nine numbers |
| RestartWriter.AtomLineRoundTrip | PQAnalysis/io/restart_file/restart_writer.py:218-228 | the restart reader takes a written atom line back to its name, residue id, position, velocity and force, in either engine format |
| RestartWriter.RowOfTokens | PQAnalysis/io/restart_file/restart_reader.py:270-280 | 12 or 21 tokens whose first twelve are those written give back the atom's row |
| RestartWriter.Columns | PQAnalysis/io/restart_file/restart_reader.py:276-280 | the columns the reader takes hold the name, residue id, position, velocity and force as printed |
| RestartWriter.RowOfVecs | PQAnalysis/io/restart_file/restart_reader.py:270-280 | tokens whose residue and vector columns parse give that row |
| RestartWriter.VecOf | PQAnalysis/io/restart_file/restart_reader.py:278 | three printed coordinates that read back give that vector |
| RestartWriter.BoxLine | PQAnalysis/io/restart_file/restart_writer.py:153-165 | `Box`, the lengths and the angles; `BoxLineTokens` and `BoxLineRoundTrip` state that the reader gets the cell back |
| RestartWriter.AtomLine | PQAnalysis/io/restart_file/restart_writer.py:218-228 | one atom line: name, counter, residue id and the nine numbers, repeated for other engines; `AtomLineTokens` and `AtomLineRoundTrip` state what the reader gets back |
| Topologies.Infos | PQAnalysis/topology/topology.py:441-443 | the id and elements of each reference residue, in order |
| Topologies.Matches | PQAnalysis/topology/topology.py:560 | exactly the positions of the residues carrying the id, in increasing order |
| Topologies.FindResidueById | PQAnalysis/topology/topology.py:537-575 | the one residue with the id; a ResidueError exactly when none or more than one has it |
| Topologies.SpanFrom | PQAnalysis/topology/topology.py:364-389 | the inner loop succeeds only when the residue's atoms lie inside the topology and all carry the first atom's id |
| Topologies.StepAsWritten | PQAnalysis/topology/topology.py:344-394 | one turn as written: a QM residue only for id 0 and an atom with an element, advancing by one; a reference residue only from the list, advancing by its number of atoms, which may be zero |
| Topologies.StepAt | PQAnalysis/topology/topology.py:344-394 | the corrected turn: it always moves forward; it succeeds exactly when the turn as written succeeds and moves, and then agrees with it; a reference residue it uses has at least one atom |
| Topologies.StepAsWrittenStalls | PQAnalysis/topology/topology.py:356-394 | as written, an atom whose id names a reference residue without atoms leaves the atoms and the counter unchanged, so the loop repeats for ever; the corrected turn is a ResidueError |
| Topologies.EmptyResidueExample | PQAnalysis/topology/topology.py:344-394 | id 5 against a reference residue 5 without atoms stalls as written and is rejected when corrected; the same reference list with only QM atoms sets up |
| Topologies.SetupFrom | PQAnalysis/topology/topology.py:344-396 | the walk keeps one atom per input atom, for any reference residues |
| Topologies.Setup | PQAnalysis/topology/topology.py:290-341 | no residues without reference residues or with the check off; a ResidueError when an id is neither 0 nor a reference id; any reference residues, empty ones included |
| Topologies.Repeat | PQAnalysis/topology/topology.py:170 | n copies of a value |
| Topologies.ExpandSnoc | PQAnalysis/topology/topology.py:168-177 | describing one more residue appends its id once per atom |
| Topologies.SpanIds | PQAnalysis/topology/topology.py:382-389 | a successful inner loop reads the first atom's id along the whole span |
| Topologies.StepCovers | PQAnalysis/topology/topology.py:344-394 | a successful turn advances by the residue's size, over atoms all carrying its id |
| Topologies.SetupFromCovers | PQAnalysis/topology/topology.py:344-396 | a successful walk from any point ends with residues that, laid end to end, carry the input ids atom by atom |
| Topologies.SetupPartitions | PQAnalysis/topology/topology.py:290-396 | the residues found partition the atoms: end to end they carry exactly the input residue ids |
| Topologies.QMWithoutElementRejected | PQAnalysis/topology/topology.py:345-353 | an atom with id 0 and no element is a ResidueError |
| Topologies.Range | PQAnalysis/topology/topology.py:160 | `np.arange(a, b)` |
| Topologies.RangesPartition | PQAnalysis/topology/topology.py:164-178 | the atom ranges, one per residue, laid end to end are 0 to n-1, with one residue number per atom |
| Topologies.RangeAt | PQAnalysis/topology/topology.py:168-177 | range j starts after the atoms of the residues before j and spans residue j's atoms |
| Topologies.Topology.constructor | PQAnalysis/topology/topology.py:102-114 | no atoms and no reference residues when none are given, and the atom type names are the atoms' names |
| Topologies.Topology.ResiduesOf | PQAnalysis/topology/topology.py:290-396 | `_setup_residues` fails exactly when `Setup` does and otherwise builds one residue object per slot, the reference residue itself or a fresh QM residue |
| Topologies.Topology.SetupResidues | PQAnalysis/topology/topology.py:134-178 | the residues and atoms of `_setup_residues`; each atom its own residue when none are found, otherwise the residue numbers and atom ranges of the residues' sizes |
| Topologies.Topology.NumberAtoms | PQAnalysis/topology/topology.py:159-178 | the residue numbers and atom ranges, everything else unchanged |
| Topologies.Names | PQAnalysis/topology/topology.py:109 | the name of each atom |
| Topologies.Singletons | PQAnalysis/topology/topology.py:161-163 | atom i alone makes residue i |
| Topologies.Sizes | PQAnalysis/topology/topology.py:516-520 | the number of atoms of each residue |
| Topologies.NumberResidues | PQAnalysis/topology/topology.py:164-178 | the loop computes the residue numbers and the atom ranges |
| Topologies.MatchingSnoc | PQAnalysis/topology/topology.py:356-394 | appending a matching residue and slot keeps the correspondence |
| Topologies.SizesMatchSlots | PQAnalysis/topology/topology.py:164-178 | the residues found hold as many atoms as their slots stand for |
| Topologies.AtomRangesCover | PQAnalysis/topology/topology.py:134-178 | after a successful setup with the check on, the atom ranges cover atoms 0 to n-1 in order and every atom gets a residue number |
| Topologies.WalkStep | PQAnalysis/topology/topology.py:344-394 | one turn of the loop computes the corrected `StepAt`, for any reference residues |
| Topologies.CheckSpan | PQAnalysis/topology/topology.py:364-389 | the inner for loop computes `SpanFrom` |
| Topologies.NewTopology | PQAnalysis/topology/topology.py:57-132 | missing or empty ids become zeros; a TopologyError when the counts differ; otherwise the result of setting up the residues |
| Topologies.Topology.Equals | PQAnalysis/topology/topology.py:180-206 | `__eq__`: the same number of atoms, equal atoms and equal residue ids |
| TopologyReader.CleanLines | PQAnalysis/io/topology_file/topology_file_reader.py:74-78 | no more lines than given, none blank and none holding a comment |
| TopologyReader.WordsOfNonBlank | PQAnalysis/io/topology_file/topology_file_reader.py:101 | a line that is not blank has a first word |
| TopologyReader.NoLineEndsAsWritten | PQAnalysis/io/topology_file/topology_file_reader.py:90 | the terminator test as written, a lowercased line compared with "END", never holds |
| TopologyReader.SplitShape | PQAnalysis/io/topology_file/topology_file_reader.py:86-94 | one block per terminator line, no block holding a terminator, and the blocks with their terminators use up the lines up to the last terminator |
| TopologyReader.SplitBlocks | PQAnalysis/io/topology_file/topology_file_reader.py:86-94 | the loop collects the blocks `Split` describes |
| TopologyReader.Assign | PQAnalysis/io/topology_file/topology_file_reader.py:103 | `data[key] = value`: keys stay distinct, a known key keeps its place, other entries are unchanged, and the key then maps to the value |
| TopologyReader.DefinitionsOf | PQAnalysis/io/topology_file/topology_file_reader.py:96-103 | the dictionary has distinct keys and at most one entry per block |
| TopologyReader.DefinitionsFail | PQAnalysis/io/topology_file/topology_file_reader.py:100-101 | building the dictionary fails exactly when some block has no first word |
| TopologyReader.DefinitionsCoverBlocks | PQAnalysis/io/topology_file/topology_file_reader.py:96-103 | every block's lowercased first word is a key |
| TopologyReader.DefinitionsFromBlocks | PQAnalysis/io/topology_file/topology_file_reader.py:96-103 | every entry is a block's keyword with that block's lines after the first |
| TopologyReader.GetDefinitionsWith | PQAnalysis/io/topology_file/topology_file_reader.py:52-105 | no line left after cleaning is an IndexError, a last line other than "END" a TopologyFileError, otherwise the dictionary of the blocks the terminator test closes |
| TopologyReader.ErrorStays | PQAnalysis/io/topology_file/topology_file_reader.py:100-103 | once a block fails, the whole dictionary fails the same way |
| TopologyReader.GetDefinitionsAsWritten | PQAnalysis/io/topology_file/topology_file_reader.py:52-105 | as written no block is ever closed, so any dictionary returned is empty |
| TopologyReader.SplitNothing | PQAnalysis/io/topology_file/topology_file_reader.py:89-94 | with the test as written no block is closed |
| TopologyReader.GetDefinitions | PQAnalysis/io/topology_file/topology_file_reader.py:52-105 | with "END" in any case closing a block: fails exactly for nothing left, a last line other than "END" or an empty block; otherwise every block's keyword is a key, every entry is a block's keyword with its remaining lines, and there are no more entries than terminators |
| TopologyReader.LowerCaseEndExample | PQAnalysis/io/topology_file/topology_file_reader.py:90 | "end" and " END" close a block in the corrected reader and not as written |
| TopologyReader.BondOfLine | PQAnalysis/io/topology_file/topology_file_reader.py:188-208 | 3 or 4 columns, else a TopologyFileError; the indices and type from the first three, a fourth column marking a linker |
| TopologyReader.AngleOfLine | PQAnalysis/io/topology_file/topology_file_reader.py:237-258 | 4 or 5 columns, else a TopologyFileError; three indices and the type, a fifth column marking a linker |
| TopologyReader.DihedralOfLine | PQAnalysis/io/topology_file/topology_file_reader.py:287-309 | 5 or 6 columns, else a TopologyFileError; four indices and the type, a sixth column marking a linker, impropers flagged |
| TopologyReader.ShakeOfLine | PQAnalysis/io/topology_file/topology_file_reader.py:390-407 | 3 or 4 columns, else the unpacking ValueError; two indices and the equilibrium distance, a fourth column marking a linker |
| TopologyReader.ParseAll | PQAnalysis/io/topology_file/topology_file_reader.py:188-210 | succeeds exactly when every line parses, with the items in line order |
| TopologyReader.ParseBonds | PQAnalysis/io/topology_file/topology_file_reader.py:162-210 | the loop parses every line in order, stopping at the first failure |
| TopologyReader.FirstFailure | PQAnalysis/io/topology_file/topology_file_reader.py:196-199 | the first line that fails decides the outcome of the block |
| TopologyReader.ParseAllSnoc | PQAnalysis/io/topology_file/topology_file_reader.py:201-208 | one more line that parses appends its item |
| TopologyReader.ParseAngles | PQAnalysis/io/topology_file/topology_file_reader.py:212-260 | the same for angles |
| TopologyReader.ParseDihedrals | PQAnalysis/io/topology_file/topology_file_reader.py:262-311 | the same for dihedrals, none improper |
| TopologyReader.ParseImpropers | PQAnalysis/io/topology_file/topology_file_reader.py:313-363 | the same for impropers, each flagged |
| TopologyReader.ParseShake | PQAnalysis/io/topology_file/topology_file_reader.py:365-409 | the same for shake bonds |
| TopologyReader.ParseBlock | PQAnalysis/io/topology_file/topology_file_reader.py:140-152 | an unknown keyword is a TopologyFileError; a block of each of the five known keywords fails exactly when its lines do not all parse by that keyword's rule |
| TopologyReader.UnknownBlockRejected | PQAnalysis/io/topology_file/topology_file_reader.py:151-152 | an unknown keyword anywhere makes the whole parse fail |
| TopologyReader.ParsedKeysKnown | PQAnalysis/io/topology_file/topology_file_reader.py:140-152 | a successful parse has only known keywords |
| TopologyReader.BlockSlots | PQAnalysis/io/topology_file/topology_file_reader.py:140-150 | parsing a block of any of the five keywords fills its own slot with its lines parsed and leaves the other four slots unchanged |
| TopologyReader.ParseLast | PQAnalysis/io/topology_file/topology_file_reader.py:140 | the last block is parsed onto the parse of the others |
| TopologyReader.UniqueKeysInit | PQAnalysis/io/topology_file/topology_file_reader.py:99-103 | dropping the last entry keeps the keys distinct |
| TopologyReader.ParsedBonds | PQAnalysis/io/topology_file/topology_file_reader.py:140-142 | the bonds slot is filled exactly when a "bonds" block is present, with that block's lines parsed |
| TopologyReader.ParsedShake | PQAnalysis/io/topology_file/topology_file_reader.py:143-144 | the shake slot is filled exactly when a "shake" block is present, with that block's lines parsed |
| TopologyReader.ParsedAngles | PQAnalysis/io/topology_file/topology_file_reader.py:145-146 | the angles slot is filled exactly when an "angles" block is present, with that block's lines parsed |
| TopologyReader.ParsedDihedrals | PQAnalysis/io/topology_file/topology_file_reader.py:147-148 | the dihedrals slot is filled exactly when a "dihedrals" block is present, with that block's lines parsed |
| TopologyReader.ParsedImpropers | PQAnalysis/io/topology_file/topology_file_reader.py:149-150 | the impropers slot is filled exactly when an "impropers" block is present, with that block's lines parsed as impropers |
| TopologyReader.ParseBlocks | PQAnalysis/io/topology_file/topology_file_reader.py:107-160 | fails exactly as the blocks do; otherwise a fresh bonded topology whose lists are the parsed blocks, absent blocks giving empty lists |
| TopologyReader.ParseErrorStays | PQAnalysis/io/topology_file/topology_file_reader.py:140-152 | once a block fails to parse, the whole dictionary fails the same way |
| TopologyReader.IsEndAsWritten | PQAnalysis/io/topology_file/topology_file_reader.py:90 | the terminator test as written, comparing the lowercased line with "END"; `NoLineEndsAsWritten` states it never holds |
| TopologyReader.IsEnd | PQAnalysis/io/topology_file/topology_file_reader.py:90 | the corrected terminator test: "END" in any case; `LowerCaseEndExample` shows a line it accepts |
| TopologyReader.Split | PQAnalysis/io/topology_file/topology_file_reader.py:86-94 | the blocks closed by terminator lines; `SplitShape` and `SplitBlocks` state the blocks it returns |
| TopologyReader.ParseDefinitions | PQAnalysis/io/topology_file/topology_file_reader.py:136-152 | the blocks parsed in dictionary order, the first failure being the outcome; `ParseBlocks` and `ParseErrorStays` state its result |
| TopologyWriter.Spaces | PQAnalysis/io/topology_file/topology_file_writer.py:302 | n blanks |
| TopologyWriter.PadLeft | PQAnalysis/io/topology_file/topology_file_writer.py:302 | `f"{s:>w}"`: the text right-aligned behind blanks in a field of w characters, never cut |
| TopologyWriter.CheckBondTypes | PQAnalysis/io/topology_file/topology_file_writer.py:235-266 | a TopologyFileError exactly when some bond has no type |
| TopologyWriter.CheckAngleTypes | PQAnalysis/io/topology_file/topology_file_writer.py:235-266 | the same for angles |
| TopologyWriter.CheckDihedralTypes | PQAnalysis/io/topology_file/topology_file_writer.py:235-266 | the same for dihedrals and impropers |
| TopologyWriter.BlockText | PQAnalysis/io/topology_file/topology_file_writer.py:295-314 | a block is the header, one line per item in order, and "END" |
| TopologyWriter.CollectLines | PQAnalysis/io/topology_file/topology_file_writer.py:295-314 | the loop lays out the block `BlockText` describes |
| TopologyWriter.BondLines | PQAnalysis/io/topology_file/topology_file_writer.py:269-314 | the bond block: header, one line per bond, "END" |
| TopologyWriter.AngleLines | PQAnalysis/io/topology_file/topology_file_writer.py:317-367 | the angle block |
| TopologyWriter.DihedralLines | PQAnalysis/io/topology_file/topology_file_writer.py:370-421 | the dihedral block |
| TopologyWriter.ImproperLines | PQAnalysis/io/topology_file/topology_file_writer.py:424-476 | the improper block, in the dihedral line layout |
| TopologyWriter.ShakeLines | PQAnalysis/io/topology_file/topology_file_writer.py:479-528 | a TypeError exactly when a shake bond has no distance; otherwise the shake block |
| TopologyWriter.WriteOrder | PQAnalysis/io/topology_file/topology_file_writer.py:99-102 | the topology's own ordering keys when set, otherwise bonds, angles, dihedrals, impropers, shake |
| TopologyWriter.WriteBlock | PQAnalysis/io/topology_file/topology_file_writer.py:110-232 | the method computes `BlockOutput`: the type check, then the block unless its list is empty; an unknown key is a KeyError |
| TopologyWriter.Write | PQAnalysis/io/topology_file/topology_file_writer.py:72-105 | the blocks are written in the chosen order; the first failing block stops the writing and earlier blocks stay written |
| TopologyWriter.OutputErrorStays | PQAnalysis/io/topology_file/topology_file_writer.py:104-105 | once a block fails, later keys add nothing |
| TopologyWriter.BondBlockShape | PQAnalysis/io/topology_file/topology_file_writer.py:129-135 | a bond block that is written has one line per bond plus the header and END |
| TopologyWriter.AngleBlockShape | PQAnalysis/io/topology_file/topology_file_writer.py:157-163 | the same for angles |
| TopologyWriter.BondBlockWritten | PQAnalysis/io/topology_file/topology_file_writer.py:129-135 | the bond block is written exactly when every bond has a type |
| TopologyWriter.ShakeBlockFails | PQAnalysis/io/topology_file/topology_file_writer.py:216-232 | the shake block fails exactly when a shake bond has no distance |
| TopologyWriter.UnknownBlock | PQAnalysis/io/topology_file/topology_file_writer.py:104-105 | a block name the writer does not know is a KeyError |
| TopologyWriter.WordsOfPadded | PQAnalysis/io/topology_file/topology_file_writer.py:302 | a padded token followed by a blank splits off as that token |
| TopologyWriter.WordsAfterBlank | PQAnalysis/io/topology_file/topology_file_writer.py:302 | a leading blank does not change the words |
| TopologyWriter.WordsOfSuffix | PQAnalysis/io/topology_file/topology_file_writer.py:304-308 | the linker mark is the only word of an uncommented suffix |
| TopologyWriter.WordsOfColumn | PQAnalysis/io/topology_file/topology_file_writer.py:302 | a padded column and a blank split into the column's token and the rest's words |
| TopologyWriter.BondLineColumns | PQAnalysis/io/topology_file/topology_file_writer.py:302-308 | a bond line is its three padded columns followed by the suffix |
| TopologyWriter.BondLineWords | PQAnalysis/io/topology_file/topology_file_writer.py:302-308 | an uncommented bond line splits into its index, target index and type |
| TopologyWriter.BondLineRoundTrip | PQAnalysis/io/topology_file/topology_file_writer.py:302-308 | the topology reader takes a written bond line back to the bond: indices, type and linker flag survive |
| TopologyWriter.AngleLineRoundTrip | PQAnalysis/io/topology_file/topology_file_writer.py:351-360 | the topology reader takes a written angle line back to the angle: indices, type and linker flag survive |
| TopologyWriter.AngleLineWords | PQAnalysis/io/topology_file/topology_file_writer.py:351-360 | an uncommented angle line splits into its three indices, its type and "*" for a linker |
| TopologyWriter.AngleLineColumns | PQAnalysis/io/topology_file/topology_file_writer.py:351-357 | an angle line is its four right-aligned columns, blank-separated, followed by the suffix |
| TopologyWriter.DihedralLineRoundTrip | PQAnalysis/io/topology_file/topology_file_writer.py:404-415 | the topology reader takes a written dihedral line back to the dihedral, and a written improper line, in the same layout, back to the improper: indices, type, linker flag and the block's improper flag survive |
| TopologyWriter.DihedralLineWords | PQAnalysis/io/topology_file/topology_file_writer.py:404-415 | an uncommented dihedral or improper line splits into its four indices, its type and "*" for a linker |
| TopologyWriter.DihedralLineColumns | PQAnalysis/io/topology_file/topology_file_writer.py:404-409 | a dihedral line is its five right-aligned columns, blank-separated, followed by the suffix |
| TopologyWriter.ShakeLineRoundTrip | PQAnalysis/io/topology_file/topology_file_writer.py:513-523 | the topology reader takes a written shake line back to the shake bond whenever the printed distance reads back as the distance: indices, distance and linker flag survive |
| TopologyWriter.ShakeLineWords | PQAnalysis/io/topology_file/topology_file_writer.py:513-523 | an uncommented shake line splits into its two indices, the printed distance and "*" for a linker, the tab separating like a blank |
| TopologyWriter.ShakeLineColumns | PQAnalysis/io/topology_file/topology_file_writer.py:513-520 | an uncommented shake line is its two right-aligned columns, the distance, a tab and the linker mark |
| TopologyWriter.ExampleFirstIndices | tests/io/test_topology_writer.py:82-97 | the example bonds have first indices {1, 2, 5} |
| TopologyWriter.ExampleSecondIndices | tests/io/test_topology_writer.py:82-97 | and second indices {2, 3} |
| TopologyWriter.IndexSetSnoc | PQAnalysis/io/topology_file/topology_file_writer.py:291 | the index set of a list is that of all but the last item plus the last one's |
| TopologyWriter.ExampleLinkers | tests/io/test_topology_writer.py:82-97 | two of the example bonds are linkers |
| TopologyWriter.BondHeaderExample | tests/io/test_topology_writer.py:72-101 | the header of the example bond block is "BONDS 3 2 2" |
| TopologyWriter.BondLine | PQAnalysis/io/topology_file/topology_file_writer.py:302-308 | one bond line: three right-aligned indices, then " *" for a linker and the comment; `BondLineWords` and `BondLineRoundTrip` state what the reader gets back |
| TopologyWriter.ShakeLine | PQAnalysis/io/topology_file/topology_file_writer.py:512-523 | one shake line: two indices, the distance, a tab, "*" for a linker and the comment |
| TopologyWriter.BondHeader | PQAnalysis/io/topology_file/topology_file_writer.py:290-299 | the BONDS header with the counts of unique first and second indices and of linkers; `BondHeaderExample` checks it against the writer's test |
| TopologyWriter.BlockOutput | PQAnalysis/io/topology_file/topology_file_writer.py:99-232 | the lines of one named block, a KeyError for an unknown name; `WriteBlock` computes it |
| TopologyWriter.Output | PQAnalysis/io/topology_file/topology_file_writer.py:99-105 | the blocks written in order up to the first failure; `Write` computes it and `OutputErrorStays` states that a failure ends the writing |
| TrajectoryReader.FloorMod | PQAnalysis/io/traj_file/trajectory_reader.py:495 | Python's `%`: quotient times divisor plus remainder gives back the dividend, the remainder taking the divisor's sign |
| TrajectoryReader.FrameSize | PQAnalysis/io/traj_file/trajectory_reader.py:430-457 | the atom count in the first word of the first line plus 2, and a TrajectoryReaderError exactly when that word is missing or not an integer |
| TrajectoryReader.FileFrames | PQAnalysis/io/traj_file/trajectory_reader.py:478-507 | nothing for an empty file; otherwise a frame count whose frames fill the file exactly, failing exactly when the lines do not divide into frames |
| TrajectoryReader.EmptyFileShiftsCounts | PQAnalysis/io/traj_file/trajectory_reader.py:476-511 | as written, an empty first file gets no entry, so the next file's count takes its place |
| TrajectoryReader.FramesPerFile | PQAnalysis/io/traj_file/trajectory_reader.py:459-511 | the corrected list: one count per file in order, 0 for an empty file |
| TrajectoryReader.FramesPerFileFails | PQAnalysis/io/traj_file/trajectory_reader.py:497-505 | a file that fails makes the whole list fail |
| TrajectoryReader.SameTotal | PQAnalysis/io/traj_file/trajectory_reader.py:476-511 | leaving the empty files out changes no total |
| TrajectoryReader.SumIntSnoc | PQAnalysis/io/traj_file/trajectory_reader.py:509 | appending a count adds it to the sum |
| TrajectoryReader.CalculateFramesPerFile | PQAnalysis/io/traj_file/trajectory_reader.py:459-511 | the loop computes `FramesPerFile` |
| TrajectoryReader.FailureStays | PQAnalysis/io/traj_file/trajectory_reader.py:497-505 | once a file fails, the later files change nothing |
| TrajectoryReader.WindowStop | PQAnalysis/io/traj_file/trajectory_reader.py:337-385 | a PQIndexError exactly when start or stop is outside the trajectory, start is not before stop, size or gap is outside `[1, len]`, or the size exceeds stop - start; the stop defaults to the length |
| TrajectoryReader.WindowCount | PQAnalysis/io/traj_file/trajectory_reader.py:413-417 | the number of windows: the last one fits before the stop and one more would not |
| TrajectoryReader.DivisionBounds | PQAnalysis/io/traj_file/trajectory_reader.py:389-395 | the whole quotient brackets the dividend |
| TrajectoryReader.WarningIffFramesLeftOver | PQAnalysis/io/traj_file/trajectory_reader.py:387-395 | the warning is left out exactly when the last window ends at the stop |
| TrajectoryReader.WindowGenerator | PQAnalysis/io/traj_file/trajectory_reader.py:284-428 | fails exactly on the checks; otherwise warns exactly when `(stop - start - size) % gap != 0` and yields the windows, window k being frames `[start + k·gap, start + k·gap + size)` |
| TrajectoryReader.Windows | PQAnalysis/io/traj_file/trajectory_reader.py:403-428 | after the checks, the window count of windows, each its slice of the frames |
| TrajectoryReader.FirstWindow | PQAnalysis/io/traj_file/trajectory_reader.py:403-407 | the first window is `size` frames from `start` |
| TrajectoryReader.StartNext | PQAnalysis/io/traj_file/trajectory_reader.py:413-417 | each window starts one gap after the one before |
| TrajectoryReader.AreWindowsSnoc | PQAnalysis/io/traj_file/trajectory_reader.py:428 | appending the next slice keeps the windows |
| TrajectoryReader.WindowCountIs | PQAnalysis/io/traj_file/trajectory_reader.py:413-417 | the loop stops at the window count |
| TrajectoryReader.StartsGrow | PQAnalysis/io/traj_file/trajectory_reader.py:413-417 | window starts increase |
| TrajectoryReader.Slide | PQAnalysis/io/traj_file/trajectory_reader.py:421-425 | popping one frame in front and appending the next one, gap times, moves the window by gap frames |
| TrajectoryReader.Inherited | PQAnalysis/io/traj_file/trajectory_reader.py:239-242 | one cell per frame |
| TrajectoryReader.InheritedAt | PQAnalysis/io/traj_file/trajectory_reader.py:239-242 | the first frame keeps its cell, a later vacuum frame takes its predecessor's resulting cell, any other frame keeps its own |
| TrajectoryReader.NoVacuumAfterPeriodic | PQAnalysis/io/traj_file/trajectory_reader.py:239-242 | once a frame has a periodic cell, no later frame is left with a vacuum one |
| TrajectoryReader.InheritCells | PQAnalysis/io/traj_file/trajectory_reader.py:207-269 | the loop with `last_cell` computes `Inherited` |
| TrajectoryReader.FloorDiv | PQAnalysis/io/traj_file/trajectory_reader.py:495 | Python's `//`: the quotient times the divisor lies within one divisor of the dividend, on the divisor's side |
| TrajectoryReader.Warns | PQAnalysis/io/traj_file/trajectory_reader.py:387-395 | the warning is raised when the windows do not reach the stop exactly; `WarningIffFramesLeftOver` states when |
| TrajectoryReader.FramesPerFileAsWritten | PQAnalysis/io/traj_file/trajectory_reader.py:476-511 | the counts as written, with no entry for an empty file; `EmptyFileShiftsCounts` exhibits the shift |
| NepWriter.Ceil | PQAnalysis/io/nep/nep_writer.py:784-785 | `int(np.ceil(x))`: the least integer not below x |
| NepWriter.ParseWeights | PQAnalysis/io/nep/nep_writer.py:450-468 | two fields give train and test, three add validation, any other count is a NEPError and a field that is no number a ValueError |
| NepWriter.CheckRatios | PQAnalysis/io/nep/nep_writer.py:475-493 | a NEPError exactly when the test ratio exceeds 1 or validation frames are asked for without test frames |
| NepWriter.Fractions | PQAnalysis/io/nep/nep_writer.py:470-473 | the test and validation shares of the weights' sum; a ZeroDivisionError exactly for a zero sum |
| NepWriter.FractionsScale | PQAnalysis/io/nep/nep_writer.py:472-473 | each share times the sum gives back its weight |
| NepWriter.SplittingAsWrittenRejectsTestRatio | PQAnalysis/io/nep/nep_writer.py:446-473 | as written, every call without `total_ratios` divides 0.0 by 0.0 and fails, whatever the test ratio |
| NepWriter.Quotients | PQAnalysis/io/nep/nep_writer.py:437-473 | a test ratio together with `total_ratios` is a NEPError; a test ratio alone is used as given with no validation |
| NepWriter.Splitting | PQAnalysis/io/nep/nep_writer.py:389-493 | the corrected setup: a test ratio with `total_ratios` is a NEPError; on success the test ratio is at most 1 and there is no validation share without a test share; a test ratio alone is kept, with no validation |
| NepWriter.FieldCountChecked | PQAnalysis/io/nep/nep_writer.py:460-468 | `total_ratios` with other than two or three fields is a NEPError |
| NepWriter.SplittingAgreesWithTotalRatios | PQAnalysis/io/nep/nep_writer.py:450-493 | given `total_ratios`, the corrected setup is the one as written |
| NepWriter.RatiosAreFractions | PQAnalysis/io/nep/nep_writer.py:470-473 | with non-negative weights, the test and validation ratios are non-negative and add up to at most 1 |
| NepWriter.FractionsBounded | PQAnalysis/io/nep/nep_writer.py:470-473 | non-negative weights give shares in [0, 1] adding up to at most 1 |
| NepWriter.FractionBounds | PQAnalysis/io/nep/nep_writer.py:472 | a part of a positive whole, divided by it, lies in [0, 1] |
| NepWriter.ThreeToOneExample | PQAnalysis/io/nep/nep_writer.py:450-473 | "3:1" gives a test ratio of 0.25 and no validation |
| NepWriter.ThreeToOneWeights | PQAnalysis/io/nep/nep_writer.py:452-455 | "3:1" weighs training 3 and test 1 |
| NepWriter.ThreeToOneFields | PQAnalysis/io/nep/nep_writer.py:451 | "3:1" splits into "3" and "1" |
| NepWriter.SingleDigitFloat | PQAnalysis/io/nep/nep_writer.py:453 | a single digit reads as its value |
| NepWriter.WriteGuard | PQAnalysis/io/nep/nep_writer.py:825-931 | nothing written without a file; a NEPError exactly when positions or an energy are missing, forces, stress or virial are asked for and missing, or stress and virial are both asked for |
| NepWriter.StressAndVirialExclusive | PQAnalysis/io/nep/nep_writer.py:902-909 | asking for both stress and virial fails for every system |
| NepWriter.Writer.constructor | PQAnalysis/io/nep/nep_writer.py:46-94 | no frames counted, both ratios 0.0, no split files open |
| NepWriter.Writer.SetupFrameSplitting | PQAnalysis/io/nep/nep_writer.py:389-527 | fails exactly as `Splitting` does; otherwise stores its ratios and opens the test files exactly when the test ratio is not close to 0 and the validation files exactly when the validation ratio is not |
| NepWriter.Writer.StartWriting | PQAnalysis/io/nep/nep_writer.py:235-253 | splitting without an output file name is a NEPError; splitting is set up only when a test ratio or `total_ratios` is given; the frame counters restart at 0 |
| NepWriter.Writer.EffectivePortions | PQAnalysis/io/nep/nep_writer.py:750-788 | the three portions add up to all frames so far plus the new ones; test and validation are their shares rounded up |
| NepWriter.NegativeTrainingPortion | PQAnalysis/io/nep/nep_writer.py:784-786 | rounding both shares up can leave training with -1 frames: one frame split half test, half validation |
| NepWriter.IsCloseToZero | PQAnalysis/io/nep/nep_writer.py:437 | `np.isclose(x, 0.0)`: within numpy's absolute tolerance 1e-8 of zero |
| NepWriter.SplittingAsWritten | PQAnalysis/io/nep/nep_writer.py:437-473 | the ratio setup as written, with the weights left at 0.0 when no total ratios are given; `SplittingAsWrittenRejectsTestRatio` shows that a test ratio alone then fails |
| MoldescriptorReader.StripSlice | PQAnalysis/io/moldescriptor_reader.py:84 | `strip()` keeps a slice of its argument with only blanks around it |
| MoldescriptorReader.WordsNonEmpty | PQAnalysis/io/moldescriptor_reader.py:78 | a string with a character that is not blank has a word |
| MoldescriptorReader.HeaderHasColumns | PQAnalysis/io/moldescriptor_reader.py:74-86 | a line that is neither a comment nor blank keeps a column after the comment is cut, so `splitted_line[0]` exists |
| MoldescriptorReader.BodyRow | PQAnalysis/io/moldescriptor_reader.py:147-164 | a body line needs 3 or 4 columns (else a MoldescriptorReaderError) and reads exactly when its element is known and its atom type and charge are numbers, giving those three |
| MoldescriptorReader.Rows | PQAnalysis/io/moldescriptor_reader.py:147-164 | one row per body line |
| MoldescriptorReader.RowsMeaning | PQAnalysis/io/moldescriptor_reader.py:147-164 | the body reads exactly when every line does, holding each line's row in order; otherwise the error of a failing line |
| MoldescriptorReader.ElementsOf | PQAnalysis/io/moldescriptor_reader.py:162 | the element of each row |
| MoldescriptorReader.AtomTypesOf | PQAnalysis/io/moldescriptor_reader.py:163 | the atom type of each row |
| MoldescriptorReader.ChargesOf | PQAnalysis/io/moldescriptor_reader.py:164 | the partial charge of each row |
| MoldescriptorReader.MolTypeOf | PQAnalysis/io/moldescriptor_reader.py:117-173 | the mol type has the id asked for and one element, atom type and charge per body line |
| MoldescriptorReader.MolTypeOfMeaning | PQAnalysis/io/moldescriptor_reader.py:139-173 | fails exactly for a header of fewer than three words (an IndexError), a total charge that is no number (a ValueError) or a failing body line; otherwise name and total charge are the header's and the atoms are the body rows in order |
| MoldescriptorReader.ReadMolType | PQAnalysis/io/moldescriptor_reader.py:117-173 | the method computes `MolTypeOf` |
| MoldescriptorReader.CollectRows | PQAnalysis/io/moldescriptor_reader.py:147-164 | the body loop computes `Rows` |
| MoldescriptorReader.FirstFailure | PQAnalysis/io/moldescriptor_reader.py:151-160 | the first failing body line decides the error |
| MoldescriptorReader.ClassifyMeaning | PQAnalysis/io/moldescriptor_reader.py:74-104 | exactly the comment, blank, `water_type` and `ammonia_type` lines are skipped; a header without 3 columns is a MoldescriptorReaderError, one whose second column is no integer a ValueError, any other gives its atom count |
| MoldescriptorReader.Block | PQAnalysis/io/moldescriptor_reader.py:107 | the header and the next n lines, fewer at the end of the file |
| MoldescriptorReader.StepAtMeaning | PQAnalysis/io/moldescriptor_reader.py:71-113 | one pass skips exactly the lines that are no header, passes on a header's error, rejects a negative count, and otherwise reads the header and its n lines as mol type k + 1 |
| MoldescriptorReader.ConsumedAtoms | PQAnalysis/io/moldescriptor_reader.py:104-111 | a mol type read with count n has n atoms, or as many as the file still has lines |
| MoldescriptorReader.LoopNext | PQAnalysis/io/moldescriptor_reader.py:71 | one round of the loop is one pass |
| MoldescriptorReader.LoopAdvance | PQAnalysis/io/moldescriptor_reader.py:71-101 | a failing pass ends the loop with its error, a skipped line moves the counter on by one, and a mol type read moves it past its header and body and appends the mol type |
| MoldescriptorReader.Read | PQAnalysis/io/moldescriptor_reader.py:49-115 | `read` computes `ReadFrom`: the mol types of the whole file, or the first error |
| MoldescriptorReader.StepsAreStepAt | PQAnalysis/io/moldescriptor_reader.py:71-113 | the passes of a file are those of `StepAt` |
| MoldescriptorReader.ReadLoop | PQAnalysis/io/moldescriptor_reader.py:71-113 | the while loop with its counter computes the loop over the passes |
| MoldescriptorReader.ReadStep | PQAnalysis/io/moldescriptor_reader.py:72-113 | the body of the loop computes `StepAt` |
| MoldescriptorReader.LoopIds | PQAnalysis/io/moldescriptor_reader.py:108 | when every pass numbers its mol type after those before it, mol type i has id i + 1 |
| MoldescriptorReader.PassIds | PQAnalysis/io/moldescriptor_reader.py:108 | a reader giving each mol type the id it is asked for numbers the passes in order |
| MoldescriptorReader.MolTypeIds | PQAnalysis/io/moldescriptor_reader.py:106-111 | the mol types of a file have the ids 1, 2, 3, ... in file order |
| MoldescriptorReader.LoopShift | PQAnalysis/io/moldescriptor_reader.py:71 | a loop whose passes are another's one counter later reads the same |
| MoldescriptorReader.PassShift | PQAnalysis/io/moldescriptor_reader.py:71-113 | a line in front moves every pass one line on |
| MoldescriptorReader.SkippedLineChangesNothing | PQAnalysis/io/moldescriptor_reader.py:74-91 | a comment, blank, water-type or ammonia-type line in front of a file changes nothing read |
| MoldescriptorReader.SliceBound | PQAnalysis/io/moldescriptor_reader.py:107 | a Python slice bound: negative counts from the end, then clamped to the length |
| MoldescriptorReader.PySlice | PQAnalysis/io/moldescriptor_reader.py:107 | Python's `s[a:b]` |
| MoldescriptorReader.PyAt | PQAnalysis/io/moldescriptor_reader.py:72 | Python's `s[i]`, counting from the end for negative i |
| MoldescriptorReader.PassAsWrittenAgrees | PQAnalysis/io/moldescriptor_reader.py:71-113 | where the atom count is not negative, the loop as written takes the same pass as the corrected one |
| MoldescriptorReader.NegativeHeader | PQAnalysis/io/moldescriptor_reader.py:83-104 | the header `A -2 0.0` has three columns and the atom count -2 |
| MoldescriptorReader.HeaderAlone | PQAnalysis/io/moldescriptor_reader.py:139-173 | a block of only a header reads as a mol type without atoms |
| MoldescriptorReader.HeaderOnly | PQAnalysis/io/moldescriptor_reader.py:139-173 | `A -2 0.0` alone reads as the mol type A with charge 0 and no atoms |
| MoldescriptorReader.NegativeCountLoops | PQAnalysis/io/moldescriptor_reader.py:71-113 | on `["A -2 0.0", "#"]` the loop as written appends a mol type and steps back to -1, and the comment there brings it back to 0, so `read` never ends; `StepAt` rejects the header |
| MoldescriptorReader.StepAt | PQAnalysis/io/moldescriptor_reader.py:71-113 | one pass of `read` over the file; `StepAtMeaning` states what each pass consumes and appends |
| MoldescriptorReader.ReadFrom | PQAnalysis/io/moldescriptor_reader.py:71-113 | `read` from a line counter on, with the mol types read so far; `ReadLoop` and `ReadStep` state its steps |
| MoldescriptorReader.PassAsWritten | PQAnalysis/io/moldescriptor_reader.py:71-113 | one pass as written, with no sign check on the atom count; `PassAsWrittenAgrees` and `NegativeCountLoops` state where it agrees with the corrected pass and where it loops |

## Left out
- File opening, reading and writing, and the reader/writer base classes: every reader takes the file as a list of lines and every writer returns its lines.
- Cosine, sine, square root, arccosine and pi come in as a `Trig` parameter; the model does not compute them.
- Floating-point rounding, NaN and infinity, numpy broadcasting and the `float` text forms `inf`, `nan` and `1_0` are not modelled. Reals are exact and `int()`/`float()` accept the plain decimal forms only.
- Common.IsDigit: accepts the ASCII digits 0-9 only. Python's `str.isdigit`, the regex `\d` and `int()` also accept other Unicode decimal digits (Arabic-Indic, full-width and the like), so `Common.ParseInt` and the digit strings of `PqInput` reject text the source accepts.
- The numeric formatting of written lines (`f"{x:15.8f}"` and the like) is a formatter parameter.
- RestartWriter.Counters: the atom counter is a list of integers. The source's `Np1DNumberArray` may also hold floats, which print as "1.0"; that case is not modelled.
- Element lookup from a symbol (the periodic table) is a parameter. The restart reader keeps atom names, not `Atom` objects, and it does not build the `Topology` itself.
- `str.lower`/`str.upper` are ASCII-only. Unicode case mapping and normalisation are not modelled.
- The Lark grammar behind `InputFileParser.parse` and `selection.py`, and glob expansion of file names, are foreign library code. The parsed dictionary comes in as a value.
- Logging and warnings are modelled as returned flags or error names, not as messages.
- Runtime type checks through `type_checking.py` are left out. This includes the writer's "Invalid bonded topology" guard when something other than a `BondedTopology` is passed.
- TopologyWriter.Write: takes a `BondedTopology` only. The writer also accepts a `Topology` and writes its `bonded_topology`; a `Topology` without one gets the TopologyFileError of the guard above. Neither case is modelled.
- Topologies.CheckSpan: a corrected element goes into a new atom sequence, which becomes the topology's atoms. The source assigns `atoms[i].element` on the caller's own `Atom` objects, so every other holder of those objects sees the change. That aliasing is not captured.
- Generators are modelled as methods that return the whole sequence of windows, frames or cells at once. Laziness and interleaved file reading are not captured.
- `TrajectoryReader.frame_generator`: its own start/stop checks and `_cell_generator` are not modelled separately. The window checks and the cell inheritance they share are.
- NEP training: shuffling and random train/test index selection, `write_from_files` file reading, `_determine_files`, `_get_files`, unit conversion and the text of the NEP header and body lines are left out. They are random sampling and I/O.
- RDF: the pairwise distance computation under the minimum image and the normalisation divisions in `_finalize_run` are numpy/C code. The model receives distances per frame.
- Rdf.CalculateNBins: a zero width is Python's ZeroDivisionError. When the width arrives as a numpy float, numpy divides to infinity or NaN instead, and `int()` then raises OverflowError or ValueError; those two error names are not modelled.
- TopologyWriter.ShakeLineRoundTrip: holds for bonds with no comment and no bond type, and only when the formatter prints the distance as one token that reads back as exactly that distance; the rounding of `:16.12f` is not modelled.
- Rdf.Integration: a zero `n_ref·n_frames` is an `Err` here, where numpy would produce infinities or NaN with a warning.
- AtomicSystems.CenterOfMass: a zero total mass with atoms present is an `Err` here, where numpy would produce NaN with a warning.
- Bonded.BondedTopology.ExtendShakeBonds: the Python list of bond objects is modelled as a sequence of bond values. The copies are therefore independent by construction, and aliasing between the old and new bond objects is not captured.
- CellPy: the triclinic inverse is a `Mat3` value checked by its products with the matrix. numpy's `LinAlgError` for a singular matrix is `None`.
- Bulk modulus, thermal expansion, MSD, finite differences, `fit_atomic_system`, `add_molecule`, the CLI modules and the legacy duplicate modules are outside the modelled core.

## Findings
| source | as written | input that shows it | evidently intended | confidence | as-written member | corrected member |
|---|---|---|---|---|---|---|
| PQAnalysis/io/topology_file/topology_file_reader.py:88-94 | the block end test compares `line.strip().lower()` with `"END"`, which is never equal, so no block is ever closed and `get_definitions` always returns an empty dictionary | a `bonds` block closed by `END`, followed by the final `END` | a line reading `END` in any case closes the current block | not executed | TopologyReader.GetDefinitionsAsWritten | TopologyReader.GetDefinitions |
| PQAnalysis/io/nep/nep_writer.py:446-473 | without `total_ratios` the weights stay `0.0` and `0.0/0.0` raises ZeroDivisionError, so `test_ratio` is never used | `test_ratio = 0.2`, `total_ratios = None` | the test ratio alone sets the test share, with no validation share | not executed | NepWriter.SplittingAsWrittenRejectsTestRatio | NepWriter.Splitting |
| cpp/src/cell/cell.cpp:137-151 | the triclinic image takes fractional coordinates as `Mᵀ·pos` instead of `M⁻¹·pos` | M = [[1,0.5,0],[0,1,0],[0,0,1]], pos = (0.4,0,0) gives (0.5,0.2,0), which is moved although it is already inside the cell | fractional coordinates by the inverse matrix, as in the Python `Cell.image` | not executed | CellCpp.ImageAsWrittenMovesInteriorPoint | CellCpp.ImageIntendedIsMinimumImage |
| cpp/src/cell/cell.cpp:58-91 | the corners are `Mᵀ·v`, so the rows of the box matrix are used as lattice vectors | M = [[1,0.5,0],[0,1,0],[0,0,1]]: the last corner is (0.5,0.75,0.5) in C++ and (0.75,0.5,0.5) in Python | `M·v`, the columns as lattice vectors, as in the Python `bounding_edges` | not executed | CellCpp.BoundingEdgesUsesRows | CellPy.EdgesAreCorners |
| PQAnalysis/core/residue.py:375-394 | `QMResidue` reads `element.atomic_number` on its argument, which fails for a string symbol although the type hints allow one | `QMResidue("C")` | the symbol is turned into an `Element` first, as the `Residue` constructor does | not executed | Residues.QMResidueOfSymbolFails | Residues.NewQMResidue |
| PQAnalysis/io/traj_file/trajectory_reader.py:476-511 | an empty file is skipped with `continue` and contributes no entry, so the counts after it move to the wrong file index | files [empty, a file of n frames] give [n] | one count per file, with 0 for an empty file | not executed | TrajectoryReader.EmptyFileShiftsCounts | TrajectoryReader.FramesPerFile |
| PQAnalysis/io/moldescriptor_reader.py:104-113 | a negative atom count in a mol-type header moves the line counter backwards, and `read` can loop forever | the lines `A -2 0.0` and `#` | a negative atom count is rejected as a malformed header | not executed | MoldescriptorReader.NegativeCountLoops | MoldescriptorReader.Read |
| PQAnalysis/topology/topology.py:356-394 | an atom whose id names a reference residue without atoms adds `residue.n_atoms == 0` to `atom_counter`, so the while loop of `_setup_residues` never ends | a reference `Residue("X", 5, 0.0, [], [], [])` and residue ids `[5]` | an atom cannot belong to a residue without atoms: a ResidueError | not executed | Topologies.StepAsWrittenStalls | Topologies.StepAt |
| PQAnalysis/analysis/rdf/rdf.py:211 | `__init__` takes `first_frame` from the frame generator, and `_calculate_bins` iterates the same generator, so the first frame is never binned while `n_frames`, the number of cells, still counts it in the normalisation | a trajectory of one frame with one distance 0.5, `r_min` 0.0 and one bin of width 1.0: the bins stay [0] | every frame of the trajectory is binned | not executed | Rdf.FirstFrameNotBinned | Rdf.NewRdf |
