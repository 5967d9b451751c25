/**
 * The derived properties of an atomic system
 * (PQAnalysis/atomic_system/_properties.py): the common atom count of the
 * topology and the per-atom arrays, periodicity, total mass, centre of
 * mass, the combined name and the custom element built from them.
 *
 * The system is a value: the atoms of its topology, the position,
 * velocity, force and charge arrays (each possibly empty) and the box
 * lengths and angles of its cell. The cell's minimum-image map is a
 * parameter `image`, standing for `Cell.image` of that cell.
 */
module AtomicSystems {

  import opened Common
  import opened CellMath
  import opened Residues
  import CellPy

  datatype AtomicSystem = AtomicSystem(
    atoms: seq<Atom>,
    pos: seq<Vec3>,
    vel: seq<Vec3>,
    forces: seq<Vec3>,
    charges: seq<real>,
    boxLengths: Vec3,
    boxAngles: Vec3)

  // ---------------------------------------------------------------------
  // n_atoms and pbc

  /** The five counts `n_atoms` compares, in the order it lists them. */
  function Counts(s: AtomicSystem): (c: seq<nat>)
    ensures |c| == 5
  {
    [|s.atoms|, |s.pos|, |s.vel|, |s.forces|, |s.charges|]
  }

  /** The counts that are not zero, in order. */
  function NonZero(c: seq<nat>): (r: seq<nat>)
    ensures forall x :: x in r <==> x in c && x != 0
    ensures |r| <= |c|
  {
    if c == [] then []
    else if c[0] == 0 then NonZero(c[1..])
    else [c[0]] + NonZero(c[1..])
  }

  /**
   * `n_atoms`: 0 when every count is 0; the common value of the non-zero
   * counts when they agree; an AtomicSystemError when two of them differ.
   */
  function NAtoms(s: AtomicSystem): (r: Result<nat>)
    ensures r.Ok? <==> forall i, j :: 0 <= i < 5 && 0 <= j < 5 && Counts(s)[i] != 0 && Counts(s)[j] != 0 ==> Counts(s)[i] == Counts(s)[j]
    ensures r.Ok? ==> forall i :: 0 <= i < 5 ==> Counts(s)[i] == 0 || Counts(s)[i] == r.value
    ensures r.Ok? ==> (r.value == 0 <==> forall i :: 0 <= i < 5 ==> Counts(s)[i] == 0)
    ensures r.Err? ==> r.error == "AtomicSystemError"
  {
    var c := Counts(s);
    var nz := NonZero(c);
    if |nz| == 0 then
      assert forall i :: 0 <= i < 5 ==> c[i] !in nz;
      Ok(0)
    else if forall k :: 0 <= k < |nz| ==> nz[k] == nz[0] then
      assert nz[0] in nz;
      assert forall i :: 0 <= i < 5 && c[i] != 0 ==> c[i] in nz;
      Ok(nz[0])
    else
      var k :| 0 <= k < |nz| && nz[k] != nz[0];
      assert nz[k] in c && nz[0] in c;
      Err("AtomicSystemError")
  }

  /** `pbc`: the cell differs from `Cell()`, which has the largest lengths and right angles. */
  predicate Pbc(s: AtomicSystem)
  {
    !(AllClose(s.boxLengths, CellPy.DefaultLengths) && AllClose(s.boxAngles, CellPy.RightAngles))
  }

  /** A system built without a cell is not periodic; one with a 10 Å box is. */
  lemma PbcOfCells(s: AtomicSystem)
    ensures s.boxLengths == CellPy.DefaultLengths && s.boxAngles == CellPy.RightAngles ==> !Pbc(s)
    ensures s.boxLengths == [10.0, 10.0, 10.0] ==> Pbc(s)
  {
  }

  /** An atom list without any position or other array has as many atoms as its topology. */
  lemma NAtomsOfTopologyOnly(s: AtomicSystem)
    requires s.pos == [] && s.vel == [] && s.forces == [] && s.charges == []
    ensures NAtoms(s) == Ok(|s.atoms|)
  {
  }

  // ---------------------------------------------------------------------
  // Masses

  predicate HasMass(a: Atom) { a.element.Element? }

  /** `atomic_masses`: an AtomicSystemMassError unless every atom has a mass. */
  function AtomicMasses(atoms: seq<Atom>): (r: Result<seq<real>>)
    ensures r.Ok? <==> forall i :: 0 <= i < |atoms| ==> HasMass(atoms[i])
    ensures r.Ok? ==> |r.value| == |atoms| && forall i :: 0 <= i < |atoms| ==> r.value[i] == atoms[i].element.mass
    ensures r.Err? ==> r.error == "AtomicSystemMassError"
  {
    if forall i :: 0 <= i < |atoms| ==> HasMass(atoms[i]) then
      Ok(seq(|atoms|, i requires 0 <= i < |atoms| && HasMass(atoms[i]) => atoms[i].element.mass))
    else Err("AtomicSystemMassError")
  }

  /** `mass`: the sum of the atomic masses. */
  function Mass(atoms: seq<Atom>): (r: Result<real>)
    ensures r.Ok? <==> AtomicMasses(atoms).Ok?
    ensures r.Err? ==> r.error == "AtomicSystemMassError"
  {
    var m := AtomicMasses(atoms);
    if m.Err? then Err(m.error) else Ok(SumReal(m.value))
  }

  /** The mass of two groups of atoms together is the sum of their masses. */
  lemma MassConcat(a: seq<Atom>, b: seq<Atom>)
    requires Mass(a).Ok? && Mass(b).Ok?
    ensures Mass(a + b) == Ok(Mass(a).value + Mass(b).value)
  {
    var ma, mb := AtomicMasses(a).value, AtomicMasses(b).value;
    assert forall i :: 0 <= i < |a + b| ==> HasMass((a + b)[i]);
    assert AtomicMasses(a + b).value == ma + mb;
    SumRealConcat(ma, mb);
  }

  /** One atom weighs what its element weighs. */
  lemma MassOfOne(a: Atom)
    requires HasMass(a)
    ensures Mass([a]) == Ok(a.element.mass)
  {
    var ms := AtomicMasses([a]).value;
    assert ms == [a.element.mass];
    assert ms[..0] == [];
    assert SumReal(ms) == SumReal(ms[..0]) + ms[0];
  }

  // ---------------------------------------------------------------------
  // Centre of mass

  /** `sum(masses[i] * relative[i])` over the atoms, the numerator of the weighted average. */
  function Weighted(masses: seq<real>, ps: seq<Vec3>): Vec3
    requires |masses| == |ps|
  {
    if ps == [] then Zero3
    else
      var n := |ps| - 1;
      Add(Weighted(masses[..n], ps[..n]), Scale(masses[n], ps[n]))
  }

  /** The positions relative to the first atom, imaged and shifted back. */
  function Relative(pos: seq<Vec3>, image: Vec3 -> Vec3): (r: seq<Vec3>)
    requires |pos| > 0
    ensures |r| == |pos| && forall i :: 0 <= i < |pos| ==> r[i] == Add(image(Sub(pos[i], pos[0])), pos[0])
  {
    seq<Vec3>(|pos|, i requires 0 <= i < |pos| => Add(image(Sub(pos[i], pos[0])), pos[0]))
  }

  /**
   * `center_of_mass`: an AtomicSystemPositionsError when the positions do
   * not match the atoms, an AtomicSystemMassError when a mass is missing,
   * the error of `n_atoms`, the zero vector for an empty system, and
   * otherwise the imaged mass-weighted average of the positions taken
   * relative to the first atom. A zero total mass is a ZeroDivisionError
   * here, where numpy yields NaN.
   */
  function CenterOfMass(s: AtomicSystem, image: Vec3 -> Vec3): (r: Result<Vec3>)
    ensures |s.pos| != |s.atoms| ==> r == Err("AtomicSystemPositionsError")
    ensures |s.pos| == |s.atoms| && Mass(s.atoms).Err? ==> r == Err("AtomicSystemMassError")
    ensures |s.pos| == |s.atoms| && Mass(s.atoms).Ok? && NAtoms(s).Err? ==> r == Err("AtomicSystemError")
    ensures NAtoms(s) == Ok(0) && |s.pos| == |s.atoms| && Mass(s.atoms).Ok? ==> r == Ok(Zero3)
  {
    if |s.pos| != |s.atoms| then Err("AtomicSystemPositionsError")
    else
      var masses := AtomicMasses(s.atoms);
      if masses.Err? then Err(masses.error)
      else
        var n := NAtoms(s);
        if n.Err? then Err(n.error)
        else if n.value == 0 then Ok(Zero3)
        else
          var total := SumReal(masses.value);
          if total == 0.0 then Err("ZeroDivisionError")
          else
            var w := Weighted(masses.value, Relative(s.pos, image));
            Ok(image(Scale(1.0 / total, w)))
  }

  lemma Unscale(m: real, p: Vec3)
    requires m != 0.0
    ensures Scale(1.0 / m, Scale(m, p)) == p
  {
    var q := Scale(m, p);
    var r := Scale(1.0 / m, q);
    assert r[0] == (1.0 / m) * (m * p[0]) == p[0];
    assert r[1] == (1.0 / m) * (m * p[1]) == p[1];
    assert r[2] == (1.0 / m) * (m * p[2]) == p[2];
    assert |r| == |p| && forall i :: 0 <= i < 3 ==> r[i] == p[i];
  }

  /**
   * One atom of non-zero mass, with a map that leaves the zero vector and
   * its position in place, has its centre of mass at its position.
   */
  lemma CenterOfMassOfOne(s: AtomicSystem, image: Vec3 -> Vec3)
    requires |s.atoms| == 1 && |s.pos| == 1 && HasMass(s.atoms[0]) && s.atoms[0].element.mass != 0.0
    requires s.vel == [] && s.forces == [] && s.charges == []
    requires image(Zero3) == Zero3 && image(s.pos[0]) == s.pos[0]
    ensures CenterOfMass(s, image) == Ok(s.pos[0])
  {
    var m := s.atoms[0].element.mass;
    var p := s.pos[0];
    var ms := AtomicMasses(s.atoms).value;
    assert ms == [m];
    assert SumReal(ms) == SumReal(ms[..0]) + m;
    assert NAtoms(s) == Ok(1);
    assert Sub(p, p) == Zero3;
    var rel := Relative(s.pos, image);
    assert rel[0] == Add(Zero3, p) == p;
    var w := Weighted(ms, rel);
    assert Weighted(ms[..0], rel[..0]) == Zero3;
    assert w == Add(Zero3, Scale(m, p)) == Scale(m, p);
    Unscale(m, p);
  }

  /** With the identity as image, the positions relative to the first atom are the positions themselves. */
  lemma RelativeOfIdentity(pos: seq<Vec3>, image: Vec3 -> Vec3)
    requires |pos| > 0 && forall p :: image(p) == p
    ensures Relative(pos, image) == pos
  {
    var r := Relative(pos, image);
    forall i | 0 <= i < |pos|
      ensures r[i] == pos[i]
    {
      assert image(Sub(pos[i], pos[0])) == Sub(pos[i], pos[0]);
    }
  }

  /** `Scale(c, 1/c·v)` is `v` again for non-zero `c`. */
  lemma Rescale(m: real, w: Vec3)
    requires m != 0.0
    ensures Scale(m, Scale(1.0 / m, w)) == w
  {
    var r := Scale(m, Scale(1.0 / m, w));
    assert r[0] == m * ((1.0 / m) * w[0]) == w[0];
    assert r[1] == m * ((1.0 / m) * w[1]) == w[1];
    assert r[2] == m * ((1.0 / m) * w[2]) == w[2];
    assert |r| == |w| && forall i :: 0 <= i < 3 ==> r[i] == w[i];
  }

  /** Scaling by a non-zero factor is one-to-one. */
  lemma ScaleCancels(m: real, u: Vec3, v: Vec3)
    requires m != 0.0 && Scale(m, u) == Scale(m, v)
    ensures u == v
  {
    Unscale(m, u);
    Unscale(m, v);
  }

  /**
   * For a non-empty system of non-zero total mass and the identity as
   * image, the centre of mass times the total mass is the mass-weighted
   * sum of the positions: it is their weighted average.
   */
  lemma CenterOfMassIsWeightedAverage(s: AtomicSystem, image: Vec3 -> Vec3)
    requires |s.pos| == |s.atoms| && Mass(s.atoms).Ok? && Mass(s.atoms).value != 0.0
    requires NAtoms(s).Ok? && NAtoms(s).value > 0 && forall p :: image(p) == p
    ensures CenterOfMass(s, image).Ok?
    ensures Scale(Mass(s.atoms).value, CenterOfMass(s, image).value) == Weighted(AtomicMasses(s.atoms).value, s.pos)
  {
    RelativeOfIdentity(s.pos, image);
    var w := Weighted(AtomicMasses(s.atoms).value, s.pos);
    Rescale(Mass(s.atoms).value, w);
  }

  /** Every position moved by `t`. */
  function Shifted(ps: seq<Vec3>, t: Vec3): (r: seq<Vec3>)
    ensures |r| == |ps| && forall i :: 0 <= i < |ps| ==> r[i] == Add(ps[i], t)
  {
    seq<Vec3>(|ps|, i requires 0 <= i < |ps| => Add(ps[i], t))
  }

  /** One step of `WeightedShifted`: the vector algebra of adding one moved atom. */
  lemma ShiftStep(w: Vec3, sum: real, m: real, p: Vec3, t: Vec3)
    ensures Add(Add(w, Scale(sum, t)), Scale(m, Add(p, t))) == Add(Add(w, Scale(m, p)), Scale(sum + m, t))
  {
    var lhs := Add(Add(w, Scale(sum, t)), Scale(m, Add(p, t)));
    var rhs := Add(Add(w, Scale(m, p)), Scale(sum + m, t));
    forall j | 0 <= j < 3
      ensures lhs[j] == rhs[j]
    {
      assert m * (p[j] + t[j]) == m * p[j] + m * t[j];
      assert (sum + m) * t[j] == sum * t[j] + m * t[j];
    }
  }

  /** Moving every position by `t` adds the total mass times `t` to the weighted sum. */
  lemma {:induction false} WeightedShifted(masses: seq<real>, ps: seq<Vec3>, t: Vec3)
    requires |masses| == |ps|
    ensures Weighted(masses, Shifted(ps, t)) == Add(Weighted(masses, ps), Scale(SumReal(masses), t))
  {
    if ps == [] {
      assert Add(Zero3, Scale(0.0, t)) == Zero3;
    } else {
      var n := |ps| - 1;
      var moved := Shifted(ps, t);
      assert moved[..n] == Shifted(ps[..n], t);
      WeightedShifted(masses[..n], ps[..n], t);
      ShiftStep(Weighted(masses[..n], ps[..n]), SumReal(masses[..n]), masses[n], ps[n], t);
    }
  }

  /**
   * With the identity as image, moving every atom of a non-empty system of
   * non-zero total mass by `t` moves its centre of mass by `t`.
   */
  lemma CenterOfMassTranslates(s: AtomicSystem, t: Vec3, image: Vec3 -> Vec3)
    requires |s.pos| == |s.atoms| && Mass(s.atoms).Ok? && Mass(s.atoms).value != 0.0
    requires NAtoms(s).Ok? && NAtoms(s).value > 0 && forall p :: image(p) == p
    ensures CenterOfMass(s, image).Ok?
    ensures CenterOfMass(s.(pos := Shifted(s.pos, t)), image) == Ok(Add(CenterOfMass(s, image).value, t))
  {
    var moved := s.(pos := Shifted(s.pos, t));
    assert Counts(moved) == Counts(s);
    CenterOfMassIsWeightedAverage(s, image);
    CenterOfMassIsWeightedAverage(moved, image);
    var ms, total := AtomicMasses(s.atoms).value, Mass(s.atoms).value;
    WeightedShifted(ms, s.pos, t);
    var c, c' := CenterOfMass(s, image).value, CenterOfMass(moved, image).value;
    ScaleAdds(total, c, t);
    ScaleCancels(total, c', Add(c, t));
  }

  /** Scaling distributes over a sum of vectors. */
  lemma ScaleAdds(m: real, u: Vec3, v: Vec3)
    ensures Scale(m, Add(u, v)) == Add(Scale(m, u), Scale(m, v))
  {
    var l, r := Scale(m, Add(u, v)), Add(Scale(m, u), Scale(m, v));
    assert l[0] == m * (u[0] + v[0]) == r[0];
    assert l[1] == m * (u[1] + v[1]) == r[1];
    assert l[2] == m * (u[2] + v[2]) == r[2];
  }

  // ---------------------------------------------------------------------
  // Names

  /** `combined_name`: the atom names joined in order, with no separator. */
  function CombinedName(atoms: seq<Atom>): (r: string)
    ensures forall i :: 0 <= i < |atoms| ==> |atoms[i].name| <= |r|
  {
    if atoms == [] then [] else CombinedName(atoms[..|atoms| - 1]) + atoms[|atoms| - 1].name
  }

  /** The combined name of two groups is the first group's followed by the second's. */
  lemma {:induction false} CombinedNameConcat(a: seq<Atom>, b: seq<Atom>)
    ensures CombinedName(a + b) == CombinedName(a) + CombinedName(b)
    decreases |b|
  {
    if b == [] {
      assert a + b == a;
    } else {
      var n := |b| - 1;
      assert (a + b)[..|a + b| - 1] == a + b[..n];
      CombinedNameConcat(a, b[..n]);
    }
  }

  /** Atom `i`'s name starts in the combined name after the names before it. */
  lemma {:induction false} CombinedNameAt(atoms: seq<Atom>, i: nat)
    requires i < |atoms|
    ensures var before := |CombinedName(atoms[..i])|;
            before + |atoms[i].name| <= |CombinedName(atoms)|
            && CombinedName(atoms)[before..before + |atoms[i].name|] == atoms[i].name
  {
    assert atoms[..i + 1] == atoms[..i] + [atoms[i]];
    assert atoms == atoms[..i + 1] + atoms[i + 1..];
    CombinedNameConcat(atoms[..i] + [atoms[i]], atoms[i + 1..]);
    CombinedNameConcat(atoms[..i], [atoms[i]]);
    assert [atoms[i]][..0] == [];
  }

  /**
   * `build_custom_element`: an element named by the combined name, with
   * atomic number -1 and the system's mass.
   */
  function BuildCustomElement(atoms: seq<Atom>): (r: Result<Element>)
    ensures r.Ok? <==> Mass(atoms).Ok?
    ensures r.Ok? ==> r.value == Element(CombinedName(atoms), -1, Mass(atoms).value)
  {
    var m := Mass(atoms);
    if m.Err? then Err(m.error) else Ok(Element(CombinedName(atoms), -1, m.value))
  }
}
