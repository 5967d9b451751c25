/**
 * The bonded topology (PQAnalysis/topology/bonded_topology/): bonds, angles,
 * dihedrals, impropers and shake bonds of a molecular system, the unique
 * index sets and linker lists derived from them, and the extension of the
 * shake bonds to copies of a system appended to it.
 */
module Bonded {

  import opened Common

  /**
   * A bond or a shake bond. Indices are atom numbers; the type is given for
   * ordinary bonds, the equilibrium distance for shake bonds.
   */
  datatype Bond = Bond(
    index1: int,
    index2: int,
    equilibriumDistance: Option<real>,
    bondType: Option<int>,
    isLinker: bool,
    isShake: bool,
    comment: Option<string>)

  datatype Angle = Angle(
    index1: int,
    index2: int,
    index3: int,
    angleType: Option<int>,
    isLinker: bool,
    comment: Option<string>)

  /** A dihedral; an improper dihedral is a dihedral flagged `isImproper`. */
  datatype Dihedral = Dihedral(
    index1: int,
    index2: int,
    index3: int,
    index4: int,
    dihedralType: Option<int>,
    isLinker: bool,
    isImproper: bool,
    comment: Option<string>)

  // ---------------------------------------------------------------------
  // Sets of indices and lists of linkers

  /** `{f(x) for x in xs}`: at most one element per item of the list. */
  function IndexSet<T>(xs: seq<T>, f: T -> int): (s: set<int>)
    ensures forall i :: i in s <==> exists k :: 0 <= k < |xs| && f(xs[k]) == i
    ensures |s| <= |xs|
  {
    if xs == [] then {}
    else
      var rest := IndexSet(xs[..|xs| - 1], f);
      assert forall k :: 0 <= k < |xs| - 1 ==> xs[..|xs| - 1][k] == xs[k];
      rest + {f(xs[|xs| - 1])}
  }

  /**
   * The positions of the items satisfying `p`, in increasing order: every
   * such position appears, and nothing else does.
   */
  function Positions<T>(xs: seq<T>, p: T -> bool): (idx: seq<nat>)
    ensures forall k :: 0 <= k < |idx| ==> idx[k] < |xs| && p(xs[idx[k]])
    ensures forall j, k :: 0 <= j < k < |idx| ==> idx[j] < idx[k]
    ensures forall i :: 0 <= i < |xs| && p(xs[i]) ==> i in idx
  {
    if xs == [] then []
    else
      var init := Positions(xs[..|xs| - 1], p);
      assert forall k :: 0 <= k < |xs| - 1 ==> xs[..|xs| - 1][k] == xs[k];
      init + (if p(xs[|xs| - 1]) then [|xs| - 1] else [])
  }

  /** `[x for x in xs if p(x)]`: the items satisfying `p`, each with its multiplicity. */
  function Filter<T(!new)>(xs: seq<T>, p: T -> bool): (r: seq<T>)
    ensures |r| <= |xs|
    ensures forall k :: 0 <= k < |r| ==> p(r[k]) && r[k] in xs
    ensures forall x :: multiset(r)[x] == if p(x) then multiset(xs)[x] else 0
  {
    if xs == [] then []
    else
      var init := xs[..|xs| - 1];
      assert xs == init + [xs[|xs| - 1]];
      Filter(init, p) + (if p(xs[|xs| - 1]) then [xs[|xs| - 1]] else [])
  }

  /**
   * The filter keeps the order: item `k` of the result is the item at the
   * `k`-th position satisfying `p`.
   */
  lemma {:induction false} FilterPositions<T(!new)>(xs: seq<T>, p: T -> bool)
    ensures |Filter(xs, p)| == |Positions(xs, p)|
    ensures forall k :: 0 <= k < |Filter(xs, p)| ==> Filter(xs, p)[k] == xs[Positions(xs, p)[k]]
  {
    if xs != [] {
      var init, x := xs[..|xs| - 1], xs[|xs| - 1];
      assert xs == init + [x];
      FilterPositions(init, p);
      var f, ps := Filter(init, p), Positions(init, p);
      assert Filter(xs, p) == f + (if p(x) then [x] else []);
      assert Positions(xs, p) == ps + (if p(x) then [|init|] else []);
      PickSnoc(f, ps, init, x, p(x));
    }
  }

  /**
   * The step of `FilterPositions`: items picked from `init` at the
   * positions `ps`, with `x` picked after them when `keep` holds, are the
   * items of `init + [x]` at the positions extended by `|init|`.
   */
  lemma PickSnoc<T>(f: seq<T>, ps: seq<nat>, init: seq<T>, x: T, keep: bool)
    requires |f| == |ps| && forall k :: 0 <= k < |f| ==> ps[k] < |init| && f[k] == init[ps[k]]
    ensures var fs, qs := f + (if keep then [x] else []), ps + (if keep then [|init|] else []);
            |fs| == |qs| && forall k :: 0 <= k < |fs| ==> qs[k] < |init| + 1 && fs[k] == (init + [x])[qs[k]]
  {
    var fs, qs := f + (if keep then [x] else []), ps + (if keep then [|init|] else []);
    forall k | 0 <= k < |fs|
      ensures qs[k] < |init| + 1 && fs[k] == (init + [x])[qs[k]]
    {
      if k < |f| {
        assert fs[k] == f[k] && qs[k] == ps[k];
      }
    }
  }

  /** Filtering a list with one more item at the end. */
  lemma FilterSnoc<T(!new)>(xs: seq<T>, x: T, p: T -> bool)
    ensures Filter(xs + [x], p) == Filter(xs, p) + (if p(x) then [x] else [])
  {
    assert (xs + [x])[..|xs + [x]| - 1] == xs;
  }

  /** Filtering distributes over concatenation, so the items keep their order. */
  lemma {:induction false} FilterConcat<T(!new)>(a: seq<T>, b: seq<T>, p: T -> bool)
    ensures Filter(a + b, p) == Filter(a, p) + Filter(b, p)
    decreases |b|
  {
    if b == [] {
      assert a + b == a;
    } else {
      var bi, x := b[..|b| - 1], b[|b| - 1];
      var tail := if p(x) then [x] else [];
      SnocParts(a, b);
      FilterSnoc(a + bi, x, p);
      FilterConcat(a, bi, p);
      FilterSnoc(bi, x, p);
      Associative(Filter(a, p), Filter(bi, p), tail);
    }
  }

  lemma Associative<T>(x: seq<T>, y: seq<T>, z: seq<T>)
    ensures (x + y) + z == x + (y + z)
  {
  }

  /** A non-empty list is its init and its last item, also behind a prefix. */
  lemma SnocParts<T>(a: seq<T>, b: seq<T>)
    requires b != []
    ensures b == b[..|b| - 1] + [b[|b| - 1]]
    ensures a + b == (a + b[..|b| - 1]) + [b[|b| - 1]]
  {
  }

  /** A single item is kept exactly when it satisfies `p`. */
  lemma FilterOne<T(!new)>(x: T, p: T -> bool)
    ensures Filter([x], p) == if p(x) then [x] else []
  {
    assert [x][..0] == [];
  }

  /** The two ends of a bond and its linker flag, as values to pass around. */
  function BondFirst(b: Bond): int { b.index1 }
  function BondSecond(b: Bond): int { b.index2 }
  predicate BondIsLinker(b: Bond) { b.isLinker }
  predicate AngleIsLinker(a: Angle) { a.isLinker }
  predicate DihedralIsLinker(d: Dihedral) { d.isLinker }

  /** Two identical bonds contribute one index to each set. */
  lemma IdenticalBondsExample()
    ensures IndexSet([Bond(1, 2, None, None, false, false, None), Bond(1, 2, None, None, false, false, None)], BondFirst) == {1}
  {
  }

  // ---------------------------------------------------------------------
  // The topology

  class BondedTopology {
    var bonds: seq<Bond>
    var angles: seq<Angle>
    var dihedrals: seq<Dihedral>
    var impropers: seq<Dihedral>
    var shakeBonds: seq<Bond>
    /** The order in which the blocks were read, if read from a file. */
    var orderingKeys: Option<seq<string>>

    /** `__init__`: a missing list is an empty one. */
    constructor (bonds: Option<seq<Bond>>, angles: Option<seq<Angle>>, dihedrals: Option<seq<Dihedral>>,
                 impropers: Option<seq<Dihedral>>, shakeBonds: Option<seq<Bond>>, orderingKeys: Option<seq<string>>)
      ensures this.bonds == (if bonds.Some? then bonds.value else [])
      ensures this.angles == (if angles.Some? then angles.value else [])
      ensures this.dihedrals == (if dihedrals.Some? then dihedrals.value else [])
      ensures this.impropers == (if impropers.Some? then impropers.value else [])
      ensures this.shakeBonds == (if shakeBonds.Some? then shakeBonds.value else [])
      ensures this.orderingKeys == orderingKeys
    {
      this.bonds := if bonds.Some? then bonds.value else [];
      this.angles := if angles.Some? then angles.value else [];
      this.dihedrals := if dihedrals.Some? then dihedrals.value else [];
      this.impropers := if impropers.Some? then impropers.value else [];
      this.shakeBonds := if shakeBonds.Some? then shakeBonds.value else [];
      this.orderingKeys := orderingKeys;
    }

    function UniqueBond1Indices(): (s: set<int>)
      reads this
      ensures forall i :: i in s <==> exists k :: 0 <= k < |bonds| && bonds[k].index1 == i
      ensures |s| <= |bonds|
    {
      IndexSet(bonds, BondFirst)
    }

    function UniqueBond2Indices(): (s: set<int>)
      reads this
      ensures forall i :: i in s <==> exists k :: 0 <= k < |bonds| && bonds[k].index2 == i
      ensures |s| <= |bonds|
    {
      IndexSet(bonds, BondSecond)
    }

    function BondLinkers(): (r: seq<Bond>)
      reads this
      ensures |r| <= |bonds| && |r| == |Positions(bonds, BondIsLinker)|
      ensures forall k :: 0 <= k < |r| ==> r[k] == bonds[Positions(bonds, BondIsLinker)[k]]
      ensures forall b :: multiset(r)[b] == if b.isLinker then multiset(bonds)[b] else 0
    {
      FilterPositions(bonds, BondIsLinker);
      Filter(bonds, BondIsLinker)
    }

    function UniqueAngle1Indices(): (s: set<int>)
      reads this
      ensures forall i :: i in s <==> exists k :: 0 <= k < |angles| && angles[k].index1 == i
      ensures |s| <= |angles|
    {
      IndexSet(angles, (a: Angle) => a.index1)
    }

    function UniqueAngle2Indices(): (s: set<int>)
      reads this
      ensures forall i :: i in s <==> exists k :: 0 <= k < |angles| && angles[k].index2 == i
      ensures |s| <= |angles|
    {
      IndexSet(angles, (a: Angle) => a.index2)
    }

    function UniqueAngle3Indices(): (s: set<int>)
      reads this
      ensures forall i :: i in s <==> exists k :: 0 <= k < |angles| && angles[k].index3 == i
      ensures |s| <= |angles|
    {
      IndexSet(angles, (a: Angle) => a.index3)
    }

    function AngleLinkers(): (r: seq<Angle>)
      reads this
      ensures |r| <= |angles| && |r| == |Positions(angles, AngleIsLinker)|
      ensures forall k :: 0 <= k < |r| ==> r[k] == angles[Positions(angles, AngleIsLinker)[k]]
      ensures forall a :: multiset(r)[a] == if a.isLinker then multiset(angles)[a] else 0
    {
      FilterPositions(angles, AngleIsLinker);
      Filter(angles, AngleIsLinker)
    }

    function UniqueDihedral1Indices(): (s: set<int>)
      reads this
      ensures forall i :: i in s <==> exists k :: 0 <= k < |dihedrals| && dihedrals[k].index1 == i
      ensures |s| <= |dihedrals|
    {
      IndexSet(dihedrals, (d: Dihedral) => d.index1)
    }

    function UniqueDihedral2Indices(): (s: set<int>)
      reads this
      ensures forall i :: i in s <==> exists k :: 0 <= k < |dihedrals| && dihedrals[k].index2 == i
      ensures |s| <= |dihedrals|
    {
      IndexSet(dihedrals, (d: Dihedral) => d.index2)
    }

    function UniqueDihedral3Indices(): (s: set<int>)
      reads this
      ensures forall i :: i in s <==> exists k :: 0 <= k < |dihedrals| && dihedrals[k].index3 == i
      ensures |s| <= |dihedrals|
    {
      IndexSet(dihedrals, (d: Dihedral) => d.index3)
    }

    function UniqueDihedral4Indices(): (s: set<int>)
      reads this
      ensures forall i :: i in s <==> exists k :: 0 <= k < |dihedrals| && dihedrals[k].index4 == i
      ensures |s| <= |dihedrals|
    {
      IndexSet(dihedrals, (d: Dihedral) => d.index4)
    }

    function DihedralLinkers(): (r: seq<Dihedral>)
      reads this
      ensures |r| <= |dihedrals| && |r| == |Positions(dihedrals, DihedralIsLinker)|
      ensures forall k :: 0 <= k < |r| ==> r[k] == dihedrals[Positions(dihedrals, DihedralIsLinker)[k]]
      ensures forall d :: multiset(r)[d] == if d.isLinker then multiset(dihedrals)[d] else 0
    {
      FilterPositions(dihedrals, DihedralIsLinker);
      Filter(dihedrals, DihedralIsLinker)
    }

    function UniqueImproper1Indices(): (s: set<int>)
      reads this
      ensures forall i :: i in s <==> exists k :: 0 <= k < |impropers| && impropers[k].index1 == i
      ensures |s| <= |impropers|
    {
      IndexSet(impropers, (d: Dihedral) => d.index1)
    }

    function UniqueImproper2Indices(): (s: set<int>)
      reads this
      ensures forall i :: i in s <==> exists k :: 0 <= k < |impropers| && impropers[k].index2 == i
      ensures |s| <= |impropers|
    {
      IndexSet(impropers, (d: Dihedral) => d.index2)
    }

    function UniqueImproper3Indices(): (s: set<int>)
      reads this
      ensures forall i :: i in s <==> exists k :: 0 <= k < |impropers| && impropers[k].index3 == i
      ensures |s| <= |impropers|
    {
      IndexSet(impropers, (d: Dihedral) => d.index3)
    }

    function UniqueImproper4Indices(): (s: set<int>)
      reads this
      ensures forall i :: i in s <==> exists k :: 0 <= k < |impropers| && impropers[k].index4 == i
      ensures |s| <= |impropers|
    {
      IndexSet(impropers, (d: Dihedral) => d.index4)
    }

    function ImproperLinkers(): (r: seq<Dihedral>)
      reads this
      ensures |r| <= |impropers| && |r| == |Positions(impropers, DihedralIsLinker)|
      ensures forall k :: 0 <= k < |r| ==> r[k] == impropers[Positions(impropers, DihedralIsLinker)[k]]
      ensures forall d :: multiset(r)[d] == if d.isLinker then multiset(impropers)[d] else 0
    {
      FilterPositions(impropers, DihedralIsLinker);
      Filter(impropers, DihedralIsLinker)
    }

    function UniqueShakeIndices(): (s: set<int>)
      reads this
      ensures forall i :: i in s <==> exists k :: 0 <= k < |shakeBonds| && shakeBonds[k].index1 == i
      ensures |s| <= |shakeBonds|
    {
      IndexSet(shakeBonds, BondFirst)
    }

    function UniqueShakeTargetIndices(): (s: set<int>)
      reads this
      ensures forall i :: i in s <==> exists k :: 0 <= k < |shakeBonds| && shakeBonds[k].index2 == i
      ensures |s| <= |shakeBonds|
    {
      IndexSet(shakeBonds, BondSecond)
    }

    function ShakeLinkers(): (r: seq<Bond>)
      reads this
      ensures |r| <= |shakeBonds| && |r| == |Positions(shakeBonds, BondIsLinker)|
      ensures forall k :: 0 <= k < |r| ==> r[k] == shakeBonds[Positions(shakeBonds, BondIsLinker)[k]]
      ensures forall b :: multiset(r)[b] == if b.isLinker then multiset(shakeBonds)[b] else 0
    {
      FilterPositions(shakeBonds, BondIsLinker);
      Filter(shakeBonds, BondIsLinker)
    }

    /**
     * `extend_shake_bonds`: appends `nExtensions` shifted copies of the given
     * shake bonds, copy `i` shifted by `nAtoms + i * nAtomsPerExtension`.
     * Refused when several copies are asked for without a per-copy atom
     * count, when there are no shake bonds to take the largest index of, and
     * when the per-copy atom count is below that largest index. Nothing but
     * the shake bonds changes.
     */
    method ExtendShakeBonds(shake: seq<Bond>, nAtoms: int, nExtensions: nat, nAtomsPerExtension: Option<int>)
      returns (r: Result<()>)
      modifies this
      ensures r == ExtensionCheck(shake, nExtensions, nAtomsPerExtension)
      ensures r.Err? ==> shakeBonds == old(shakeBonds)
      ensures r.Ok? ==> shakeBonds == old(shakeBonds) + Extensions(shake, nAtoms, nExtensions, PerExtension(nAtomsPerExtension))
      ensures bonds == old(bonds) && angles == old(angles) && dihedrals == old(dihedrals)
      ensures impropers == old(impropers) && orderingKeys == old(orderingKeys)
    {
      r := ExtensionCheck(shake, nExtensions, nAtomsPerExtension);
      if r.Err? {
        return;
      }
      var per := PerExtension(nAtomsPerExtension);
      ghost var start := shakeBonds;
      for i := 0 to nExtensions
        invariant shakeBonds == start + Extensions(shake, nAtoms, i, per)
        invariant bonds == old(bonds) && angles == old(angles) && dihedrals == old(dihedrals)
        invariant impropers == old(impropers) && orderingKeys == old(orderingKeys)
      {
        var shift := per * i + nAtoms;
        for j := 0 to |shake|
          invariant shakeBonds == start + Extensions(shake, nAtoms, i, per) + Shifted(shake, shift)[..j]
          invariant bonds == old(bonds) && angles == old(angles) && dihedrals == old(dihedrals)
          invariant impropers == old(impropers) && orderingKeys == old(orderingKeys)
        {
          var copy := shake[j].(index1 := shake[j].index1 + shift, index2 := shake[j].index2 + shift);
          assert Shifted(shake, shift)[..j + 1] == Shifted(shake, shift)[..j] + [copy];
          shakeBonds := shakeBonds + [copy];
        }
        assert Shifted(shake, shift)[..|shake|] == Shifted(shake, shift);
      }
    }
  }

  /** The largest atom index among both ends of the bonds (`max` of a non-empty list). */
  function MaxIndex(bs: seq<Bond>): (m: int)
    requires bs != []
    ensures forall k :: 0 <= k < |bs| ==> bs[k].index1 <= m && bs[k].index2 <= m
    ensures exists k :: 0 <= k < |bs| && (bs[k].index1 == m || bs[k].index2 == m)
  {
    var here := if bs[0].index1 >= bs[0].index2 then bs[0].index1 else bs[0].index2;
    if |bs| == 1 then here
    else
      var rest := MaxIndex(bs[1..]);
      assert forall k :: 1 <= k < |bs| ==> bs[k] == bs[1..][k - 1];
      if here >= rest then here else rest
  }

  /** The checks `extend_shake_bonds` makes before changing anything, in its order. */
  function ExtensionCheck(shake: seq<Bond>, nExtensions: nat, nAtomsPerExtension: Option<int>): (r: Result<()>)
    ensures r.Ok? <==> (nExtensions == 1 || nAtomsPerExtension.Some?) && shake != []
                       && (nAtomsPerExtension.Some? ==> nAtomsPerExtension.value >= MaxIndex(shake))
  {
    if nExtensions != 1 && nAtomsPerExtension.None? then Err("PQValueError")
    else if shake == [] then Err("ValueError")
    else if nAtomsPerExtension.Some? && nAtomsPerExtension.value < MaxIndex(shake) then Err("PQValueError")
    else Ok(())
  }

  /** A missing per-copy atom count counts as 0. */
  function PerExtension(nAtomsPerExtension: Option<int>): int
  {
    if nAtomsPerExtension.Some? then nAtomsPerExtension.value else 0
  }

  /** Copies of the bonds with both indices moved by `shift`; everything else is kept. */
  function Shifted(shake: seq<Bond>, shift: int): (r: seq<Bond>)
    ensures |r| == |shake|
  {
    seq(|shake|, j requires 0 <= j < |shake| => shake[j].(index1 := shake[j].index1 + shift, index2 := shake[j].index2 + shift))
  }

  /** The bonds appended by `n` extensions. */
  function Extensions(shake: seq<Bond>, nAtoms: int, n: nat, per: int): seq<Bond>
  {
    if n == 0 then [] else Extensions(shake, nAtoms, n - 1, per) + Shifted(shake, per * (n - 1) + nAtoms)
  }

  /** Copy `i` of width `w` inside a list of copies. */
  function Block<T>(xs: seq<T>, i: nat, w: nat): seq<T>
    requires (i + 1) * w <= |xs|
  {
    xs[i * w..(i + 1) * w]
  }

  lemma MulMonotone(a: nat, b: nat, w: nat)
    requires a <= b
    ensures a * w <= b * w
  {
  }

  /**
   * The extensions hold `n` copies of the shake bonds, one after the other:
   * copy `i` is every bond with both indices moved by `nAtoms + i * per`,
   * its distance, type, flags and comment unchanged.
   */
  lemma {:induction false} ExtensionsAt(shake: seq<Bond>, nAtoms: int, n: nat, per: int)
    ensures |Extensions(shake, nAtoms, n, per)| == n * |shake|
    ensures forall i: nat :: i < n ==>
              ((i + 1) * |shake| <= n * |shake| && Block(Extensions(shake, nAtoms, n, per), i, |shake|) == Shifted(shake, nAtoms + i * per))
  {
    if n > 0 {
      ExtensionsAt(shake, nAtoms, n - 1, per);
      var w := |shake|;
      var prev := Extensions(shake, nAtoms, n - 1, per);
      var all := Extensions(shake, nAtoms, n, per);
      assert all == prev + Shifted(shake, per * (n - 1) + nAtoms);
      assert |prev| == (n - 1) * w;
      assert |all| == n * w;
      forall i: nat | i < n
        ensures (i + 1) * w <= n * w && Block(all, i, w) == Shifted(shake, nAtoms + i * per)
      {
        MulMonotone(i + 1, n, w);
        if i < n - 1 {
          MulMonotone(i + 1, n - 1, w);
          assert Block(all, i, w) == Block(prev, i, w);
        } else {
          assert i * w == |prev|;
          assert per * (n - 1) + nAtoms == nAtoms + i * per;
        }
      }
    }
  }

  /** The extension leaves the bonds that were there untouched and adds exactly `n` copies. */
  lemma ExtensionKeepsExisting(before: seq<Bond>, shake: seq<Bond>, nAtoms: int, n: nat, per: int)
    ensures var after := before + Extensions(shake, nAtoms, n, per);
            |after| == |before| + n * |shake| && after[..|before|] == before
  {
    ExtensionsAt(shake, nAtoms, n, per);
    assert (before + Extensions(shake, nAtoms, n, per))[..|before|] == before;
  }
}
