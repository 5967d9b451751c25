/**
 * The topology (PQAnalysis/topology/topology.py): atoms with residue ids,
 * matched against reference residue types. Walking the atoms from the
 * front, an atom with id 0 forms a QM residue of its own, and any other id
 * names a reference residue whose atoms must follow contiguously under the
 * same id; the residues found partition the atoms into consecutive ranges.
 */
module Topologies {

  import opened Common
  import opened Residues

  // ---------------------------------------------------------------------
  // Finding a reference residue

  /** What the walk needs of a reference residue: its id and its elements. */
  datatype RefInfo = RefInfo(id: int, elements: seq<Element>)

  function Infos(refs: seq<Residue>): (r: seq<RefInfo>)
    reads refs
    ensures |r| == |refs| && forall k :: 0 <= k < |refs| ==> r[k] == RefInfo(refs[k].id, refs[k].elements)
  {
    seq(|refs|, k reads refs requires 0 <= k < |refs| => RefInfo(refs[k].id, refs[k].elements))
  }

  /** The positions of the residues with id `id`, in increasing order. */
  function Matches(id: int, refs: seq<RefInfo>): (m: seq<nat>)
    ensures forall k: nat :: k in m <==> k < |refs| && refs[k].id == id
    ensures forall a, b :: 0 <= a < b < |m| ==> m[a] < m[b]
  {
    if refs == [] then []
    else
      var n := |refs| - 1;
      var init := Matches(id, refs[..n]);
      assert forall k :: 0 <= k < n ==> refs[..n][k] == refs[k];
      assert forall a :: 0 <= a < |init| ==> init[a] < n by {
        forall a | 0 <= a < |init| ensures init[a] < n {
          assert init[a] in init;
        }
      }
      if refs[n].id == id then init + [n] else init
  }

  /**
   * `_find_residue_by_id`: the position of the one residue with the id; a
   * ResidueError when there is none or more than one.
   */
  function FindResidueById(id: int, refs: seq<RefInfo>): (r: Result<nat>)
    ensures r.Ok? ==> r.value < |refs| && refs[r.value].id == id
    ensures r.Ok? ==> forall k :: 0 <= k < |refs| && refs[k].id == id ==> k == r.value
    ensures r.Err? <==> (forall k :: 0 <= k < |refs| ==> refs[k].id != id)
                        || (exists a, b :: 0 <= a < b < |refs| && refs[a].id == id && refs[b].id == id)
    ensures r.Err? ==> r.error == "ResidueError"
  {
    var m := Matches(id, refs);
    if |m| > 1 then
      assert m[0] in m && m[1] in m;
      Err("ResidueError")
    else if |m| == 0 then Err("ResidueError")
    else
      assert m[0] in m;
      assert forall k :: 0 <= k < |refs| && refs[k].id == id ==> k in m && k == m[0];
      Ok(m[0])
  }

  // ---------------------------------------------------------------------
  // Deducing the residues

  /** How a residue of the topology arose: a QM atom, or reference residue `index`. */
  datatype Slot = QMSlot(element: Element) | RefSlot(index: nat)

  /**
   * The inner loop over a reference residue's atoms from position `c`:
   * an atom past the end is an IndexError; a non-empty element that differs
   * from the residue's is replaced by it (with a warning); an id other
   * than the first atom's is a ResidueError.
   */
  function SpanFrom(ids: seq<int>, atoms: seq<Atom>, c: nat, es: seq<Element>, j: nat): (r: Result<seq<Atom>>)
    requires |atoms| == |ids| && c < |ids| && j <= |es| && c + j <= |ids|
    ensures r.Ok? ==> |r.value| == |atoms| && c + |es| <= |ids|
    ensures r.Ok? ==> forall i :: c + j <= i < c + |es| ==> ids[i] == ids[c]
    decreases |es| - j
  {
    if j == |es| then Ok(atoms)
    else
      var i := c + j;
      if i >= |atoms| then Err("IndexError")
      else
        var fixed := if !SameElement(atoms[i].element, NoElement) && !SameElement(atoms[i].element, es[j])
                     then atoms[i := atoms[i].(element := es[j])] else atoms;
        if ids[i] != ids[c] then Err("ResidueError")
        else SpanFrom(ids, fixed, c, es, j + 1)
  }

  /**
   * One turn of the while loop of `_setup_residues` at atom `c`, as
   * written: an atom with id 0 starts a QM residue and needs an element;
   * any other id must name one reference residue whose span checks out. On
   * success, the slot started, the atoms after the span is checked and
   * where the next residue starts, which is `c` itself for a reference
   * residue without atoms.
   */
  function StepAsWritten(ids: seq<int>, atoms: seq<Atom>, refs: seq<RefInfo>, c: nat): (r: Result<(Slot, seq<Atom>, nat)>)
    requires |atoms| == |ids| && c < |ids|
    ensures r.Ok? ==> c <= r.value.2 <= |ids| && |r.value.1| == |ids|
    ensures r.Ok? && r.value.0.QMSlot? ==> ids[c] == 0 && r.value.0.element == atoms[c].element && !SameElement(r.value.0.element, NoElement) && r.value.2 == c + 1
    ensures r.Ok? && r.value.0.RefSlot? ==> r.value.0.index < |refs| && r.value.2 == c + |refs[r.value.0.index].elements|
  {
    if ids[c] == 0 then
      if SameElement(atoms[c].element, NoElement) then Err("ResidueError")
      else Ok((QMSlot(atoms[c].element), atoms, c + 1))
    else
      match FindResidueById(ids[c], refs)
      case Err(e) => Err(e)
      case Ok(k) =>
        match SpanFrom(ids, atoms, c, refs[k].elements, 0)
        case Err(e) => Err(e)
        case Ok(fixed) => Ok((RefSlot(k), fixed, c + |refs[k].elements|))
  }

  /**
   * The turn as it is evidently meant: a turn that would not move past
   * atom `c`, because its reference residue has no atoms, is a
   * ResidueError; every other outcome is the one written.
   */
  function StepAt(ids: seq<int>, atoms: seq<Atom>, refs: seq<RefInfo>, c: nat): (r: Result<(Slot, seq<Atom>, nat)>)
    requires |atoms| == |ids| && c < |ids|
    ensures r.Ok? ==> c < r.value.2 <= |ids| && |r.value.1| == |ids|
    ensures r.Ok? && r.value.0.QMSlot? ==> ids[c] == 0 && r.value.0.element == atoms[c].element && !SameElement(r.value.0.element, NoElement)
    ensures r.Ok? && r.value.0.RefSlot? ==> r.value.0.index < |refs| && |refs[r.value.0.index].elements| >= 1
    ensures r.Ok? <==> StepAsWritten(ids, atoms, refs, c).Ok? && StepAsWritten(ids, atoms, refs, c).value.2 != c
    ensures r.Ok? ==> r == StepAsWritten(ids, atoms, refs, c)
  {
    match StepAsWritten(ids, atoms, refs, c)
    case Err(e) => Err(e)
    case Ok((s, fixed, next)) => if next == c then Err("ResidueError") else Ok((s, fixed, next))
  }

  /**
   * As written, an atom whose id names a reference residue without atoms
   * leaves the loop where it was: the same atoms, the same counter, so the
   * while loop of `_setup_residues` runs for ever.
   */
  lemma StepAsWrittenStalls(ids: seq<int>, atoms: seq<Atom>, refs: seq<RefInfo>, c: nat, k: nat)
    requires |atoms| == |ids| && c < |ids| && ids[c] != 0
    requires FindResidueById(ids[c], refs) == Ok(k) && refs[k].elements == []
    ensures StepAsWritten(ids, atoms, refs, c) == Ok((RefSlot(k), atoms, c))
    ensures StepAt(ids, atoms, refs, c) == Err("ResidueError")
  {
  }

  /** The atom of id 5 and the reference residue 5 without atoms. */
  lemma EmptyResidueExample()
    ensures StepAsWritten([5], [Atom("C", NoElement)], [RefInfo(5, [])], 0) == Ok((RefSlot(0), [Atom("C", NoElement)], 0))
    ensures Setup([5], [Atom("C", NoElement)], [RefInfo(5, [])], true) == Err("ResidueError")
    ensures Setup([0], [Atom("C", Element("C", 6, 12.011))], [RefInfo(5, [])], true).Ok?
  {
    StepAsWrittenStalls([5], [Atom("C", NoElement)], [RefInfo(5, [])], 0, 0);
  }

  /**
   * The while loop of `_setup_residues` from atom `c`, with the slots and
   * atoms so far.
   */
  function SetupFrom(ids: seq<int>, atoms: seq<Atom>, refs: seq<RefInfo>, c: nat, slots: seq<Slot>): (r: Result<(seq<Slot>, seq<Atom>)>)
    requires |atoms| == |ids| && c <= |ids|
    ensures r.Ok? ==> |r.value.1| == |ids|
    decreases |ids| - c
  {
    if c == |ids| then Ok((slots, atoms))
    else
      match StepAt(ids, atoms, refs, c)
      case Err(e) => Err(e)
      case Ok((s, fixed, next)) => SetupFrom(ids, fixed, refs, next, slots + [s])
  }

  /** Every id is 0 or the id of a reference residue. */
  predicate IdsKnown(ids: seq<int>, refs: seq<RefInfo>)
  {
    forall i :: 0 <= i < |ids| ==> ids[i] == 0 || exists k :: 0 <= k < |refs| && refs[k].id == ids[i]
  }

  /**
   * `_setup_residues`: no residues without reference residues or with the
   * check switched off; an id that is neither 0 nor a reference id is a
   * ResidueError; otherwise the walk over the atoms.
   */
  function Setup(ids: seq<int>, atoms: seq<Atom>, refs: seq<RefInfo>, check: bool): (r: Result<(seq<Slot>, seq<Atom>)>)
    requires |atoms| == |ids|
    ensures refs == [] || !check ==> r == Ok(([], atoms))
    ensures refs != [] && check && !IdsKnown(ids, refs) ==> r == Err("ResidueError")
  {
    if |refs| == 0 || !check then Ok(([], atoms))
    else if !IdsKnown(ids, refs) then Err("ResidueError")
    else SetupFrom(ids, atoms, refs, 0, [])
  }

  /** The number of atoms and the id a slot stands for. */
  function SlotSize(s: Slot, refs: seq<RefInfo>): nat
  {
    match s
    case QMSlot(_) => 1
    case RefSlot(k) => if k < |refs| then |refs[k].elements| else 0
  }

  function SlotId(s: Slot, refs: seq<RefInfo>): int
  {
    match s
    case QMSlot(_) => 0
    case RefSlot(k) => if k < |refs| then refs[k].id else 0
  }

  function Repeat<T>(x: T, n: nat): (r: seq<T>)
    ensures |r| == n && forall i :: 0 <= i < n ==> r[i] == x
  {
    seq(n, _ => x)
  }

  /** The residue id of every atom, as the slots describe them in order. */
  function Expand(slots: seq<Slot>, refs: seq<RefInfo>): seq<int>
  {
    if slots == [] then []
    else Expand(slots[..|slots| - 1], refs) + Repeat(SlotId(slots[|slots| - 1], refs), SlotSize(slots[|slots| - 1], refs))
  }

  lemma ExpandSnoc(slots: seq<Slot>, s: Slot, refs: seq<RefInfo>)
    ensures Expand(slots + [s], refs) == Expand(slots, refs) + Repeat(SlotId(s, refs), SlotSize(s, refs))
  {
    assert (slots + [s])[..|slots|] == slots;
  }

  /** Slot indices stay within the reference residues. */
  predicate SlotsValid(slots: seq<Slot>, refs: seq<RefInfo>)
  {
    forall j :: 0 <= j < |slots| ==> (slots[j].RefSlot? ==> slots[j].index < |refs|)
  }

  /** A successful walk over the whole span reads the same id all along it. */
  lemma {:induction false} SpanIds(ids: seq<int>, atoms: seq<Atom>, c: nat, es: seq<Element>)
    requires |atoms| == |ids| && c < |ids|
    requires SpanFrom(ids, atoms, c, es, 0).Ok?
    ensures c + |es| <= |ids| && ids[c..c + |es|] == Repeat(ids[c], |es|)
  {
  }

  /** A successful step covers the atoms of its slot, all under the slot's id. */
  lemma StepCovers(ids: seq<int>, atoms: seq<Atom>, refs: seq<RefInfo>, c: nat)
    requires |atoms| == |ids| && c < |ids|
    requires StepAt(ids, atoms, refs, c).Ok?
    ensures var (s, _, next) := StepAt(ids, atoms, refs, c).value;
            next == c + SlotSize(s, refs) && ids[c..next] == Repeat(SlotId(s, refs), SlotSize(s, refs))
  {
    var (s, _, next) := StepAt(ids, atoms, refs, c).value;
    if ids[c] == 0 {
      assert ids[c..next] == [ids[c]];
    } else {
      var k := FindResidueById(ids[c], refs).value;
      SpanIds(ids, atoms, c, refs[k].elements);
    }
  }

  /**
   * The walk keeps the slots describing the atoms before `c`: from there,
   * a successful walk ends with slots that describe all atoms, whose
   * residue ids read back as the input ids.
   */
  lemma {:induction false} SetupFromCovers(ids: seq<int>, atoms: seq<Atom>, refs: seq<RefInfo>, c: nat, slots: seq<Slot>)
    requires |atoms| == |ids| && c <= |ids|
    requires Expand(slots, refs) == ids[..c] && SlotsValid(slots, refs)
    requires SetupFrom(ids, atoms, refs, c, slots).Ok?
    ensures Expand(SetupFrom(ids, atoms, refs, c, slots).value.0, refs) == ids
    ensures SlotsValid(SetupFrom(ids, atoms, refs, c, slots).value.0, refs)
    decreases |ids| - c
  {
    if c == |ids| {
      assert ids[..c] == ids;
    } else {
      var (s, fixed, next) := StepAt(ids, atoms, refs, c).value;
      StepCovers(ids, atoms, refs, c);
      ExpandSnoc(slots, s, refs);
      assert ids[..next] == ids[..c] + ids[c..next];
      SetupFromCovers(ids, fixed, refs, next, slots + [s]);
    }
  }

  /**
   * The residues `_setup_residues` finds partition the atoms: laid end to
   * end, they carry exactly the input residue ids, atom by atom.
   */
  lemma SetupPartitions(ids: seq<int>, atoms: seq<Atom>, refs: seq<RefInfo>)
    requires |atoms| == |ids|
    requires Setup(ids, atoms, refs, true).Ok? && refs != []
    ensures Expand(Setup(ids, atoms, refs, true).value.0, refs) == ids
    ensures |Setup(ids, atoms, refs, true).value.1| == |ids|
  {
    assert ids[..0] == [];
    SetupFromCovers(ids, atoms, refs, 0, []);
  }

  /** An atom with id 0 and no element cannot become a QM residue. */
  lemma QMWithoutElementRejected(ids: seq<int>, atoms: seq<Atom>, refs: seq<RefInfo>)
    requires |atoms| == |ids| && refs != []
    requires IdsKnown(ids, refs) && |ids| > 0 && ids[0] == 0 && atoms[0].element == NoElement
    ensures Setup(ids, atoms, refs, true) == Err("ResidueError")
  {
  }

  // ---------------------------------------------------------------------
  // Residue numbers and atom ranges

  function Range(a: int, b: int): (r: seq<int>)
    requires a <= b
    ensures |r| == b - a && forall i :: 0 <= i < |r| ==> r[i] == a + i
  {
    seq(b - a, i => a + i)
  }

  function Sum(sizes: seq<nat>): nat
  {
    if sizes == [] then 0 else Sum(sizes[..|sizes| - 1]) + sizes[|sizes| - 1]
  }

  /** `_residue_numbers`: residue `j` repeated once per atom of it. */
  function Numbers(sizes: seq<nat>): seq<int>
  {
    if sizes == [] then [] else Numbers(sizes[..|sizes| - 1]) + Repeat(|sizes| - 1, sizes[|sizes| - 1])
  }

  /** `_residue_atom_indices`: consecutive ranges of the residues' sizes. */
  function AtomRanges(sizes: seq<nat>): seq<seq<int>>
  {
    if sizes == [] then []
    else
      var init := sizes[..|sizes| - 1];
      AtomRanges(init) + [Range(Sum(init), Sum(init) + sizes[|sizes| - 1])]
  }

  function Concat(xss: seq<seq<int>>): seq<int>
  {
    if xss == [] then [] else Concat(xss[..|xss| - 1]) + xss[|xss| - 1]
  }

  /**
   * The atom ranges laid end to end are 0, 1, ..., n-1, and there is one
   * residue number per atom.
   */
  lemma {:induction false} RangesPartition(sizes: seq<nat>)
    ensures |AtomRanges(sizes)| == |sizes|
    ensures Concat(AtomRanges(sizes)) == Range(0, Sum(sizes))
    ensures |Numbers(sizes)| == Sum(sizes)
  {
    if sizes != [] {
      var init := sizes[..|sizes| - 1];
      RangesPartition(init);
      var rs := AtomRanges(sizes);
      assert rs[..|rs| - 1] == AtomRanges(init);
      assert Range(0, Sum(init)) + Range(Sum(init), Sum(sizes)) == Range(0, Sum(sizes));
    }
  }

  /** Range `j` runs from the sizes before `j` for the size of residue `j`. */
  lemma {:induction false} RangeAt(sizes: seq<nat>, j: nat)
    requires j < |sizes|
    ensures |AtomRanges(sizes)| == |sizes|
    ensures AtomRanges(sizes)[j] == Range(Sum(sizes[..j]), Sum(sizes[..j]) + sizes[j])
  {
    RangesPartition(sizes);
    var init := sizes[..|sizes| - 1];
    if j < |sizes| - 1 {
      RangesPartition(init);
      RangeAt(init, j);
      assert init[..j] == sizes[..j];
    } else {
      assert init == sizes[..j];
    }
  }

  // ---------------------------------------------------------------------
  // The topology

  class Topology {
    var atoms: seq<Atom>
    var atomtypeNames: seq<string>
    var referenceResidues: seq<Residue>
    var checkResidues: bool
    var residueIds: seq<int>
    var residues: seq<Residue>
    var residueNumbers: seq<int>
    var residueAtomIndices: seq<seq<int>>

    /**
     * The field assignments of `__init__` before the residues are set up:
     * no atoms and no reference residues when none are given.
     */
    constructor (atoms: Option<seq<Atom>>, refs: Option<seq<Residue>>, check: bool)
      ensures this.atoms == (if atoms.Some? then atoms.value else [])
      ensures atomtypeNames == Names(this.atoms)
      ensures referenceResidues == (if refs.Some? then refs.value else [])
      ensures checkResidues == check
      ensures residueIds == [] && residues == [] && residueNumbers == [] && residueAtomIndices == []
    {
      this.atoms := if atoms.Some? then atoms.value else [];
      atomtypeNames := Names(if atoms.Some? then atoms.value else []);
      referenceResidues := if refs.Some? then refs.value else [];
      checkResidues := check;
      residueIds := [];
      residues := [];
      residueNumbers := [];
      residueAtomIndices := [];
    }

    /** `n_atoms`. */
    function NAtoms(): nat
      reads this
    {
      |atoms|
    }

    /**
     * `_setup_residues`: the residues described by `Setup`, the reference
     * residues themselves and a fresh QM residue per atom with id 0.
     */
    method ResiduesOf(ids: seq<int>, atoms: seq<Atom>) returns (r: Result<(seq<Residue>, seq<Atom>)>)
      requires |atoms| == |ids|
      ensures var spec := Setup(ids, atoms, Infos(referenceResidues), checkResidues);
              (r.Ok? <==> spec.Ok?) && (r.Err? ==> r.error == spec.error)
      ensures r.Ok? ==> r.value.1 == Setup(ids, atoms, Infos(referenceResidues), checkResidues).value.1
      ensures r.Ok? ==> Matching(r.value.0, Setup(ids, atoms, Infos(referenceResidues), checkResidues).value.0, referenceResidues)
    {
      var objects := referenceResidues;
      var refs := Infos(objects);
      if |refs| == 0 || !checkResidues {
        return Ok(([], atoms));
      }
      if !IdsKnown(ids, refs) {
        return Err("ResidueError");
      }
      var c := 0;
      var current := atoms;
      var found: seq<Residue> := [];
      ghost var slots: seq<Slot> := [];
      while c < |ids|
        invariant c <= |ids| && |current| == |ids|
        invariant SetupFrom(ids, current, refs, c, slots) == SetupFrom(ids, atoms, refs, 0, [])
        invariant Matching(found, slots, objects)
        decreases |ids| - c
      {
        var step := WalkStep(ids, current, refs, c);
        if step.Err? {
          return Err(step.error);
        }
        var (s, fixed, next) := step.value;
        var residue;
        if s.QMSlot? {
          residue := QMResidueOf(s.element);
        } else {
          residue := objects[s.index];
        }
        MatchingSnoc(found, slots, objects, residue, s);
        found := found + [residue];
        slots := slots + [s];
        current, c := fixed, next;
      }
      return Ok((found, current));
    }

    /**
     * `setup_residues`: the residues and atoms from `_setup_residues`, then
     * the residue number of every atom and the atom range of every residue;
     * with no residues, every atom is its own residue.
     */
    method SetupResidues(ids: seq<int>) returns (r: Result<()>)
      requires |atoms| == |ids|
      modifies this
      ensures residueIds == ids && referenceResidues == old(referenceResidues) && checkResidues == old(checkResidues)
      ensures var spec := Setup(ids, old(atoms), old(Infos(referenceResidues)), old(checkResidues));
              && (r.Ok? <==> spec.Ok?) && (r.Err? ==> r.error == spec.error)
              && (r.Ok? ==> atoms == spec.value.1 && Matching(residues, spec.value.0, referenceResidues))
      ensures r.Ok? && residues == [] ==> residueNumbers == Range(0, |atoms|)
      ensures r.Ok? && residues == [] ==> residueAtomIndices == Singletons(|atoms|)
      ensures r.Ok? && residues != [] ==> residueNumbers == Numbers(Sizes(residues)) && residueAtomIndices == AtomRanges(Sizes(residues))
    {
      ghost var refs := Infos(referenceResidues);
      residueIds := ids;
      var found := ResiduesOf(ids, atoms);
      assert Infos(referenceResidues) == refs;
      if found.Err? {
        return Err(found.error);
      }
      residues, atoms := found.value.0, found.value.1;
      NumberAtoms();
      return Ok(());
    }

    /**
     * The second half of `setup_residues`: the residue number of every atom
     * and the atom range of every residue; with no residues, every atom is
     * its own residue.
     */
    method NumberAtoms()
      modifies this
      ensures atoms == old(atoms) && residues == old(residues) && residueIds == old(residueIds)
      ensures referenceResidues == old(referenceResidues) && checkResidues == old(checkResidues)
      ensures residues == [] ==> residueNumbers == Range(0, |atoms|) && residueAtomIndices == Singletons(|atoms|)
      ensures residues != [] ==> residueNumbers == Numbers(Sizes(residues)) && residueAtomIndices == AtomRanges(Sizes(residues))
    {
      if residues == [] {
        residueNumbers := Range(0, |atoms|);
        residueAtomIndices := Singletons(|atoms|);
      } else {
        var numbers, ranges := NumberResidues(Sizes(residues));
        residueNumbers, residueAtomIndices := numbers, ranges;
      }
    }

    /** `__eq__`: the same number of atoms, equal atoms and equal residue ids. */
    predicate Equals(other: Topology)
      reads this, other
    {
      && NAtoms() == other.NAtoms()
      && (forall i :: 0 <= i < |atoms| ==> SameAtom(atoms[i], other.atoms[i]))
      && residueIds == other.residueIds
    }
  }

  /** `atomtype_names`: the names of the atoms. */
  function Names(atoms: seq<Atom>): (r: seq<string>)
    ensures |r| == |atoms| && forall i :: 0 <= i < |atoms| ==> r[i] == atoms[i].name
  {
    seq(|atoms|, i requires 0 <= i < |atoms| => atoms[i].name)
  }

  /** Without residues, atom `i` alone makes up residue `i`. */
  function Singletons(n: nat): (r: seq<seq<int>>)
    ensures |r| == n && forall i :: 0 <= i < n ==> r[i] == [i]
  {
    seq(n, i requires 0 <= i < n => Range(i, i + 1))
  }

  /** `r` is the QM residue made for an atom of element `e`. */
  predicate QMFor(r: Residue, e: Element)
    reads r
  {
    e.Element? && r.name == "QM" && r.id == 0 && r.elements == [e]
  }

  /** The number of atoms of each residue. */
  function Sizes(rs: seq<Residue>): (s: seq<nat>)
    reads rs
    ensures |s| == |rs| && forall j :: 0 <= j < |rs| ==> s[j] == rs[j].NAtoms()
  {
    seq(|rs|, j reads rs requires 0 <= j < |rs| => rs[j].NAtoms())
  }

  /** The loop of `setup_residues` over the residues found, proved against Numbers and AtomRanges. */
  method NumberResidues(sizes: seq<nat>) returns (numbers: seq<int>, ranges: seq<seq<int>>)
    ensures numbers == Numbers(sizes) && ranges == AtomRanges(sizes)
  {
    numbers, ranges := [], [];
    var counter := 0;
    for i := 0 to |sizes|
      invariant numbers == Numbers(sizes[..i]) && ranges == AtomRanges(sizes[..i]) && counter == Sum(sizes[..i])
    {
      assert sizes[..i + 1][..i] == sizes[..i];
      numbers := numbers + Repeat(i, sizes[i]);
      ranges := ranges + [Range(counter, counter + sizes[i])];
      counter := counter + sizes[i];
    }
    assert sizes[..|sizes|] == sizes;
  }

  /** The residue objects found correspond one to one to the slots. */
  predicate Matching(found: seq<Residue>, slots: seq<Slot>, refs: seq<Residue>)
    reads found
  {
    && |found| == |slots|
    && (forall j :: 0 <= j < |slots| && slots[j].RefSlot? ==> slots[j].index < |refs| && found[j] == refs[slots[j].index])
    && (forall j :: 0 <= j < |slots| && slots[j].QMSlot? ==> QMFor(found[j], slots[j].element))
  }

  lemma MatchingSnoc(found: seq<Residue>, slots: seq<Slot>, refs: seq<Residue>, r: Residue, s: Slot)
    requires Matching(found, slots, refs)
    requires s.RefSlot? ==> s.index < |refs| && r == refs[s.index]
    requires s.QMSlot? ==> QMFor(r, s.element)
    ensures Matching(found + [r], slots + [s], refs)
  {
    var f, t := found + [r], slots + [s];
    forall j | 0 <= j < |t| && t[j].QMSlot? ensures QMFor(f[j], t[j].element) {
      if j < |slots| { assert f[j] == found[j] && t[j] == slots[j]; }
    }
  }

  /** The residues found hold as many atoms as their slots stand for. */
  lemma {:induction false} SizesMatchSlots(found: seq<Residue>, slots: seq<Slot>, objects: seq<Residue>)
    requires Matching(found, slots, objects)
    ensures Sum(Sizes(found)) == |Expand(slots, Infos(objects))|
  {
    if slots != [] {
      var n := |slots| - 1;
      var f, t := found[..n], slots[..n];
      assert Matching(f, t, objects) by {
        assert forall j :: 0 <= j < n ==> f[j] == found[j] && t[j] == slots[j];
      }
      SizesMatchSlots(f, t, objects);
      assert Sizes(found)[..n] == Sizes(f);
      assert Sizes(found)[n] == SlotSize(slots[n], Infos(objects));
    }
  }

  /**
   * After a successful setup with the residue check on, the atom ranges
   * of the residues found cover the atoms 0, 1, ..., n-1 in order, and
   * every atom gets a residue number.
   */
  lemma AtomRangesCover(ids: seq<int>, atoms: seq<Atom>, objects: seq<Residue>, found: seq<Residue>)
    requires |atoms| == |ids| && objects != []
    requires Setup(ids, atoms, Infos(objects), true).Ok?
    requires Matching(found, Setup(ids, atoms, Infos(objects), true).value.0, objects)
    ensures Concat(AtomRanges(Sizes(found))) == Range(0, |ids|)
    ensures |Numbers(Sizes(found))| == |ids|
  {
    var spec := Setup(ids, atoms, Infos(objects), true);
    SetupPartitions(ids, atoms, Infos(objects));
    SizesMatchSlots(found, spec.value.0, objects);
    RangesPartition(Sizes(found));
  }

  /** One turn of the while loop of `_setup_residues`, proved against StepAt. */
  method WalkStep(ids: seq<int>, atoms: seq<Atom>, refs: seq<RefInfo>, c: nat) returns (r: Result<(Slot, seq<Atom>, nat)>)
    requires |atoms| == |ids| && c < |ids|
    ensures r == StepAt(ids, atoms, refs, c)
  {
    if ids[c] == 0 {
      if SameElement(atoms[c].element, NoElement) {
        return Err("ResidueError");
      }
      return Ok((QMSlot(atoms[c].element), atoms, c + 1));
    }
    var k := FindResidueById(ids[c], refs);
    if k.Err? {
      return Err(k.error);
    }
    var fixed := CheckSpan(ids, atoms, c, refs[k.value].elements);
    if fixed.Err? {
      return Err(fixed.error);
    }
    if |refs[k.value].elements| == 0 {
      return Err("ResidueError");
    }
    return Ok((RefSlot(k.value), fixed.value, c + |refs[k.value].elements|));
  }

  /** The inner for loop of `_setup_residues`, proved against SpanFrom. */
  method CheckSpan(ids: seq<int>, atoms: seq<Atom>, c: nat, es: seq<Element>) returns (r: Result<seq<Atom>>)
    requires |atoms| == |ids| && c < |ids|
    ensures r == SpanFrom(ids, atoms, c, es, 0)
  {
    var current := atoms;
    for j := 0 to |es|
      invariant |current| == |atoms| && c + j <= |ids|
      invariant SpanFrom(ids, current, c, es, j) == SpanFrom(ids, atoms, c, es, 0)
    {
      var i := c + j;
      if i >= |current| {
        return Err("IndexError");
      }
      if !SameElement(current[i].element, NoElement) && !SameElement(current[i].element, es[j]) {
        current := current[i := current[i].(element := es[j])];
      }
      if ids[i] != ids[c] {
        return Err("ResidueError");
      }
    }
    return Ok(current);
  }

  /**
   * `Topology.__init__`: missing or empty residue ids become zeros, one
   * per atom; a different number of ids is a TopologyError; then the
   * residues are set up.
   */
  method NewTopology(atoms: Option<seq<Atom>>, ids: Option<seq<int>>, refs: Option<seq<Residue>>, check: bool)
    returns (r: Result<Topology>)
    ensures var xs := if atoms.Some? then atoms.value else [];
            var given := if ids.Some? && |ids.value| > 0 then ids.value else Repeat(0, |xs|);
            var objects := if refs.Some? then refs.value else [];
            && (|given| != |xs| ==> r == Err("TopologyError"))
            && (|given| == |xs| ==>
                  var spec := Setup(given, xs, old(Infos(objects)), check);
                  && (r.Ok? <==> spec.Ok?) && (r.Err? ==> r.error == spec.error)
                  && (r.Ok? ==> && fresh(r.value) && r.value.residueIds == given
                                && r.value.atoms == spec.value.1
                                && Matching(r.value.residues, spec.value.0, objects)))
  {
    var t := new Topology(atoms, refs, check);
    var given := if ids.Some? && |ids.value| > 0 then ids.value else Repeat(0, |t.atoms|);
    if |t.atoms| != |given| {
      return Err("TopologyError");
    }
    var status := t.SetupResidues(given);
    if status.Err? {
      return Err(status.error);
    }
    return Ok(t);
  }
}
