/**
 * Residue types (PQAnalysis/core/residue.py): a named, numbered molecule
 * type whose elements, atom types and partial charges are three lists of
 * one common length, kept equal by the length-checked setters; and the QM
 * residue, a one-atom residue named "QM" with id 0.
 *
 * Elements and atoms are values here. Looking an element up by its symbol
 * (the periodic table behind `Element(str)`) is a parameter.
 */
module Residues {

  import opened Common

  /**
   * An element: a symbol with its atomic number and mass, or the empty
   * element `Element()` whose three fields are all None.
   */
  datatype Element = NoElement | Element(symbol: string, atomicNumber: int, mass: real)

  /** `Element.__eq__`: symbol and atomic number, not the mass. */
  predicate SameElement(a: Element, b: Element)
  {
    match (a, b)
    case (NoElement, NoElement) => true
    case (Element(s, n, _), Element(t, m, _)) => s == t && n == m
    case _ => false
  }

  /** An atom: its name and its element. */
  datatype Atom = Atom(name: string, element: Element)

  /** `Atom.__eq__`: names compared case-insensitively, then the elements. */
  predicate SameAtom(a: Atom, b: Atom)
  {
    Lower(a.name) == Lower(b.name) && SameElement(a.element, b.element)
  }

  /** The forms the residue constructor accepts for its elements. */
  datatype ElementsArg =
    | OneElement(e: Element)
    | OneSymbol(s: string)
    | ElementList(es: seq<Element>)
    | SymbolList(ss: seq<string>)

  /** A number or a one-dimensional array of numbers (`np.atleast_1d`). */
  datatype ScalarOrList<T> = Scalar(x: T) | List(xs: seq<T>)

  function AtLeast1D<T>(a: ScalarOrList<T>): (r: seq<T>)
    ensures a.Scalar? ==> r == [a.x]
    ensures a.List? ==> r == a.xs
  {
    match a
    case Scalar(x) => [x]
    case List(xs) => xs
  }

  /** `[Element(s) for s in ss]`: the first unknown symbol stops the list. */
  function LookupAll(ss: seq<string>, lookup: string -> Result<Element>): (r: Result<seq<Element>>)
    ensures r.Ok? <==> forall k :: 0 <= k < |ss| ==> lookup(ss[k]).Ok?
    ensures r.Ok? ==> |r.value| == |ss| && forall k :: 0 <= k < |ss| ==> lookup(ss[k]) == Ok(r.value[k])
  {
    if ss == [] then Ok([])
    else
      match lookup(ss[0])
      case Err(e) => Err(e)
      case Ok(first) =>
        match LookupAll(ss[1..], lookup)
        case Err(e) => Err(e)
        case Ok(rest) =>
          assert forall k :: 1 <= k < |ss| ==> ss[k] == ss[1..][k - 1];
          Ok([first] + rest)
  }

  /**
   * The elements argument as a list: one element or one symbol becomes a
   * one-element list, a list of elements is kept, symbols are looked up.
   */
  function NormaliseElements(arg: ElementsArg, lookup: string -> Result<Element>): (r: Result<seq<Element>>)
    ensures arg.OneElement? ==> r == Ok([arg.e])
    ensures arg.OneSymbol? ==> (r.Ok? <==> lookup(arg.s).Ok?) && (r.Ok? ==> r.value == [lookup(arg.s).value])
    ensures arg.ElementList? ==> r == Ok(arg.es)
    ensures arg.SymbolList? ==> r == LookupAll(arg.ss, lookup)
  {
    match arg
    case OneElement(e) => Ok([e])
    case OneSymbol(s) => (match lookup(s) case Ok(e) => Ok([e]) case Err(m) => Err(m))
    case ElementList(es) => Ok(es)
    case SymbolList(ss) => LookupAll(ss, lookup)
  }

  class Residue {
    var name: string
    var id: int
    var totalCharge: real
    var elements: seq<Element>
    var atomTypes: seq<int>
    var partialCharges: seq<real>

    /** The three per-atom lists have one common length. */
    predicate Valid()
      reads this
    {
      |elements| == |atomTypes| == |partialCharges|
    }

    /** `n_atoms`: the number of elements. */
    function NAtoms(): nat
      reads this
    {
      |elements|
    }

    /**
     * The field assignments of `__init__`, before its length check; see
     * NewResidue for the check.
     */
    constructor (name: string, id: int, totalCharge: real, elements: seq<Element>, atomTypes: seq<int>, partialCharges: seq<real>)
      ensures this.name == name && this.id == id && this.totalCharge == totalCharge
      ensures this.elements == elements && this.atomTypes == atomTypes && this.partialCharges == partialCharges
    {
      this.name := name;
      this.id := id;
      this.totalCharge := totalCharge;
      this.elements := elements;
      this.atomTypes := atomTypes;
      this.partialCharges := partialCharges;
    }

    /** The `elements` setter: a list of another length is a ResidueError and nothing changes. */
    method SetElements(es: seq<Element>) returns (r: Result<()>)
      modifies this
      ensures r.Err? <==> |es| != old(NAtoms())
      ensures r.Err? ==> r.error == "ResidueError" && elements == old(elements)
      ensures r.Ok? ==> elements == es
      ensures name == old(name) && id == old(id) && totalCharge == old(totalCharge)
      ensures atomTypes == old(atomTypes) && partialCharges == old(partialCharges)
      ensures old(Valid()) ==> Valid()
    {
      if |es| != NAtoms() {
        return Err("ResidueError");
      }
      elements := es;
      return Ok(());
    }

    /** The `atom_types` setter. */
    method SetAtomTypes(ts: seq<int>) returns (r: Result<()>)
      modifies this
      ensures r.Err? <==> |ts| != old(NAtoms())
      ensures r.Err? ==> r.error == "ResidueError" && atomTypes == old(atomTypes)
      ensures r.Ok? ==> atomTypes == ts
      ensures name == old(name) && id == old(id) && totalCharge == old(totalCharge)
      ensures elements == old(elements) && partialCharges == old(partialCharges)
      ensures old(Valid()) ==> Valid()
    {
      if |ts| != NAtoms() {
        return Err("ResidueError");
      }
      atomTypes := ts;
      return Ok(());
    }

    /** The `partial_charges` setter. */
    method SetPartialCharges(qs: seq<real>) returns (r: Result<()>)
      modifies this
      ensures r.Err? <==> |qs| != old(NAtoms())
      ensures r.Err? ==> r.error == "ResidueError" && partialCharges == old(partialCharges)
      ensures r.Ok? ==> partialCharges == qs
      ensures name == old(name) && id == old(id) && totalCharge == old(totalCharge)
      ensures elements == old(elements) && atomTypes == old(atomTypes)
      ensures old(Valid()) ==> Valid()
    {
      if |qs| != NAtoms() {
        return Err("ResidueError");
      }
      partialCharges := qs;
      return Ok(());
    }

    /**
     * `__eq__`: names compared case-insensitively, equal ids and elements,
     * and `np.allclose` on the charges and types, with closeness a parameter.
     */
    predicate Equals(other: Residue, close: (real, real) -> bool)
      reads this, other
    {
      && Lower(name) == Lower(other.name)
      && id == other.id
      && close(totalCharge, other.totalCharge)
      && |elements| == |other.elements|
      && (forall k :: 0 <= k < |elements| ==> SameElement(elements[k], other.elements[k]))
      && |atomTypes| == |other.atomTypes|
      && (forall k :: 0 <= k < |atomTypes| ==> close(atomTypes[k] as real, other.atomTypes[k] as real))
      && |partialCharges| == |other.partialCharges|
      && (forall k :: 0 <= k < |partialCharges| ==> close(partialCharges[k], other.partialCharges[k]))
    }
  }

  /**
   * `Residue.__init__`: the elements normalised to a list, the types and
   * charges to arrays, and a ResidueError unless the three lengths agree.
   */
  method NewResidue(name: string, id: int, totalCharge: real, elements: ElementsArg,
                    atomTypes: ScalarOrList<int>, partialCharges: ScalarOrList<real>,
                    lookup: string -> Result<Element>) returns (r: Result<Residue>)
    ensures r.Err? <==> NormaliseElements(elements, lookup).Err?
                        || |NormaliseElements(elements, lookup).value| != |AtLeast1D(atomTypes)|
                        || |AtLeast1D(atomTypes)| != |AtLeast1D(partialCharges)|
    ensures r.Ok? ==> fresh(r.value) && r.value.Valid()
    ensures r.Ok? ==> r.value.name == name && r.value.id == id && r.value.totalCharge == totalCharge
    ensures r.Ok? ==> r.value.elements == NormaliseElements(elements, lookup).value
    ensures r.Ok? ==> r.value.atomTypes == AtLeast1D(atomTypes) && r.value.partialCharges == AtLeast1D(partialCharges)
  {
    var es := NormaliseElements(elements, lookup);
    if es.Err? {
      return Err(es.error);
    }
    var residue := new Residue(name, id, totalCharge, es.value, AtLeast1D(atomTypes), AtLeast1D(partialCharges));
    if !residue.Valid() {
      return Err("ResidueError");
    }
    return Ok(residue);
  }

  /** The argument of the QM residue: an element or a symbol. */
  datatype ElementArg = AnElement(e: Element) | ASymbol(s: string)

  /**
   * The partial charge `QMResidue.__init__` computes as written:
   * `element.atomic_number` on its argument, which a symbol string does not
   * have (Python's AttributeError), although the signature admits one. The
   * empty element has no atomic number either.
   */
  function QMChargeAsWritten(arg: ElementArg): (r: Result<real>)
    ensures arg.AnElement? && arg.e.Element? ==> r == Ok(arg.e.atomicNumber as real)
    ensures arg.ASymbol? ==> r == Err("AttributeError")
  {
    match arg
    case AnElement(Element(_, n, _)) => Ok(n as real)
    case AnElement(NoElement) => Err("TypeError")
    case ASymbol(_) => Err("AttributeError")
  }

  /** A QM residue cannot be built from a symbol as the code stands. */
  lemma QMResidueOfSymbolFails(s: string)
    ensures QMChargeAsWritten(ASymbol(s)).Err?
  {
  }

  /** The argument as an element: a symbol goes through the element table first. */
  function ResolveElement(arg: ElementArg, lookup: string -> Result<Element>): (r: Result<Element>)
    ensures arg.AnElement? ==> r == Ok(arg.e)
    ensures arg.ASymbol? ==> r == lookup(arg.s)
  {
    match arg
    case AnElement(e) => Ok(e)
    case ASymbol(s) => lookup(s)
  }

  /**
   * The QM residue's charge with the symbol resolved first, as the
   * signature intends: a symbol gives the same charge as its element.
   */
  function QMCharge(arg: ElementArg, lookup: string -> Result<Element>): (r: Result<real>)
    ensures ResolveElement(arg, lookup).Ok? && ResolveElement(arg, lookup).value.Element? ==>
              r == Ok(ResolveElement(arg, lookup).value.atomicNumber as real)
    ensures r.Ok? ==> ResolveElement(arg, lookup).Ok? && ResolveElement(arg, lookup).value.Element?
  {
    match ResolveElement(arg, lookup)
    case Err(e) => Err(e)
    case Ok(e) => QMChargeAsWritten(AnElement(e))
  }

  /** Where the code as written works, the corrected charge agrees with it. */
  lemma QMChargeAgrees(arg: ElementArg, lookup: string -> Result<Element>)
    ensures QMChargeAsWritten(arg).Ok? ==> QMCharge(arg, lookup) == QMChargeAsWritten(arg)
    ensures arg.ASymbol? && lookup(arg.s).Ok? ==> QMCharge(arg, lookup) == QMChargeAsWritten(AnElement(lookup(arg.s).value))
  {
  }

  /**
   * `QMResidue.__init__` on an element: name "QM", id 0, no total charge,
   * one atom of type 0 whose partial charge is the atomic number.
   */
  method QMResidueOf(e: Element) returns (r: Residue)
    requires e.Element?
    ensures fresh(r) && r.Valid() && r.NAtoms() == 1
    ensures r.name == "QM" && r.id == 0 && r.totalCharge == 0.0
    ensures r.elements == [e] && r.atomTypes == [0] && r.partialCharges == [e.atomicNumber as real]
  {
    r := new Residue("QM", 0, 0.0, [e], [0], [e.atomicNumber as real]);
  }

  /** `QMResidue.__init__` with a symbol resolved first, as the signature intends. */
  method NewQMResidue(arg: ElementArg, lookup: string -> Result<Element>) returns (r: Result<Residue>)
    ensures r.Err? <==> QMCharge(arg, lookup).Err?
    ensures r.Ok? ==> fresh(r.value) && r.value.Valid() && r.value.NAtoms() == 1
    ensures r.Ok? ==> r.value.name == "QM" && r.value.id == 0 && r.value.totalCharge == 0.0
    ensures r.Ok? ==> r.value.elements == [ResolveElement(arg, lookup).value] && r.value.atomTypes == [0]
    ensures r.Ok? ==> r.value.partialCharges == [QMCharge(arg, lookup).value]
  {
    var charge := QMCharge(arg, lookup);
    if charge.Err? {
      return Err(charge.error);
    }
    var residue := QMResidueOf(ResolveElement(arg, lookup).value);
    return Ok(residue);
  }

  /** Residue equality does not see the case of the names. */
  lemma EqualsIgnoresNameCase(a: Residue, b: Residue, close: (real, real) -> bool)
    requires Lower(a.name) == Lower(b.name) && a.id == b.id && close(a.totalCharge, b.totalCharge)
    requires a.elements == b.elements && a.atomTypes == b.atomTypes && a.partialCharges == b.partialCharges
    requires forall x: real :: close(x, x)
    ensures a.Equals(b, close)
  {
    forall k | 0 <= k < |a.elements| ensures SameElement(a.elements[k], b.elements[k]) {
      match a.elements[k]
      case NoElement =>
      case Element(_, _, _) =>
    }
    forall k | 0 <= k < |a.partialCharges| ensures close(a.partialCharges[k], b.partialCharges[k]) {
      var q := a.partialCharges[k];
      assert b.partialCharges[k] == q;
      assert close(q, q);
    }
    forall k | 0 <= k < |a.atomTypes| ensures close(a.atomTypes[k] as real, b.atomTypes[k] as real) {
      assert close(a.atomTypes[k] as real, a.atomTypes[k] as real);
    }
  }
}
