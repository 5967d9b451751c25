/**
 * The topology-file writer (PQAnalysis/io/topology_file/topology_file_writer.py):
 * each kind of bonded interaction is written as a block of a header line
 * with index counts, one line per interaction and a closing END line, and
 * the blocks are written in the topology's own order or in the default one.
 *
 * The file is modelled as the list of lines written to it. Floating-point
 * formatting of shake distances (`{:16.12f}`) is a parameter.
 */
module TopologyWriter {

  import opened Common
  import opened Bonded
  import TopologyReader

  // ---------------------------------------------------------------------
  // Formatting

  function Spaces(n: nat): (s: string)
    ensures |s| == n && AllSpace(s)
  {
    seq(n, _ => ' ')
  }

  /** `f"{s:>w}"`: right-aligned in a field of `w` characters, never cut. */
  function PadLeft(s: string, w: nat): (r: string)
    ensures |r| == if |s| >= w then |s| else w
    ensures s <= r[|r| - |s|..] && AllSpace(r[..|r| - |s|])
  {
    var pad := Spaces(if |s| >= w then 0 else w - |s|);
    assert (pad + s)[..|pad|] == pad;
    assert (pad + s)[|pad|..] == s;
    pad + s
  }

  /** `f"{i:>5d}"`. */
  function Int5(i: int): string
  {
    PadLeft(IntToString(i), 5)
  }

  /** `f"{n}"` for a count. */
  function Count(n: nat): string { NatToString(n) }

  // ---------------------------------------------------------------------
  // Type checks

  /** `_check_type_given` on bonds: a bond without a type is a TopologyFileError. */
  function CheckBondTypes(bs: seq<Bond>): (r: Result<()>)
    ensures r.Ok? <==> forall k :: 0 <= k < |bs| ==> bs[k].bondType.Some?
    ensures r.Err? ==> r.error == "TopologyFileError"
  {
    if exists k :: 0 <= k < |bs| && bs[k].bondType.None? then Err("TopologyFileError") else Ok(())
  }

  /** `_check_type_given` on angles. */
  function CheckAngleTypes(angles: seq<Angle>): (r: Result<()>)
    ensures r.Ok? <==> forall k :: 0 <= k < |angles| ==> angles[k].angleType.Some?
    ensures r.Err? ==> r.error == "TopologyFileError"
  {
    if exists k :: 0 <= k < |angles| && angles[k].angleType.None? then Err("TopologyFileError") else Ok(())
  }

  /** `_check_type_given` on dihedrals or impropers. */
  function CheckDihedralTypes(ds: seq<Dihedral>): (r: Result<()>)
    ensures r.Ok? <==> forall k :: 0 <= k < |ds| ==> ds[k].dihedralType.Some?
    ensures r.Err? ==> r.error == "TopologyFileError"
  {
    if exists k :: 0 <= k < |ds| && ds[k].dihedralType.None? then Err("TopologyFileError") else Ok(())
  }

  // ---------------------------------------------------------------------
  // Lines

  /** " *" for a linker, then " # comment" for a commented item, in that order. */
  function Suffix(isLinker: bool, comment: Option<string>): string
  {
    (if isLinker then " *" else "") + (if comment.Some? then " # " + comment.value else "")
  }

  function BondLine(b: Bond): string
    requires b.bondType.Some?
  {
    Int5(b.index1) + " " + Int5(b.index2) + " " + Int5(b.bondType.value) + Suffix(b.isLinker, b.comment)
  }

  function AngleLine(a: Angle): string
    requires a.angleType.Some?
  {
    Int5(a.index1) + " " + Int5(a.index2) + " " + Int5(a.index3) + " " + Int5(a.angleType.value) + Suffix(a.isLinker, a.comment)
  }

  function DihedralLine(d: Dihedral): string
    requires d.dihedralType.Some?
  {
    Int5(d.index1) + " " + Int5(d.index2) + " " + Int5(d.index3) + " " + Int5(d.index4) + " "
      + Int5(d.dihedralType.value) + Suffix(d.isLinker, d.comment)
  }

  /** A shake line: the distance, a tab, then "*" for a linker or nothing. */
  function ShakeLine(b: Bond, fmt: real -> string): string
    requires b.equilibriumDistance.Some?
  {
    Int5(b.index1) + " " + Int5(b.index2) + " " + fmt(b.equilibriumDistance.value) + "\t"
      + (if b.isLinker then "*" else "") + (if b.comment.Some? then " # " + b.comment.value else "")
  }

  function BondHeader(t: BondedTopology): string
    reads t
  {
    "BONDS " + Count(|t.UniqueBond1Indices()|) + " " + Count(|t.UniqueBond2Indices()|) + " " + Count(|t.BondLinkers()|)
  }

  function AngleHeader(t: BondedTopology): string
    reads t
  {
    "ANGLES " + Count(|t.UniqueAngle1Indices()|) + " " + Count(|t.UniqueAngle2Indices()|) + " "
      + Count(|t.UniqueAngle3Indices()|) + " " + Count(|t.AngleLinkers()|)
  }

  /** The dihedral header carries four index counts and no linker count. */
  function DihedralHeader(t: BondedTopology): string
    reads t
  {
    "DIHEDRALS " + Count(|t.UniqueDihedral1Indices()|) + " " + Count(|t.UniqueDihedral2Indices()|) + " "
      + Count(|t.UniqueDihedral3Indices()|) + " " + Count(|t.UniqueDihedral4Indices()|)
  }

  function ImproperHeader(t: BondedTopology): string
    reads t
  {
    "IMPROPERS " + Count(|t.UniqueImproper1Indices()|) + " " + Count(|t.UniqueImproper2Indices()|) + " "
      + Count(|t.UniqueImproper3Indices()|) + " " + Count(|t.UniqueImproper4Indices()|)
  }

  function ShakeHeader(t: BondedTopology): string
    reads t
  {
    "SHAKE " + Count(|t.UniqueShakeIndices()|) + " " + Count(|t.UniqueShakeTargetIndices()|) + " " + Count(|t.ShakeLinkers()|)
  }

  // ---------------------------------------------------------------------
  // Blocks

  /** A block as the writer lays it out: the header, one line per item in order, "END". */
  function BlockText<T>(header: string, items: seq<T>, line: T --> string): (lines: seq<string>)
    requires forall k :: 0 <= k < |items| ==> line.requires(items[k])
    ensures |lines| == |items| + 2 && lines[0] == header && lines[|lines| - 1] == "END"
    ensures forall k :: 0 <= k < |items| ==> lines[k + 1] == line(items[k])
  {
    [header] + seq(|items|, k requires 0 <= k < |items| => line(items[k])) + ["END"]
  }

  /** The loop shared by the `_get_*_lines` methods: the header, then the items' lines, then "END". */
  method CollectLines<T>(header: string, items: seq<T>, line: T --> string) returns (lines: seq<string>)
    requires forall k :: 0 <= k < |items| ==> line.requires(items[k])
    ensures lines == BlockText(header, items, line)
  {
    lines := [header];
    for k := 0 to |items|
      invariant |lines| == k + 1 && lines[0] == header
      invariant forall j :: 0 <= j < k ==> lines[j + 1] == line(items[j])
    {
      lines := lines + [line(items[k])];
    }
    lines := lines + ["END"];
    assert lines == BlockText(header, items, line);
  }

  /** `_get_bond_lines`; every bond needs a type, which the bond block's writer checks first. */
  method BondLines(t: BondedTopology) returns (lines: seq<string>)
    requires forall k :: 0 <= k < |t.bonds| ==> t.bonds[k].bondType.Some?
    ensures lines == BlockText(BondHeader(t), t.bonds, BondLine)
  {
    lines := CollectLines(BondHeader(t), t.bonds, BondLine);
  }

  /** `_get_angle_lines`. */
  method AngleLines(t: BondedTopology) returns (lines: seq<string>)
    requires forall k :: 0 <= k < |t.angles| ==> t.angles[k].angleType.Some?
    ensures lines == BlockText(AngleHeader(t), t.angles, AngleLine)
  {
    lines := CollectLines(AngleHeader(t), t.angles, AngleLine);
  }

  /** `_get_dihedral_lines`. */
  method DihedralLines(t: BondedTopology) returns (lines: seq<string>)
    requires forall k :: 0 <= k < |t.dihedrals| ==> t.dihedrals[k].dihedralType.Some?
    ensures lines == BlockText(DihedralHeader(t), t.dihedrals, DihedralLine)
  {
    lines := CollectLines(DihedralHeader(t), t.dihedrals, DihedralLine);
  }

  /** `_get_improper_lines`: the dihedral line layout under the IMPROPERS header. */
  method ImproperLines(t: BondedTopology) returns (lines: seq<string>)
    requires forall k :: 0 <= k < |t.impropers| ==> t.impropers[k].dihedralType.Some?
    ensures lines == BlockText(ImproperHeader(t), t.impropers, DihedralLine)
  {
    lines := CollectLines(ImproperHeader(t), t.impropers, DihedralLine);
  }

  predicate HasDistance(b: Bond) { b.equilibriumDistance.Some? }

  /**
   * `_get_shake_lines`. A shake bond without a distance cannot be
   * formatted: Python's TypeError, raised before the lines are returned.
   */
  method ShakeLines(t: BondedTopology, fmt: real -> string) returns (r: Result<seq<string>>)
    ensures r.Err? <==> exists k :: 0 <= k < |t.shakeBonds| && !HasDistance(t.shakeBonds[k])
    ensures r.Err? ==> r.error == "TypeError"
    ensures r.Ok? ==> r.value == BlockText(ShakeHeader(t), t.shakeBonds, b requires HasDistance(b) => ShakeLine(b, fmt))
  {
    if exists k :: 0 <= k < |t.shakeBonds| && !HasDistance(t.shakeBonds[k]) {
      return Err("TypeError");
    }
    var lines := CollectLines(ShakeHeader(t), t.shakeBonds, b requires HasDistance(b) => ShakeLine(b, fmt));
    return Ok(lines);
  }

  // ---------------------------------------------------------------------
  // Writing

  /** The block order used when the topology has none of its own. */
  const DefaultOrder: seq<string> := ["bonds", "angles", "dihedrals", "impropers", "shake"]

  /** `write`: the topology's ordering keys if set, otherwise the default order. */
  function WriteOrder(t: BondedTopology): (keys: seq<string>)
    reads t
    ensures t.orderingKeys.Some? ==> keys == t.orderingKeys.value
    ensures t.orderingKeys.None? ==> keys == DefaultOrder
  {
    if t.orderingKeys.Some? then t.orderingKeys.value else DefaultOrder
  }

  /** `_write_bond_info`: the type check, then the block unless there are no bonds. */
  function BondOutput(t: BondedTopology): (r: Result<seq<string>>)
    reads t
  {
    if CheckBondTypes(t.bonds).Err? then Err("TopologyFileError")
    else if t.bonds == [] then Ok([])
    else Ok(BlockText(BondHeader(t), t.bonds, BondLine))
  }

  /** `_write_angle_info`. */
  function AngleOutput(t: BondedTopology): (r: Result<seq<string>>)
    reads t
  {
    if CheckAngleTypes(t.angles).Err? then Err("TopologyFileError")
    else if t.angles == [] then Ok([])
    else Ok(BlockText(AngleHeader(t), t.angles, AngleLine))
  }

  /** `_write_dihedral_info`. */
  function DihedralOutput(t: BondedTopology): (r: Result<seq<string>>)
    reads t
  {
    if CheckDihedralTypes(t.dihedrals).Err? then Err("TopologyFileError")
    else if t.dihedrals == [] then Ok([])
    else Ok(BlockText(DihedralHeader(t), t.dihedrals, DihedralLine))
  }

  /** `_write_improper_info`. */
  function ImproperOutput(t: BondedTopology): (r: Result<seq<string>>)
    reads t
  {
    if CheckDihedralTypes(t.impropers).Err? then Err("TopologyFileError")
    else if t.impropers == [] then Ok([])
    else Ok(BlockText(ImproperHeader(t), t.impropers, DihedralLine))
  }

  /** `_write_shake_info`: no type check, but every distance must be given. */
  function ShakeOutput(t: BondedTopology, fmt: real -> string): (r: Result<seq<string>>)
    reads t
  {
    if t.shakeBonds == [] then Ok([])
    else if exists k :: 0 <= k < |t.shakeBonds| && !HasDistance(t.shakeBonds[k]) then Err("TypeError")
    else Ok(BlockText(ShakeHeader(t), t.shakeBonds, b requires HasDistance(b) => ShakeLine(b, fmt)))
  }

  /** The lines the block named `key` adds to the file; an unknown key is a KeyError. */
  function BlockOutput(t: BondedTopology, key: string, fmt: real -> string): Result<seq<string>>
    reads t
  {
    if key == "bonds" then BondOutput(t)
    else if key == "angles" then AngleOutput(t)
    else if key == "dihedrals" then DihedralOutput(t)
    else if key == "impropers" then ImproperOutput(t)
    else if key == "shake" then ShakeOutput(t, fmt)
    else Err("KeyError")
  }

  /**
   * `_write_bond_info` and its siblings: the type check, then the block if
   * the list is not empty; an unknown key is a KeyError.
   */
  method WriteBlock(t: BondedTopology, key: string, fmt: real -> string) returns (r: Result<seq<string>>)
    ensures r == BlockOutput(t, key, fmt)
  {
    var lines;
    if key == "bonds" {
      if CheckBondTypes(t.bonds).Err? { return Err("TopologyFileError"); }
      if t.bonds == [] { return Ok([]); }
      lines := BondLines(t);
    } else if key == "angles" {
      if CheckAngleTypes(t.angles).Err? { return Err("TopologyFileError"); }
      if t.angles == [] { return Ok([]); }
      lines := AngleLines(t);
    } else if key == "dihedrals" {
      if CheckDihedralTypes(t.dihedrals).Err? { return Err("TopologyFileError"); }
      if t.dihedrals == [] { return Ok([]); }
      lines := DihedralLines(t);
    } else if key == "impropers" {
      if CheckDihedralTypes(t.impropers).Err? { return Err("TopologyFileError"); }
      if t.impropers == [] { return Ok([]); }
      lines := ImproperLines(t);
    } else if key == "shake" {
      if t.shakeBonds == [] { return Ok([]); }
      r := ShakeLines(t, fmt);
      return r;
    } else {
      return Err("KeyError");
    }
    return Ok(lines);
  }

  /** The lines the blocks write in turn, and the first failure if any. */
  function Output(t: BondedTopology, keys: seq<string>, fmt: real -> string): (seq<string>, Result<()>)
    reads t
  {
    if keys == [] then ([], Ok(()))
    else
      var (before, status) := Output(t, keys[..|keys| - 1], fmt);
      if status.Err? then (before, status)
      else match BlockOutput(t, keys[|keys| - 1], fmt)
        case Err(e) => (before, Err(e))
        case Ok(lines) => (before + lines, Ok(()))
  }

  /**
   * `write`: the blocks in the topology's order or the default one; a block
   * that fails stops the writing, and the lines of earlier blocks stay
   * written.
   */
  method Write(t: BondedTopology, fmt: real -> string) returns (written: seq<string>, r: Result<()>)
    ensures (written, r) == Output(t, WriteOrder(t), fmt)
  {
    var keys := WriteOrder(t);
    written := [];
    for i := 0 to |keys|
      invariant Output(t, keys[..i], fmt) == (written, Ok(()))
    {
      assert keys[..i + 1][..i] == keys[..i];
      var lines := WriteBlock(t, keys[i], fmt);
      if lines.Err? {
        OutputErrorStays(t, keys, i + 1, fmt);
        return written, Err(lines.error);
      }
      written := written + lines.value;
    }
    assert keys[..|keys|] == keys;
    return written, Ok(());
  }

  lemma {:induction false} OutputErrorStays(t: BondedTopology, keys: seq<string>, i: nat, fmt: real -> string)
    requires i <= |keys|
    requires Output(t, keys[..i], fmt).1.Err?
    ensures Output(t, keys, fmt) == Output(t, keys[..i], fmt)
    decreases |keys| - i
  {
    if i < |keys| {
      assert keys[..i + 1][..i] == keys[..i];
      OutputErrorStays(t, keys, i + 1, fmt);
    } else {
      assert keys[..i] == keys;
    }
  }

  // ---------------------------------------------------------------------
  // Properties

  /** A bond block that is written has one line per bond plus the header and END. */
  lemma BondBlockShape(t: BondedTopology, fmt: real -> string)
    ensures var out := BlockOutput(t, "bonds", fmt);
            out.Ok? && t.bonds != [] ==> |out.value| == |t.bonds| + 2 && out.value[0] == BondHeader(t) && out.value[|out.value| - 1] == "END"
  {
  }

  /** An angle block that is written has one line per angle plus the header and END. */
  lemma AngleBlockShape(t: BondedTopology, fmt: real -> string)
    ensures var out := BlockOutput(t, "angles", fmt);
            out.Ok? && t.angles != [] ==> |out.value| == |t.angles| + 2 && out.value[0] == AngleHeader(t) && out.value[|out.value| - 1] == "END"
  {
  }

  /** The bond block is written exactly when every bond has a type. */
  lemma BondBlockWritten(t: BondedTopology, fmt: real -> string)
    ensures BlockOutput(t, "bonds", fmt).Ok? <==> forall k :: 0 <= k < |t.bonds| ==> t.bonds[k].bondType.Some?
  {
  }

  /** The shake block fails exactly when some shake bond has no distance. */
  lemma ShakeBlockFails(t: BondedTopology, fmt: real -> string)
    ensures BlockOutput(t, "shake", fmt).Err? <==> exists k :: 0 <= k < |t.shakeBonds| && t.shakeBonds[k].equilibriumDistance.None?
  {
  }

  /** A block name the writer does not know is a KeyError. */
  lemma UnknownBlock(t: BondedTopology, fmt: real -> string)
    ensures BlockOutput(t, "charges", fmt) == Err("KeyError")
  {
  }

  /** A padded token followed by a blank (or nothing) splits off as that token. */
  lemma WordsOfPadded(tok: string, w: nat, rest: string)
    requires IsToken(tok)
    requires rest == [] || IsSpace(rest[0])
    ensures Words(PadLeft(tok, w) + rest) == [tok] + Words(rest)
  {
    var pad := Spaces(if |tok| >= w then 0 else w - |tok|);
    assert PadLeft(tok, w) + rest == pad + (tok + rest);
    WordsSkipSpace(pad, tok + rest);
    WordsOfTokenThen(tok, rest);
  }

  /** A leading blank does not change the words. */
  lemma WordsAfterBlank(r: string)
    ensures Words(" " + r) == Words(r)
  {
    WordsSkipSpace(" ", r);
  }

  /** The linker mark is the one word of an uncommented suffix. */
  lemma WordsOfSuffix(isLinker: bool)
    ensures Words(Suffix(isLinker, None)) == if isLinker then ["*"] else []
  {
    if isLinker {
      assert Suffix(isLinker, None) == " " + "*";
      WordsAfterBlank("*");
      WordsOfToken("*");
    } else {
      assert Suffix(isLinker, None) == "";
    }
  }

  /** A padded token, a blank and more columns: the token, then the columns' words. */
  lemma WordsOfColumn(tok: string, rest: string)
    requires IsToken(tok)
    ensures Words(Int5Token(tok) + " " + rest) == [tok] + Words(rest)
  {
    assert Int5Token(tok) + " " + rest == PadLeft(tok, 5) + (" " + rest);
    WordsOfPadded(tok, 5, " " + rest);
    WordsAfterBlank(rest);
  }

  function Int5Token(tok: string): string { PadLeft(tok, 5) }

  /** A bond line as its three padded columns followed by the suffix. */
  lemma BondLineColumns(b: Bond)
    requires b.bondType.Some?
    ensures BondLine(b) == Int5Token(IntToString(b.index1)) + " "
                           + (Int5Token(IntToString(b.index2)) + " " + (Int5Token(IntToString(b.bondType.value)) + Suffix(b.isLinker, b.comment)))
  {
  }

  /** The columns of an uncommented bond line. */
  lemma BondLineWords(b: Bond)
    requires b.bondType.Some? && b.comment.None?
    ensures Words(BondLine(b)) == [IntToString(b.index1), IntToString(b.index2), IntToString(b.bondType.value)]
                                  + (if b.isLinker then ["*"] else [])
  {
    var t1, t2, t3 := IntToString(b.index1), IntToString(b.index2), IntToString(b.bondType.value);
    var tail := Suffix(b.isLinker, None);
    var r3 := Int5Token(t3) + tail;
    var r2 := Int5Token(t2) + " " + r3;
    BondLineColumns(b);
    WordsOfSuffix(b.isLinker);
    WordsOfPadded(t3, 5, tail);
    WordsOfColumn(t2, r3);
    WordsOfColumn(t1, r2);
  }

  /**
   * A written bond line reads back as the bond it came from: indices, type
   * and linker flag survive. (A comment is dropped by the reader.)
   */
  lemma BondLineRoundTrip(b: Bond)
    requires b.bondType.Some? && b.comment.None? && b.equilibriumDistance.None? && !b.isShake
    ensures TopologyReader.BondOfLine(BondLine(b)) == Ok(b)
  {
    BondLineWords(b);
    ParseIntToString(b.index1);
    ParseIntToString(b.index2);
    ParseIntToString(b.bondType.value);
  }

  /** Moving the break after a column and its blank to the right. */
  lemma Regroup(p: string, c: string, r: string)
    ensures p + c + " " + r == p + (c + " " + r)
  {
    Associative(p + c, " ", r);
    Associative(p, c, " " + r);
    Associative(c, " ", r);
  }

  /** An angle line as its four padded columns followed by the suffix. */
  lemma AngleLineColumns(a: Angle)
    requires a.angleType.Some?
    ensures AngleLine(a) == Int5Token(IntToString(a.index1)) + " "
                            + (Int5Token(IntToString(a.index2)) + " "
                            + (Int5Token(IntToString(a.index3)) + " "
                            + (Int5Token(IntToString(a.angleType.value)) + Suffix(a.isLinker, a.comment))))
  {
    var c1, c2, c3 := Int5Token(IntToString(a.index1)), Int5Token(IntToString(a.index2)), Int5Token(IntToString(a.index3));
    var c4, tail := Int5Token(IntToString(a.angleType.value)), Suffix(a.isLinker, a.comment);
    var q := c1 + " ";
    var r4 := c4 + tail;
    var r3 := c3 + " " + r4;
    assert AngleLine(a) == q + c2 + " " + c3 + " " + c4 + tail;
    Associative(q + c2 + " " + c3 + " ", c4, tail);
    Regroup(q + c2 + " ", c3, r4);
    Regroup(q, c2, r3);
  }

  /** The columns of an uncommented angle line. */
  lemma AngleLineWords(a: Angle)
    requires a.angleType.Some? && a.comment.None?
    ensures Words(AngleLine(a)) == [IntToString(a.index1), IntToString(a.index2), IntToString(a.index3), IntToString(a.angleType.value)]
                                   + (if a.isLinker then ["*"] else [])
  {
    var t1, t2, t3, t4 := IntToString(a.index1), IntToString(a.index2), IntToString(a.index3), IntToString(a.angleType.value);
    var tail := Suffix(a.isLinker, None);
    var r4 := Int5Token(t4) + tail;
    var r3 := Int5Token(t3) + " " + r4;
    var r2 := Int5Token(t2) + " " + r3;
    AngleLineColumns(a);
    WordsOfSuffix(a.isLinker);
    WordsOfPadded(t4, 5, tail);
    WordsOfColumn(t3, r4);
    WordsOfColumn(t2, r3);
    WordsOfColumn(t1, r2);
  }

  /**
   * A written angle line reads back as the angle it came from: indices,
   * type and linker flag survive. (A comment is dropped by the reader.)
   */
  lemma AngleLineRoundTrip(a: Angle)
    requires a.angleType.Some? && a.comment.None?
    ensures TopologyReader.AngleOfLine(AngleLine(a)) == Ok(a)
  {
    AngleLineWords(a);
    ParseIntToString(a.index1);
    ParseIntToString(a.index2);
    ParseIntToString(a.index3);
    ParseIntToString(a.angleType.value);
  }

  /** A dihedral line as its five padded columns followed by the suffix. */
  lemma DihedralLineColumns(d: Dihedral)
    requires d.dihedralType.Some?
    ensures DihedralLine(d) == Int5Token(IntToString(d.index1)) + " "
                               + (Int5Token(IntToString(d.index2)) + " "
                               + (Int5Token(IntToString(d.index3)) + " "
                               + (Int5Token(IntToString(d.index4)) + " "
                               + (Int5Token(IntToString(d.dihedralType.value)) + Suffix(d.isLinker, d.comment)))))
  {
    var c1, c2, c3 := Int5Token(IntToString(d.index1)), Int5Token(IntToString(d.index2)), Int5Token(IntToString(d.index3));
    var c4, c5 := Int5Token(IntToString(d.index4)), Int5Token(IntToString(d.dihedralType.value));
    var tail := Suffix(d.isLinker, d.comment);
    var q := c1 + " ";
    var r5 := c5 + tail;
    var r4 := c4 + " " + r5;
    var r3 := c3 + " " + r4;
    assert DihedralLine(d) == q + c2 + " " + c3 + " " + c4 + " " + c5 + tail;
    Associative(q + c2 + " " + c3 + " " + c4 + " ", c5, tail);
    Regroup(q + c2 + " " + c3 + " ", c4, r5);
    Regroup(q + c2 + " ", c3, r4);
    Regroup(q, c2, r3);
  }

  /** The columns of an uncommented dihedral or improper line. */
  lemma DihedralLineWords(d: Dihedral)
    requires d.dihedralType.Some? && d.comment.None?
    ensures Words(DihedralLine(d)) == [IntToString(d.index1), IntToString(d.index2), IntToString(d.index3),
                                       IntToString(d.index4), IntToString(d.dihedralType.value)]
                                      + (if d.isLinker then ["*"] else [])
  {
    var t1, t2, t3 := IntToString(d.index1), IntToString(d.index2), IntToString(d.index3);
    var t4, t5 := IntToString(d.index4), IntToString(d.dihedralType.value);
    var tail := Suffix(d.isLinker, None);
    var r5 := Int5Token(t5) + tail;
    var r4 := Int5Token(t4) + " " + r5;
    var r3 := Int5Token(t3) + " " + r4;
    var r2 := Int5Token(t2) + " " + r3;
    DihedralLineColumns(d);
    WordsOfSuffix(d.isLinker);
    WordsOfPadded(t5, 5, tail);
    WordsOfColumn(t4, r5);
    WordsOfColumn(t3, r4);
    WordsOfColumn(t2, r3);
    WordsOfColumn(t1, r2);
  }

  /**
   * A written dihedral line reads back as the dihedral it came from, and a
   * written improper line, in the same layout, as the improper: indices,
   * type, linker flag and the improper flag of the block survive.
   */
  lemma DihedralLineRoundTrip(d: Dihedral)
    requires d.dihedralType.Some? && d.comment.None?
    ensures TopologyReader.DihedralOfLine(DihedralLine(d), d.isImproper) == Ok(d)
  {
    DihedralLineWords(d);
    ParseIntToString(d.index1);
    ParseIntToString(d.index2);
    ParseIntToString(d.index3);
    ParseIntToString(d.index4);
    ParseIntToString(d.dihedralType.value);
  }

  /** An uncommented shake line as its two padded columns, the distance and the tab with the linker mark. */
  lemma ShakeLineColumns(b: Bond, fmt: real -> string)
    requires b.equilibriumDistance.Some? && b.comment.None?
    ensures ShakeLine(b, fmt) == Int5Token(IntToString(b.index1)) + " "
                                 + (Int5Token(IntToString(b.index2)) + " "
                                 + (fmt(b.equilibriumDistance.value) + ("\t" + (if b.isLinker then "*" else ""))))
  {
    var c1, c2, t3 := Int5Token(IntToString(b.index1)), Int5Token(IntToString(b.index2)), fmt(b.equilibriumDistance.value);
    var mark := if b.isLinker then "*" else "";
    var q := c1 + " ";
    var p := q + c2 + " ";
    assert ShakeLine(b, fmt) == p + t3 + "\t" + mark + "";
    assert p + t3 + "\t" + mark + "" == p + t3 + "\t" + mark;
    Associative(p + t3, "\t", mark);
    Associative(p, t3, "\t" + mark);
    Regroup(q, c2, t3 + ("\t" + mark));
  }

  /** The columns of an uncommented shake line whose distance is printed as one token. */
  lemma ShakeLineWords(b: Bond, fmt: real -> string)
    requires b.equilibriumDistance.Some? && b.comment.None? && IsToken(fmt(b.equilibriumDistance.value))
    ensures Words(ShakeLine(b, fmt)) == [IntToString(b.index1), IntToString(b.index2), fmt(b.equilibriumDistance.value)]
                                        + (if b.isLinker then ["*"] else [])
  {
    var t1, t2, t3 := IntToString(b.index1), IntToString(b.index2), fmt(b.equilibriumDistance.value);
    var mark := if b.isLinker then "*" else "";
    var tail := "\t" + mark;
    var r3 := t3 + tail;
    var r2 := Int5Token(t2) + " " + r3;
    ShakeLineColumns(b, fmt);
    assert Words(tail) == Words(mark) by {
      WordsSkipSpace("\t", mark);
    }
    if b.isLinker {
      WordsOfToken("*");
    }
    WordsOfTokenThen(t3, tail);
    WordsOfColumn(t2, r3);
    WordsOfColumn(t1, r2);
  }

  /**
   * A written shake line reads back as the shake bond it came from when the
   * printed distance reads back as the distance: indices, distance and
   * linker flag survive. (A comment is dropped by the reader.)
   */
  lemma ShakeLineRoundTrip(b: Bond, fmt: real -> string)
    requires b.equilibriumDistance.Some? && b.comment.None? && b.bondType.None? && b.isShake
    requires IsToken(fmt(b.equilibriumDistance.value)) && ParseReal(fmt(b.equilibriumDistance.value)) == b.equilibriumDistance
    ensures TopologyReader.ShakeOfLine(ShakeLine(b, fmt)) == Ok(b)
  {
    ShakeLineWords(b, fmt);
    ParseIntToString(b.index1);
    ParseIntToString(b.index2);
  }

  /** Four bonds, two of them linkers, over index1 {1, 2, 5} and index2 {2, 3}. */
  function ExampleBonds(): seq<Bond>
  {
    [Bond(1, 2, None, Some(1), false, false, None),
     Bond(2, 3, None, Some(1), true, false, None),
     Bond(5, 2, None, Some(1), false, false, Some("This is a comment.")),
     Bond(5, 2, None, Some(1), true, false, Some("This is a comment."))]
  }

  lemma ExampleFirstIndices()
    ensures IndexSet(ExampleBonds(), BondFirst) == {1, 2, 5}
  {
    var bs := ExampleBonds();
    ExamplePrefixes();
    assert IndexSet(bs[..1], BondFirst) == {1} by { IndexSetSnoc(bs[..1], BondFirst); }
    assert IndexSet(bs[..2], BondFirst) == {1, 2} by { IndexSetSnoc(bs[..2], BondFirst); }
    assert IndexSet(bs[..3], BondFirst) == {1, 2, 5} by { IndexSetSnoc(bs[..3], BondFirst); }
    IndexSetSnoc(bs, BondFirst);
  }

  lemma ExampleSecondIndices()
    ensures IndexSet(ExampleBonds(), BondSecond) == {2, 3}
  {
    var bs := ExampleBonds();
    ExamplePrefixes();
    assert IndexSet(bs[..1], BondSecond) == {2} by { IndexSetSnoc(bs[..1], BondSecond); }
    assert IndexSet(bs[..2], BondSecond) == {2, 3} by { IndexSetSnoc(bs[..2], BondSecond); }
    assert IndexSet(bs[..3], BondSecond) == {2, 3} by { IndexSetSnoc(bs[..3], BondSecond); }
    IndexSetSnoc(bs, BondSecond);
  }

  /** The prefixes of the example bonds, each one the previous plus a bond. */
  lemma ExamplePrefixes()
    ensures var bs := ExampleBonds();
            && bs[..1][..0] == [] && bs[..2][..1] == bs[..1] && bs[..3][..2] == bs[..2] && bs[..3] == bs[..|bs| - 1]
            && bs[..1][0] == bs[0] && bs[..2][1] == bs[1] && bs[..3][2] == bs[2]
  {
  }

  /** `IndexSet` of a non-empty list: that of all but the last item, plus the last one's. */
  lemma IndexSetSnoc<T>(xs: seq<T>, f: T -> int)
    requires xs != []
    ensures IndexSet(xs, f) == IndexSet(xs[..|xs| - 1], f) + {f(xs[|xs| - 1])}
  {
  }

  lemma ExampleLinkers()
    ensures |Filter(ExampleBonds(), BondIsLinker)| == 2
  {
    var bs := ExampleBonds();
    assert bs == [bs[0]] + [bs[1]] + [bs[2]] + [bs[3]];
    FilterConcat([bs[0]] + [bs[1]] + [bs[2]], [bs[3]], BondIsLinker);
    FilterConcat([bs[0]] + [bs[1]], [bs[2]], BondIsLinker);
    FilterConcat([bs[0]], [bs[1]], BondIsLinker);
    FilterOne(bs[0], BondIsLinker);
    FilterOne(bs[1], BondIsLinker);
    FilterOne(bs[2], BondIsLinker);
    FilterOne(bs[3], BondIsLinker);
  }

  /** The header of the bond block for the four example bonds. */
  lemma BondHeaderExample(t: BondedTopology)
    requires t.bonds == ExampleBonds()
    ensures BondHeader(t) == "BONDS 3 2 2"
  {
    ExampleFirstIndices();
    ExampleSecondIndices();
    ExampleLinkers();
    SmallSets();
    SmallCounts();
    assert |t.UniqueBond1Indices()| == 3;
    assert |t.UniqueBond2Indices()| == 2;
    assert |t.BondLinkers()| == 2;
    assert BondHeader(t) == "BONDS " + "3" + " " + "2" + " " + "2";
    HeaderText();
  }

  lemma HeaderText()
    ensures "BONDS " + "3" + " " + "2" + " " + "2" == "BONDS 3 2 2"
  {
    var s := "BONDS " + "3" + " " + "2" + " " + "2";
    forall k | 0 <= k < 11 ensures s[k] == "BONDS 3 2 2"[k] { }
  }

  lemma SmallSets()
    ensures |{1, 2, 5}| == 3 && |{2, 3}| == 2
  {
    assert {1, 2, 5} == {1, 2} + {5};
    assert |{1, 2}| == 2 by { assert {1, 2} == {1} + {2}; }
    assert {2, 3} == {2} + {3};
  }

  lemma SmallCounts()
    ensures Count(3) == "3" && Count(2) == "2"
  {
  }
}
