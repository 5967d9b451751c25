/**
 * The topology-file reader (PQAnalysis/io/topology_file/topology_file_reader.py):
 * the file is cut into blocks, each a keyword line, body lines and a
 * terminating END line; every block body is parsed into bonds, angles,
 * dihedrals, impropers or shake bonds according to its keyword.
 *
 * The file is given as its list of lines.
 */
module TopologyReader {

  import opened Common
  import opened Bonded

  // ---------------------------------------------------------------------
  // Comments, blank lines and blocks

  /** `line.strip()` is empty. */
  predicate IsBlank(line: string) { AllSpace(line) }

  /** Comments are cut from every line and the lines left blank are dropped. */
  function CleanLines(lines: seq<string>): (r: seq<string>)
    ensures |r| <= |lines|
    ensures forall k :: 0 <= k < |r| ==> !IsBlank(r[k]) && '#' !in r[k]
  {
    if lines == [] then []
    else
      var line := BeforeHash(lines[0]);
      (if IsBlank(line) then [] else [line]) + CleanLines(lines[1..])
  }

  /** A line that is not blank holds at least one word. */
  lemma {:induction false} WordsOfNonBlank(s: string)
    requires !IsBlank(s)
    ensures Words(s) != []
    decreases |s|
  {
    if IsSpace(s[0]) {
      assert !IsBlank(s[1..]) by {
        var k :| 0 <= k < |s| && !IsSpace(s[k]);
        assert s[1..][k - 1] == s[k];
      }
      WordsOfNonBlank(s[1..]);
    }
  }

  /**
   * The block terminator test of the reader as written: the lowercased line
   * is compared with the upper-case "END".
   */
  predicate IsEndAsWritten(line: string) { Lower(Strip(line)) == "END" }

  /** The evidently intended terminator test: "END" in any case. */
  predicate IsEnd(line: string) { Lower(Strip(line)) == "end" }

  /** No lowercased string equals "END": the terminator test as written never holds. */
  lemma NoLineEndsAsWritten(line: string)
    ensures !IsEndAsWritten(line)
  {
    var s := Strip(line);
    if |s| == 3 {
      assert Lower(s)[0] == LowerChar(s[0]) != 'E';
    }
  }

  /**
   * The blocks closed by the terminator lines, continuing from a partly
   * filled `block`; lines after the last terminator belong to no block.
   */
  function Split(lines: seq<string>, block: seq<string>, isEnd: string -> bool): seq<seq<string>>
  {
    if lines == [] then []
    else if isEnd(lines[0]) then [block] + Split(lines[1..], [], isEnd)
    else Split(lines[1..], block + [lines[0]], isEnd)
  }

  function CountEnds(lines: seq<string>, isEnd: string -> bool): nat
  {
    if lines == [] then 0 else (if isEnd(lines[0]) then 1 else 0) + CountEnds(lines[1..], isEnd)
  }

  /**
   * There is one block per terminator line, no block holds a terminator, and
   * the blocks together with their terminators use up every line (up to the
   * last terminator).
   */
  lemma {:induction false} SplitShape(lines: seq<string>, block: seq<string>, isEnd: string -> bool)
    requires forall k :: 0 <= k < |block| ==> !isEnd(block[k])
    ensures |Split(lines, block, isEnd)| == CountEnds(lines, isEnd)
    ensures forall b, k :: b in Split(lines, block, isEnd) && 0 <= k < |b| ==> !isEnd(b[k])
    ensures SumLengths(Split(lines, block, isEnd)) + CountEnds(lines, isEnd) <= |block| + |lines|
    ensures forall b, l :: b in Split(lines, block, isEnd) && l in b ==> l in block || l in lines
    decreases |lines|
  {
    if lines != [] {
      if isEnd(lines[0]) {
        SplitShape(lines[1..], [], isEnd);
      } else {
        SplitShape(lines[1..], block + [lines[0]], isEnd);
      }
    }
  }

  function SumLengths(bs: seq<seq<string>>): nat
  {
    if bs == [] then 0 else |bs[0]| + SumLengths(bs[1..])
  }

  /** The blocks, as the reader's loop collects them. */
  method SplitBlocks(lines: seq<string>, isEnd: string -> bool) returns (blocks: seq<seq<string>>)
    ensures blocks == Split(lines, [], isEnd)
  {
    blocks := [];
    var block := [];
    for i := 0 to |lines|
      invariant blocks + Split(lines[i..], block, isEnd) == Split(lines, [], isEnd)
    {
      assert lines[i..][1..] == lines[i + 1..];
      if isEnd(lines[i]) {
        blocks := blocks + [block];
        block := [];
      } else {
        block := block + [lines[i]];
      }
    }
    assert lines[|lines|..] == [];
  }

  /** Definitions: block keywords with their body lines, in the order they were first set. */
  type Definitions = seq<(string, seq<string>)>

  predicate UniqueKeys(defs: Definitions)
  {
    forall i, j :: 0 <= i < j < |defs| ==> defs[i].0 != defs[j].0
  }

  /** `data[key] = value` on an insertion-ordered dictionary: a known key keeps its place. */
  function Assign(defs: Definitions, key: string, value: seq<string>): (r: Definitions)
    requires UniqueKeys(defs)
    ensures UniqueKeys(r)
    ensures |defs| <= |r| <= |defs| + 1
    ensures forall k :: 0 <= k < |defs| ==> r[k].0 == defs[k].0
    ensures forall k :: 0 <= k < |defs| && defs[k].0 != key ==> r[k] == defs[k]
    ensures forall k :: 0 <= k < |r| && r[k].0 == key ==> r[k] == (key, value)
    ensures exists k :: 0 <= k < |r| && r[k] == (key, value)
  {
    if exists k :: 0 <= k < |defs| && defs[k].0 == key then
      var k :| 0 <= k < |defs| && defs[k].0 == key;
      assert defs[k := (key, value)][k] == (key, value);
      defs[k := (key, value)]
    else
      assert (defs + [(key, value)])[|defs|] == (key, value);
      defs + [(key, value)]
  }

  /** The keyword of a block: the lowercased first word of its first line. */
  function BlockKey(block: seq<string>): string
    requires block != [] && Words(block[0]) != []
  {
    Lower(Words(block[0])[0])
  }

  /** A block whose first line has a first word. */
  predicate HasKey(block: seq<string>) { block != [] && Words(block[0]) != [] }

  /**
   * The dictionary made from the blocks in turn: each block's keyword is
   * mapped to its remaining lines, a later block overriding an earlier one
   * with the same keyword; a block without a first word is an IndexError.
   */
  function DefinitionsOf(blocks: seq<seq<string>>): (r: Result<Definitions>)
    ensures r.Ok? ==> UniqueKeys(r.value) && |r.value| <= |blocks|
  {
    if blocks == [] then Ok([])
    else
      var last := blocks[|blocks| - 1];
      match DefinitionsOf(blocks[..|blocks| - 1])
      case Err(e) => Err(e)
      case Ok(defs) =>
        if !HasKey(last) then Err("IndexError")
        else Ok(Assign(defs, BlockKey(last), last[1..]))
  }

  /** The dictionary fails exactly when some block has no keyword. */
  lemma {:induction false} DefinitionsFail(blocks: seq<seq<string>>)
    ensures DefinitionsOf(blocks).Err? <==> exists j :: 0 <= j < |blocks| && !HasKey(blocks[j])
  {
    if blocks != [] {
      var n := |blocks|;
      var init := blocks[..n - 1];
      DefinitionsFail(init);
      if DefinitionsOf(init).Err? {
        var j :| 0 <= j < n - 1 && !HasKey(init[j]);
        assert init[j] == blocks[j];
      } else if HasKey(blocks[n - 1]) {
        forall j | 0 <= j < n
          ensures HasKey(blocks[j])
        {
          if j < n - 1 {
            assert init[j] == blocks[j];
          }
        }
      }
    }
  }

  /** Every block's keyword is a key of the dictionary. */
  lemma {:induction false} DefinitionsCoverBlocks(blocks: seq<seq<string>>)
    requires DefinitionsOf(blocks).Ok?
    ensures forall j :: 0 <= j < |blocks| ==>
              HasKey(blocks[j]) && exists k :: 0 <= k < |DefinitionsOf(blocks).value| && DefinitionsOf(blocks).value[k].0 == BlockKey(blocks[j])
  {
    if blocks != [] {
      var n := |blocks|;
      var init := blocks[..n - 1];
      var last := blocks[n - 1];
      DefinitionsCoverBlocks(init);
      var defs := DefinitionsOf(init).value;
      var d := DefinitionsOf(blocks).value;
      assert d == Assign(defs, BlockKey(last), last[1..]);
      forall j | 0 <= j < n
        ensures HasKey(blocks[j]) && exists k :: 0 <= k < |d| && d[k].0 == BlockKey(blocks[j])
      {
        if j < n - 1 {
          assert init[j] == blocks[j];
          var k :| 0 <= k < |defs| && defs[k].0 == BlockKey(init[j]);
          assert d[k].0 == defs[k].0;
        } else {
          var k :| 0 <= k < |d| && d[k] == (BlockKey(last), last[1..]);
        }
      }
    }
  }

  /** Every entry of the dictionary is some block's keyword with that block's remaining lines. */
  lemma {:induction false} DefinitionsFromBlocks(blocks: seq<seq<string>>)
    requires DefinitionsOf(blocks).Ok?
    ensures forall k :: 0 <= k < |DefinitionsOf(blocks).value| ==>
              exists j :: 0 <= j < |blocks| && HasKey(blocks[j]) && DefinitionsOf(blocks).value[k] == (BlockKey(blocks[j]), blocks[j][1..])
  {
    if blocks != [] {
      var n := |blocks|;
      var init := blocks[..n - 1];
      var last := blocks[n - 1];
      DefinitionsFromBlocks(init);
      var defs := DefinitionsOf(init).value;
      var key := BlockKey(last);
      var d := DefinitionsOf(blocks).value;
      assert d == Assign(defs, key, last[1..]);
      forall k | 0 <= k < |d|
        ensures exists j :: 0 <= j < n && HasKey(blocks[j]) && d[k] == (BlockKey(blocks[j]), blocks[j][1..])
      {
        if d[k].0 == key {
          assert d[k] == (BlockKey(blocks[n - 1]), blocks[n - 1][1..]);
        } else {
          assert k < |defs| && d[k] == defs[k];
          var j :| 0 <= j < n - 1 && HasKey(init[j]) && defs[k] == (BlockKey(init[j]), init[j][1..]);
          assert init[j] == blocks[j];
        }
      }
    }
  }

  /**
   * `get_definitions` on the file's lines, with the terminator test as a
   * parameter: no line left after cleaning is an IndexError, a last line
   * other than "END" a TopologyFileError; otherwise the dictionary of the
   * blocks the terminator lines close.
   */
  method GetDefinitionsWith(lines: seq<string>, isEnd: string -> bool) returns (r: Result<Definitions>)
    ensures var clean := CleanLines(lines);
            r == if clean == [] then Err("IndexError")
                 else if Strip(clean[|clean| - 1]) != "END" then Err("TopologyFileError")
                 else DefinitionsOf(Split(clean, [], isEnd))
  {
    var clean := CleanLines(lines);
    if clean == [] {
      return Err("IndexError");
    }
    if Strip(clean[|clean| - 1]) != "END" {
      return Err("TopologyFileError");
    }
    var blocks := SplitBlocks(clean, isEnd);
    var defs: Definitions := [];
    for i := 0 to |blocks|
      invariant DefinitionsOf(blocks[..i]) == Ok(defs)
    {
      var block := blocks[i];
      assert blocks[..i + 1][..i] == blocks[..i];
      if block == [] || Words(block[0]) == [] {
        ErrorStays(blocks, i + 1);
        return Err("IndexError");
      }
      var key := Lower(Words(block[0])[0]);
      defs := Assign(defs, key, block[1..]);
    }
    assert blocks[..|blocks|] == blocks;
    return Ok(defs);
  }

  /** Once a prefix of the blocks fails, the whole list fails the same way. */
  lemma {:induction false} ErrorStays(blocks: seq<seq<string>>, i: nat)
    requires i <= |blocks|
    requires DefinitionsOf(blocks[..i]).Err?
    ensures DefinitionsOf(blocks) == DefinitionsOf(blocks[..i])
    decreases |blocks| - i
  {
    if i < |blocks| {
      assert blocks[..i + 1][..i] == blocks[..i];
      ErrorStays(blocks, i + 1);
    } else {
      assert blocks[..i] == blocks;
    }
  }

  /** `get_definitions` as written: its terminator test never holds, so no block is ever read. */
  method GetDefinitionsAsWritten(lines: seq<string>) returns (r: Result<Definitions>)
    ensures var clean := CleanLines(lines);
            r.Err? <==> clean == [] || Strip(clean[|clean| - 1]) != "END"
    ensures r.Ok? ==> r.value == []
  {
    SplitNothing(CleanLines(lines), []);
    r := GetDefinitionsWith(lines, IsEndAsWritten);
  }

  /** With a test that no line passes, no block is ever closed. */
  lemma {:induction false} SplitNothing(lines: seq<string>, block: seq<string>)
    ensures Split(lines, block, IsEndAsWritten) == []
    decreases |lines|
  {
    if lines != [] {
      NoLineEndsAsWritten(lines[0]);
      SplitNothing(lines[1..], block + [lines[0]]);
    }
  }

  /** The blocks of a file, closed by lines reading "END" in any case. */
  function Blocks(lines: seq<string>): seq<seq<string>>
  {
    Split(CleanLines(lines), [], IsEnd)
  }

  /**
   * The corrected `get_definitions`: a block ends at a line reading "END" in
   * any case. It fails exactly when nothing is left after cleaning, the last
   * line is not "END", or two terminators follow each other; otherwise every
   * block's keyword is a key, every entry is a block's keyword with the
   * block's remaining lines, and there are at most as many entries as
   * terminators.
   */
  method GetDefinitions(lines: seq<string>) returns (r: Result<Definitions>)
    ensures var clean := CleanLines(lines);
            r.Err? <==> clean == [] || Strip(clean[|clean| - 1]) != "END" || [] in Blocks(lines)
    ensures r.Ok? ==> UniqueKeys(r.value) && |r.value| <= CountEnds(CleanLines(lines), IsEnd)
    ensures r.Ok? ==> forall j :: 0 <= j < |Blocks(lines)| ==>
              HasKey(Blocks(lines)[j]) && exists k :: 0 <= k < |r.value| && r.value[k].0 == BlockKey(Blocks(lines)[j])
    ensures r.Ok? ==> forall k :: 0 <= k < |r.value| ==>
              exists j :: 0 <= j < |Blocks(lines)| && HasKey(Blocks(lines)[j]) && r.value[k] == (BlockKey(Blocks(lines)[j]), Blocks(lines)[j][1..])
  {
    var clean := CleanLines(lines);
    var blocks := Blocks(lines);
    SplitShape(clean, [], IsEnd);
    forall j | 0 <= j < |blocks| && blocks[j] != []
      ensures HasKey(blocks[j])
    {
      var b := blocks[j];
      assert b in blocks && b[0] in b;
      assert b[0] in clean;
      var k :| 0 <= k < |clean| && clean[k] == b[0];
      WordsOfNonBlank(b[0]);
    }
    DefinitionsFail(blocks);
    r := GetDefinitionsWith(lines, IsEnd);
    if r.Ok? {
      DefinitionsCoverBlocks(blocks);
      DefinitionsFromBlocks(blocks);
    }
  }

  /** A file whose block is closed by a lower-case "end" is read by the corrected reader only. */
  lemma LowerCaseEndExample()
    ensures IsEnd("end") && IsEnd(" END") && !IsEndAsWritten(" END")
  {
    assert Strip(" END") == "END";
    assert Lower("END") == "end";
    NoLineEndsAsWritten(" END");
  }

  // ---------------------------------------------------------------------
  // Block bodies

  /** One bond line: index, target index and bond type, and a fourth column marking a linker. */
  function BondOfLine(line: string): (r: Result<Bond>)
    ensures r.Ok? ==> |Words(line)| in {3, 4} && r.value.isLinker == (|Words(line)| == 4)
    ensures |Words(line)| !in {3, 4} ==> r == Err("TopologyFileError")
    ensures r.Ok? ==> ParseInt(Words(line)[0]) == Some(r.value.index1) && ParseInt(Words(line)[1]) == Some(r.value.index2)
    ensures r.Ok? ==> r.value.bondType.Some? && ParseInt(Words(line)[2]) == r.value.bondType
    ensures r.Ok? ==> !r.value.isShake && r.value.equilibriumDistance.None? && r.value.comment.None?
  {
    var ws := Words(line);
    if |ws| != 4 && |ws| != 3 then Err("TopologyFileError")
    else
      var i1, i2, t := ParseInt(ws[0]), ParseInt(ws[1]), ParseInt(ws[2]);
      if i1.None? || i2.None? || t.None? then Err("ValueError")
      else Ok(Bond(i1.value, i2.value, None, Some(t.value), |ws| == 4, false, None))
  }

  /** One angle line: three indices and the type, and a fifth column marking a linker. */
  function AngleOfLine(line: string): (r: Result<Angle>)
    ensures r.Ok? ==> |Words(line)| in {4, 5} && r.value.isLinker == (|Words(line)| == 5)
    ensures |Words(line)| !in {4, 5} ==> r == Err("TopologyFileError")
    ensures r.Ok? ==> ParseInt(Words(line)[0]) == Some(r.value.index1) && ParseInt(Words(line)[1]) == Some(r.value.index2)
    ensures r.Ok? ==> ParseInt(Words(line)[2]) == Some(r.value.index3)
    ensures r.Ok? ==> r.value.angleType.Some? && ParseInt(Words(line)[3]) == r.value.angleType && r.value.comment.None?
  {
    var ws := Words(line);
    if |ws| != 5 && |ws| != 4 then Err("TopologyFileError")
    else
      var i1, i2, i3, t := ParseInt(ws[0]), ParseInt(ws[1]), ParseInt(ws[2]), ParseInt(ws[3]);
      if i1.None? || i2.None? || i3.None? || t.None? then Err("ValueError")
      else Ok(Angle(i1.value, i2.value, i3.value, Some(t.value), |ws| == 5, None))
  }

  /**
   * One dihedral or improper line: four indices and the type, and a sixth
   * column marking a linker; impropers are flagged as such.
   */
  function DihedralOfLine(line: string, improper: bool): (r: Result<Dihedral>)
    ensures r.Ok? ==> |Words(line)| in {5, 6} && r.value.isLinker == (|Words(line)| == 6)
    ensures |Words(line)| !in {5, 6} ==> r == Err("TopologyFileError")
    ensures r.Ok? ==> ParseInt(Words(line)[0]) == Some(r.value.index1) && ParseInt(Words(line)[1]) == Some(r.value.index2)
    ensures r.Ok? ==> ParseInt(Words(line)[2]) == Some(r.value.index3) && ParseInt(Words(line)[3]) == Some(r.value.index4)
    ensures r.Ok? ==> r.value.dihedralType.Some? && ParseInt(Words(line)[4]) == r.value.dihedralType
    ensures r.Ok? ==> r.value.isImproper == improper && r.value.comment.None?
  {
    var ws := Words(line);
    if |ws| != 6 && |ws| != 5 then Err("TopologyFileError")
    else
      var i1, i2, i3, i4 := ParseInt(ws[0]), ParseInt(ws[1]), ParseInt(ws[2]), ParseInt(ws[3]);
      var t := ParseInt(ws[4]);
      if i1.None? || i2.None? || i3.None? || i4.None? || t.None? then Err("ValueError")
      else Ok(Dihedral(i1.value, i2.value, i3.value, i4.value, Some(t.value), |ws| == 6, improper, None))
  }

  /**
   * One shake line: index, target index and equilibrium distance; four
   * columns make a linker, and any count other than 3 or 4 fails to unpack.
   */
  function ShakeOfLine(line: string): (r: Result<Bond>)
    ensures r.Ok? ==> |Words(line)| in {3, 4} && r.value.isLinker == (|Words(line)| == 4)
    ensures |Words(line)| !in {3, 4} ==> r == Err("ValueError")
    ensures r.Ok? ==> ParseInt(Words(line)[0]) == Some(r.value.index1) && ParseInt(Words(line)[1]) == Some(r.value.index2)
    ensures r.Ok? ==> r.value.equilibriumDistance.Some? && ParseReal(Words(line)[2]) == r.value.equilibriumDistance
    ensures r.Ok? ==> r.value.isShake && r.value.bondType.None? && r.value.comment.None?
  {
    var ws := Words(line);
    if |ws| != 4 && |ws| != 3 then Err("ValueError")
    else
      var i1, i2, d := ParseInt(ws[0]), ParseInt(ws[1]), ParseReal(ws[2]);
      if i1.None? || i2.None? || d.None? then Err("ValueError")
      else Ok(Bond(i1.value, i2.value, Some(d.value), None, |ws| == 4, true, None))
  }

  /** Every line parsed in order; the first failure is the outcome. */
  function ParseAll<T>(lines: seq<string>, parse: string -> Result<T>): (r: Result<seq<T>>)
    ensures r.Ok? <==> forall k :: 0 <= k < |lines| ==> parse(lines[k]).Ok?
    ensures r.Ok? ==> |r.value| == |lines| && forall k :: 0 <= k < |lines| ==> parse(lines[k]) == Ok(r.value[k])
  {
    if lines == [] then Ok([])
    else
      assert forall k :: 1 <= k < |lines| ==> lines[1..][k - 1] == lines[k];
      match parse(lines[0])
      case Err(e) => Err(e)
      case Ok(x) =>
        match ParseAll(lines[1..], parse)
        case Err(e) => Err(e)
        case Ok(rest) => Ok([x] + rest)
  }

  /** `parse_bonds`: one bond per line, in order. */
  method ParseBonds(block: seq<string>) returns (r: Result<seq<Bond>>)
    ensures r == ParseAll(block, BondOfLine)
  {
    var bonds := [];
    for i := 0 to |block|
      invariant ParseAll(block[..i], BondOfLine) == Ok(bonds)
    {
      var b := BondOfLine(block[i]);
      if b.Err? {
        FirstFailure(block, i, BondOfLine);
        return Err(b.error);
      }
      ParseAllSnoc(block, i, BondOfLine);
      bonds := bonds + [b.value];
    }
    assert block[..|block|] == block;
    return Ok(bonds);
  }

  /** A line that fails after lines that all parse decides the outcome of the whole block. */
  lemma {:induction false} FirstFailure<T>(lines: seq<string>, i: nat, parse: string -> Result<T>)
    requires i < |lines|
    requires ParseAll(lines[..i], parse).Ok? && parse(lines[i]).Err?
    ensures ParseAll(lines, parse) == Err(parse(lines[i]).error)
  {
    if i > 0 {
      assert lines[..i][0] == lines[0];
      assert lines[1..][..i - 1] == lines[..i][1..];
      assert lines[1..][i - 1] == lines[i];
      FirstFailure(lines[1..], i - 1, parse);
    }
  }

  /** One more line that parses extends the parsed prefix by its item. */
  lemma ParseAllSnoc<T>(lines: seq<string>, i: nat, parse: string -> Result<T>)
    requires i < |lines|
    requires ParseAll(lines[..i], parse).Ok? && parse(lines[i]).Ok?
    ensures ParseAll(lines[..i + 1], parse) == Ok(ParseAll(lines[..i], parse).value + [parse(lines[i]).value])
  {
    var pre := ParseAll(lines[..i], parse).value;
    assert forall k :: 0 <= k < i ==> lines[..i + 1][k] == lines[..i][k];
    assert lines[..i + 1][i] == lines[i];
    var whole := ParseAll(lines[..i + 1], parse);
    assert whole.Ok?;
    assert whole.value == pre + [parse(lines[i]).value];
  }

  /** `parse_angles`: one angle per line, in order. */
  method ParseAngles(block: seq<string>) returns (r: Result<seq<Angle>>)
    ensures r == ParseAll(block, AngleOfLine)
  {
    var angles := [];
    for i := 0 to |block|
      invariant ParseAll(block[..i], AngleOfLine) == Ok(angles)
    {
      var a := AngleOfLine(block[i]);
      if a.Err? {
        FirstFailure(block, i, AngleOfLine);
        return Err(a.error);
      }
      ParseAllSnoc(block, i, AngleOfLine);
      angles := angles + [a.value];
    }
    assert block[..|block|] == block;
    return Ok(angles);
  }

  function DihedralLine(line: string): Result<Dihedral> { DihedralOfLine(line, false) }

  function ImproperLine(line: string): Result<Dihedral> { DihedralOfLine(line, true) }

  /** `parse_dihedrals`: one dihedral per line, in order, none of them improper. */
  method ParseDihedrals(block: seq<string>) returns (r: Result<seq<Dihedral>>)
    ensures r == ParseAll(block, DihedralLine)
  {
    var dihedrals := [];
    for i := 0 to |block|
      invariant ParseAll(block[..i], DihedralLine) == Ok(dihedrals)
    {
      var d := DihedralOfLine(block[i], false);
      if d.Err? {
        FirstFailure(block, i, DihedralLine);
        return Err(d.error);
      }
      ParseAllSnoc(block, i, DihedralLine);
      dihedrals := dihedrals + [d.value];
    }
    assert block[..|block|] == block;
    return Ok(dihedrals);
  }

  /** `parse_impropers`: one dihedral per line, in order, each flagged improper. */
  method ParseImpropers(block: seq<string>) returns (r: Result<seq<Dihedral>>)
    ensures r == ParseAll(block, ImproperLine)
  {
    var impropers := [];
    for i := 0 to |block|
      invariant ParseAll(block[..i], ImproperLine) == Ok(impropers)
    {
      var d := DihedralOfLine(block[i], true);
      if d.Err? {
        FirstFailure(block, i, ImproperLine);
        return Err(d.error);
      }
      ParseAllSnoc(block, i, ImproperLine);
      impropers := impropers + [d.value];
    }
    assert block[..|block|] == block;
    return Ok(impropers);
  }

  /** `parse_shake`: one shake bond per line, in order. */
  method ParseShake(block: seq<string>) returns (r: Result<seq<Bond>>)
    ensures r == ParseAll(block, ShakeOfLine)
  {
    var shake := [];
    for i := 0 to |block|
      invariant ParseAll(block[..i], ShakeOfLine) == Ok(shake)
    {
      var b := ShakeOfLine(block[i]);
      if b.Err? {
        FirstFailure(block, i, ShakeOfLine);
        return Err(b.error);
      }
      ParseAllSnoc(block, i, ShakeOfLine);
      shake := shake + [b.value];
    }
    assert block[..|block|] == block;
    return Ok(shake);
  }

  /** What the blocks parse to; a block that is absent stays `None`. */
  datatype Parsed = Parsed(
    bonds: Option<seq<Bond>>,
    angles: Option<seq<Angle>>,
    dihedrals: Option<seq<Dihedral>>,
    impropers: Option<seq<Dihedral>>,
    shake: Option<seq<Bond>>)

  predicate KnownKey(key: string)
  {
    key == "bonds" || key == "shake" || key == "angles" || key == "dihedrals" || key == "impropers"
  }

  /**
   * One block parsed into its slot; an unknown keyword is a
   * TopologyFileError, and a known block fails exactly when one of its
   * lines does not parse by that keyword's rule.
   */
  function ParseBlock(p: Parsed, key: string, value: seq<string>): (r: Result<Parsed>)
    ensures !KnownKey(key) ==> r == Err("TopologyFileError")
    ensures key == "bonds" ==> (r.Ok? <==> ParseAll(value, BondOfLine).Ok?)
    ensures key == "shake" ==> (r.Ok? <==> ParseAll(value, ShakeOfLine).Ok?)
    ensures key == "angles" ==> (r.Ok? <==> ParseAll(value, AngleOfLine).Ok?)
    ensures key == "dihedrals" ==> (r.Ok? <==> ParseAll(value, DihedralLine).Ok?)
    ensures key == "impropers" ==> (r.Ok? <==> ParseAll(value, ImproperLine).Ok?)
  {
    if key == "bonds" then
      (match ParseAll(value, BondOfLine) case Ok(v) => Ok(p.(bonds := Some(v))) case Err(e) => Err(e))
    else if key == "shake" then
      (match ParseAll(value, ShakeOfLine) case Ok(v) => Ok(p.(shake := Some(v))) case Err(e) => Err(e))
    else if key == "angles" then
      (match ParseAll(value, AngleOfLine) case Ok(v) => Ok(p.(angles := Some(v))) case Err(e) => Err(e))
    else if key == "dihedrals" then
      (match ParseAll(value, DihedralLine) case Ok(v) => Ok(p.(dihedrals := Some(v))) case Err(e) => Err(e))
    else if key == "impropers" then
      (match ParseAll(value, ImproperLine) case Ok(v) => Ok(p.(impropers := Some(v))) case Err(e) => Err(e))
    else Err("TopologyFileError")
  }

  /** The blocks parsed in dictionary order; the first failure is the outcome. */
  function ParseDefinitions(defs: Definitions): Result<Parsed>
  {
    if defs == [] then Ok(Parsed(None, None, None, None, None))
    else
      match ParseDefinitions(defs[..|defs| - 1])
      case Err(e) => Err(e)
      case Ok(p) => ParseBlock(p, defs[|defs| - 1].0, defs[|defs| - 1].1)
  }

  /** An unknown keyword anywhere makes the whole parse fail. */
  lemma {:induction false} UnknownBlockRejected(defs: Definitions, k: nat)
    requires k < |defs| && !KnownKey(defs[k].0)
    ensures ParseDefinitions(defs).Err?
  {
    var n := |defs|;
    if k < n - 1 {
      assert defs[..n - 1][k] == defs[k];
      UnknownBlockRejected(defs[..n - 1], k);
      EarlierFailureKept(defs);
    } else {
      LastUnknownRejected(defs);
    }
  }

  /** A failure among the earlier blocks is the outcome of the whole parse. */
  lemma EarlierFailureKept(defs: Definitions)
    requires |defs| > 0 && ParseDefinitions(defs[..|defs| - 1]).Err?
    ensures ParseDefinitions(defs) == ParseDefinitions(defs[..|defs| - 1])
  {
  }

  /** An unknown keyword in the last block fails the parse. */
  lemma LastUnknownRejected(defs: Definitions)
    requires |defs| > 0 && !KnownKey(defs[|defs| - 1].0)
    ensures ParseDefinitions(defs).Err?
  {
    var last := defs[|defs| - 1];
    if ParseDefinitions(defs[..|defs| - 1]).Ok? {
      assert ParseBlock(ParseDefinitions(defs[..|defs| - 1]).value, last.0, last.1) == Err("TopologyFileError");
    }
  }

  /** A successful parse has only known keywords. */
  lemma ParsedKeysKnown(defs: Definitions, k: nat)
    requires ParseDefinitions(defs).Ok? && k < |defs|
    ensures KnownKey(defs[k].0)
  {
    if !KnownKey(defs[k].0) {
      UnknownBlockRejected(defs, k);
    }
  }

  /** Parsing one block touches only that block's slot. */
  lemma BlockSlots(q: Parsed, key: string, value: seq<string>)
    requires ParseBlock(q, key, value).Ok?
    ensures var p := ParseBlock(q, key, value).value;
            && (key == "bonds" ==> p.bonds == Some(ParseAll(value, BondOfLine).value) && ParseAll(value, BondOfLine).Ok?)
            && (key != "bonds" ==> p.bonds == q.bonds)
            && (key == "shake" ==> p.shake == Some(ParseAll(value, ShakeOfLine).value) && ParseAll(value, ShakeOfLine).Ok?)
            && (key != "shake" ==> p.shake == q.shake)
            && (key == "angles" ==> p.angles == Some(ParseAll(value, AngleOfLine).value) && ParseAll(value, AngleOfLine).Ok?)
            && (key != "angles" ==> p.angles == q.angles)
            && (key == "dihedrals" ==> p.dihedrals == Some(ParseAll(value, DihedralLine).value) && ParseAll(value, DihedralLine).Ok?)
            && (key != "dihedrals" ==> p.dihedrals == q.dihedrals)
            && (key == "impropers" ==> p.impropers == Some(ParseAll(value, ImproperLine).value) && ParseAll(value, ImproperLine).Ok?)
            && (key != "impropers" ==> p.impropers == q.impropers)
  {
    BondsSlot(q, key, value);
    ShakeSlot(q, key, value);
    AnglesSlot(q, key, value);
    DihedralsSlot(q, key, value);
    ImpropersSlot(q, key, value);
  }

  /** Parsing one block sets the bonds slot exactly when the block is a "bonds" block. */
  lemma BondsSlot(q: Parsed, key: string, value: seq<string>)
    requires ParseBlock(q, key, value).Ok?
    ensures var p := ParseBlock(q, key, value).value;
            && (key == "bonds" ==> ParseAll(value, BondOfLine).Ok? && p.bonds == Some(ParseAll(value, BondOfLine).value))
            && (key != "bonds" ==> p.bonds == q.bonds)
  {
  }

  /** Parsing one block sets the shake slot exactly when the block is a "shake" block. */
  lemma ShakeSlot(q: Parsed, key: string, value: seq<string>)
    requires ParseBlock(q, key, value).Ok?
    ensures var p := ParseBlock(q, key, value).value;
            && (key == "shake" ==> ParseAll(value, ShakeOfLine).Ok? && p.shake == Some(ParseAll(value, ShakeOfLine).value))
            && (key != "shake" ==> p.shake == q.shake)
  {
  }

  /** Parsing one block sets the angles slot exactly when the block is a "angles" block. */
  lemma AnglesSlot(q: Parsed, key: string, value: seq<string>)
    requires ParseBlock(q, key, value).Ok?
    ensures var p := ParseBlock(q, key, value).value;
            && (key == "angles" ==> ParseAll(value, AngleOfLine).Ok? && p.angles == Some(ParseAll(value, AngleOfLine).value))
            && (key != "angles" ==> p.angles == q.angles)
  {
  }

  /** Parsing one block sets the dihedrals slot exactly when the block is a "dihedrals" block. */
  lemma DihedralsSlot(q: Parsed, key: string, value: seq<string>)
    requires ParseBlock(q, key, value).Ok?
    ensures var p := ParseBlock(q, key, value).value;
            && (key == "dihedrals" ==> ParseAll(value, DihedralLine).Ok? && p.dihedrals == Some(ParseAll(value, DihedralLine).value))
            && (key != "dihedrals" ==> p.dihedrals == q.dihedrals)
  {
  }

  /** Parsing one block sets the impropers slot exactly when the block is a "impropers" block. */
  lemma ImpropersSlot(q: Parsed, key: string, value: seq<string>)
    requires ParseBlock(q, key, value).Ok?
    ensures var p := ParseBlock(q, key, value).value;
            && (key == "impropers" ==> ParseAll(value, ImproperLine).Ok? && p.impropers == Some(ParseAll(value, ImproperLine).value))
            && (key != "impropers" ==> p.impropers == q.impropers)
  {
  }

  /** The last block of a successful parse was parsed onto the parse of the others. */
  lemma ParseLast(defs: Definitions)
    requires defs != [] && ParseDefinitions(defs).Ok?
    ensures ParseDefinitions(defs[..|defs| - 1]).Ok?
    ensures ParseBlock(ParseDefinitions(defs[..|defs| - 1]).value, defs[|defs| - 1].0, defs[|defs| - 1].1)
            == ParseDefinitions(defs)
  {
  }

  /** Dropping the last block keeps the keywords distinct. */
  lemma UniqueKeysInit(defs: Definitions)
    requires defs != [] && UniqueKeys(defs)
    ensures UniqueKeys(defs[..|defs| - 1])
    ensures forall k :: 0 <= k < |defs| - 1 ==> defs[..|defs| - 1][k] == defs[k] && defs[k].0 != defs[|defs| - 1].0
  {
  }

  /**
   * Where a keyword can sit when the keywords are distinct: in the last
   * block and nowhere else, or else among the earlier blocks only.
   */
  lemma KeyPlace(defs: Definitions, init: Definitions, key: string)
    requires defs != [] && UniqueKeys(defs) && init == defs[..|defs| - 1]
    ensures defs[|defs| - 1].0 == key ==>
              (exists k :: 0 <= k < |defs| && defs[k].0 == key)
              && forall k :: 0 <= k < |defs| && defs[k].0 == key ==> k == |defs| - 1
    ensures defs[|defs| - 1].0 != key ==>
              ((exists k :: 0 <= k < |defs| && defs[k].0 == key)
                 <==> (exists k :: 0 <= k < |init| && init[k].0 == key))
              && forall k :: 0 <= k < |defs| && defs[k].0 == key ==> k < |init| && init[k] == defs[k]
  {
    var n := |defs|;
    if defs[n - 1].0 == key {
      assert defs[n - 1].0 == key;
    } else if exists k :: 0 <= k < |defs| && defs[k].0 == key {
      var k :| 0 <= k < |defs| && defs[k].0 == key;
      assert init[k] == defs[k];
    }
  }

  /**
   * With distinct keywords, a successful parse fills the bonds slot exactly
   * when a "bonds" block is present, with that block's lines parsed.
   */
  lemma {:induction false} ParsedBonds(defs: Definitions)
    requires UniqueKeys(defs) && ParseDefinitions(defs).Ok?
    ensures var p := ParseDefinitions(defs).value;
            && (p.bonds.Some? <==> exists k :: 0 <= k < |defs| && defs[k].0 == "bonds")
            && (forall k :: 0 <= k < |defs| && defs[k].0 == "bonds" ==> ParseAll(defs[k].1, BondOfLine) == Ok(p.bonds.value))
  {
    if defs != [] {
      var n := |defs|;
      var init := defs[..n - 1];
      UniqueKeysInit(defs);
      ParseLast(defs);
      ParsedBonds(init);
      var q := ParseDefinitions(init).value;
      BondsSlot(q, defs[n - 1].0, defs[n - 1].1);
      KeyPlace(defs, init, "bonds");
    }
  }

  /**
   * With distinct keywords, a successful parse fills the shake slot exactly
   * when a "shake" block is present, with that block's lines parsed.
   */
  lemma {:induction false} ParsedShake(defs: Definitions)
    requires UniqueKeys(defs) && ParseDefinitions(defs).Ok?
    ensures var p := ParseDefinitions(defs).value;
            && (p.shake.Some? <==> exists k :: 0 <= k < |defs| && defs[k].0 == "shake")
            && (forall k :: 0 <= k < |defs| && defs[k].0 == "shake" ==> ParseAll(defs[k].1, ShakeOfLine) == Ok(p.shake.value))
  {
    if defs != [] {
      var n := |defs|;
      var init := defs[..n - 1];
      UniqueKeysInit(defs);
      ParseLast(defs);
      ParsedShake(init);
      var q := ParseDefinitions(init).value;
      ShakeSlot(q, defs[n - 1].0, defs[n - 1].1);
      KeyPlace(defs, init, "shake");
    }
  }

  /**
   * With distinct keywords, a successful parse fills the angles slot exactly
   * when a "angles" block is present, with that block's lines parsed.
   */
  lemma {:induction false} ParsedAngles(defs: Definitions)
    requires UniqueKeys(defs) && ParseDefinitions(defs).Ok?
    ensures var p := ParseDefinitions(defs).value;
            && (p.angles.Some? <==> exists k :: 0 <= k < |defs| && defs[k].0 == "angles")
            && (forall k :: 0 <= k < |defs| && defs[k].0 == "angles" ==> ParseAll(defs[k].1, AngleOfLine) == Ok(p.angles.value))
  {
    if defs != [] {
      var n := |defs|;
      var init := defs[..n - 1];
      UniqueKeysInit(defs);
      ParseLast(defs);
      ParsedAngles(init);
      var q := ParseDefinitions(init).value;
      AnglesSlot(q, defs[n - 1].0, defs[n - 1].1);
      KeyPlace(defs, init, "angles");
    }
  }

  /**
   * With distinct keywords, a successful parse fills the dihedrals slot exactly
   * when a "dihedrals" block is present, with that block's lines parsed.
   */
  lemma {:induction false} ParsedDihedrals(defs: Definitions)
    requires UniqueKeys(defs) && ParseDefinitions(defs).Ok?
    ensures var p := ParseDefinitions(defs).value;
            && (p.dihedrals.Some? <==> exists k :: 0 <= k < |defs| && defs[k].0 == "dihedrals")
            && (forall k :: 0 <= k < |defs| && defs[k].0 == "dihedrals" ==> ParseAll(defs[k].1, DihedralLine) == Ok(p.dihedrals.value))
  {
    if defs != [] {
      var n := |defs|;
      var init := defs[..n - 1];
      UniqueKeysInit(defs);
      ParseLast(defs);
      ParsedDihedrals(init);
      var q := ParseDefinitions(init).value;
      DihedralsSlot(q, defs[n - 1].0, defs[n - 1].1);
      KeyPlace(defs, init, "dihedrals");
    }
  }

  /**
   * With distinct keywords, a successful parse fills the impropers slot exactly
   * when a "impropers" block is present, with that block's lines parsed.
   */
  lemma {:induction false} ParsedImpropers(defs: Definitions)
    requires UniqueKeys(defs) && ParseDefinitions(defs).Ok?
    ensures var p := ParseDefinitions(defs).value;
            && (p.impropers.Some? <==> exists k :: 0 <= k < |defs| && defs[k].0 == "impropers")
            && (forall k :: 0 <= k < |defs| && defs[k].0 == "impropers" ==> ParseAll(defs[k].1, ImproperLine) == Ok(p.impropers.value))
  {
    if defs != [] {
      var n := |defs|;
      var init := defs[..n - 1];
      UniqueKeysInit(defs);
      ParseLast(defs);
      ParsedImpropers(init);
      var q := ParseDefinitions(init).value;
      ImpropersSlot(q, defs[n - 1].0, defs[n - 1].1);
      KeyPlace(defs, init, "impropers");
    }
  }

  /**
   * `parse_blocks`: each block is parsed by its keyword and the results make
   * a bonded topology, absent blocks giving empty lists.
   */
  method ParseBlocks(defs: Definitions) returns (r: Result<BondedTopology>)
    ensures r.Err? <==> ParseDefinitions(defs).Err?
    ensures r.Err? ==> r.error == ParseDefinitions(defs).error
    ensures r.Ok? ==> fresh(r.value)
    ensures r.Ok? ==> var p := ParseDefinitions(defs).value;
              && r.value.bonds == (if p.bonds.Some? then p.bonds.value else [])
              && r.value.angles == (if p.angles.Some? then p.angles.value else [])
              && r.value.dihedrals == (if p.dihedrals.Some? then p.dihedrals.value else [])
              && r.value.impropers == (if p.impropers.Some? then p.impropers.value else [])
              && r.value.shakeBonds == (if p.shake.Some? then p.shake.value else [])
              && r.value.orderingKeys.None?
  {
    var bonds: Option<seq<Bond>> := None;
    var shake: Option<seq<Bond>> := None;
    var angles: Option<seq<Angle>> := None;
    var dihedrals: Option<seq<Dihedral>> := None;
    var impropers: Option<seq<Dihedral>> := None;
    for i := 0 to |defs|
      invariant ParseDefinitions(defs[..i]) == Ok(Parsed(bonds, angles, dihedrals, impropers, shake))
    {
      var (key, value) := defs[i];
      assert defs[..i + 1][..i] == defs[..i];
      var step: Result<Parsed>;
      if key == "bonds" {
        var x := ParseBonds(value);
        if x.Err? { step := Err(x.error); } else { bonds := Some(x.value); step := Ok(Parsed(bonds, angles, dihedrals, impropers, shake)); }
      } else if key == "shake" {
        var x := ParseShake(value);
        if x.Err? { step := Err(x.error); } else { shake := Some(x.value); step := Ok(Parsed(bonds, angles, dihedrals, impropers, shake)); }
      } else if key == "angles" {
        var x := ParseAngles(value);
        if x.Err? { step := Err(x.error); } else { angles := Some(x.value); step := Ok(Parsed(bonds, angles, dihedrals, impropers, shake)); }
      } else if key == "dihedrals" {
        var x := ParseDihedrals(value);
        if x.Err? { step := Err(x.error); } else { dihedrals := Some(x.value); step := Ok(Parsed(bonds, angles, dihedrals, impropers, shake)); }
      } else if key == "impropers" {
        var x := ParseImpropers(value);
        if x.Err? { step := Err(x.error); } else { impropers := Some(x.value); step := Ok(Parsed(bonds, angles, dihedrals, impropers, shake)); }
      } else {
        step := Err("TopologyFileError");
      }
      assert step == ParseDefinitions(defs[..i + 1]);
      if step.Err? {
        ParseErrorStays(defs, i + 1);
        return Err(step.error);
      }
    }
    assert defs[..|defs|] == defs;
    var t := new BondedTopology(bonds, angles, dihedrals, impropers, shake, None);
    return Ok(t);
  }

  /** Once a prefix of the blocks fails to parse, the whole dictionary fails the same way. */
  lemma {:induction false} ParseErrorStays(defs: Definitions, i: nat)
    requires i <= |defs|
    requires ParseDefinitions(defs[..i]).Err?
    ensures ParseDefinitions(defs) == ParseDefinitions(defs[..i])
    decreases |defs| - i
  {
    if i < |defs| {
      assert defs[..i + 1][..i] == defs[..i];
      ParseErrorStays(defs, i + 1);
    } else {
      assert defs[..i] == defs;
    }
  }
}
