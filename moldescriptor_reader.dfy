/**
 * The moldescriptor reader (PQAnalysis/io/moldescriptor_reader.py): a file
 * of mol types, each a header line `name n_atoms total_charge` followed by
 * `n_atoms` body lines `element atom_type partial_charge [extra]`. Comment
 * lines, blank lines and the `water_type` and `ammonia_type` lines are
 * skipped; everything from a '#' on is a comment in the header and body
 * columns.
 *
 * The file is given as its list of lines; looking an element up by its
 * symbol (`Element(str)`) is the parameter `lookup`. A mol type is the
 * argument list of the Residue it becomes.
 */
module MoldescriptorReader {

  import opened Common
  import Residues

  type Element = Residues.Element

  /** The arguments `_read_mol_type` passes to `Residue`. */
  datatype MolType = MolType(name: string, id: int, totalCharge: real,
                             elements: seq<Element>, atomTypes: seq<int>, partialCharges: seq<real>)

  /** `line.split('#')[0].strip().split()`: the columns before any comment. */
  function Columns(line: string): seq<string>
  {
    Words(Strip(BeforeHash(line)))
  }

  /** `line.strip().startswith('#')`. */
  predicate IsComment(line: string)
  {
    StartsWith(Strip(line), "#")
  }

  /** `len(line.strip().split()) == 0`. */
  predicate IsBlank(line: string)
  {
    Words(Strip(line)) == []
  }

  function Min(a: int, b: int): int
  {
    if a <= b then a else b
  }

  // ---------------------------------------------------------------------
  // Why a header line always has a first column

  /** `strip()` keeps a slice of its argument with blanks on both sides of it. */
  lemma {:induction false} StripSlice(s: string) returns (i: nat, j: nat)
    ensures i <= j <= |s| && Strip(s) == s[i..j]
    ensures AllSpace(s[..i]) && AllSpace(s[j..])
    decreases |s|
  {
    if s == [] {
      return 0, 0;
    } else if IsSpace(s[0]) {
      var i', j' := StripSlice(s[1..]);
      i, j := i' + 1, j' + 1;
      SliceAfterBlank(s, i', j');
    } else if IsSpace(s[|s| - 1]) {
      var i', j' := StripSlice(s[..|s| - 1]);
      i, j := i', j';
      SliceBeforeBlank(s, i', j');
    } else {
      assert s[..0] == [] && s[|s|..] == [];
      return 0, |s|;
    }
  }

  /** A slice of `s[1..]` between blanks, moved one on, is a slice of `s` between blanks. */
  lemma SliceAfterBlank(s: string, i: nat, j: nat)
    requires s != [] && IsSpace(s[0])
    requires i <= j <= |s| - 1 && AllSpace(s[1..][..i]) && AllSpace(s[1..][j..])
    ensures s[1..][i..j] == s[i + 1..j + 1]
    ensures AllSpace(s[..i + 1]) && AllSpace(s[j + 1..])
  {
    assert s[..i + 1] == [s[0]] + s[1..][..i];
    assert s[j + 1..] == s[1..][j..];
  }

  /** A slice of `s` without its last character, between blanks, is one of `s` when that character is blank. */
  lemma SliceBeforeBlank(s: string, i: nat, j: nat)
    requires s != [] && IsSpace(s[|s| - 1])
    requires i <= j <= |s| - 1 && AllSpace(s[..|s| - 1][..i]) && AllSpace(s[..|s| - 1][j..])
    ensures s[..|s| - 1][i..j] == s[i..j]
    ensures AllSpace(s[..i]) && AllSpace(s[j..])
  {
    var t := s[..|s| - 1];
    assert s[..i] == t[..i];
    assert s[j..] == t[j..] + [s[|s| - 1]];
  }

  /** A string with a character that is not blank has a word. */
  lemma {:induction false} WordsNonEmpty(s: string, k: nat)
    requires k < |s| && !IsSpace(s[k])
    ensures Words(s) != []
    decreases |s|
  {
    if IsSpace(s[0]) {
      WordsNonEmpty(s[1..], k - 1);
    }
  }

  /**
   * A line that is neither a comment nor blank keeps a column once the
   * comment is cut: its first non-blank character is not '#'.
   */
  lemma HeaderHasColumns(line: string)
    requires !IsComment(line) && !IsBlank(line)
    ensures Columns(line) != []
  {
    var i, j := StripSlice(line);
    var t := Strip(line);
    assert t != [];
    assert t[0] == line[i] && !IsSpace(line[i]) && line[i] != '#';
    var b := BeforeHash(line);
    CutAfter(line, i);
    assert b[i] == line[i];
    var p, q := StripSlice(b);
    InsideStrip(b, i, p, q);
    assert Strip(b)[i - p] == b[i];
    WordsNonEmpty(Strip(b), i - p);
  }

  /** Blanks up to a character that is no '#' survive the cut at the first '#'. */
  lemma CutAfter(line: string, i: nat)
    requires i < |line| && AllSpace(line[..i]) && !IsSpace(line[i]) && line[i] != '#'
    ensures |BeforeHash(line)| > i
  {
  }

  /** A character that is not blank lies inside what `strip()` keeps. */
  lemma InsideStrip(b: string, i: nat, p: nat, q: nat)
    requires i < |b| && !IsSpace(b[i])
    requires p <= q <= |b| && AllSpace(b[..p]) && AllSpace(b[q..])
    ensures p <= i < q
  {
  }

  // ---------------------------------------------------------------------
  // _read_mol_type

  /** One body line: its element, atom type and partial charge. */
  datatype Row = Row(element: Element, atomType: int, charge: real)

  /**
   * A body line needs 3 or 4 columns (else a MoldescriptorReaderError);
   * the element is looked up first, then the atom type and the charge are
   * read (a ValueError when they are no numbers).
   */
  function BodyRow(line: string, lookup: string -> Result<Element>): (r: Result<Row>)
    ensures var c := Columns(line);
            (|c| != 3 && |c| != 4 ==> r == Err("MoldescriptorReaderError"))
            && (r.Ok? <==> (|c| == 3 || |c| == 4) && lookup(c[0]).Ok? && ParseInt(c[1]).Some? && ParseReal(c[2]).Some?)
            && (r.Ok? ==> lookup(c[0]) == Ok(r.value.element) && ParseInt(c[1]) == Some(r.value.atomType)
                          && ParseReal(c[2]) == Some(r.value.charge))
            && (r.Err? && (|c| == 3 || |c| == 4) ==> r.error == "ValueError" || lookup(c[0]) == Err(r.error))
  {
    var c := Columns(line);
    if |c| != 3 && |c| != 4 then Err("MoldescriptorReaderError")
    else
      match lookup(c[0])
      case Err(e) => Err(e)
      case Ok(element) =>
        var atomType := ParseInt(c[1]);
        var charge := ParseReal(c[2]);
        if atomType.None? || charge.None? then Err("ValueError")
        else Ok(Row(element, atomType.value, charge.value))
  }

  /** BodyRow with the element lookup fixed. */
  function RowReader(lookup: string -> Result<Element>): string -> Result<Row>
  {
    line => BodyRow(line, lookup)
  }

  /**
   * The body lines in order, each read by `row`; the first line that
   * fails decides the error (see FirstFailure).
   */
  function Rows(lines: seq<string>, row: string -> Result<Row>): (r: Result<seq<Row>>)
    ensures r.Ok? ==> |r.value| == |lines|
  {
    if lines == [] then Ok([])
    else
      var prev := Rows(lines[..|lines| - 1], row);
      if prev.Err? then prev
      else
        match row(lines[|lines| - 1])
        case Err(e) => Err(e)
        case Ok(last) => Ok(prev.value + [last])
  }

  /** The body reads when every line does, and then holds each line's row in order. */
  lemma {:induction false} RowsMeaning(lines: seq<string>, row: string -> Result<Row>)
    ensures var r := Rows(lines, row);
            && (r.Ok? <==> forall i :: 0 <= i < |lines| ==> row(lines[i]).Ok?)
            && (r.Ok? ==> forall i :: 0 <= i < |lines| ==> row(lines[i]) == Ok(r.value[i]))
    decreases |lines|
  {
    if lines != [] {
      var init := lines[..|lines| - 1];
      RowsMeaning(init, row);
      assert forall i :: 0 <= i < |init| ==> init[i] == lines[i];
    }
  }

  function ElementsOf(rows: seq<Row>): (r: seq<Element>)
    ensures |r| == |rows| && forall i :: 0 <= i < |rows| ==> r[i] == rows[i].element
  {
    seq(|rows|, i requires 0 <= i < |rows| => rows[i].element)
  }

  function AtomTypesOf(rows: seq<Row>): (r: seq<int>)
    ensures |r| == |rows| && forall i :: 0 <= i < |rows| ==> r[i] == rows[i].atomType
  {
    seq(|rows|, i requires 0 <= i < |rows| => rows[i].atomType)
  }

  function ChargesOf(rows: seq<Row>): (r: seq<real>)
    ensures |r| == |rows| && forall i :: 0 <= i < |rows| ==> r[i] == rows[i].charge
  {
    seq(|rows|, i requires 0 <= i < |rows| => rows[i].charge)
  }

  /** The words of a mol type's header line, comment included. */
  function HeaderWords(block: seq<string>): seq<string>
    requires block != []
  {
    Words(Strip(block[0]))
  }

  /**
   * `_read_mol_type` on the header line and the body lines of one mol type:
   * the name is the first word of the header and the total charge its
   * third (an IndexError without them, a ValueError when it is no number);
   * then one element, atom type and partial charge per body line.
   */
  function MolTypeOf(block: seq<string>, id: int, lookup: string -> Result<Element>): (r: Result<MolType>)
    ensures r.Ok? ==> r.value.id == id && |r.value.elements| == |r.value.atomTypes| == |r.value.partialCharges| == |block| - 1
  {
    if block == [] || |HeaderWords(block)| < 3 then Err("IndexError")
    else
      var header := HeaderWords(block);
      var totalCharge := ParseReal(header[2]);
      if totalCharge.None? then Err("ValueError")
      else
        match Rows(block[1..], RowReader(lookup))
        case Err(e) => Err(e)
        case Ok(rows) => Ok(MolType(header[0], id, totalCharge.value, ElementsOf(rows), AtomTypesOf(rows), ChargesOf(rows)))
  }

  /**
   * A mol type fails to read exactly when its header has fewer than three
   * words (an IndexError), its total charge is no number (a ValueError) or
   * one of its body lines fails; otherwise its name and total charge are
   * the header's and its atoms are the body lines' rows in order.
   */
  lemma MolTypeOfMeaning(block: seq<string>, id: int, lookup: string -> Result<Element>)
    ensures var r := MolTypeOf(block, id, lookup);
            && (r.Err? <==> || block == [] || |HeaderWords(block)| < 3 || ParseReal(HeaderWords(block)[2]).None?
                            || exists i :: 1 <= i < |block| && BodyRow(block[i], lookup).Err?)
            && (block == [] || |HeaderWords(block)| < 3 ==> r == Err("IndexError"))
            && (block != [] && |HeaderWords(block)| >= 3 && ParseReal(HeaderWords(block)[2]).None? ==> r == Err("ValueError"))
            && (r.Ok? ==> var m := r.value;
                  && m.name == HeaderWords(block)[0] && ParseReal(HeaderWords(block)[2]) == Some(m.totalCharge)
                  && forall i :: 0 <= i < |block| - 1 ==>
                       BodyRow(block[i + 1], lookup) == Ok(Row(m.elements[i], m.atomTypes[i], m.partialCharges[i])))
  {
    if block != [] {
      var body := block[1..];
      RowsMeaning(body, RowReader(lookup));
      assert forall i :: 1 <= i < |block| ==> block[i] == body[i - 1];
    }
  }

  /**
   * `_read_mol_type`: the header first, then the loop over the body lines
   * (CollectRows) appends each line's element, atom type and charge.
   */
  method ReadMolType(block: seq<string>, id: int, lookup: string -> Result<Element>) returns (r: Result<MolType>)
    ensures r == MolTypeOf(block, id, lookup)
  {
    if block == [] || |HeaderWords(block)| < 3 {
      return Err("IndexError");
    }
    var header := HeaderWords(block);
    var totalCharge := ParseReal(header[2]);
    if totalCharge.None? {
      return Err("ValueError");
    }
    var rows := CollectRows(block[1..], lookup);
    if rows.Err? {
      return Err(rows.error);
    }
    var v := rows.value;
    return Ok(MolType(header[0], id, totalCharge.value, ElementsOf(v), AtomTypesOf(v), ChargesOf(v)));
  }

  /** The body lines one at a time; the first that fails ends the loop. */
  method CollectRows(lines: seq<string>, lookup: string -> Result<Element>) returns (r: Result<seq<Row>>)
    ensures r == Rows(lines, RowReader(lookup))
  {
    var rows := [];
    for i := 0 to |lines|
      invariant Rows(lines[..i], RowReader(lookup)) == Ok(rows)
    {
      assert lines[..i + 1][..i] == lines[..i];
      var row := BodyRow(lines[i], lookup);
      assert row == RowReader(lookup)(lines[i]);
      if row.Err? {
        FirstFailure(lines, i, RowReader(lookup));
        return Err(row.error);
      }
      rows := rows + [row.value];
    }
    assert lines[..|lines|] == lines;
    return Ok(rows);
  }

  /** A line that fails after lines that did not fails the whole body. */
  lemma {:induction false} FirstFailure(lines: seq<string>, i: nat, row: string -> Result<Row>)
    requires i < |lines| && Rows(lines[..i], row).Ok? && row(lines[i]).Err?
    ensures Rows(lines, row) == Err(row(lines[i]).error)
    decreases |lines|
  {
    var init := lines[..|lines| - 1];
    if i < |lines| - 1 {
      assert init[..i] == lines[..i];
      FirstFailure(init, i, row);
    } else {
      assert init == lines[..i];
    }
  }

  // ---------------------------------------------------------------------
  // The read loop

  /** A header line whose columns are neither a water nor an ammonia type. */
  predicate IsHeader(line: string)
  {
    !IsComment(line) && !IsBlank(line)
    && (HeaderHasColumns(line);
        Lower(Columns(line)[0]) != "water_type" && Lower(Columns(line)[0]) != "ammonia_type")
  }

  /**
   * What the loop makes of a line before it reads a mol type: a comment,
   * blank, `water_type` or `ammonia_type` line is skipped (None); any other
   * line is a header that needs exactly 3 columns, the second an integer,
   * the atom count.
   */
  function Classify(line: string): (r: Result<Option<int>>)
  {
    if IsComment(line) || IsBlank(line) then Ok(None)
    else
      HeaderHasColumns(line);
      var cols := Columns(line);
      if Lower(cols[0]) == "water_type" || Lower(cols[0]) == "ammonia_type" then Ok(None)
      else if |cols| != 3 then Err("MoldescriptorReaderError")
      else
        match ParseInt(cols[1])
        case None => Err("ValueError")
        case Some(n) => Ok(Some(n))
  }

  /**
   * The lines skipped are exactly those that are no header; a header
   * without 3 columns is a MoldescriptorReaderError, one whose second
   * column is no integer a ValueError, and any other gives its count.
   */
  lemma ClassifyMeaning(line: string)
    ensures Classify(line) == Ok(None) <==> !IsHeader(line)
    ensures IsHeader(line) && |Columns(line)| != 3 ==> Classify(line) == Err("MoldescriptorReaderError")
    ensures IsHeader(line) && |Columns(line)| == 3 && ParseInt(Columns(line)[1]).None? ==> Classify(line) == Err("ValueError")
    ensures IsHeader(line) && |Columns(line)| == 3 && ParseInt(Columns(line)[1]).Some?
            ==> Classify(line) == Ok(ParseInt(Columns(line)[1]))
  {
  }

  /** What one pass of the loop does with the line at `counter`. */
  datatype Step = Skip | Consumed(n: nat, molType: MolType)

  /** What the loop makes of one line: skipped, an error, or a header with its atom count. */
  type Classifier = string -> Result<Option<int>>

  /** What reads the lines of one mol type, given its id. */
  type BlockReader = (seq<string>, int) -> Result<MolType>

  /** `_read_mol_type` with the element lookup fixed. */
  function MolTypeReader(lookup: string -> Result<Element>): BlockReader
  {
    (block, id) => MolTypeOf(block, id, lookup)
  }

  /** The lines of the mol type whose header is at `counter` and whose atom count is `n`. */
  function Block(lines: seq<string>, counter: nat, n: nat): (b: seq<string>)
    requires counter < |lines|
    ensures |b| == Min(n + 1, |lines| - counter) && b[0] == lines[counter]
  {
    lines[counter..Min(counter + n + 1, |lines|)]
  }

  /**
   * One pass of the loop at `counter`, with `k` mol types read so far,
   * for any way of classifying lines and reading blocks: a skipped line
   * moves on by one; a header with atom count `n` has the next `n + 1`
   * lines (fewer at the end of the file) read as mol type `k + 1`. A
   * negative count is rejected.
   */
  function Pass(lines: seq<string>, counter: nat, k: nat, classify: Classifier, read: BlockReader): Result<Step>
    requires counter < |lines|
  {
    var c := classify(lines[counter]);
    if c.Err? then Err(c.error)
    else if c.value.None? then Ok(Skip)
    else if c.value.value < 0 then Err("MoldescriptorReaderError")
    else
      var n := c.value.value;
      var m := read(Block(lines, counter, n), k + 1);
      if m.Err? then Err(m.error) else Ok(Consumed(n, m.value))
  }

  /** One pass of `read` over the file `lines`. */
  function StepAt(lines: seq<string>, counter: nat, k: nat, lookup: string -> Result<Element>): Result<Step>
    requires counter < |lines|
  {
    Pass(lines, counter, k, Classify, MolTypeReader(lookup))
  }

  /**
   * A pass skips exactly the lines that are no header, passes on the
   * error of a header it cannot read, rejects a negative atom count, and
   * otherwise reads the header and the lines after it as mol type `k + 1`.
   */
  lemma StepAtMeaning(lines: seq<string>, counter: nat, k: nat, lookup: string -> Result<Element>)
    requires counter < |lines|
    ensures var r := StepAt(lines, counter, k, lookup);
            var c := Classify(lines[counter]);
            && (r == Ok(Skip) <==> c == Ok(None))
            && (c.Err? ==> r == Err(c.error))
            && (c.Ok? && c.value.Some? && c.value.value < 0 ==> r == Err("MoldescriptorReaderError"))
            && (r.Ok? && r.value.Consumed? ==> var s := r.value;
                  && s.molType.id == k + 1 && c == Ok(Some(s.n))
                  && MolTypeOf(Block(lines, counter, s.n), k + 1, lookup) == Ok(s.molType))
  {
  }

  /**
   * A mol type read at `counter` with atom count `n` has one atom per body
   * line: `n` of them, or as many lines as the file still has.
   */
  lemma ConsumedAtoms(lines: seq<string>, counter: nat, k: nat, lookup: string -> Result<Element>)
    requires counter < |lines| && StepAt(lines, counter, k, lookup).Ok? && StepAt(lines, counter, k, lookup).value.Consumed?
    ensures var s := StepAt(lines, counter, k, lookup).value;
            |s.molType.elements| == |s.molType.atomTypes| == |s.molType.partialCharges| == Min(s.n, |lines| - counter - 1)
  {
    StepAtMeaning(lines, counter, k, lookup);
  }

  /** One pass of the loop at a counter, given the number of mol types read so far. */
  type Stepper = (nat, nat) -> Result<Step>

  /** The while loop for any pass: the mol types read, or the first error. */
  function Loop(len: nat, counter: nat, done: seq<MolType>, step: Stepper): Result<seq<MolType>>
    decreases len - counter
  {
    if counter >= len then Ok(done)
    else
      match step(counter, |done|)
      case Err(e) => Err(e)
      case Ok(Skip) => Loop(len, counter + 1, done, step)
      case Ok(Consumed(n, m)) => Loop(len, counter + n + 1, done + [m], step)
  }

  /** One round of the loop. */
  lemma LoopNext(len: nat, counter: nat, done: seq<MolType>, step: Stepper)
    requires counter < len
    ensures Loop(len, counter, done, step) == match step(counter, |done|)
              case Err(e) => Err(e)
              case Ok(Skip) => Loop(len, counter + 1, done, step)
              case Ok(Consumed(n, m)) => Loop(len, counter + n + 1, done + [m], step)
  {
  }

  /** One round of the loop, for the pass `s` made at `counter`. */
  lemma LoopAdvance(len: nat, counter: nat, done: seq<MolType>, step: Stepper, s: Result<Step>)
    requires counter < len && s == step(counter, |done|)
    ensures s.Err? ==> Loop(len, counter, done, step) == Err(s.error)
    ensures s == Ok(Skip) ==> Loop(len, counter, done, step) == Loop(len, counter + 1, done, step)
    ensures s.Ok? && s.value.Consumed? ==>
              Loop(len, counter, done, step) == Loop(len, counter + s.value.n + 1, done + [s.value.molType], step)
  {
    LoopNext(len, counter, done, step);
  }

  /** The passes over a file. */
  function StepsOf(lines: seq<string>, classify: Classifier, read: BlockReader): Stepper
  {
    (c: nat, k: nat) => if c < |lines| then Pass(lines, c, k, classify, read) else Ok(Skip)
  }

  /**
   * `read` from `counter` on, with the mol types `done` read so far: the
   * mol types of the whole file, or the error that stops the reading.
   */
  function ReadFrom(lines: seq<string>, counter: nat, done: seq<MolType>, lookup: string -> Result<Element>): Result<seq<MolType>>
  {
    Loop(|lines|, counter, done, StepsOf(lines, Classify, MolTypeReader(lookup)))
  }

  /** `read`: the while loop over the lines with its counter (ReadLoop). */
  method Read(lines: seq<string>, lookup: string -> Result<Element>) returns (r: Result<seq<MolType>>)
    ensures r == ReadFrom(lines, 0, [], lookup)
  {
    StepsAreStepAt(lines, lookup);
    r := ReadLoop(lines, lookup, StepsOf(lines, Classify, MolTypeReader(lookup)));
  }

  /** The passes of a file are those of StepAt. */
  lemma StepsAreStepAt(lines: seq<string>, lookup: string -> Result<Element>)
    ensures forall c: nat, k: nat {:trigger StepAt(lines, c, k, lookup)} :: c < |lines| ==>
              StepsOf(lines, Classify, MolTypeReader(lookup))(c, k) == StepAt(lines, c, k, lookup)
  {
  }

  /**
   * The while loop of `read`, with `steps` standing for its passes: the
   * counter moves on by one past a skipped line and past the header and
   * body of each mol type read, which is appended.
   */
  method ReadLoop(lines: seq<string>, lookup: string -> Result<Element>, ghost steps: Stepper) returns (r: Result<seq<MolType>>)
    requires forall c: nat, k: nat {:trigger StepAt(lines, c, k, lookup)} :: c < |lines| ==> steps(c, k) == StepAt(lines, c, k, lookup)
    ensures r == Loop(|lines|, 0, [], steps)
  {
    var molTypes := [];
    var counter := 0;
    while counter < |lines|
      invariant Loop(|lines|, counter, molTypes, steps) == Loop(|lines|, 0, [], steps)
      decreases |lines| - counter
    {
      var step := ReadStep(lines, counter, |molTypes|, lookup);
      LoopAdvance(|lines|, counter, molTypes, steps, step);
      if step.Err? {
        return Err(step.error);
      }
      var next, read := counter + 1, molTypes;
      if step.value.Consumed? {
        next, read := counter + step.value.n + 1, molTypes + [step.value.molType];
      }
      assert Loop(|lines|, next, read, steps) == Loop(|lines|, counter, molTypes, steps);
      counter, molTypes := next, read;
    }
    return Ok(molTypes);
  }

  /** The body of the while loop: the checks of the line at `counter`, then `_read_mol_type`. */
  method ReadStep(lines: seq<string>, counter: nat, k: nat, lookup: string -> Result<Element>) returns (r: Result<Step>)
    requires counter < |lines|
    ensures r == StepAt(lines, counter, k, lookup)
  {
    var line := lines[counter];
    if IsComment(line) || IsBlank(line) {
      return Ok(Skip);
    }
    HeaderHasColumns(line);
    var cols := Columns(line);
    if Lower(cols[0]) == "water_type" || Lower(cols[0]) == "ammonia_type" {
      return Ok(Skip);
    }
    if |cols| != 3 {
      return Err("MoldescriptorReaderError");
    }
    var n := ParseInt(cols[1]);
    if n.None? {
      return Err("ValueError");
    }
    if n.value < 0 {
      return Err("MoldescriptorReaderError");
    }
    var molType := ReadMolType(Block(lines, counter, n.value), k + 1, lookup);
    if molType.Err? {
      return Err(molType.error);
    }
    return Ok(Consumed(n.value, molType.value));
  }

  // ---------------------------------------------------------------------
  // Properties of the whole file

  /** When every pass numbers its mol type after those before it, mol type `i` (from 0) has id `i + 1`. */
  lemma {:induction false} LoopIds(len: nat, counter: nat, done: seq<MolType>, step: Stepper)
    requires forall c: nat, k: nat :: step(c, k).Ok? && step(c, k).value.Consumed? ==> step(c, k).value.molType.id == k + 1
    requires forall i :: 0 <= i < |done| ==> done[i].id == i + 1
    requires Loop(len, counter, done, step).Ok?
    ensures var r := Loop(len, counter, done, step).value;
            |done| <= |r| && r[..|done|] == done && forall i :: 0 <= i < |r| ==> r[i].id == i + 1
    decreases len - counter
  {
    if counter < len {
      match step(counter, |done|)
      case Ok(Skip) =>
        LoopIds(len, counter + 1, done, step);
      case Ok(Consumed(n, m)) =>
        LoopIds(len, counter + n + 1, done + [m], step);
        var r := Loop(len, counter, done, step).value;
        assert r[..|done| + 1][..|done|] == r[..|done|];
    }
  }

  /** A reader that gives each mol type the id it is asked for numbers the passes in order. */
  lemma PassIds(lines: seq<string>, classify: Classifier, read: BlockReader)
    requires forall b, id :: read(b, id).Ok? ==> read(b, id).value.id == id
    ensures var step := StepsOf(lines, classify, read);
            forall c: nat, k: nat :: step(c, k).Ok? && step(c, k).value.Consumed? ==> step(c, k).value.molType.id == k + 1
  {
  }

  /** The mol types of a file have the ids 1, 2, 3, ... in the order they were read. */
  lemma MolTypeIds(lines: seq<string>, lookup: string -> Result<Element>)
    requires ReadFrom(lines, 0, [], lookup).Ok?
    ensures var r := ReadFrom(lines, 0, [], lookup).value;
            forall i :: 0 <= i < |r| ==> r[i].id == i + 1
  {
    PassIds(lines, Classify, MolTypeReader(lookup));
    LoopIds(|lines|, 0, [], StepsOf(lines, Classify, MolTypeReader(lookup)));
  }

  /** A loop whose passes are those of another, one counter later, reads the same. */
  lemma {:induction false} LoopShift(len: nat, counter: nat, done: seq<MolType>, later: Stepper, step: Stepper)
    requires forall c: nat, k: nat :: c < len ==> later(c + 1, k) == step(c, k)
    ensures Loop(len + 1, counter + 1, done, later) == Loop(len, counter, done, step)
    decreases len - counter
  {
    if counter < len {
      assert later(counter + 1, |done|) == step(counter, |done|);
      match step(counter, |done|)
      case Err(_) =>
      case Ok(Skip) =>
        LoopShift(len, counter + 1, done, later, step);
      case Ok(Consumed(n, m)) =>
        LoopShift(len, counter + n + 1, done + [m], later, step);
    }
  }

  /** A line put in front moves every pass one line on and changes nothing else. */
  lemma PassShift(l: string, lines: seq<string>, classify: Classifier, read: BlockReader)
    ensures forall c: nat, k: nat :: c < |lines| ==>
              StepsOf([l] + lines, classify, read)(c + 1, k) == StepsOf(lines, classify, read)(c, k)
  {
    var longer := [l] + lines;
    forall c: nat, k: nat | c < |lines|
      ensures StepsOf(longer, classify, read)(c + 1, k) == StepsOf(lines, classify, read)(c, k)
    {
      assert longer[c + 1] == lines[c];
      var x := classify(lines[c]);
      if x.Ok? && x.value.Some? && x.value.value >= 0 {
        assert Block(longer, c + 1, x.value.value) == Block(lines, c, x.value.value);
      }
    }
  }

  /** A comment, blank, water-type or ammonia-type line in front of a file changes nothing it reads. */
  lemma SkippedLineChangesNothing(l: string, lines: seq<string>, lookup: string -> Result<Element>)
    requires !IsHeader(l)
    ensures ReadFrom([l] + lines, 0, [], lookup) == ReadFrom(lines, 0, [], lookup)
  {
    ClassifyMeaning(l);
    var longer := [l] + lines;
    var reader := MolTypeReader(lookup);
    assert StepsOf(longer, Classify, reader)(0, 0) == Ok(Skip) by {
      assert longer[0] == l;
    }
    PassShift(l, lines, Classify, reader);
    LoopNext(|longer|, 0, [], StepsOf(longer, Classify, reader));
    LoopShift(|lines|, 0, [], StepsOf(longer, Classify, reader), StepsOf(lines, Classify, reader));
  }

  // ---------------------------------------------------------------------
  // The loop as written, for a negative atom count

  /** A Python slice bound: negative counts from the end, then clamped to the length. */
  function SliceBound(i: int, n: nat): (b: nat)
    ensures b <= n
    ensures 0 <= i <= n ==> b == i
    ensures -(n as int) <= i < 0 ==> b == i + n
  {
    if i < 0 then (if i + n < 0 then 0 else i + n) else if i > n then n else i
  }

  /** `s[start:stop]` in Python. */
  function PySlice<T>(s: seq<T>, start: int, stop: int): (r: seq<T>)
    ensures 0 <= start <= stop <= |s| ==> r == s[start..stop]
    ensures var a, b := SliceBound(start, |s|), SliceBound(stop, |s|); a < b ==> r == s[a..b]
  {
    var a, b := SliceBound(start, |s|), SliceBound(stop, |s|);
    if a < b then s[a..b] else []
  }

  /** `s[i]` in Python, for an index that may count from the end. */
  function PyAt<T>(s: seq<T>, i: int): (x: T)
    requires -|s| <= i < |s|
    ensures 0 <= i ==> x == s[i]
  {
    if i < 0 then s[i + |s|] else s[i]
  }

  /**
   * One pass of the loop as written, from any `counter` below the length
   * (Python reads `lines[counter]` from the end when it is negative): the
   * counter after the pass and the mol type it appends, if any. The atom
   * count is not checked for its sign, so `lines[counter:counter + n + 1]`
   * and `counter += n + 1` may count backwards.
   */
  function PassAsWritten(lines: seq<string>, counter: int, k: nat, classify: Classifier, read: BlockReader): Result<(int, Option<MolType>)>
    requires counter < |lines|
  {
    if counter < -|lines| then Err("IndexError")
    else
      var c := classify(PyAt(lines, counter));
      if c.Err? then Err(c.error)
      else if c.value.None? then Ok((counter + 1, None))
      else
        var n := c.value.value;
        var m := read(PySlice(lines, counter, counter + n + 1), k + 1);
        if m.Err? then Err(m.error) else Ok((counter + n + 1, Some(m.value)))
  }

  /** One pass of `read` as written over the file `lines`. */
  function StepAsWritten(lines: seq<string>, counter: int, k: nat, lookup: string -> Result<Element>): Result<(int, Option<MolType>)>
    requires counter < |lines|
  {
    PassAsWritten(lines, counter, k, Classify, MolTypeReader(lookup))
  }

  /**
   * Where the count is not negative, the loop as written takes the same
   * pass as Pass: the same error, or the same counter and mol type.
   */
  lemma PassAsWrittenAgrees(lines: seq<string>, counter: nat, k: nat, classify: Classifier, read: BlockReader)
    requires counter < |lines|
    requires var c := classify(lines[counter]); !(c.Ok? && c.value.Some? && c.value.value < 0)
    ensures var s := Pass(lines, counter, k, classify, read);
            var w := PassAsWritten(lines, counter, k, classify, read);
            && (s == Ok(Skip) <==> w == Ok((counter + 1, None)))
            && (s.Ok? && s.value.Consumed? ==> w == Ok((counter + s.value.n + 1, Some(s.value.molType))))
            && (s.Err? <==> w.Err?) && (s.Err? ==> w.error == s.error)
  {
    var c := classify(lines[counter]);
    if c.Ok? && c.value.Some? {
      var n := c.value.value;
      assert PySlice(lines, counter, counter + n + 1) == Block(lines, counter, n);
    }
  }

  /** The three columns of `A -2 0.0` are tokens. */
  lemma NegativeHeaderTokens()
    ensures IsToken("A") && IsToken("-2") && IsToken("0.0")
  {
  }

  lemma NegativeHeaderSplit(line: string)
    requires line == "A -2 0.0"
    ensures line == "A" + " " + ("-2" + " " + "0.0")
  {
  }

  /** `A -2 0.0` has no blanks to strip and no comment. */
  lemma NegativeHeaderStrip(line: string)
    requires line == "A -2 0.0"
    ensures Strip(line) == line && BeforeHash(line) == line
  {
    assert forall i :: 0 <= i < |line| ==> line[i] != '#';
  }

  /** `A -2 0.0` has three words. */
  lemma NegativeHeaderWords(line: string)
    requires line == "A -2 0.0"
    ensures Words(line) == ["A", "-2", "0.0"]
  {
    NegativeHeaderTokens();
    NegativeHeaderSplit(line);
    WordsCons("-2", " ", "0.0");
    WordsOfToken("0.0");
    WordsCons("A", " ", "-2" + " " + "0.0");
  }

  /** The header `A -2 0.0` has three columns and the atom count -2. */
  lemma NegativeHeader(line: string)
    requires line == "A -2 0.0"
    ensures Classify(line) == Ok(Some(-2))
    ensures HeaderWords([line]) == ["A", "-2", "0.0"]
  {
    NegativeHeaderStrip(line);
    NegativeHeaderWords(line);
    assert Columns(line) == ["A", "-2", "0.0"];
    assert |Lower("A")| == 1;
    assert ParseInt("-2") == Some(-2) by {
      assert "-2"[1..] == "2";
    }
  }

  /** A block of only a header reads as a mol type without atoms. */
  lemma HeaderAlone(block: seq<string>, id: int, lookup: string -> Result<Element>)
    requires |block| == 1 && |HeaderWords(block)| >= 3 && ParseReal(HeaderWords(block)[2]).Some?
    ensures MolTypeOf(block, id, lookup)
            == Ok(MolType(HeaderWords(block)[0], id, ParseReal(HeaderWords(block)[2]).value, [], [], []))
  {
  }

  lemma ZeroCharge()
    ensures ParseReal("0.0") == Some(0.0)
  {
  }

  /** A header alone, `A -2 0.0`, reads as a mol type without atoms. */
  lemma HeaderOnly(block: seq<string>, id: int, lookup: string -> Result<Element>)
    requires block == ["A -2 0.0"]
    ensures MolTypeOf(block, id, lookup) == Ok(MolType("A", id, 0.0, [], [], []))
  {
    NegativeHeader(block[0]);
    ZeroCharge();
    HeaderAlone(block, id, lookup);
  }

  /**
   * With the atom count -2 the loop as written reads `A -2 0.0` as a mol
   * type without atoms and steps back to the last line; a comment there
   * brings it back to the first line, so `read` never ends and appends a
   * mol type on every round. StepAt rejects the header instead.
   */
  lemma NegativeCountLoops(lines: seq<string>, k: nat, lookup: string -> Result<Element>)
    requires lines == ["A -2 0.0", "#"]
    ensures StepAsWritten(lines, 0, k, lookup) == Ok((-1, Some(MolType("A", k + 1, 0.0, [], [], []))))
    ensures StepAsWritten(lines, -1, k + 1, lookup) == Ok((0, None))
    ensures StepAt(lines, 0, k, lookup) == Err("MoldescriptorReaderError")
  {
    NegativeHeader(lines[0]);
    assert PySlice(lines, 0, -1) == ["A -2 0.0"];
    HeaderOnly(["A -2 0.0"], k + 1, lookup);
    assert Strip("#") == "#";
    assert IsComment(lines[1]);
  }
}
