/**
 * The frame reader (PQAnalysis/io/traj_file/frame_reader.py): one frame of
 * a trajectory file is a header line (the atom count and optionally the
 * box), a comment line and one line per atom. The xyz-type lines are
 * parsed by a compiled helper, `process_lines_with_atoms`, which is a
 * parameter here; the charge lines are parsed by `_read_scalar`.
 */
module FrameReader {

  import opened Common
  import opened CellMath
  import CellPy

  /** The quantity a trajectory file holds. */
  datatype TrajectoryFormat = XYZ | VEL | FORCE | CHARGE

  /** The MD engine that wrote the file; only QMCFC changes how a frame is read. */
  datatype MDEngineFormat = PQ | PimdQmcf | Qmcfc

  /** The arguments the `Cell` of a frame is built from. */
  datatype CellArgs = CellArgs(lengths: Vec3, angles: Vec3)

  /** `Cell()`: the default lengths and right angles. */
  const DefaultCell: CellArgs := CellArgs(CellPy.DefaultLengths, CellPy.RightAngles)

  /** `float(x)` on every token, in order; a token that is no number is a ValueError. */
  function ParseReals(ws: seq<string>): (r: Result<seq<real>>)
    ensures r.Ok? <==> forall i :: 0 <= i < |ws| ==> ParseReal(ws[i]).Some?
    ensures r.Ok? ==> |r.value| == |ws| && forall i :: 0 <= i < |ws| ==> ParseReal(ws[i]) == Some(r.value[i])
    ensures r.Err? ==> r.error == "ValueError"
  {
    if ws == [] then Ok([])
    else
      var head := ParseReal(ws[0]);
      var tail := ParseReals(ws[1..]);
      if head.None? then Err("ValueError")
      else if tail.Err? then tail
      else
        assert forall i :: 1 <= i < |ws| ==> ws[i] == ws[1..][i - 1];
        Ok([head.value] + tail.value)
  }

  /**
   * `_read_header_line`: 1, 4 or 7 whitespace-separated tokens give the
   * atom count and `Cell()`, `Cell(a, b, c)` or `Cell(a, b, c, α, β, γ)`;
   * any other count is a FrameReaderError, and a token that is no number a
   * ValueError.
   */
  function ReadHeaderLine(header: string): (r: Result<(int, CellArgs)>)
    ensures var n := |Words(header)|; (n != 1 && n != 4 && n != 7) <==> r == Err("FrameReaderError")
    ensures r.Err? ==> r.error in {"FrameReaderError", "ValueError"}
    ensures r.Ok? ==> ParseInt(Words(header)[0]) == Some(r.value.0)
    ensures r.Ok? && |Words(header)| == 1 ==> r.value.1 == DefaultCell
  {
    var ws := Words(header);
    if |ws| != 1 && |ws| != 4 && |ws| != 7 then Err("FrameReaderError")
    else match ParseInt(ws[0])
      case None => Err("ValueError")
      case Some(n) =>
        match ParseReals(ws[1..])
        case Err(e) => Err(e)
        case Ok(xs) =>
          HeaderTokens(ws, xs);
          Ok((n, HeaderCell(xs)))
  }

  /** The cell of the header's numbers: none, the three lengths, or the lengths and angles. */
  function HeaderCell(xs: seq<real>): (c: CellArgs)
    requires |xs| == 0 || |xs| == 3 || |xs| == 6
    ensures |xs| == 0 ==> c == DefaultCell
    ensures |xs| == 3 ==> c == CellArgs([xs[0], xs[1], xs[2]], CellPy.RightAngles)
    ensures |xs| == 6 ==> c == CellArgs([xs[0], xs[1], xs[2]], [xs[3], xs[4], xs[5]])
  {
    if |xs| == 0 then DefaultCell
    else if |xs| == 3 then CellArgs([xs[0], xs[1], xs[2]], CellPy.RightAngles)
    else CellArgs([xs[0], xs[1], xs[2]], [xs[3], xs[4], xs[5]])
  }

  lemma HeaderTokens(ws: seq<string>, xs: seq<real>)
    requires |ws| >= 1 && ParseReals(ws[1..]) == Ok(xs)
    ensures |xs| == |ws| - 1 && forall i :: 1 <= i < |ws| ==> ParseReal(ws[i]) == Some(xs[i - 1])
  {
    forall i | 1 <= i < |ws|
      ensures ParseReal(ws[i]) == Some(xs[i - 1])
    {
      assert ws[1..][i - 1] == ws[i];
    }
  }

  /** The numbers of a 4-token header are the lengths of the cell, whose angles are right angles. */
  lemma OrthorhombicHeader(header: string)
    requires ReadHeaderLine(header).Ok? && |Words(header)| == 4
    ensures var ws := Words(header); var c := ReadHeaderLine(header).value.1;
              ParseReal(ws[1]) == Some(c.lengths[0]) && ParseReal(ws[2]) == Some(c.lengths[1])
              && ParseReal(ws[3]) == Some(c.lengths[2]) && c.angles == CellPy.RightAngles
  {
    var ws := Words(header);
    var xs := ParseReals(ws[1..]).value;
    HeaderTokens(ws, xs);
    assert ReadHeaderLine(header).value.1 == HeaderCell(xs);
  }

  /** The numbers of a 7-token header are the lengths and then the angles of the cell. */
  lemma TriclinicHeader(header: string)
    requires ReadHeaderLine(header).Ok? && |Words(header)| == 7
    ensures var ws := Words(header); var c := ReadHeaderLine(header).value.1;
              ParseReal(ws[1]) == Some(c.lengths[0]) && ParseReal(ws[2]) == Some(c.lengths[1])
              && ParseReal(ws[3]) == Some(c.lengths[2]) && ParseReal(ws[4]) == Some(c.angles[0])
              && ParseReal(ws[5]) == Some(c.angles[1]) && ParseReal(ws[6]) == Some(c.angles[2])
  {
    var ws := Words(header);
    var xs := ParseReals(ws[1..]).value;
    HeaderTokens(ws, xs);
    assert ReadHeaderLine(header).value.1 == HeaderCell(xs);
  }

  /** A header of the atom count alone gives that count and `Cell()`. */
  lemma AtomCountOnly(header: string)
    requires header == "3"
    ensures ReadHeaderLine(header) == Ok((3, DefaultCell))
  {
    WordsOfToken(header);
    assert AllDigits(header);
    assert DigitsValue(header) == 3;
  }

  /** A header of three tokens is rejected. */
  lemma ThreeTokensRejected(header: string)
    requires header == "1 2.0 3.0"
    ensures ReadHeaderLine(header) == Err("FrameReaderError")
  {
    var ws := ["1", "2.0", "3.0"];
    assert Join(ws, " ") == header;
    WordsOfJoin(ws, " ");
  }

  // ---------------------------------------------------------------------
  // Charge lines

  /** One line of a charge frame: exactly the atom name and its value. */
  function ScalarLine(line: string): (r: Result<(string, real)>)
    ensures |Words(line)| != 2 <==> r == Err("FrameReaderError")
    ensures r.Ok? ==> Words(line)[0] == r.value.0 && ParseReal(Words(line)[1]) == Some(r.value.1)
    ensures r.Err? ==> r.error in {"FrameReaderError", "ValueError"}
  {
    var ws := Words(line);
    if |ws| != 2 then Err("FrameReaderError")
    else match ParseReal(ws[1])
      case None => Err("ValueError")
      case Some(x) => Ok((ws[0], x))
  }

  /** How one atom line is read; `ScalarLine` for a charge frame. */
  type LineReader = string -> Result<(string, real)>

  /**
   * The names and values of the first `n` atom lines, read by `line`; the
   * atom lines follow the header and the comment line, and a missing one is
   * Python's IndexError.
   */
  function Scalars(lines: seq<string>, n: nat, line: LineReader): (r: Result<(seq<string>, seq<real>)>)
    ensures r.Ok? ==> |r.value.0| == n && |r.value.1| == n && (n > 0 ==> 2 + n <= |lines|)
  {
    if n == 0 then Ok(([], []))
    else
      var prev := Scalars(lines, n - 1, line);
      if prev.Err? then prev
      else if n + 1 >= |lines| then Err("IndexError")
      else
        var atom := line(lines[n + 1]);
        if atom.Err? then Err(atom.error)
        else Ok((prev.value.0 + [atom.value.0], prev.value.1 + [atom.value.1]))
  }

  /** Atom `i` has the name and value of line `2 + i`, in line order. */
  lemma {:induction false} ScalarsInOrder(lines: seq<string>, n: nat, line: LineReader)
    requires Scalars(lines, n, line).Ok?
    ensures var (names, values) := Scalars(lines, n, line).value;
            forall i :: 0 <= i < n ==> line(lines[2 + i]) == Ok((names[i], values[i]))
  {
    if n > 0 {
      ScalarsInOrder(lines, n - 1, line);
      var (names, values) := Scalars(lines, n - 1, line).value;
      var (names', values') := Scalars(lines, n, line).value;
      assert names' == names + [names'[n - 1]] && values' == values + [values'[n - 1]];
    }
  }

  /** Every line up to the atom count well formed: exactly when the charges are read. */
  lemma {:induction false} ScalarsSucceed(lines: seq<string>, n: nat, line: LineReader)
    requires 2 + n <= |lines| && forall i :: 2 <= i < 2 + n ==> line(lines[i]).Ok?
    ensures Scalars(lines, n, line).Ok?
  {
    if n > 0 {
      ScalarsSucceed(lines, n - 1, line);
      assert line(lines[n + 1]).Ok?;
    }
  }

  /**
   * `_read_scalar`: `np.zeros(n_atoms)` filled line by line, the names
   * appended alongside; a negative count is numpy's ValueError.
   */
  method ReadScalar(lines: seq<string>, nAtoms: int) returns (r: Result<(seq<string>, seq<real>)>)
    ensures nAtoms < 0 ==> r == Err("ValueError")
    ensures nAtoms >= 0 ==> r == Scalars(lines, nAtoms, ScalarLine)
  {
    r := ReadAtomLines(lines, nAtoms, ScalarLine);
  }

  /** The loop of `_read_scalar`, for any way of reading one atom line. */
  method ReadAtomLines(lines: seq<string>, nAtoms: int, line: LineReader) returns (r: Result<(seq<string>, seq<real>)>)
    ensures nAtoms < 0 ==> r == Err("ValueError")
    ensures nAtoms >= 0 ==> r == Scalars(lines, nAtoms, line)
  {
    if nAtoms < 0 {
      return Err("ValueError");
    }
    var scalar := new real[nAtoms];
    var atoms := [];
    for i := 0 to nAtoms
      invariant Scalars(lines, i, line) == Ok((atoms, scalar[..i]))
    {
      if 2 + i >= |lines| {
        FailureStays(lines, i + 1, nAtoms, line);
        return Err("IndexError");
      }
      var atom := line(lines[2 + i]);
      if atom.Err? {
        FailureStays(lines, i + 1, nAtoms, line);
        return Err(atom.error);
      }
      scalar[i] := atom.value.1;
      atoms := atoms + [atom.value.0];
      assert scalar[..i + 1] == scalar[..i] + [atom.value.1];
    }
    assert scalar[..nAtoms] == scalar[..];
    return Ok((atoms, scalar[..]));
  }

  /** Once a line fails, reading more lines fails the same way. */
  lemma {:induction false} FailureStays(lines: seq<string>, i: nat, n: nat, line: LineReader)
    requires i <= n && Scalars(lines, i, line).Err?
    ensures Scalars(lines, n, line) == Scalars(lines, i, line)
    decreases n
  {
    if i < n {
      FailureStays(lines, i, n - 1, line);
    }
  }

  // ---------------------------------------------------------------------
  // QMCFC

  /** `value[1:]`: Python's slice is empty for an empty sequence. */
  function Tail<V>(s: seq<V>): (r: seq<V>)
    ensures s != [] ==> [s[0]] + r == s
    ensures s == [] ==> r == []
  {
    if s == [] then [] else s[1..]
  }

  /**
   * `_check_qmcfc`: in QMCFC format the first atom is the dummy `X` (in
   * either case), which is dropped from the names and from the values; a
   * frame without atoms is an IndexError and a first atom of another name
   * a FrameReaderError. Other engines pass both through.
   */
  function CheckQmcfc<V>(engine: MDEngineFormat, atoms: seq<string>, values: seq<V>): (r: Result<(seq<V>, seq<string>)>)
    ensures engine != Qmcfc ==> r == Ok((values, atoms))
    ensures engine == Qmcfc ==> (r.Ok? <==> atoms != [] && Upper(atoms[0]) == "X")
    ensures engine == Qmcfc && r.Ok? ==> atoms == [atoms[0]] + r.value.1 && (values != [] ==> values == [values[0]] + r.value.0)
    ensures engine == Qmcfc && r.Ok? ==> |r.value.1| == |atoms| - 1 && |r.value.0| == if values == [] then 0 else |values| - 1
  {
    if engine == Qmcfc then
      if atoms == [] then Err("IndexError")
      else if Upper(atoms[0]) != "X" then Err("FrameReaderError")
      else Ok((Tail(values), atoms[1..]))
    else Ok((values, atoms))
  }

  /** Both spellings of the dummy atom are accepted. */
  lemma DummyInEitherCase<V>(rest: seq<string>, values: seq<V>)
    ensures CheckQmcfc(Qmcfc, ["x"] + rest, values).Ok?
    ensures CheckQmcfc(Qmcfc, ["X"] + rest, values).Ok?
  {
    assert (["x"] + rest)[0] == "x";
    assert Upper("x") == "X";
    assert (["X"] + rest)[0] == "X";
    assert Upper("X") == "X";
  }

  // ---------------------------------------------------------------------
  // Reading a frame

  /** The per-atom quantity a frame carries. */
  datatype Values =
    | Positions(pos: seq<Vec3>)
    | Velocities(vel: seq<Vec3>)
    | Forces(forces: seq<Vec3>)
    | Charges(charges: seq<real>)

  /** An `AtomicSystem` as the reader builds it: atom names, cell and one quantity. */
  datatype Frame = Frame(names: seq<string>, cell: CellArgs, values: Values)

  /** `process_lines_with_atoms(lines, n_atoms)`: the names and the three columns after them. */
  type XyzParser = (seq<string>, int) -> Result<(seq<string>, seq<Vec3>)>

  /** `splitted_frame_string[2:]`: the lines after the header and the comment, if any. */
  function AtomLines(lines: seq<string>): (r: seq<string>)
    ensures |lines| >= 2 ==> r == lines[2..]
    ensures |lines| < 2 ==> r == []
  {
    if |lines| < 2 then [] else lines[2..]
  }

  /** `_read_xyz` turns the parser's ValueError into a FrameReaderError and lets anything else through. */
  function XyzError(e: string): string
  {
    if e == "ValueError" then "FrameReaderError" else e
  }

  /** The header line: the text before the first newline. */
  function HeaderLine(frame: string): string
  {
    Split(frame, '\n')[0]
  }

  /**
   * `read`: XYZ, VEL and FORCE files read three columns per atom into
   * positions, velocities or forces; CHARGE files read one value per atom.
   * The cell always comes from the header line, and the atom names and
   * values are the ones `_check_qmcfc` leaves.
   */
  method Read(frame: string, engine: MDEngineFormat, format: TrajectoryFormat, readXyz: XyzParser)
    returns (r: Result<Frame>)
    ensures ReadHeaderLine(HeaderLine(frame)).Err? ==> r == Err(ReadHeaderLine(HeaderLine(frame)).error)
    ensures r.Ok? ==> ReadHeaderLine(HeaderLine(frame)).Ok? && r.value.cell == ReadHeaderLine(HeaderLine(frame)).value.1
    ensures r.Ok? ==> (format == XYZ <==> r.value.values.Positions?)
    ensures r.Ok? ==> (format == VEL <==> r.value.values.Velocities?)
    ensures r.Ok? ==> (format == FORCE <==> r.value.values.Forces?)
    ensures r.Ok? ==> (format == CHARGE <==> r.value.values.Charges?)
    ensures r.Ok? && format != CHARGE ==> var lines := Split(frame, '\n');
              var n := ReadHeaderLine(HeaderLine(frame)).value.0;
              readXyz(AtomLines(lines), n).Ok? &&
              CheckQmcfc(engine, readXyz(AtomLines(lines), n).value.0, readXyz(AtomLines(lines), n).value.1) ==
                Ok((VectorsOf(r.value.values), r.value.names))
    ensures ReadHeaderLine(HeaderLine(frame)).Ok? && format != CHARGE ==> var lines := Split(frame, '\n');
              var n := ReadHeaderLine(HeaderLine(frame)).value.0;
              && (readXyz(AtomLines(lines), n).Err? ==> r == Err(XyzError(readXyz(AtomLines(lines), n).error)))
              && (readXyz(AtomLines(lines), n).Ok? ==>
                    var qm := CheckQmcfc(engine, readXyz(AtomLines(lines), n).value.0, readXyz(AtomLines(lines), n).value.1);
                    qm.Err? ==> r == Err(qm.error))
    ensures ReadHeaderLine(HeaderLine(frame)).Ok? && format == CHARGE ==> var lines := Split(frame, '\n');
              var n := ReadHeaderLine(HeaderLine(frame)).value.0;
              && (n < 0 ==> r == Err("ValueError"))
              && (n >= 0 && Scalars(lines, n, ScalarLine).Err? ==> r == Err(Scalars(lines, n, ScalarLine).error))
    ensures r.Ok? && format == CHARGE ==> var lines := Split(frame, '\n');
              var n := ReadHeaderLine(HeaderLine(frame)).value.0;
              n >= 0 && Scalars(lines, n, ScalarLine).Ok? &&
              CheckQmcfc(engine, Scalars(lines, n, ScalarLine).value.0, Scalars(lines, n, ScalarLine).value.1) ==
                Ok((r.value.values.charges, r.value.names))
  {
    var lines := Split(frame, '\n');
    var header := ReadHeaderLine(lines[0]);
    if header.Err? {
      return Err(header.error);
    }
    var (n, cell) := header.value;
    if format == CHARGE {
      var read := ReadScalar(lines, n);
      if read.Err? {
        return Err(read.error);
      }
      var checked := CheckQmcfc(engine, read.value.0, read.value.1);
      if checked.Err? {
        return Err(checked.error);
      }
      return Ok(Frame(checked.value.1, cell, Charges(checked.value.0)));
    }
    var read := readXyz(AtomLines(lines), n);
    if read.Err? {
      return Err(XyzError(read.error));
    }
    var checked := CheckQmcfc(engine, read.value.0, read.value.1);
    if checked.Err? {
      return Err(checked.error);
    }
    var (values, names) := checked.value;
    var q := match format
      case XYZ => Positions(values)
      case VEL => Velocities(values)
      case FORCE => Forces(values);
    return Ok(Frame(names, cell, q));
  }

  /** The vectors of a position, velocity or force frame. */
  function VectorsOf(v: Values): seq<Vec3>
  {
    match v
    case Positions(p) => p
    case Velocities(p) => p
    case Forces(p) => p
    case Charges(_) => []
  }
}
