/**
 * The restart file reader (PQAnalysis/io/restart_file/restart_reader.py):
 * a restart file holds a box line and one line per atom with its name, id,
 * residue id, position, velocity and force; QMCFC files add nine columns of
 * the previous step, which are ignored. The file is given as its lines.
 */
module RestartReader {

  import opened Common
  import opened CellMath
  import CellPy
  import FrameReader

  type CellArgs = FrameReader.CellArgs

  // ---------------------------------------------------------------------
  // The constructor

  /**
   * `__init__`: a moldescriptor file and reference residues are two ways to
   * give the same thing, so giving both is a RestartFileReaderError.
   */
  function CheckSources<R>(moldescriptorFilename: Option<string>, referenceResidues: Option<R>): (r: Result<()>)
    ensures r.Err? <==> moldescriptorFilename.Some? && referenceResidues.Some?
    ensures r.Err? ==> r.error == "RestartFileReaderError"
  {
    if moldescriptorFilename.Some? && referenceResidues.Some? then Err("RestartFileReaderError") else Ok(())
  }

  // ---------------------------------------------------------------------
  // Sorting the lines

  /** What `read` makes of one line of the file. */
  datatype LineKind = Skipped | BoxLine(tokens: seq<string>) | AtomLine(tokens: seq<string>)

  /**
   * A line is skipped when it is a `#` comment, blank, or its first token
   * is `step` or `chi` in any case; a first token `box` in any case makes it
   * the box line; any other line is an atom line. The tokens are those of
   * the stripped line.
   */
  function Kind(line: string): (k: LineKind)
    ensures k.BoxLine? ==> k.tokens == Words(Strip(line)) && k.tokens != [] && Lower(k.tokens[0]) == "box"
    ensures k.AtomLine? ==> k.tokens == Words(Strip(line)) && k.tokens != []
    ensures k.AtomLine? ==> Lower(k.tokens[0]) != "box" && Lower(k.tokens[0]) != "step" && Lower(k.tokens[0]) != "chi"
    ensures Words(Strip(line)) == [] ==> k.Skipped?
    ensures Strip(line) != [] && Strip(line)[0] == '#' ==> k.Skipped?
  {
    var s := Strip(line);
    if |s| > 0 && s[0] == '#' then Skipped
    else
      var ws := Words(s);
      if ws == [] then Skipped
      else
        var key := Lower(ws[0]);
        if key == "box" then BoxLine(ws)
        else if key == "step" || key == "chi" then Skipped
        else AtomLine(ws)
  }

  /** The keywords are recognised in any case. */
  lemma KeywordsInAnyCase(line: string, rest: string)
    requires line == "BoX" + rest && (rest == [] || IsSpace(rest[0]))
    ensures Kind(line).BoxLine?
  {
    var s := Strip(line);
    StripTokenThen("BoX", rest);
    assert s[..3] == "BoX";
    WordsOfTokenThen("BoX", s[3..]);
    assert s == "BoX" + s[3..];
    assert Lower("BoX") == "box";
  }

  /** Stripping a line that starts with a token keeps the token in front, followed by a blank or nothing. */
  lemma StripTokenThen(tok: string, rest: string)
    requires IsToken(tok) && (rest == [] || IsSpace(rest[0]))
    ensures |Strip(tok + rest)| >= |tok| && Strip(tok + rest)[..|tok|] == tok
    ensures |Strip(tok + rest)| == |tok| || IsSpace(Strip(tok + rest)[|tok|])
  {
    StripFrontToken(tok + rest, |tok|);
  }

  lemma {:induction false} StripFrontToken(s: string, n: nat)
    requires 0 < n <= |s| && NoSpace(s[..n]) && (n == |s| || IsSpace(s[n]))
    ensures |Strip(s)| >= n && Strip(s)[..n] == s[..n]
    ensures |Strip(s)| == n || IsSpace(Strip(s)[n])
    decreases |s|
  {
    if IsSpace(s[|s| - 1]) {
      assert n < |s|;
      var t := s[..|s| - 1];
      assert t[..n] == s[..n];
      if n < |t| {
        StripFrontToken(t, n);
      } else {
        assert Strip(t) == t;
      }
    }
  }

  /**
   * The box line: one token is `Cell()`, four give `Cell(a, b, c)` and
   * seven `Cell(a, b, c, α, β, γ)`; any other count is a
   * RestartFileReaderError, and a value that is no number a ValueError.
   */
  function ParseBox(tokens: seq<string>): (r: Result<CellArgs>)
    ensures (|tokens| != 1 && |tokens| != 4 && |tokens| != 7) <==> r == Err("RestartFileReaderError")
    ensures r.Err? ==> r.error in {"RestartFileReaderError", "ValueError"}
    ensures |tokens| == 1 ==> r == Ok(FrameReader.DefaultCell)
  {
    if |tokens| != 1 && |tokens| != 4 && |tokens| != 7 then Err("RestartFileReaderError")
    else if |tokens| == 1 then Ok(FrameReader.DefaultCell)
    else
      var lengths := ParseVec(tokens[1..4]);
      if lengths.None? then Err("ValueError")
      else if |tokens| == 4 then Ok(FrameReader.CellArgs(lengths.value, CellPy.RightAngles))
      else
        var angles := ParseVec(tokens[4..]);
        if angles.None? then Err("ValueError")
        else Ok(FrameReader.CellArgs(lengths.value, angles.value))
  }

  /** A box line of four tokens gives those lengths and right angles. */
  lemma OrthorhombicBox(tokens: seq<string>)
    requires |tokens| == 4 && ParseBox(tokens).Ok?
    ensures var c := ParseBox(tokens).value;
            ParseReal(tokens[1]) == Some(c.lengths[0]) && ParseReal(tokens[2]) == Some(c.lengths[1])
            && ParseReal(tokens[3]) == Some(c.lengths[2]) && c.angles == CellPy.RightAngles
  {
    assert tokens[1..4][0] == tokens[1] && tokens[1..4][1] == tokens[2] && tokens[1..4][2] == tokens[3];
  }

  /** A box line of seven tokens gives those lengths and angles. */
  lemma TriclinicBox(tokens: seq<string>)
    requires |tokens| == 7 && ParseBox(tokens).Ok?
    ensures var c := ParseBox(tokens).value;
            ParseReal(tokens[1]) == Some(c.lengths[0]) && ParseReal(tokens[2]) == Some(c.lengths[1])
            && ParseReal(tokens[3]) == Some(c.lengths[2]) && ParseReal(tokens[4]) == Some(c.angles[0])
            && ParseReal(tokens[5]) == Some(c.angles[1]) && ParseReal(tokens[6]) == Some(c.angles[2])
  {
    assert tokens[1..4][0] == tokens[1] && tokens[1..4][1] == tokens[2] && tokens[1..4][2] == tokens[3];
    assert tokens[4..][0] == tokens[4] && tokens[4..][1] == tokens[5] && tokens[4..][2] == tokens[6];
  }

  /**
   * The loop of `read` over the first lines: the cell of the latest box line
   * (`Cell()` before any) and the atom lines with their tokens re-joined by
   * single blanks; a bad box line stops the reading.
   */
  function Scan(file: seq<string>): (r: Result<(CellArgs, seq<string>)>)
    decreases |file|
  {
    if file == [] then Ok((FrameReader.DefaultCell, []))
    else
      var prev := Scan(file[..|file| - 1]);
      if prev.Err? then prev
      else
        var k := Kind(file[|file| - 1]);
        if k.Skipped? then prev
        else if k.BoxLine? then
          var c := ParseBox(k.tokens);
          if c.Err? then Err(c.error) else Ok((c.value, prev.value.1))
        else Ok((prev.value.0, prev.value.1 + [Join(k.tokens, " ")]))
  }

  /** The atom lines of a file, in order, with their tokens joined by single blanks. */
  function AtomLinesOf(file: seq<string>): (r: seq<string>)
    ensures forall j :: 0 <= j < |r| ==> exists i :: 0 <= i < |file| && Kind(file[i]).AtomLine? && r[j] == Join(Kind(file[i]).tokens, " ")
  {
    if file == [] then []
    else
      var init := file[..|file| - 1];
      var last := file[|file| - 1];
      var prev := AtomLinesOf(init);
      assert forall i :: 0 <= i < |init| ==> init[i] == file[i];
      if Kind(last).AtomLine? then
        assert file[|file| - 1] == last;
        prev + [Join(Kind(last).tokens, " ")]
      else prev
  }

  /** The tokens of the last box line, if the file has one. */
  function LastBox(file: seq<string>): (r: Option<seq<string>>)
    ensures r.Some? ==> exists i :: 0 <= i < |file| && Kind(file[i]) == BoxLine(r.value)
    ensures r.None? ==> forall i :: 0 <= i < |file| ==> !Kind(file[i]).BoxLine?
  {
    if file == [] then None
    else
      var last := file[|file| - 1];
      var init := file[..|file| - 1];
      if Kind(last).BoxLine? then Some(Kind(last).tokens)
      else
        var r := LastBox(init);
        assert forall i :: 0 <= i < |init| ==> init[i] == file[i];
        r
  }

  /**
   * What `read` collects: every atom line in file order, and the cell of the
   * last box line, or `Cell()` when there is none.
   */
  lemma {:induction false} ScanCollects(file: seq<string>)
    requires Scan(file).Ok?
    ensures Scan(file).value.1 == AtomLinesOf(file)
    ensures LastBox(file).None? ==> Scan(file).value.0 == FrameReader.DefaultCell
    ensures LastBox(file).Some? ==> ParseBox(LastBox(file).value) == Ok(Scan(file).value.0)
  {
    if file != [] {
      ScanCollects(file[..|file| - 1]);
    }
  }

  /** `read` fails only on a box line that does not parse. */
  lemma {:induction false} ScanFails(file: seq<string>)
    requires Scan(file).Err?
    ensures exists i :: 0 <= i < |file| && Kind(file[i]).BoxLine? && ParseBox(Kind(file[i]).tokens).Err?
  {
    var n := |file|;
    var init := file[..n - 1];
    if Scan(init).Err? {
      ScanFails(init);
      var i :| 0 <= i < |init| && Kind(init[i]).BoxLine? && ParseBox(Kind(init[i]).tokens).Err?;
      assert init[i] == file[i];
    } else {
      assert Kind(file[n - 1]).BoxLine? && ParseBox(Kind(file[n - 1]).tokens).Err?;
    }
  }

  /** Re-splitting a collected atom line gives back the tokens of the file's line. */
  lemma AtomLineTokens(line: string)
    requires Kind(line).AtomLine?
    ensures Words(Join(Kind(line).tokens, " ")) == Kind(line).tokens
  {
    WordsOfJoin(Kind(line).tokens, " ");
  }

  /** The loop of `read`: the cell is replaced at each box line, atom lines are appended. */
  method ReadLines(file: seq<string>) returns (r: Result<(CellArgs, seq<string>)>)
    ensures r == Scan(file)
  {
    var cell := FrameReader.DefaultCell;
    var atomLines := [];
    for i := 0 to |file|
      invariant Scan(file[..i]) == Ok((cell, atomLines))
    {
      assert file[..i + 1][..i] == file[..i];
      var k := Kind(file[i]);
      if k.BoxLine? {
        var c := ParseBox(k.tokens);
        if c.Err? {
          ScanStaysFailed(file, i + 1);
          return Err(c.error);
        }
        cell := c.value;
      } else if k.AtomLine? {
        atomLines := atomLines + [Join(k.tokens, " ")];
      }
    }
    assert file[..|file|] == file;
    return Ok((cell, atomLines));
  }

  lemma {:induction false} ScanStaysFailed(file: seq<string>, i: nat)
    requires i <= |file| && Scan(file[..i]).Err?
    ensures Scan(file) == Scan(file[..i])
    decreases |file| - i
  {
    if i < |file| {
      assert file[..i + 1][..i] == file[..i];
      ScanStaysFailed(file, i + 1);
    } else {
      assert file[..i] == file;
    }
  }

  // ---------------------------------------------------------------------
  // Atom lines

  /** What one atom line gives; the atom id and the QMCFC columns are not kept. */
  datatype AtomRow = AtomRow(name: string, residue: int, pos: Vec3, vel: Vec3, force: Vec3)

  /**
   * One atom line: 12 or 21 tokens, else a RestartFileReaderError. The name
   * is column 0, the residue id column 2, and position, velocity and force
   * columns 3-5, 6-8 and 9-11; a value that is no number is a ValueError.
   */
  function ParseAtomLine(line: string): (r: Result<AtomRow>)
    ensures var n := |Words(Strip(line))|; (n != 12 && n != 21) <==> r == Err("RestartFileReaderError")
    ensures r.Err? ==> r.error in {"RestartFileReaderError", "ValueError"}
    ensures r.Ok? ==> var ws := Words(Strip(line));
              r.value.name == ws[0] && ParseInt(ws[2]) == Some(r.value.residue)
  {
    AtomRowOf(Words(Strip(line)))
  }

  /** The row of the tokens of an atom line. */
  function AtomRowOf(ws: seq<string>): (r: Result<AtomRow>)
    ensures (|ws| != 12 && |ws| != 21) <==> r == Err("RestartFileReaderError")
    ensures r.Err? ==> r.error in {"RestartFileReaderError", "ValueError"}
    ensures r.Ok? ==> r.value.name == ws[0] && ParseInt(ws[2]) == Some(r.value.residue)
    ensures r.Ok? ==> ParseVec(ws[3..6]) == Some(r.value.pos) && ParseVec(ws[6..9]) == Some(r.value.vel)
                      && ParseVec(ws[9..12]) == Some(r.value.force)
  {
    if |ws| != 12 && |ws| != 21 then Err("RestartFileReaderError")
    else
      var residue := ParseInt(ws[2]);
      var pos := ParseVec(ws[3..6]);
      var vel := ParseVec(ws[6..9]);
      var force := ParseVec(ws[9..12]);
      if residue.None? || pos.None? || vel.None? || force.None? then Err("ValueError")
      else Ok(AtomRow(ws[0], residue.value, pos.value, vel.value, force.value))
  }

  /** `np.array([float(l) for l in ts])` for three tokens. */
  function ParseVec(ts: seq<string>): (r: Option<Vec3>)
    requires |ts| == 3
    ensures r.Some? <==> ParseReal(ts[0]).Some? && ParseReal(ts[1]).Some? && ParseReal(ts[2]).Some?
    ensures r.Some? ==> ParseReal(ts[0]) == Some(r.value[0]) && ParseReal(ts[1]) == Some(r.value[1])
                        && ParseReal(ts[2]) == Some(r.value[2])
  {
    var x, y, z := ParseReal(ts[0]), ParseReal(ts[1]), ParseReal(ts[2]);
    if x.None? || y.None? || z.None? then None
    else
      var v: Vec3 := [x.value, y.value, z.value];
      Some(v)
  }

  /** The nine QMCFC columns of the previous step change nothing. */
  lemma PreviousStepIgnored(ws: seq<string>, previous: seq<string>)
    requires |ws| == 12 && |previous| == 9
    ensures AtomRowOf(ws + previous) == AtomRowOf(ws)
  {
    var w := ws + previous;
    assert w[0] == ws[0] && w[2] == ws[2];
    assert w[3..6] == ws[3..6] && w[6..9] == ws[6..9] && w[9..12] == ws[9..12];
  }

  /** The atoms of a restart file, column by column. */
  datatype RestartFrame = RestartFrame(
    names: seq<string>, residues: seq<int>,
    pos: seq<Vec3>, vel: seq<Vec3>, forces: seq<Vec3>,
    cell: CellArgs)

  /** How one atom line is read; `ParseAtomLine` for a restart file. */
  type RowReader = string -> Result<AtomRow>

  /** The rows of the atom lines read by `row`, stopping at the first that fails. */
  function Rows(lines: seq<string>, row: RowReader): (r: Result<seq<AtomRow>>)
    ensures r.Ok? ==> |r.value| == |lines| && forall i :: 0 <= i < |lines| ==> row(lines[i]) == Ok(r.value[i])
    ensures r.Err? ==> exists i :: 0 <= i < |lines| && row(lines[i]) == Err(r.error)
  {
    if lines == [] then Ok([])
    else
      var prev := Rows(lines[..|lines| - 1], row);
      assert forall i :: 0 <= i < |lines| - 1 ==> lines[..|lines| - 1][i] == lines[i];
      if prev.Err? then prev
      else
        var a := row(lines[|lines| - 1]);
        if a.Err? then Err(a.error) else Ok(prev.value + [a.value])
  }

  /** The frame built from rows: one atom per row, in order, with no atoms an error. */
  function FrameOf(rows: seq<AtomRow>, cell: CellArgs): (r: Result<RestartFrame>)
    ensures rows == [] <==> r == Err("RestartFileReaderError")
    ensures r.Ok? ==> var f := r.value;
              |f.names| == |f.residues| == |f.pos| == |f.vel| == |f.forces| == |rows| && f.cell == cell
              && forall i :: 0 <= i < |rows| ==>
                   f.names[i] == rows[i].name && f.residues[i] == rows[i].residue
                   && f.pos[i] == rows[i].pos && f.vel[i] == rows[i].vel && f.forces[i] == rows[i].force
  {
    if rows == [] then Err("RestartFileReaderError")
    else Ok(RestartFrame(
      seq(|rows|, i requires 0 <= i < |rows| => rows[i].name),
      seq(|rows|, i requires 0 <= i < |rows| => rows[i].residue),
      seq(|rows|, i requires 0 <= i < |rows| => rows[i].pos),
      seq(|rows|, i requires 0 <= i < |rows| => rows[i].vel),
      seq(|rows|, i requires 0 <= i < |rows| => rows[i].force),
      cell))
  }

  /** `_parse_atoms`. */
  method ParseAtoms(lines: seq<string>, cell: CellArgs) returns (r: Result<RestartFrame>)
    ensures Rows(lines, ParseAtomLine).Err? ==> r == Err(Rows(lines, ParseAtomLine).error)
    ensures Rows(lines, ParseAtomLine).Ok? ==> r == FrameOf(Rows(lines, ParseAtomLine).value, cell)
  {
    r := CollectAtoms(lines, cell, ParseAtomLine);
  }

  /**
   * The loop of `_parse_atoms`, for any way of reading one atom line: each
   * line appends to the name, residue, position, velocity and force lists.
   */
  method CollectAtoms(lines: seq<string>, cell: CellArgs, row: RowReader) returns (r: Result<RestartFrame>)
    ensures Rows(lines, row).Err? ==> r == Err(Rows(lines, row).error)
    ensures Rows(lines, row).Ok? ==> r == FrameOf(Rows(lines, row).value, cell)
  {
    var names: seq<string>, residues: seq<int> := [], [];
    var positions: seq<Vec3>, velocities: seq<Vec3>, forces: seq<Vec3> := [], [], [];
    ghost var rows: seq<AtomRow> := [];
    for i := 0 to |lines|
      invariant Rows(lines[..i], row) == Ok(rows)
      invariant |names| == |residues| == |positions| == |velocities| == |forces| == |rows| == i
      invariant forall j :: 0 <= j < i ==>
                  names[j] == rows[j].name && residues[j] == rows[j].residue
                  && positions[j] == rows[j].pos && velocities[j] == rows[j].vel && forces[j] == rows[j].force
    {
      assert lines[..i + 1][..i] == lines[..i];
      var a := row(lines[i]);
      if a.Err? {
        RowsStayFailed(lines, i + 1, row);
        return Err(a.error);
      }
      names := names + [a.value.name];
      residues := residues + [a.value.residue];
      positions := positions + [a.value.pos];
      velocities := velocities + [a.value.vel];
      forces := forces + [a.value.force];
      rows := rows + [a.value];
    }
    assert lines[..|lines|] == lines;
    if names == [] {
      return Err("RestartFileReaderError");
    }
    r := Ok(RestartFrame(names, residues, positions, velocities, forces, cell));
    FrameOfColumns(rows, cell, r.value);
  }

  lemma FrameOfColumns(rows: seq<AtomRow>, cell: CellArgs, f: RestartFrame)
    requires rows != [] && f.cell == cell
    requires |f.names| == |f.residues| == |f.pos| == |f.vel| == |f.forces| == |rows|
    requires forall j :: 0 <= j < |rows| ==>
               f.names[j] == rows[j].name && f.residues[j] == rows[j].residue
               && f.pos[j] == rows[j].pos && f.vel[j] == rows[j].vel && f.forces[j] == rows[j].force
    ensures FrameOf(rows, cell) == Ok(f)
  {
    var g := FrameOf(rows, cell).value;
    assert g.names == f.names && g.residues == f.residues;
    assert g.pos == f.pos && g.vel == f.vel && g.forces == f.forces;
  }

  lemma {:induction false} RowsStayFailed(lines: seq<string>, i: nat, row: RowReader)
    requires i <= |lines| && Rows(lines[..i], row).Err?
    ensures Rows(lines, row) == Rows(lines[..i], row)
    decreases |lines| - i
  {
    if i < |lines| {
      assert lines[..i + 1][..i] == lines[..i];
      RowsStayFailed(lines, i + 1, row);
    } else {
      assert lines[..i] == lines;
    }
  }

  // ---------------------------------------------------------------------
  // read

  /** `read`: sort the lines, then parse the atom lines with the cell found. */
  method Read(file: seq<string>) returns (r: Result<RestartFrame>)
    ensures Scan(file).Err? ==> r == Err(Scan(file).error)
    ensures Scan(file).Ok? ==> var (cell, atomLines) := Scan(file).value;
              (Rows(atomLines, ParseAtomLine).Err? ==> r == Err(Rows(atomLines, ParseAtomLine).error))
              && (Rows(atomLines, ParseAtomLine).Ok? ==> r == FrameOf(Rows(atomLines, ParseAtomLine).value, cell))
  {
    var lines := ReadLines(file);
    if lines.Err? {
      return Err(lines.error);
    }
    var (cell, atomLines) := lines.value;
    r := ParseAtoms(atomLines, cell);
  }

  /** A file without atom lines is rejected, whatever its box. */
  lemma NoAtomsRejected(file: seq<string>)
    requires Scan(file).Ok? && forall i :: 0 <= i < |file| ==> !Kind(file[i]).AtomLine?
    ensures Rows(Scan(file).value.1, ParseAtomLine) == Ok([])
    ensures FrameOf([], Scan(file).value.0) == Err("RestartFileReaderError")
  {
    ScanCollects(file);
    NoAtomLines(file);
  }

  lemma {:induction false} NoAtomLines(file: seq<string>)
    requires forall i :: 0 <= i < |file| ==> !Kind(file[i]).AtomLine?
    ensures AtomLinesOf(file) == []
  {
    if file != [] {
      NoAtomLines(file[..|file| - 1]);
    }
  }
}
