/**
 * The restart file writer (PQAnalysis/io/restart_file/restart_writer.py):
 * a box line, then one line per atom with its name, counter, residue id,
 * position, velocity and force. Python's `str` of a float is the parameter
 * `fmt`; writing the lines to a file is left to the caller.
 */
module RestartWriter {

  import opened Common
  import opened CellMath
  import opened AtomicSystems
  import FrameReader
  import RestartReader

  type MDEngineFormat = FrameReader.MDEngineFormat

  /** `f"{x} {y} {z}"`. */
  function Triple(v: Vec3, fmt: real -> string): string
  {
    Join([fmt(v[0]), fmt(v[1]), fmt(v[2])], " ")
  }

  /** `_get_box_line`: `Box`, two blanks, the lengths, two blanks, the angles. */
  function BoxLine(lengths: Vec3, angles: Vec3, fmt: real -> string): string
  {
    "Box" + "  " + Triple(lengths, fmt) + "  " + Triple(angles, fmt)
  }

  /** `fmt` prints each coordinate of `v` as one token, without blanks. */
  predicate TokensVec(fmt: real -> string, v: Vec3)
  {
    IsToken(fmt(v[0])) && IsToken(fmt(v[1])) && IsToken(fmt(v[2]))
  }

  /** `float()` reads each printed coordinate of `v` back as that coordinate. */
  predicate ReadsBack(fmt: real -> string, x: real)
  {
    ParseReal(fmt(x)) == Some(x)
  }

  predicate ReadsBackVec(fmt: real -> string, v: Vec3)
  {
    ReadsBack(fmt, v[0]) && ReadsBack(fmt, v[1]) && ReadsBack(fmt, v[2])
  }

  lemma WordsOfTriple(v: Vec3, fmt: real -> string)
    requires TokensVec(fmt, v)
    ensures Words(Triple(v, fmt)) == [fmt(v[0]), fmt(v[1]), fmt(v[2])]
  {
    WordsOfJoin([fmt(v[0]), fmt(v[1]), fmt(v[2])], " ");
  }

  /** A box line splits into `Box`, the three lengths and the three angles, as printed. */
  lemma BoxLineTokens(lengths: Vec3, angles: Vec3, fmt: real -> string)
    requires TokensVec(fmt, lengths) && TokensVec(fmt, angles)
    ensures Words(BoxLine(lengths, angles, fmt))
              == ["Box", fmt(lengths[0]), fmt(lengths[1]), fmt(lengths[2]), fmt(angles[0]), fmt(angles[1]), fmt(angles[2])]
  {
    var l, a := Triple(lengths, fmt), Triple(angles, fmt);
    WordsOfTriple(lengths, fmt);
    WordsOfTriple(angles, fmt);
    WordsOfToken("Box");
    assert "Box" + "  " + l + "  " + a == ("Box" + "  " + l) + "  " + a;
    WordsAppend("Box" + "  " + l, "  ", a);
    WordsAppend("Box", "  ", l);
  }

  /** The restart reader takes the written box line back to the same lengths and angles. */
  lemma BoxLineRoundTrip(lengths: Vec3, angles: Vec3, fmt: real -> string)
    requires TokensVec(fmt, lengths) && TokensVec(fmt, angles)
    requires ReadsBackVec(fmt, lengths) && ReadsBackVec(fmt, angles)
    ensures var ws := Words(BoxLine(lengths, angles, fmt));
            |ws| == 7 && ws[0] == "Box"
            && RestartReader.ParseBox(ws) == Ok(FrameReader.CellArgs(lengths, angles))
  {
    BoxLineTokens(lengths, angles, fmt);
    BoxOfTokens(Words(BoxLine(lengths, angles, fmt)), lengths, angles, fmt);
  }

  lemma BoxOfTokens(ws: seq<string>, lengths: Vec3, angles: Vec3, fmt: real -> string)
    requires ws == ["Box", fmt(lengths[0]), fmt(lengths[1]), fmt(lengths[2]), fmt(angles[0]), fmt(angles[1]), fmt(angles[2])]
    requires ReadsBackVec(fmt, lengths) && ReadsBackVec(fmt, angles)
    ensures RestartReader.ParseBox(ws) == Ok(FrameReader.CellArgs(lengths, angles))
  {
    BoxColumns(ws, lengths, angles, fmt);
    VecOf(ws[1..4], lengths, fmt);
    VecOf(ws[4..], angles, fmt);
    BoxOfVecs(ws, lengths, angles);
  }

  lemma BoxColumns(ws: seq<string>, lengths: Vec3, angles: Vec3, fmt: real -> string)
    requires ws == ["Box", fmt(lengths[0]), fmt(lengths[1]), fmt(lengths[2]), fmt(angles[0]), fmt(angles[1]), fmt(angles[2])]
    ensures ws[1..4] == [fmt(lengths[0]), fmt(lengths[1]), fmt(lengths[2])]
    ensures ws[4..] == [fmt(angles[0]), fmt(angles[1]), fmt(angles[2])]
  {
  }

  lemma BoxOfVecs(ws: seq<string>, lengths: Vec3, angles: Vec3)
    requires |ws| == 7
    requires RestartReader.ParseVec(ws[1..4]) == Some(lengths) && RestartReader.ParseVec(ws[4..]) == Some(angles)
    ensures RestartReader.ParseBox(ws) == Ok(FrameReader.CellArgs(lengths, angles))
  {
  }

  // ---------------------------------------------------------------------
  // Atom lines

  /** The `atom_counter` argument: nothing, one integer for all atoms, or one per atom. */
  datatype AtomCounter = NoCounter | Single(c: int) | PerAtom(cs: seq<int>)

  /**
   * The counter of each atom: the given array when its length is the atom
   * count (else a RestartFileWriterError), the one integer repeated, or
   * `range(n_atoms)`.
   */
  function Counters(counter: AtomCounter, n: nat): (r: Result<seq<int>>)
    ensures counter.PerAtom? ==> (r.Ok? <==> |counter.cs| == n)
    ensures counter.PerAtom? && r.Ok? ==> r.value == counter.cs
    ensures r.Err? ==> r.error == "RestartFileWriterError"
    ensures r.Ok? ==> |r.value| == n
    ensures counter.Single? ==> r.Ok? && forall i :: 0 <= i < n ==> r.value[i] == counter.c
    ensures counter.NoCounter? ==> r.Ok? && forall i :: 0 <= i < n ==> r.value[i] == i
  {
    match counter
    case PerAtom(cs) => if |cs| != n then Err("RestartFileWriterError") else Ok(cs)
    case Single(c) => Ok(seq(n, _ => c))
    case NoCounter => Ok(seq(n, i => i))
  }

  /**
   * One atom line: name, counter and residue id four blanks apart, four
   * blanks, then the nine numbers one blank apart; other engines than PQ
   * repeat the nine numbers once more.
   */
  function AtomLine(name: string, counter: int, residue: int, pos: Vec3, vel: Vec3, force: Vec3,
                    engine: MDEngineFormat, fmt: real -> string): string
  {
    var numbers := Triple(pos, fmt) + " " + Triple(vel, fmt) + " " + Triple(force, fmt);
    Join([name, IntToString(counter), IntToString(residue)], "    ") + "    " + numbers
      + (if engine != FrameReader.PQ then " " + numbers else "")
  }

  /** The zero vector written for a missing velocity or force. */
  function VelOf(s: AtomicSystem, n: nat, i: nat): Vec3
  {
    if |s.vel| == n && n != 0 && i < n then s.vel[i] else Zero3
  }

  function ForceOf(s: AtomicSystem, n: nat, i: nat): Vec3
  {
    if |s.forces| == n && n != 0 && i < n then s.forces[i] else Zero3
  }

  /**
   * What `_get_atom_lines` returns: the atom count of the system (its own
   * error if the arrays disagree), the counters, an IndexError when the
   * atoms, positions or residue ids fall short, else one line per atom.
   */
  function AtomLines(s: AtomicSystem, residues: seq<int>, counter: AtomCounter, engine: MDEngineFormat,
                     fmt: real -> string): (r: Result<seq<string>>)
    ensures r.Ok? ==> NAtoms(s).Ok? && |r.value| == NAtoms(s).value
    ensures r.Ok? ==> var n := NAtoms(s).value;
              |s.atoms| >= n && |s.pos| >= n && |residues| >= n && Counters(counter, n).Ok?
              && forall i :: 0 <= i < n ==>
                   r.value[i] == AtomLine(s.atoms[i].name, Counters(counter, n).value[i], residues[i],
                                          s.pos[i], VelOf(s, n, i), ForceOf(s, n, i), engine, fmt)
    ensures NAtoms(s).Ok? && Counters(counter, NAtoms(s).value).Err? ==> r.Err?
  {
    match NAtoms(s)
    case Err(e) => Err(e)
    case Ok(n) =>
      match Counters(counter, n)
      case Err(e) => Err(e)
      case Ok(cs) => LinesOf(s, residues, cs, n, engine, fmt)
  }

  /** The lines of the first `n` atoms with counters `cs`, or an IndexError when an array falls short. */
  function LinesOf(s: AtomicSystem, residues: seq<int>, cs: seq<int>, n: nat, engine: MDEngineFormat,
                   fmt: real -> string): (r: Result<seq<string>>)
    requires |cs| == n
    ensures r.Err? <==> n > 0 && (|s.atoms| < n || |s.pos| < n || |residues| < n)
    ensures r.Err? ==> r.error == "IndexError"
    ensures r.Ok? ==> |r.value| == n && forall i :: 0 <= i < n ==>
              r.value[i] == AtomLine(s.atoms[i].name, cs[i], residues[i], s.pos[i], VelOf(s, n, i), ForceOf(s, n, i), engine, fmt)
  {
    if n > 0 && (|s.atoms| < n || |s.pos| < n || |residues| < n) then Err("IndexError")
    else Ok(seq(n, i requires 0 <= i < n =>
           AtomLine(s.atoms[i].name, cs[i], residues[i], s.pos[i], VelOf(s, n, i), ForceOf(s, n, i), engine, fmt)))
  }

  /** `_get_atom_lines`: the counter is settled first, then a line is appended per atom. */
  method GetAtomLines(s: AtomicSystem, residues: seq<int>, counter: AtomCounter, engine: MDEngineFormat,
                      fmt: real -> string) returns (r: Result<seq<string>>)
    ensures r == AtomLines(s, residues, counter, engine, fmt)
  {
    var count := NAtoms(s);
    if count.Err? {
      return Err(count.error);
    }
    var cs := Counters(counter, count.value);
    if cs.Err? {
      return Err(cs.error);
    }
    r := BuildLines(s, residues, cs.value, count.value, engine, fmt);
  }

  /** The loop of `_get_atom_lines`: a missing velocity or force is written as zeros. */
  method BuildLines(s: AtomicSystem, residues: seq<int>, cs: seq<int>, n: nat, engine: MDEngineFormat,
                    fmt: real -> string) returns (r: Result<seq<string>>)
    requires |cs| == n
    ensures r == LinesOf(s, residues, cs, n, engine, fmt)
  {
    var hasVel := |s.vel| == n && n != 0;
    var hasForces := |s.forces| == n && n != 0;
    var lines := [];
    for i := 0 to n
      invariant |lines| == i && i <= |s.atoms| && i <= |s.pos| && i <= |residues|
      invariant forall j :: 0 <= j < i ==>
                  lines[j] == AtomLine(s.atoms[j].name, cs[j], residues[j], s.pos[j], VelOf(s, n, j), ForceOf(s, n, j), engine, fmt)
    {
      if i >= |s.atoms| || i >= |s.pos| || i >= |residues| {
        return Err("IndexError");
      }
      var vel := if hasVel then s.vel[i] else Zero3;
      var force := if hasForces then s.forces[i] else Zero3;
      lines := lines + [AtomLine(s.atoms[i].name, cs[i], residues[i], s.pos[i], vel, force, engine, fmt)];
    }
    r := Ok(lines);
    assert r.value == LinesOf(s, residues, cs, n, engine, fmt).value;
  }

  /** `_get_lines`: the box line first, then the atom lines. */
  function Lines(s: AtomicSystem, residues: seq<int>, counter: AtomCounter, engine: MDEngineFormat,
                 fmt: real -> string): (r: Result<seq<string>>)
    ensures r.Ok? <==> AtomLines(s, residues, counter, engine, fmt).Ok?
    ensures r.Ok? ==> r.value == [BoxLine(s.boxLengths, s.boxAngles, fmt)] + AtomLines(s, residues, counter, engine, fmt).value
  {
    match AtomLines(s, residues, counter, engine, fmt)
    case Err(e) => Err(e)
    case Ok(atomLines) => Ok([BoxLine(s.boxLengths, s.boxAngles, fmt)] + atomLines)
  }

  // ---------------------------------------------------------------------
  // Reading the lines back

  /** The tokens of an atom line: 12 for PQ, 21 otherwise. */
  lemma AtomLineTokens(name: string, counter: int, residue: int, pos: Vec3, vel: Vec3, force: Vec3,
                       engine: MDEngineFormat, fmt: real -> string)
    requires IsToken(name) && TokensVec(fmt, pos) && TokensVec(fmt, vel) && TokensVec(fmt, force)
    ensures var head := [name, IntToString(counter), IntToString(residue)];
            var nine := Numbers(pos, vel, force, fmt);
            Words(AtomLine(name, counter, residue, pos, vel, force, engine, fmt))
              == head + nine + (if engine != FrameReader.PQ then nine else [])
  {
    var head := [name, IntToString(counter), IntToString(residue)];
    var numbers := Triple(pos, fmt) + " " + Triple(vel, fmt) + " " + Triple(force, fmt);
    var rest := numbers + (if engine != FrameReader.PQ then " " + numbers else "");
    NumbersTokens(pos, vel, force, fmt);
    WordsOfJoin(head, "    ");
    assert AtomLine(name, counter, residue, pos, vel, force, engine, fmt) == Join(head, "    ") + "    " + rest;
    WordsAppend(Join(head, "    "), "    ", rest);
    RepeatedNumbers(numbers, engine != FrameReader.PQ);
  }

  /** The numbers, written once more after a blank when `twice`. */
  lemma RepeatedNumbers(numbers: string, twice: bool)
    ensures Words(numbers + (if twice then " " + numbers else ""))
              == Words(numbers) + (if twice then Words(numbers) else [])
  {
    if twice {
      assert numbers + (" " + numbers) == numbers + " " + numbers;
      WordsAppend(numbers, " ", numbers);
    } else {
      assert numbers + "" == numbers;
      assert Words(numbers) + [] == Words(numbers);
    }
  }

  lemma NumbersTokens(pos: Vec3, vel: Vec3, force: Vec3, fmt: real -> string)
    requires TokensVec(fmt, pos) && TokensVec(fmt, vel) && TokensVec(fmt, force)
    ensures Words(Triple(pos, fmt) + " " + Triple(vel, fmt) + " " + Triple(force, fmt)) == Numbers(pos, vel, force, fmt)
  {
    var p, v, f := Triple(pos, fmt), Triple(vel, fmt), Triple(force, fmt);
    WordsOfTriple(pos, fmt);
    WordsOfTriple(vel, fmt);
    WordsOfTriple(force, fmt);
    WordsAppend(p + " " + v, " ", f);
    WordsAppend(p, " ", v);
  }

  /** The nine numbers of an atom line, as printed. */
  function Numbers(pos: Vec3, vel: Vec3, force: Vec3, fmt: real -> string): (r: seq<string>)
    ensures |r| == 9
  {
    [fmt(pos[0]), fmt(pos[1]), fmt(pos[2]), fmt(vel[0]), fmt(vel[1]), fmt(vel[2]),
     fmt(force[0]), fmt(force[1]), fmt(force[2])]
  }

  /**
   * The restart reader takes a written atom line back to the same name,
   * residue id, position, velocity and force, in either engine format.
   */
  lemma AtomLineRoundTrip(name: string, counter: int, residue: int, pos: Vec3, vel: Vec3, force: Vec3,
                          engine: MDEngineFormat, fmt: real -> string)
    requires IsToken(name) && TokensVec(fmt, pos) && TokensVec(fmt, vel) && TokensVec(fmt, force)
    requires ReadsBackVec(fmt, pos) && ReadsBackVec(fmt, vel) && ReadsBackVec(fmt, force)
    ensures RestartReader.AtomRowOf(Words(AtomLine(name, counter, residue, pos, vel, force, engine, fmt)))
              == Ok(RestartReader.AtomRow(name, residue, pos, vel, force))
  {
    AtomLineTokens(name, counter, residue, pos, vel, force, engine, fmt);
    RowOfTokens(Words(AtomLine(name, counter, residue, pos, vel, force, engine, fmt)), name, counter, residue, pos, vel, force, fmt);
  }

  lemma RowOfTokens(ws: seq<string>, name: string, counter: int, residue: int, pos: Vec3, vel: Vec3, force: Vec3,
                    fmt: real -> string)
    requires |ws| == 12 || |ws| == 21
    requires ws[..12] == [name, IntToString(counter), IntToString(residue)] + Numbers(pos, vel, force, fmt)
    requires ReadsBackVec(fmt, pos) && ReadsBackVec(fmt, vel) && ReadsBackVec(fmt, force)
    ensures RestartReader.AtomRowOf(ws) == Ok(RestartReader.AtomRow(name, residue, pos, vel, force))
  {
    Columns(ws, name, counter, residue, pos, vel, force, fmt);
    ParseIntToString(residue);
    VecOf(ws[3..6], pos, fmt);
    VecOf(ws[6..9], vel, fmt);
    VecOf(ws[9..12], force, fmt);
    RowOfVecs(ws, residue, pos, vel, force);
  }

  lemma Columns(ws: seq<string>, name: string, counter: int, residue: int, pos: Vec3, vel: Vec3, force: Vec3,
                fmt: real -> string)
    requires |ws| >= 12
    requires ws[..12] == [name, IntToString(counter), IntToString(residue)] + Numbers(pos, vel, force, fmt)
    ensures ws[0] == name && ws[2] == IntToString(residue)
    ensures ws[3..6] == [fmt(pos[0]), fmt(pos[1]), fmt(pos[2])]
    ensures ws[6..9] == [fmt(vel[0]), fmt(vel[1]), fmt(vel[2])]
    ensures ws[9..12] == [fmt(force[0]), fmt(force[1]), fmt(force[2])]
  {
    assert ws[0] == ws[..12][0];
    assert ws[2] == ws[..12][2];
    assert ws[3..6] == ws[..12][3..6] && ws[6..9] == ws[..12][6..9] && ws[9..12] == ws[..12][9..12];
  }

  lemma RowOfVecs(ws: seq<string>, residue: int, pos: Vec3, vel: Vec3, force: Vec3)
    requires |ws| == 12 || |ws| == 21
    requires ParseInt(ws[2]) == Some(residue)
    requires RestartReader.ParseVec(ws[3..6]) == Some(pos) && RestartReader.ParseVec(ws[6..9]) == Some(vel)
    requires RestartReader.ParseVec(ws[9..12]) == Some(force)
    ensures RestartReader.AtomRowOf(ws) == Ok(RestartReader.AtomRow(ws[0], residue, pos, vel, force))
  {
    var r := RestartReader.AtomRowOf(ws);
    assert r.Ok?;
  }

  lemma VecOf(ts: seq<string>, v: Vec3, fmt: real -> string)
    requires ts == [fmt(v[0]), fmt(v[1]), fmt(v[2])] && ReadsBackVec(fmt, v)
    ensures RestartReader.ParseVec(ts) == Some(v)
  {
    var w: Vec3 := [v[0], v[1], v[2]];
    assert w == v;
  }
}
