/**
 * Continuing a PQ simulation input file
 * (PQAnalysis/io/input_file_reader/pq/pq_input_file_reader.py): the number
 * embedded in the input file name and in the start and output file names
 * is found, checked for consistency and increased by one per new input
 * file, keeping leading zeros.
 *
 * Writing files is modelled by recording each (file name, content) pair
 * the reader would write; the parser that builds the dictionary is an
 * input (its file reading and grammar are not part of this model), and
 * the dictionary is seen through the string value of each key.
 */
module PqInput {

  import opened Common

  // ---------------------------------------------------------------------
  // Digit strings

  /** `"0" * n`: n zeros, none when n is not positive. */
  function Zeros(n: int): (z: string)
    ensures |z| == if n > 0 then n else 0
    ensures forall i :: 0 <= i < |z| ==> z[i] == '0'
  {
    seq(if n > 0 then n else 0, _ => '0')
  }

  /** `"0" * (width - len(w)) + w`: w padded on the left with zeros to the given width. */
  function Pad(width: int, w: string): (r: string)
    ensures |r| == if |w| < width then width else |w|
  {
    Zeros(width - |w|) + w
  }

  /** Number of leading '0' characters: what `s.lstrip('0')` removes. */
  function LeadingZeros(s: string): (k: nat)
    ensures k <= |s|
    ensures forall i :: 0 <= i < k ==> s[i] == '0'
    ensures k == |s| || s[k] != '0'
  {
    if s != [] && s[0] == '0' then 1 + LeadingZeros(s[1..]) else 0
  }

  /** `s.lstrip('0')`, with "0" in place of the empty result. */
  function Significant(s: string): (w: string)
    requires AllDigits(s)
    ensures |w| > 0 && AllDigits(w)
  {
    var k := LeadingZeros(s);
    if k == |s| then "0" else s[k..]
  }

  /**
   * `_increase_digit_string`: a string of digits (possibly empty) plus one,
   * padded with zeros back to its original length when the number fits.
   */
  function IncreaseDigitString(s: string): (r: Result<string>)
    ensures r.Err? <==> !AllDigits(s)
  {
    if !AllDigits(s) then Err("PQValueError")
    else Ok(Pad(|s|, NatToString(DigitsValue(Significant(s)) + 1)))
  }

  lemma {:induction false} DigitsValueZeros(n: int)
    ensures AllDigits(Zeros(n)) && DigitsValue(Zeros(n)) == 0
    decreases if n > 0 then n else 0
  {
    if n > 0 {
      DigitsValueZeros(n - 1);
      assert Zeros(n)[..n - 1] == Zeros(n - 1);
    }
  }

  /** Leading zeros do not change the value of a digit string. */
  lemma {:induction false} DigitsValueLeadingZeros(n: int, w: string)
    requires AllDigits(w)
    ensures AllDigits(Zeros(n) + w) && DigitsValue(Zeros(n) + w) == DigitsValue(w)
    decreases |w|
  {
    DigitsValueZeros(n);
    if w == [] {
      assert Zeros(n) + w == Zeros(n);
    } else {
      var s := Zeros(n) + w;
      assert s[..|s| - 1] == Zeros(n) + w[..|w| - 1];
      DigitsValueLeadingZeros(n, w[..|w| - 1]);
    }
  }

  /** A zero-padded number has the number's value. */
  lemma PadValue(width: int, n: nat)
    ensures AllDigits(Pad(width, NatToString(n))) && DigitsValue(Pad(width, NatToString(n))) == n
  {
    NatToStringValue(n);
    DigitsValueLeadingZeros(width - |NatToString(n)|, NatToString(n));
  }

  lemma PadValueOf(x: string, width: int, n: nat)
    requires x == Pad(width, NatToString(n))
    ensures AllDigits(x) && DigitsValue(x) == n
  {
    PadValue(width, n);
  }

  /** Stripping leading zeros keeps the value. */
  lemma SignificantValue(s: string)
    requires AllDigits(s)
    ensures DigitsValue(Significant(s)) == DigitsValue(s)
  {
    var k := LeadingZeros(s);
    assert s == Zeros(k) + s[k..];
    DigitsValueLeadingZeros(k, s[k..]);
    if k == |s| {
      assert DigitsValue("0") == 0 by { assert "0"[..0] == []; }
    }
  }

  /**
   * `_increase_digit_string(s)` is `int(s) + 1` written with as many
   * digits as `s` has, or more when the number needs them.
   */
  lemma IncreaseDigitStringIsPadded(s: string, v: nat)
    requires AllDigits(s) && v == DigitsValue(s)
    ensures IncreaseDigitString(s) == Ok(Pad(|s|, NatToString(v + 1)))
  {
    SignificantValue(s);
  }

  /** `int(_increase_digit_string(s)) == int(s) + 1` for every digit string, the empty one counting as 0. */
  lemma IncreaseDigitStringValue(s: string)
    requires AllDigits(s)
    ensures AllDigits(IncreaseDigitString(s).value)
    ensures DigitsValue(IncreaseDigitString(s).value) == DigitsValue(s) + 1
  {
    IncreaseDigitStringIsPadded(s, DigitsValue(s));
    PadValue(|s|, DigitsValue(s) + 1);
  }

  /** The length is kept unless the increased number needs more digits than `s` has. */
  lemma IncreaseDigitStringLength(s: string)
    requires AllDigits(s)
    ensures var digits := |NatToString(DigitsValue(s) + 1)|;
            |IncreaseDigitString(s).value| == if digits <= |s| then |s| else digits
  {
    IncreaseDigitStringIsPadded(s, DigitsValue(s));
  }

  lemma DigitsValue99()
    ensures DigitsValue("99") == 99 && DigitsValue("999") == 999
  {
    assert "999"[..2] == "99";
    assert "99"[..1] == "9";
    assert "9"[..0] == [];
  }

  /** `_increase_digit_string("099") == "100"`: the zeros give way to the carry. */
  lemma IncreaseDigitStringCarry()
    ensures IncreaseDigitString("099") == Ok("100")
  {
    assert LeadingZeros("099") == 1 by { assert "099"[1..] == "99"; }
    assert Significant("099") == "99";
    DigitsValue99();
    assert NatToString(100) == "100";
    assert Zeros(0) + "100" == "100";
  }

  /** `_increase_digit_string("999") == "1000"`: the string grows when it must. */
  lemma IncreaseDigitStringGrows()
    ensures IncreaseDigitString("999") == Ok("1000")
  {
    assert LeadingZeros("999") == 0;
    DigitsValue99();
    assert NatToString(1000) == "1000";
    assert Zeros(-1) + "1000" == "1000";
  }

  /** `_increase_digit_string("0009") == "0010"`: the width is kept. */
  lemma IncreaseDigitStringKeepsWidth()
    ensures IncreaseDigitString("0009") == Ok("0010")
  {
    assert LeadingZeros("0009") == 3 by {
      assert "0009"[1..] == "009";
      assert "009"[1..] == "09";
      assert "09"[1..] == "9";
    }
    assert Significant("0009") == "9";
    assert DigitsValue("9") == 9 by { assert "9"[..0] == []; }
    assert NatToString(10) == "10";
    assert Zeros(2) + "10" == "0010";
  }

  /** `_increase_digit_string("") == "1"` and a dot is refused. */
  lemma IncreaseDigitStringEdges()
    ensures IncreaseDigitString("") == Ok("1")
    ensures IncreaseDigitString("00.09").Err?
  {
    assert Significant("") == "0";
    assert DigitsValue("0") == 0 by { assert "0"[..0] == []; }
    assert NatToString(1) == "1";
    assert Zeros(-1) + "1" == "1";
    assert !IsDigit("00.09"[2]);
  }

  /** More is never written with fewer digits: `str(n)` does not get shorter as n grows. */
  lemma {:induction false} NatToStringLengthMonotone(a: nat, b: nat)
    requires a <= b
    ensures |NatToString(a)| <= |NatToString(b)|
    decreases b
  {
    if b >= 10 && a >= 10 {
      NatToStringLengthMonotone(a / 10, b / 10);
    }
  }

  /** Padding to a width the string already exceeds adds nothing. */
  lemma PadWider(width: int, other: int, w: string)
    requires other <= |w|
    ensures Pad(if other < width then width else other, w) == Pad(width, w)
  {
    assert Zeros((if other < width then width else other) - |w|) == Zeros(width - |w|);
  }

  /** Increasing a padded number pads the next number to the same width. */
  lemma IncreasePadded(width: int, n: nat)
    ensures IncreaseDigitString(Pad(width, NatToString(n))) == Ok(Pad(width, NatToString(n + 1)))
  {
    var p := Pad(width, NatToString(n));
    PadValue(width, n);
    IncreaseDigitStringIsPadded(p, n);
    NatToStringLengthMonotone(n, n + 1);
    PadWider(width, |NatToString(n)|, NatToString(n + 1));
  }

  /** `k` successive increases. */
  function IncreaseTimes(s: string, k: nat): (r: string)
    requires AllDigits(s)
  {
    if k == 0 then s
    else
      var prev := IncreaseTimes(s, k - 1);
      if AllDigits(prev) then IncreaseDigitString(prev).value else prev
  }

  /**
   * After k > 0 increases, the string is `int(s) + k` padded with zeros to
   * the width of `s`: the zero padding of the file names survives.
   */
  lemma {:induction false} IncreaseTimesPadded(s: string, k: nat)
    requires AllDigits(s) && k > 0
    ensures IncreaseTimes(s, k) == Pad(|s|, NatToString(DigitsValue(s) + k))
  {
    if k == 1 {
      IncreaseDigitStringIsPadded(s, DigitsValue(s));
    } else {
      IncreaseTimesPadded(s, k - 1);
      PadValue(|s|, DigitsValue(s) + k - 1);
      IncreasePadded(|s|, DigitsValue(s) + k - 1);
    }
  }

  /** One more increase continues the sequence. */
  lemma IncreaseTimesNext(s: string, k: nat)
    requires AllDigits(s)
    ensures AllDigits(IncreaseTimes(s, k))
    ensures IncreaseDigitString(IncreaseTimes(s, k)) == Ok(IncreaseTimes(s, k + 1))
  {
    IncreaseTimesValue(s, k);
  }

  /** After k increases the value has grown by k. */
  lemma IncreaseTimesValue(s: string, k: nat)
    requires AllDigits(s)
    ensures AllDigits(IncreaseTimes(s, k)) && DigitsValue(IncreaseTimes(s, k)) == DigitsValue(s) + k
  {
    if k > 0 {
      var x := IncreaseTimes(s, k);
      var n: nat := DigitsValue(s) + k;
      IncreaseTimesPadded(s, k);
      PadValueOf(x, |s|, n);
    }
  }

  // ---------------------------------------------------------------------
  // The number in a file name

  /** End of the run of digits starting at i. */
  function RunEnd(s: string, i: nat): (k: nat)
    requires i <= |s|
    ensures i <= k <= |s| && AllDigits(s[i..k]) && (k == |s| || !IsDigit(s[k]))
    decreases |s| - i
  {
    if i < |s| && IsDigit(s[i]) then
      var k := RunEnd(s, i + 1);
      assert s[i..k] == [s[i]] + s[i + 1..k];
      k
    else i
  }

  /** The regular expression `\d+\.` matches `s[i..k+1]`: digits from i to k, then a dot. */
  predicate RegexMatch(s: string, i: nat, k: nat)
  {
    i < k < |s| && AllDigits(s[i..k]) && s[k] == '.'
  }

  /** A match starts at i: the digit run from i ends at a dot. */
  predicate MatchAt(s: string, i: nat)
  {
    i < |s| && IsDigit(s[i]) && RunEnd(s, i) < |s| && s[RunEnd(s, i)] == '.'
  }

  /** Greedy digits cannot stop early: a match from i ends exactly where the digit run does. */
  lemma RegexMatchIsRun(s: string, i: nat, k: nat)
    ensures RegexMatch(s, i, k) <==> MatchAt(s, i) && k == RunEnd(s, i)
  {
    if RegexMatch(s, i, k) {
      var e := RunEnd(s, i);
      assert IsDigit(s[i..k][0]);
      assert e == k;
    }
    if MatchAt(s, i) && k == RunEnd(s, i) {
      assert s[i..k][0] == s[i];
    }
  }

  /** The leftmost start of a match at or after i, as `re.search` finds it. */
  function SearchFrom(s: string, i: nat): (r: Option<nat>)
    requires i <= |s|
    ensures r.Some? ==> i <= r.value < |s| && MatchAt(s, r.value)
    ensures r.Some? ==> forall j :: i <= j < r.value ==> !MatchAt(s, j)
    ensures r.None? ==> forall j :: i <= j < |s| ==> !MatchAt(s, j)
    decreases |s| - i
  {
    if i == |s| then None
    else if MatchAt(s, i) then Some(i)
    else SearchFrom(s, i + 1)
  }

  /** `_get_digit_string_from_filename`: the digits of the first `\d+\.` match, without the dot. */
  function DigitStringFromFilename(f: string): (r: Result<string>)
    ensures r.Err? ==> r == Err("PQValueError")
    ensures r.Ok? ==> |r.value| > 0 && AllDigits(r.value) && |r.value| < |f|
  {
    match SearchFrom(f, 0)
    case None => Err("PQValueError")
    case Some(i) => Ok(f[i..RunEnd(f, i)])
  }

  /**
   * The result is the leftmost match of `\d+\.` without its dot, and the
   * error is raised exactly when the name has no such match.
   */
  lemma DigitStringIsLeftmostMatch(f: string)
    ensures DigitStringFromFilename(f).Err? <==> forall i: nat, k: nat :: !RegexMatch(f, i, k)
    ensures DigitStringFromFilename(f).Ok? ==>
      exists i: nat, k: nat :: RegexMatch(f, i, k) && DigitStringFromFilename(f).value == f[i..k]
                            && forall j: nat, e: nat :: j < i ==> !RegexMatch(f, j, e)
  {
    match SearchFrom(f, 0)
    case None =>
      forall i: nat, k: nat ensures !RegexMatch(f, i, k) {
        RegexMatchIsRun(f, i, k);
      }
    case Some(i) =>
      var k := RunEnd(f, i);
      RegexMatchIsRun(f, i, k);
      forall j: nat, e: nat | j < i ensures !RegexMatch(f, j, e) {
        RegexMatchIsRun(f, j, e);
      }
  }

  /** A digit string found in a name is non-empty and made of digits. */
  lemma DigitStringIsDigits(f: string)
    requires DigitStringFromFilename(f).Ok?
    ensures |DigitStringFromFilename(f).value| > 0 && AllDigits(DigitStringFromFilename(f).value)
  {
  }

  /** The examples the program documents and its tests check. */
  lemma DigitStringExamples()
    ensures DigitStringFromFilename("input_099.in.asdf") == Ok("099")
    ensures DigitStringFromFilename("input.in").Err?
  {
    var f := "input_099.in.asdf";
    assert RunEnd(f, 9) == 9;
    assert RunEnd(f, 6) == 9;
    assert MatchAt(f, 6);
    assert forall j :: 0 <= j < 6 ==> !IsDigit(f[j]);
    assert SearchFrom(f, 6) == Some(6);
    assert SearchFrom(f, 0) == Some(6);
    assert f[6..9] == "099";
    var g := "input.in";
    assert forall j :: 0 <= j < |g| ==> !IsDigit(g[j]);
    assert SearchFrom(g, 0).None?;
  }

  // ---------------------------------------------------------------------
  // String replacement

  /** Python's `s.replace(pat, repl)`: every non-overlapping occurrence, left to right. */
  function Replace(s: string, pat: string, repl: string): string
    decreases |s|
  {
    if |pat| == 0 then
      if s == [] then repl else repl + [s[0]] + Replace(s[1..], pat, repl)
    else if StartsWith(s, pat) then repl + Replace(s[|pat|..], pat, repl)
    else if s == [] then []
    else [s[0]] + Replace(s[1..], pat, repl)
  }

  /** Replacing a string by itself changes nothing. */
  lemma {:induction false} ReplaceSame(s: string, pat: string)
    ensures Replace(s, pat, pat) == s
    decreases |s|
  {
    if s == [] {
    } else if |pat| == 0 {
      ReplaceSame(s[1..], pat);
      assert [s[0]] + s[1..] == s;
    } else if StartsWith(s, pat) {
      ReplaceSame(s[|pat|..], pat);
      assert pat + s[|pat|..] == s;
    } else {
      ReplaceSame(s[1..], pat);
      assert [s[0]] + s[1..] == s;
    }
  }

  /** `pat` occurs in `s` at index i. */
  predicate OccursAt(s: string, pat: string, i: int)
  {
    0 <= i && i + |pat| <= |s| && s[i..i + |pat|] == pat
  }

  /** A string that does not contain `pat` is left as it is. */
  lemma {:induction false} ReplaceAbsent(s: string, pat: string, repl: string)
    requires |pat| > 0
    requires forall i :: !OccursAt(s, pat, i)
    ensures Replace(s, pat, repl) == s
    decreases |s|
  {
    if s != [] {
      assert !StartsWith(s, pat) by {
        assert !OccursAt(s, pat, 0);
      }
      forall i ensures !OccursAt(s[1..], pat, i) {
        if OccursAt(s[1..], pat, i) {
          assert s[1..][i..i + |pat|] == s[i + 1..i + 1 + |pat|];
          assert OccursAt(s, pat, i + 1);
        }
      }
      ReplaceAbsent(s[1..], pat, repl);
      assert [s[0]] + s[1..] == s;
    }
  }

  // ---------------------------------------------------------------------
  // The keys whose file names carry the number

  const StartFileKeys: seq<string> := ["start_file", "rpmd_start_file"]

  const OutputFileKeys: seq<string> :=
    ["restart_file", "traj_file", "vel_file", "force_file", "charge_file", "energy_file",
     "info_file", "output_file", "file_prefix", "rpmd_restart_file", "rpmd_traj_file",
     "rpmd_vel_file", "rpmd_force_file", "rpmd_energy_file", "rpmd_charge_file"]

  /**
   * `_parse_actual_n` over the first keys: the number of every output file
   * present (read with a '.' appended), which must be the same for all.
   */
  function ActualNUpTo(dict: map<string, string>, keys: seq<string>): Result<Option<string>>
  {
    if keys == [] then Ok(None)
    else
      match ActualNUpTo(dict, keys[..|keys| - 1])
      case Err(e) => Err(e)
      case Ok(n) =>
        var key := keys[|keys| - 1];
        if key !in dict then Ok(n)
        else
          match DigitStringFromFilename(dict[key] + ".")
          case Err(e) => Err(e)
          case Ok(m) => if n.Some? && m != n.value then Err("PQValueError") else Ok(Some(m))
  }

  /**
   * The output files agree: a number is found exactly when some output key
   * is present, and then it is the number of every output file present.
   */
  lemma {:induction false} ActualNAgrees(dict: map<string, string>, keys: seq<string>)
    requires ActualNUpTo(dict, keys).Ok?
    ensures ActualNUpTo(dict, keys).value.None? <==> forall k :: 0 <= k < |keys| ==> keys[k] !in dict
    ensures ActualNUpTo(dict, keys).value.Some? ==>
      forall k :: 0 <= k < |keys| && keys[k] in dict ==>
        DigitStringFromFilename(dict[keys[k]] + ".") == Ok(ActualNUpTo(dict, keys).value.value)
    decreases |keys|
  {
    if keys != [] {
      var init := keys[..|keys| - 1];
      ActualNAgrees(dict, init);
      assert forall k :: 0 <= k < |init| ==> init[k] == keys[k];
    }
  }

  /** `_parse_start_n`: the number of the start file, which the ring-polymer start file (if any) must repeat. */
  function StartN(dict: map<string, string>): (r: Result<string>)
    ensures "start_file" !in dict ==> r == Err("PQKeyError")
    ensures "start_file" in dict && DigitStringFromFilename(dict["start_file"]).Err? ==> r == Err("PQValueError")
    ensures r.Ok? <==> "start_file" in dict && DigitStringFromFilename(dict["start_file"]).Ok?
                       && ("rpmd_start_file" in dict ==>
                             DigitStringFromFilename(dict["rpmd_start_file"] + ".") == DigitStringFromFilename(dict["start_file"]))
    ensures r.Ok? ==> r == DigitStringFromFilename(dict["start_file"]) && |r.value| > 0 && AllDigits(r.value)
  {
    if "start_file" !in dict then Err("PQKeyError")
    else
      match DigitStringFromFilename(dict["start_file"])
      case Err(e) => Err(e)
      case Ok(n) =>
        if "rpmd_start_file" !in dict then Ok(n)
        else
          match DigitStringFromFilename(dict["rpmd_start_file"] + ".")
          case Err(e) => Err(e)
          case Ok(m) => if m != n then Err("PQValueError") else Ok(n)
  }

  /** The three numbers `continue_input_file` works with. */
  datatype Numbers = Numbers(inputFileN: string, startN: string, actualN: string)

  /**
   * The checks `continue_input_file` makes before writing anything: the
   * three numbers are found, the output number equals the input file's and
   * the start number is one less.
   */
  function ContinueNumbers(filename: string, dict: map<string, string>): (r: Result<Numbers>)
    ensures r.Ok? ==> |r.value.inputFileN| > 0 && AllDigits(r.value.inputFileN)
    ensures r.Ok? ==> |r.value.startN| > 0 && AllDigits(r.value.startN)
    ensures r.Ok? ==> |r.value.actualN| > 0 && AllDigits(r.value.actualN)
    ensures r.Ok? ==> DigitsValue(r.value.actualN) == DigitsValue(r.value.inputFileN)
    ensures r.Ok? ==> DigitsValue(r.value.startN) + 1 == DigitsValue(r.value.actualN)
  {
    match DigitStringFromFilename(filename)
    case Err(e) => Err(e)
    case Ok(inputN) =>
      match StartN(dict)
      case Err(e) => Err(e)
      case Ok(startN) =>
        match ActualNUpTo(dict, OutputFileKeys)
        case Err(e) => Err(e)
        case Ok(None) => Err("PQValueError")
        case Ok(Some(actualN)) =>
          DigitStringIsDigits(filename);
          DigitStringIsDigits(dict["start_file"]);
          ActualNAgrees(dict, OutputFileKeys);
          ActualNPresent(dict, OutputFileKeys);
          if DigitsValue(actualN) != DigitsValue(inputN) then Err("PQValueError")
          else if DigitsValue(startN) as int != DigitsValue(actualN) as int - 1 then Err("PQValueError")
          else Ok(Numbers(inputN, startN, actualN))
  }

  /** When a number was found, it is the digit string of some output file. */
  lemma {:induction false} ActualNPresent(dict: map<string, string>, keys: seq<string>)
    requires ActualNUpTo(dict, keys).Ok? && ActualNUpTo(dict, keys).value.Some?
    ensures var n := ActualNUpTo(dict, keys).value.value; |n| > 0 && AllDigits(n)
    decreases |keys|
  {
    var init := keys[..|keys| - 1];
    var key := keys[|keys| - 1];
    if key in dict {
      if DigitStringFromFilename(dict[key] + ".").Ok? {
        DigitStringIsDigits(dict[key] + ".");
      }
    }
    if key !in dict {
      ActualNPresent(dict, init);
    }
  }

  /** The names of the files under `keys` in `raw`, with `n` replaced by `newN` in each. */
  function RenamedUpTo(raw: string, dict: map<string, string>, keys: seq<string>, n: string, newN: string): string
  {
    if keys == [] then raw
    else
      var prev := RenamedUpTo(raw, dict, keys[..|keys| - 1], n, newN);
      var key := keys[|keys| - 1];
      if key in dict then Replace(prev, dict[key], Replace(dict[key], n, newN)) else prev
  }

  /** The k-th new input file (k from 1): its name and its content. */
  function ContinuedFile(filename: string, dict: map<string, string>, raw: string, ns: Numbers, k: nat): (string, string)
    requires AllDigits(ns.inputFileN) && AllDigits(ns.startN) && AllDigits(ns.actualN)
  {
    var withOutputs := RenamedUpTo(raw, dict, OutputFileKeys, ns.actualN, IncreaseTimes(ns.actualN, k));
    var content := RenamedUpTo(withOutputs, dict, StartFileKeys, ns.startN, IncreaseTimes(ns.startN, k));
    (Replace(filename, ns.inputFileN, IncreaseTimes(ns.inputFileN, k)), content)
  }

  /** The first n new input files, in the order they are written. */
  function ContinuedFiles(filename: string, dict: map<string, string>, raw: string, ns: Numbers, n: nat): (fs: seq<(string, string)>)
    requires AllDigits(ns.inputFileN) && AllDigits(ns.startN) && AllDigits(ns.actualN)
    ensures |fs| == n
  {
    if n == 0 then [] else ContinuedFiles(filename, dict, raw, ns, n - 1) + [ContinuedFile(filename, dict, raw, ns, n)]
  }

  class PqInputFileReader {
    const filename: string
    var dictionary: map<string, string>
    var rawInputFile: string
    var inputFileN: Option<string>
    var startN: Option<string>
    var actualN: Option<string>
    /** The (name, content) pairs written so far. */
    var written: seq<(string, string)>

    constructor (filename: string)
      ensures this.filename == filename && dictionary == map[] && rawInputFile == []
      ensures inputFileN.None? && startN.None? && actualN.None? && written == []
    {
      this.filename := filename;
      dictionary, rawInputFile := map[], [];
      inputFileN, startN, actualN := None, None, None;
      written := [];
    }

    /** `read`: takes the parsed dictionary and raw text; a start file must be defined. */
    method Read(parsed: map<string, string>, raw: string) returns (r: Result<()>)
      modifies this
      ensures dictionary == parsed && rawInputFile == raw
      ensures inputFileN == old(inputFileN) && startN == old(startN) && actualN == old(actualN)
      ensures written == old(written)
      ensures r.Ok? <==> "start_file" in parsed
    {
      dictionary := parsed;
      rawInputFile := raw;
      if "start_file" !in parsed {
        return Err("PQValueError");
      }
      return Ok(());
    }

    /** Replaces, in `text`, the name of each file under `keys` by the name with `n` replaced by `newN`. */
    method RenameFiles(text: string, keys: seq<string>, n: string, newN: string) returns (out: string)
      ensures out == RenamedUpTo(text, dictionary, keys, n, newN)
    {
      out := text;
      for i := 0 to |keys|
        invariant out == RenamedUpTo(text, dictionary, keys[..i], n, newN)
      {
        assert keys[..i + 1][..i] == keys[..i];
        if keys[i] in dictionary {
          var newFilename := Replace(dictionary[keys[i]], n, newN);
          out := Replace(out, dictionary[keys[i]], newFilename);
        }
      }
      assert keys[..|keys|] == keys;
    }

    /** `_parse_actual_n`: the loop over the output keys. */
    method ParseActualN() returns (r: Result<string>)
      ensures ActualNUpTo(dictionary, OutputFileKeys).Ok? && ActualNUpTo(dictionary, OutputFileKeys).value.Some?
              ==> r == Ok(ActualNUpTo(dictionary, OutputFileKeys).value.value)
      ensures ActualNUpTo(dictionary, OutputFileKeys).Err? || ActualNUpTo(dictionary, OutputFileKeys).value.None?
              ==> r.Err?
    {
      var n: Option<string> := None;
      for i := 0 to |OutputFileKeys|
        invariant ActualNUpTo(dictionary, OutputFileKeys[..i]) == Ok(n)
      {
        assert OutputFileKeys[..i + 1][..i] == OutputFileKeys[..i];
        var key := OutputFileKeys[i];
        if key in dictionary {
          var found := DigitStringFromFilename(dictionary[key] + ".");
          if found.Err? {
            ActualNErrStays(dictionary, OutputFileKeys, i + 1);
            return Err(found.error);
          }
          if n.Some? && found.value != n.value {
            ActualNErrStays(dictionary, OutputFileKeys, i + 1);
            return Err("PQValueError");
          }
          n := Some(found.value);
        }
      }
      assert OutputFileKeys[..|OutputFileKeys|] == OutputFileKeys;
      if n.None? {
        return Err("PQValueError");
      }
      return Ok(n.value);
    }

    /**
     * The checks at the head of `continue_input_file`: the numbers are
     * stored as they are found, and the result is what `ContinueNumbers`
     * says.
     */
    method CheckNumbers() returns (r: Result<Numbers>)
      modifies this
      ensures dictionary == old(dictionary) && rawInputFile == old(rawInputFile) && written == old(written)
      ensures r.Ok? <==> ContinueNumbers(filename, dictionary).Ok?
      ensures r.Ok? ==> r.value == ContinueNumbers(filename, dictionary).value
      ensures r.Ok? ==> inputFileN == Some(r.value.inputFileN) && startN == Some(r.value.startN)
                        && actualN == Some(r.value.actualN)
    {
      var fileN := DigitStringFromFilename(filename);
      if fileN.Err? {
        return Err(fileN.error);
      }
      inputFileN := Some(fileN.value);
      var start := StartN(dictionary);
      if start.Err? {
        return Err(start.error);
      }
      startN := Some(start.value);
      var actual := ParseActualN();
      if actual.Err? {
        return Err(actual.error);
      }
      actualN := Some(actual.value);
      DigitStringIsDigits(filename);
      DigitStringIsDigits(dictionary["start_file"]);
      ActualNPresent(dictionary, OutputFileKeys);
      if DigitsValue(actual.value) != DigitsValue(fileN.value) {
        return Err("PQValueError");
      }
      if DigitsValue(start.value) as int != DigitsValue(actual.value) as int - 1 {
        return Err("PQValueError");
      }
      return Ok(Numbers(fileN.value, start.value, actual.value));
    }

    /**
     * One iteration of the loop in `continue_input_file`: the numbers after
     * k increases are increased once more, and the (k+1)-th file is made
     * by renaming the output files, then the start files, in the raw text.
     */
    method NextInputFile(ns: Numbers, ghost k: nat, curInputN: string, curStartN: string, curActualN: string)
      returns (file: (string, string), newInputN: string, newStartN: string, newActualN: string)
      requires AllDigits(ns.inputFileN) && AllDigits(ns.startN) && AllDigits(ns.actualN)
      requires curInputN == IncreaseTimes(ns.inputFileN, k)
      requires curStartN == IncreaseTimes(ns.startN, k)
      requires curActualN == IncreaseTimes(ns.actualN, k)
      ensures newInputN == IncreaseTimes(ns.inputFileN, k + 1)
      ensures newStartN == IncreaseTimes(ns.startN, k + 1)
      ensures newActualN == IncreaseTimes(ns.actualN, k + 1)
      ensures file == ContinuedFile(filename, dictionary, rawInputFile, ns, k + 1)
    {
      IncreaseTimesNext(ns.inputFileN, k);
      IncreaseTimesNext(ns.startN, k);
      IncreaseTimesNext(ns.actualN, k);
      newInputN := IncreaseDigitString(curInputN).value;
      newStartN := IncreaseDigitString(curStartN).value;
      newActualN := IncreaseDigitString(curActualN).value;
      var newRaw := RenameFiles(rawInputFile, OutputFileKeys, ns.actualN, newActualN);
      newRaw := RenameFiles(newRaw, StartFileKeys, ns.startN, newStartN);
      var newFilename := Replace(filename, ns.inputFileN, newInputN);
      file := (newFilename, newRaw);
    }

    /**
     * `continue_input_file(n)`: after the checks, writes n new input files,
     * the k-th with every number increased by k. Nothing is written when a
     * check fails.
     */
    method ContinueInputFile(n: nat) returns (r: Result<()>)
      modifies this
      ensures dictionary == old(dictionary) && rawInputFile == old(rawInputFile)
      ensures r.Ok? <==> ContinueNumbers(filename, dictionary).Ok?
      ensures r.Err? ==> written == old(written)
      ensures r.Ok? ==>
        var ns := ContinueNumbers(filename, dictionary).value;
        && inputFileN == Some(ns.inputFileN) && startN == Some(ns.startN) && actualN == Some(ns.actualN)
        && written == old(written) + ContinuedFiles(filename, dictionary, rawInputFile, ns, n)
    {
      var checked := CheckNumbers();
      if checked.Err? {
        return Err(checked.error);
      }
      var ns := checked.value;
      var oldInputN, oldStartN, oldActualN := ns.inputFileN, ns.startN, ns.actualN;
      ghost var before := written;
      for k := 0 to n
        invariant dictionary == old(dictionary) && rawInputFile == old(rawInputFile)
        invariant inputFileN == Some(ns.inputFileN) && startN == Some(ns.startN) && actualN == Some(ns.actualN)
        invariant oldInputN == IncreaseTimes(ns.inputFileN, k)
        invariant oldStartN == IncreaseTimes(ns.startN, k)
        invariant oldActualN == IncreaseTimes(ns.actualN, k)
        invariant written == before + ContinuedFiles(filename, dictionary, rawInputFile, ns, k)
      {
        var file;
        file, oldInputN, oldStartN, oldActualN := NextInputFile(ns, k, oldInputN, oldStartN, oldActualN);
        written := written + [file];
      }
      return Ok(());
    }
  }

  /** Once a prefix of the keys fails, every longer prefix fails too. */
  lemma {:induction false} ActualNErrStays(dict: map<string, string>, keys: seq<string>, i: nat)
    requires i <= |keys| && ActualNUpTo(dict, keys[..i]).Err?
    ensures ActualNUpTo(dict, keys).Err?
    decreases |keys| - i
  {
    if i < |keys| {
      assert keys[..i + 1][..i] == keys[..i];
      ActualNErrStays(dict, keys, i + 1);
    } else {
      assert keys[..i] == keys;
    }
  }
}
