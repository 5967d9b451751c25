/**
 * Shared vocabulary of the model: optional values, results carrying the
 * name of the exception the program raises, and the handful of Python
 * string operations (`str.split()`, `str.strip()`, `str.lower()`,
 * `line.split('#')[0]`, `int()`, `float()`, `str(int)`) that the readers
 * and writers are built from.
 */
module Common {

  datatype Option<T> = None | Some(value: T)

  /** `Err` carries the name of the exception class the program raises. */
  datatype Result<T> = Ok(value: T) | Err(error: string)
  {
    predicate IsOk() { Ok? }
  }

  // ---------------------------------------------------------------------
  // Characters

  /** The characters Python's `str.isspace()` accepts. */
  predicate IsSpace(c: char)
  {
    c == ' ' || ('\t' <= c <= '\r') || ('\U{1c}' <= c <= '\U{1f}')
    || c == '\U{85}' || c == '\U{a0}' || c == '\U{1680}'
    || ('\U{2000}' <= c <= '\U{200a}') || c == '\U{2028}' || c == '\U{2029}'
    || c == '\U{202f}' || c == '\U{205f}' || c == '\U{3000}'
  }

  predicate IsDigit(c: char) { '0' <= c <= '9' }

  predicate AllDigits(s: string) { forall i :: 0 <= i < |s| ==> IsDigit(s[i]) }

  predicate NoSpace(s: string) { forall i :: 0 <= i < |s| ==> !IsSpace(s[i]) }

  /** A single token as `str.split()` produces it: non-empty, no blanks. */
  predicate IsToken(s: string) { |s| > 0 && NoSpace(s) }

  function DigitValue(c: char): (d: nat)
    requires IsDigit(c)
    ensures d < 10
  {
    (c as int) - ('0' as int)
  }

  function DigitChar(d: nat): (c: char)
    requires d < 10
    ensures IsDigit(c) && DigitValue(c) == d
  {
    ('0' as int + d) as char
  }

  function LowerChar(c: char): char
  {
    if 'A' <= c <= 'Z' then (c as int + 32) as char else c
  }

  function UpperChar(c: char): char
  {
    if 'a' <= c <= 'z' then (c as int - 32) as char else c
  }

  /** `str.lower()` on ASCII letters. */
  function Lower(s: string): (r: string)
    ensures |r| == |s|
    ensures forall i :: 0 <= i < |s| ==> r[i] == LowerChar(s[i])
  {
    seq(|s|, i requires 0 <= i < |s| => LowerChar(s[i]))
  }

  /** `str.upper()` on ASCII letters. */
  function Upper(s: string): (r: string)
    ensures |r| == |s|
    ensures forall i :: 0 <= i < |s| ==> r[i] == UpperChar(s[i])
  {
    seq(|s|, i requires 0 <= i < |s| => UpperChar(s[i]))
  }

  // ---------------------------------------------------------------------
  // Splitting and stripping

  /** Length of the leading run of non-blank characters. */
  function WordLen(s: string): (n: nat)
    ensures n <= |s|
    ensures forall k :: 0 <= k < n ==> !IsSpace(s[k])
    ensures n == |s| || IsSpace(s[n])
  {
    if s == [] || IsSpace(s[0]) then 0 else 1 + WordLen(s[1..])
  }

  /** Python's `str.split()` with no argument. */
  function Words(s: string): (ws: seq<string>)
    ensures forall k :: 0 <= k < |ws| ==> IsToken(ws[k])
    decreases |s|
  {
    if s == [] then []
    else if IsSpace(s[0]) then Words(s[1..])
    else
      var n := WordLen(s);
      [s[..n]] + Words(s[n..])
  }

  /** Python's `str.strip()` with no argument. */
  function Strip(s: string): (r: string)
    ensures |r| <= |s|
    ensures r != [] ==> !IsSpace(r[0]) && !IsSpace(r[|r| - 1])
    decreases |s|
  {
    if s == [] then []
    else if IsSpace(s[0]) then Strip(s[1..])
    else if IsSpace(s[|s| - 1]) then Strip(s[..|s| - 1])
    else s
  }

  /** `line.split('#')[0]`: everything before the first '#'. */
  function BeforeHash(s: string): (r: string)
    ensures r <= s
    ensures forall i :: 0 <= i < |r| ==> r[i] != '#'
    ensures r == s || s[|r|] == '#'
  {
    if s == [] || s[0] == '#' then [] else [s[0]] + BeforeHash(s[1..])
  }

  /** `s.startswith(p)`. */
  predicate StartsWith(s: string, p: string) { p <= s }

  /** `sep.join(ws)`. */
  function Join(ws: seq<string>, sep: string): string
  {
    if ws == [] then []
    else if |ws| == 1 then ws[0]
    else ws[0] + sep + Join(ws[1..], sep)
  }

  /** `s.split(sep)`: the pieces between the separators, empty ones kept. */
  function Split(s: string, sep: char): (r: seq<string>)
    ensures |r| >= 1
    ensures forall i :: 0 <= i < |r| ==> sep !in r[i]
    ensures Join(r, [sep]) == s
    decreases |s|
  {
    var k := Find(s, sep);
    if k == |s| then
      assert sep !in s;
      [s]
    else
      var rest := Split(s[k + 1..], sep);
      assert s == s[..k] + [sep] + s[k + 1..];
      assert sep !in s[..k];
      [s[..k]] + rest
  }

  /** A string made only of blanks. */
  predicate AllSpace(s: string) { forall i :: 0 <= i < |s| ==> IsSpace(s[i]) }

  lemma {:induction false} WordLenOfToken(w: string, rest: string)
    requires NoSpace(w)
    requires rest == [] || IsSpace(rest[0])
    ensures WordLen(w + rest) == |w|
    decreases |w|
  {
    if w == [] {
    } else {
      assert (w + rest)[1..] == w[1..] + rest;
      WordLenOfToken(w[1..], rest);
    }
  }

  lemma {:induction false} WordsSkipSpace(sp: string, rest: string)
    requires AllSpace(sp)
    ensures Words(sp + rest) == Words(rest)
    decreases |sp|
  {
    if sp != [] {
      assert (sp + rest)[1..] == sp[1..] + rest;
      WordsSkipSpace(sp[1..], rest);
    } else {
      assert sp + rest == rest;
    }
  }

  /** A token followed by blanks (or nothing) is split off as one word. */
  lemma WordsCons(w: string, sp: string, rest: string)
    requires IsToken(w) && AllSpace(sp)
    requires sp == [] ==> rest == []
    ensures Words(w + sp + rest) == [w] + Words(rest)
  {
    var s := w + sp + rest;
    WordLenOfToken(w, sp + rest);
    assert s == w + (sp + rest);
    assert s[..|w|] == w;
    assert s[|w|..] == sp + rest;
    WordsSkipSpace(sp, rest);
  }

  /** A token followed by nothing or by a blank splits off as that token. */
  lemma WordsOfTokenThen(tok: string, rest: string)
    requires IsToken(tok)
    requires rest == [] || IsSpace(rest[0])
    ensures Words(tok + rest) == [tok] + Words(rest)
  {
    if rest == [] {
      WordsOfToken(tok);
      assert tok + rest == tok;
    } else {
      var sp, tail := rest[..1], rest[1..];
      assert rest == sp + tail;
      assert AllSpace(sp);
      WordsCons(tok, sp, tail);
      assert tok + sp + tail == tok + rest;
      WordsSkipSpace(sp, tail);
    }
  }

  lemma WordsOfToken(w: string)
    requires IsToken(w)
    ensures Words(w) == [w]
  {
    WordsCons(w, [], []);
    assert w + [] + [] == w;
  }

  /** Splitting a list of tokens joined by blanks gives the tokens back. */
  lemma {:induction false} WordsOfJoin(ws: seq<string>, sep: string)
    requires forall k :: 0 <= k < |ws| ==> IsToken(ws[k])
    requires sep != [] && AllSpace(sep)
    ensures Words(Join(ws, sep)) == ws
    decreases |ws|
  {
    if ws == [] {
    } else if |ws| == 1 {
      WordsOfToken(ws[0]);
    } else {
      WordsOfJoin(ws[1..], sep);
      WordsCons(ws[0], sep, Join(ws[1..], sep));
      assert [ws[0]] + ws[1..] == ws;
    }
  }

  /** A word never runs on across a blank. */
  lemma {:induction false} WordLenBeforeSpace(a: string, rest: string)
    requires rest == [] || IsSpace(rest[0])
    ensures WordLen(a + rest) == WordLen(a)
    decreases |a|
  {
    if a == [] {
      assert a + rest == rest;
    } else if !IsSpace(a[0]) {
      assert (a + rest)[1..] == a[1..] + rest;
      WordLenBeforeSpace(a[1..], rest);
    }
  }

  /** Two texts with blanks between them split into the words of the one, then of the other. */
  lemma {:induction false} WordsAppend(a: string, sp: string, b: string)
    requires sp != [] && AllSpace(sp)
    ensures Words(a + sp + b) == Words(a) + Words(b)
    decreases |a|
  {
    var s := a + sp + b;
    if a == [] {
      assert s == sp + b;
      WordsSkipSpace(sp, b);
    } else if IsSpace(a[0]) {
      assert s[1..] == a[1..] + sp + b;
      WordsAppend(a[1..], sp, b);
    } else {
      var n := WordLen(a);
      WordLenBeforeSpace(a, sp + b);
      assert s == a + (sp + b);
      assert s[..n] == a[..n];
      assert s[n..] == a[n..] + sp + b;
      WordsAppend(a[n..], sp, b);
    }
  }

  // ---------------------------------------------------------------------
  // Numbers

  /** The value of a string of decimal digits. */
  function DigitsValue(s: string): nat
    requires AllDigits(s)
  {
    if s == [] then 0 else 10 * DigitsValue(s[..|s| - 1]) + DigitValue(s[|s| - 1])
  }

  /** `str(n)` for a natural number. */
  function NatToString(n: nat): (s: string)
    ensures |s| > 0 && AllDigits(s)
  {
    if n < 10 then [DigitChar(n)] else NatToString(n / 10) + [DigitChar(n % 10)]
  }

  /** `str(i)` for an integer. */
  function IntToString(i: int): (s: string)
    ensures IsToken(s)
  {
    if i < 0 then "-" + NatToString(-i) else NatToString(i)
  }

  /** Python's `int()` on a token: an optional sign and at least one digit. */
  function ParseInt(s: string): (r: Option<int>)
    ensures r.Some? ==> |s| > 0 && AllDigits(s[1..]) && (r.value < 0 ==> s[0] == '-')
  {
    if |s| > 0 && (s[0] == '+' || s[0] == '-') then
      if |s| > 1 && AllDigits(s[1..]) then
        Some(if s[0] == '-' then -(DigitsValue(s[1..]) as int) else DigitsValue(s[1..]))
      else None
    else if |s| > 0 && AllDigits(s) then Some(DigitsValue(s))
    else None
  }

  lemma {:induction false} NatToStringValue(n: nat)
    ensures DigitsValue(NatToString(n)) == n
  {
    if n >= 10 {
      NatToStringValue(n / 10);
      var s := NatToString(n / 10) + [DigitChar(n % 10)];
      assert s[..|s| - 1] == NatToString(n / 10);
    }
  }

  /** `int(str(i)) == i`. */
  lemma ParseIntToString(i: int)
    ensures ParseInt(IntToString(i)) == Some(i)
  {
    if i < 0 {
      var digits := NatToString(-i);
      NatToStringValue(-i);
      assert ("-" + digits)[1..] == digits;
      assert IntToString(i) == "-" + digits;
    } else {
      var digits := NatToString(i);
      NatToStringValue(i);
      assert IsDigit(digits[0]);
      assert IntToString(i) == digits;
    }
  }

  /** Index of the first occurrence of `c` in `s`, or `|s|`. */
  function Find(s: string, c: char): (k: nat)
    ensures k <= |s|
    ensures forall i :: 0 <= i < k ==> s[i] != c
    ensures k < |s| ==> s[k] == c
  {
    if s == [] || s[0] == c then 0 else 1 + Find(s[1..], c)
  }

  /** The number with integer part `whole` and `places` decimals reading `frac`. */
  function Decimal(whole: nat, frac: nat, places: nat): real
  {
    whole as real + TimesPow10(frac as real, -(places as int))
  }

  /** `m` times ten to the power `x`. */
  function TimesPow10(m: real, x: int): real
    decreases if x >= 0 then x else -x
  {
    if x == 0 then m
    else if x > 0 then 10.0 * TimesPow10(m, x - 1)
    else TimesPow10(m, x + 1) / 10.0
  }

  /**
   * The rest `s` of an unsigned number, read one character at a time:
   * digits before and after at most one '.', at least one digit in all, then
   * optionally 'e' or 'E' and a signed integer exponent. `whole`, `frac` and
   * `places` are what the digits read so far amount to.
   */
  function Unsigned(s: string, whole: nat, frac: nat, places: nat, dot: bool, digits: bool): Option<real>
    decreases |s|
  {
    if s == [] then (if digits then Some(Decimal(whole, frac, places)) else None)
    else if IsDigit(s[0]) then
      if dot then Unsigned(s[1..], whole, 10 * frac + DigitValue(s[0]), places + 1, true, true)
      else Unsigned(s[1..], 10 * whole + DigitValue(s[0]), frac, places, false, true)
    else if s[0] == '.' && !dot then Unsigned(s[1..], whole, frac, places, true, digits)
    else if (s[0] == 'e' || s[0] == 'E') && digits then
      var x := ParseInt(s[1..]);
      if x.None? then None else Some(TimesPow10(Decimal(whole, frac, places), x.value))
    else None
  }

  /**
   * Python's `float()` on a token in decimal or exponent notation
   * (`2.0`, `-.5`, `1e-3`, `7`).
   */
  function ParseReal(s: string): Option<real>
  {
    if |s| > 0 && (s[0] == '-' || s[0] == '+') then
      var v := Unsigned(s[1..], 0, 0, 0, false, false);
      if v.None? then None else Some(if s[0] == '-' then -v.value else v.value)
    else Unsigned(s, 0, 0, 0, false, false)
  }

  // ---------------------------------------------------------------------
  // Sums

  function SumReal(s: seq<real>): real
  {
    if s == [] then 0.0 else SumReal(s[..|s| - 1]) + s[|s| - 1]
  }

  lemma {:induction false} SumRealConcat(xs: seq<real>, ys: seq<real>)
    ensures SumReal(xs + ys) == SumReal(xs) + SumReal(ys)
    decreases |ys|
  {
    if ys == [] {
      assert xs + ys == xs;
    } else {
      var n := |ys| - 1;
      assert (xs + ys)[..|xs + ys| - 1] == xs + ys[..n];
      SumRealConcat(xs, ys[..n]);
    }
  }

  function SumNat(s: seq<nat>): nat
  {
    if s == [] then 0 else SumNat(s[..|s| - 1]) + s[|s| - 1]
  }
}
