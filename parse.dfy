/**
 * The typed lookups of the analysis input file
 * (PQAnalysis/io/input_file_reader/pq_analysis/_parse.py): each reads one
 * key of the input dictionary, returns nothing when the key is absent, and
 * refuses a value whose type tag is not the one asked for with an
 * InputFileError.
 *
 * The outcome is `Ok(None)` for a missing key, `Ok(Some(v))` for an
 * accepted value and `Err("InputFileError")` for a refused one.
 */
module Parse {

  import opened Common
  import opened InputDict

  /**
   * The tags the transformers of the input-file parser attach agree with the
   * values they build: primitive tags as for array items, a glob is a list
   * of file names and a list of strings holds strings only.
   */
  predicate Consistent(e: Entry)
  {
    && WellTagged(e)
    && (e.tag == "glob" ==> e.value.GlobV?)
    && (e.tag == "list(str)" ==> e.value.ListV? && forall k :: 0 <= k < |e.value.items| ==> e.value.items[k].StrV?)
  }

  /** Every stored triple is consistent. */
  predicate ConsistentDictionary(d: InputDictionary)
    reads d
  {
    forall k :: k in d.entries ==> Consistent(d.entries[k])
  }

  /** `_parse_real`: an int or a float, returned as stored. */
  function ParseReal(d: InputDictionary, key: string): (r: Result<Option<Value>>)
    reads d
    ensures r == Ok(None) <==> Lower(key) !in d.entries
    ensures r.Err? <==> Lower(key) in d.entries && d.entries[Lower(key)].tag !in {"float", "int"}
    ensures r.Ok? && r.value.Some? ==> d.Get(key) == Ok(d.entries[Lower(key)]) && r.value.value == d.entries[Lower(key)].value
  {
    match d.Get(key)
    case Err(_) => Ok(None)
    case Ok(e) => if e.tag !in ["float", "int"] then Err("InputFileError") else Ok(Some(e.value))
  }

  /** The number an int or float value stands for. */
  function Number(v: Value): real
    requires v.IntV? || v.RealV?
  {
    ToReal(v)
  }

  /** `_parse_positive_real`: a real that is not below 0; zero is accepted. */
  function ParsePositiveReal(d: InputDictionary, key: string): (r: Result<Option<Value>>)
    reads d
    requires ConsistentDictionary(d)
    ensures r == Ok(None) <==> Lower(key) !in d.entries
    ensures r.Ok? && r.value.Some? ==> (r.value.value.IntV? || r.value.value.RealV?) && Number(r.value.value) >= 0.0
    ensures r.Ok? && r.value.Some? ==> r == ParseReal(d, key)
    ensures r.Err? <==> ParseReal(d, key).Err? || (ParseReal(d, key).Ok? && ParseReal(d, key).value.Some? && Number(ParseReal(d, key).value.value) < 0.0)
  {
    match ParseReal(d, key)
    case Err(e) => Err(e)
    case Ok(None) => Ok(None)
    case Ok(Some(v)) =>
      assert Consistent(d.entries[Lower(key)]);
      if Number(v) < 0.0 then Err("InputFileError") else Ok(Some(v))
  }

  /** `_parse_int`: only the "int" tag is accepted. */
  function ParseInt(d: InputDictionary, key: string): (r: Result<Option<Value>>)
    reads d
    ensures r == Ok(None) <==> Lower(key) !in d.entries
    ensures r.Err? <==> Lower(key) in d.entries && d.entries[Lower(key)].tag != "int"
    ensures r.Ok? && r.value.Some? ==> r.value.value == d.entries[Lower(key)].value
  {
    match d.Get(key)
    case Err(_) => Ok(None)
    case Ok(e) => if e.tag != "int" then Err("InputFileError") else Ok(Some(e.value))
  }

  /** `_parse_positive_int`: an int that is at least 1. */
  function ParsePositiveInt(d: InputDictionary, key: string): (r: Result<Option<int>>)
    reads d
    requires ConsistentDictionary(d)
    ensures r == Ok(None) <==> Lower(key) !in d.entries
    ensures r.Ok? && r.value.Some? ==> r.value.value >= 1 && ParseInt(d, key) == Ok(Some(IntV(r.value.value)))
    ensures r.Err? <==> ParseInt(d, key).Err? || (ParseInt(d, key).Ok? && ParseInt(d, key).value.Some? && ParseInt(d, key).value.value.i < 1)
  {
    match ParseInt(d, key)
    case Err(e) => Err(e)
    case Ok(None) => Ok(None)
    case Ok(Some(v)) =>
      assert Consistent(d.entries[Lower(key)]);
      if v.i < 1 then Err("InputFileError") else Ok(Some(v.i))
  }

  /** The strings of a list of string values. */
  function Strings(items: seq<Value>): (ss: seq<string>)
    requires forall k :: 0 <= k < |items| ==> items[k].StrV?
    ensures |ss| == |items| && forall k :: 0 <= k < |items| ==> items[k] == StrV(ss[k])
  {
    seq(|items|, k requires 0 <= k < |items| => items[k].s)
  }

  /**
   * `_parse_files`: a single string is a one-element list, a glob or a list
   * of strings is returned as it is, any other tag is refused.
   */
  function ParseFiles(d: InputDictionary, key: string): (r: Result<Option<seq<string>>>)
    reads d
    requires ConsistentDictionary(d)
    ensures r == Ok(None) <==> Lower(key) !in d.entries
    ensures r.Err? <==> Lower(key) in d.entries && d.entries[Lower(key)].tag !in {"str", "glob", "list(str)"}
    ensures r.Ok? && r.value.Some? && d.entries[Lower(key)].tag == "str" ==> r.value.value == [d.entries[Lower(key)].value.s]
    ensures r.Ok? && r.value.Some? && d.entries[Lower(key)].tag == "glob" ==> r.value.value == d.entries[Lower(key)].value.files
    ensures r.Ok? && r.value.Some? && d.entries[Lower(key)].tag == "list(str)" ==>
              d.entries[Lower(key)].value == ListV(seq(|r.value.value|, k requires 0 <= k < |r.value.value| => StrV(r.value.value[k])))
  {
    match d.Get(key)
    case Err(_) => Ok(None)
    case Ok(e) =>
      assert Consistent(e);
      if e.tag == "str" then Ok(Some([e.value.s]))
      else if e.tag == "glob" then Ok(Some(e.value.files))
      else if e.tag == "list(str)" then Ok(Some(Strings(e.value.items)))
      else Err("InputFileError")
  }

  /** `_parse_string`: only the "str" tag is accepted. */
  function ParseString(d: InputDictionary, key: string): (r: Result<Option<string>>)
    reads d
    requires ConsistentDictionary(d)
    ensures r == Ok(None) <==> Lower(key) !in d.entries
    ensures r.Err? <==> Lower(key) in d.entries && d.entries[Lower(key)].tag != "str"
    ensures r.Ok? && r.value.Some? ==> d.entries[Lower(key)].value == StrV(r.value.value)
  {
    match d.Get(key)
    case Err(_) => Ok(None)
    case Ok(e) =>
      assert Consistent(e);
      if e.tag != "str" then Err("InputFileError") else Ok(Some(e.value.s))
  }

  /** `_parse_bool`: only the "bool" tag is accepted. */
  function ParseBool(d: InputDictionary, key: string): (r: Result<Option<bool>>)
    reads d
    requires ConsistentDictionary(d)
    ensures r == Ok(None) <==> Lower(key) !in d.entries
    ensures r.Err? <==> Lower(key) in d.entries && d.entries[Lower(key)].tag != "bool"
    ensures r.Ok? && r.value.Some? ==> d.entries[Lower(key)].value == BoolV(r.value.value)
  {
    match d.Get(key)
    case Err(_) => Ok(None)
    case Ok(e) =>
      assert Consistent(e);
      if e.tag != "bool" then Err("InputFileError") else Ok(Some(e.value.b))
  }

  /** Every lookup accepts the key in any case: the same outcome for keys that lowercase alike. */
  lemma ParseIgnoresCase(d: InputDictionary, a: string, b: string)
    requires ConsistentDictionary(d)
    requires Lower(a) == Lower(b)
    ensures ParseReal(d, a) == ParseReal(d, b) && ParsePositiveReal(d, a) == ParsePositiveReal(d, b)
    ensures ParseInt(d, a) == ParseInt(d, b) && ParsePositiveInt(d, a) == ParsePositiveInt(d, b)
    ensures ParseFiles(d, a) == ParseFiles(d, b) && ParseString(d, a) == ParseString(d, b)
    ensures ParseBool(d, a) == ParseBool(d, b)
  {
  }

  /** The positive-real check lets 0 through while the positive-int check refuses it. */
  lemma ZeroBoundaries(d: InputDictionary, key: string)
    requires ConsistentDictionary(d)
    requires Lower(key) in d.entries
    ensures d.entries[Lower(key)].tag == "float" && d.entries[Lower(key)].value == RealV(0.0) ==>
              ParsePositiveReal(d, key) == Ok(Some(RealV(0.0)))
    ensures d.entries[Lower(key)].tag == "int" && d.entries[Lower(key)].value == IntV(0) ==>
              ParsePositiveInt(d, key) == Err("InputFileError")
    ensures d.entries[Lower(key)].tag == "int" && d.entries[Lower(key)].value == IntV(0) ==>
              ParsePositiveReal(d, key) == Ok(Some(IntV(0)))
  {
  }
}
