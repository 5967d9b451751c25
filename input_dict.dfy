/**
 * The input-file dictionary and the composed value types of the input-file
 * parser (PQAnalysis/io/input_file_reader/input_file_parser.py): a
 * case-insensitive dictionary that refuses a key given twice, the most
 * general type of an array's items, arrays and ranges.
 *
 * The grammar that turns the text into tokens is not part of this model;
 * its output, one (value, type tag, line) triple per token, is the input.
 */
module InputDict {

  import opened Common

  /** A value of the input file. */
  datatype Value =
    | IntV(i: int)
    | RealV(r: real)
    | StrV(s: string)
    | BoolV(b: bool)
    | ListV(items: seq<Value>)
    | RangeV(start: int, stop: int, step: int)
    | GlobV(files: seq<string>)

  /** The triple stored per key: the value, its type tag and the line it was defined on. */
  datatype Entry = Entry(value: Value, tag: string, line: string)

  // ---------------------------------------------------------------------
  // Case-insensitive keys

  lemma LowerCharIdempotent(c: char)
    ensures LowerChar(LowerChar(c)) == LowerChar(c)
  {
  }

  /** Lowercasing twice is lowercasing once, so stored keys are their own lookup key. */
  lemma LowerIdempotent(s: string)
    ensures Lower(Lower(s)) == Lower(s)
  {
    forall i | 0 <= i < |s| ensures Lower(Lower(s))[i] == Lower(s)[i] {
      LowerCharIdempotent(s[i]);
    }
  }

  class InputDictionary {
    /** The keys in the order they were set (a Python dict keeps insertion order). */
    var keys: seq<string>
    var entries: map<string, Entry>

    /** Every key is stored once, lowercased, and the order lists exactly the stored keys. */
    ghost predicate Valid()
      reads this
    {
      && (forall k :: k in entries <==> k in keys)
      && (forall i, j :: 0 <= i < j < |keys| ==> keys[i] != keys[j])
      && (forall k :: k in entries ==> Lower(k) == k)
    }

    constructor ()
      ensures keys == [] && entries == map[] && Valid()
    {
      keys, entries := [], map[];
    }

    /** `__getitem__`: the key is lowercased; a missing key is a PQKeyError. */
    function Get(key: string): (r: Result<Entry>)
      reads this
      ensures r.Ok? <==> Lower(key) in entries
      ensures r.Ok? ==> r.value == entries[Lower(key)]
    {
      if Lower(key) in entries then Ok(entries[Lower(key)]) else Err("PQKeyError")
    }

    /**
     * `__setitem__`: stores the triple under the lowercased key; a key that
     * is already there, in any case, is a PQKeyError and nothing changes.
     */
    method Set(key: string, e: Entry) returns (r: Result<()>)
      requires Valid()
      modifies this
      ensures Valid()
      ensures r.Err? <==> Lower(key) in old(entries)
      ensures r.Err? ==> keys == old(keys) && entries == old(entries)
      ensures r.Ok? ==> keys == old(keys) + [Lower(key)] && entries == old(entries)[Lower(key) := e]
      ensures r.Ok? ==> Get(key) == Ok(e)
      ensures forall k :: Lower(k) != Lower(key) ==> Get(k) == old(Get(k))
    {
      var lowered := Lower(key);
      if lowered in entries {
        return Err("PQKeyError");
      }
      LowerIdempotent(key);
      keys := keys + [lowered];
      entries := entries[lowered := e];
      return Ok(());
    }

    /** `get_value`: component 0 of the triple; Python's KeyError for a missing key. */
    function GetValue(key: string): (r: Result<Value>)
      reads this
      ensures r.Ok? <==> Get(key).Ok?
      ensures r.Ok? ==> r.value == Get(key).value.value
    {
      if Lower(key) in entries then Ok(entries[Lower(key)].value) else Err("KeyError")
    }

    /** `get_type`: component 1 of the triple. */
    function GetType(key: string): (r: Result<string>)
      reads this
      ensures r.Ok? <==> Get(key).Ok?
      ensures r.Ok? ==> r.value == Get(key).value.tag
    {
      if Lower(key) in entries then Ok(entries[Lower(key)].tag) else Err("KeyError")
    }

    /** `get_line`: component 2 of the triple. */
    function GetLine(key: string): (r: Result<string>)
      reads this
      ensures r.Ok? <==> Get(key).Ok?
      ensures r.Ok? ==> r.value == Get(key).value.line
    {
      if Lower(key) in entries then Ok(entries[Lower(key)].line) else Err("KeyError")
    }

    /** `keys`: the stored keys, in insertion order, each once. */
    function Keys(): (ks: seq<string>)
      reads this
      requires Valid()
      ensures forall k :: k in ks <==> k in entries
      ensures |ks| == |entries|
    {
      KeysCount(keys, entries);
      keys
    }

    /** `__eq__`: the same triples under the same keys; the order of setting does not matter. */
    predicate Equals(other: InputDictionary)
      reads this, other
    {
      entries == other.entries
    }
  }

  /** A list of distinct elements that are exactly the keys of a map has the map's size. */
  lemma {:induction false} KeysCount(ks: seq<string>, m: map<string, Entry>)
    requires forall k :: k in m <==> k in ks
    requires forall i, j :: 0 <= i < j < |ks| ==> ks[i] != ks[j]
    ensures |ks| == |m|
    decreases |ks|
  {
    if ks == [] {
      assert m.Keys == {};
    } else {
      var last := ks[|ks| - 1];
      var rest := ks[..|ks| - 1];
      var m' := map k | k in m && k != last :: m[k];
      forall k ensures k in m' <==> k in rest {
        if k in rest {
          var i :| 0 <= i < |rest| && rest[i] == k;
          assert ks[i] == k;
        }
        if k in m && k != last {
          var i :| 0 <= i < |ks| && ks[i] == k;
          assert i < |ks| - 1;
          assert rest[i] == k;
        }
      }
      KeysCount(rest, m');
      assert m.Keys == m'.Keys + {last};
    }
  }

  /** Looking a key up does not depend on its case. */
  lemma GetIgnoresCase(d: InputDictionary, a: string, b: string)
    requires Lower(a) == Lower(b)
    ensures d.Get(a) == d.Get(b)
  {
  }

  // ---------------------------------------------------------------------
  // The most general type of an array

  predicate IsPrimitive(tag: string)
  {
    tag == "float" || tag == "int" || tag == "str" || tag == "bool"
  }

  /** `_infer_most_general_type`: str beats everything; bool mixes with nothing; then float, then int. */
  function InferMostGeneralType(tags: seq<string>): (r: Result<string>)
    ensures r.Ok? ==> r.value in tags && IsPrimitive(r.value)
    ensures r.Err? ==> r.error == "PQTypeError"
  {
    if "str" in tags then Ok("str")
    else if "bool" in tags && !(forall k :: 0 <= k < |tags| ==> tags[k] == "bool") then Err("PQTypeError")
    else if "bool" in tags then Ok("bool")
    else if "float" in tags then Ok("float")
    else if "int" in tags then Ok("int")
    else Err("PQTypeError")
  }

  /** How general a primitive type is: int < float < bool < str. */
  function Generality(tag: string): nat
  {
    if tag == "str" then 3 else if tag == "bool" then 2 else if tag == "float" then 1 else 0
  }

  /**
   * The inferred type is one of the items' types and at least as general
   * as every primitive type among them; inference fails exactly when there
   * is no string and either a bool is mixed with another type or no
   * primitive type is present at all.
   */
  lemma InferIsMostGeneral(tags: seq<string>)
    ensures var r := InferMostGeneralType(tags);
            r.Ok? ==> (r.value in tags && IsPrimitive(r.value)
                       && forall k :: 0 <= k < |tags| && IsPrimitive(tags[k]) ==> Generality(tags[k]) <= Generality(r.value))
    ensures InferMostGeneralType(tags).Err? <==>
              "str" !in tags
              && (("bool" in tags && exists k :: 0 <= k < |tags| && tags[k] != "bool")
                  || forall k :: 0 <= k < |tags| ==> !IsPrimitive(tags[k]))
  {
  }

  /** A bool alongside an int is refused, as the tests check. */
  lemma InferExamples()
    ensures InferMostGeneralType(["bool", "int"]).Err?
    ensures InferMostGeneralType(["str", "bool"]) == Ok("str")
    ensures InferMostGeneralType(["int", "float"]) == Ok("float")
    ensures InferMostGeneralType([]).Err?
  {
    assert ["bool", "int"][1] != "bool";
  }

  // ---------------------------------------------------------------------
  // Arrays

  /** The tag of a primitive item agrees with its value, as the primitive transformer makes them. */
  predicate WellTagged(e: Entry)
  {
    && (e.tag == "int" ==> e.value.IntV?)
    && (e.tag == "float" ==> e.value.RealV?)
    && (e.tag == "str" ==> e.value.StrV?)
    && (e.tag == "bool" ==> e.value.BoolV?)
  }

  /** Python's `str()` of a primitive value; `show` is `str()` on a float. */
  function ToStr(v: Value, show: real -> string): string
    requires v.IntV? || v.RealV? || v.StrV? || v.BoolV?
  {
    match v
    case IntV(i) => IntToString(i)
    case RealV(r) => show(r)
    case StrV(s) => s
    case BoolV(b) => if b then "True" else "False"
  }

  /** Python's `float()` of an int or float value. */
  function ToReal(v: Value): real
    requires v.IntV? || v.RealV?
  {
    if v.IntV? then v.i as real else v.r
  }

  /** An item converted to the array's type. */
  function Convert(tag: string, e: Entry, show: real -> string): Value
    requires WellTagged(e) && IsPrimitive(e.tag)
    requires tag == "str" || (tag == "float" && (e.tag == "int" || e.tag == "float")) || tag == e.tag
  {
    if tag == "str" then StrV(ToStr(e.value, show))
    else if tag == "float" then RealV(ToReal(e.value))
    else e.value
  }

  function Tags(items: seq<Entry>): (tags: seq<string>)
    ensures |tags| == |items| && forall k :: 0 <= k < |items| ==> tags[k] == items[k].tag
  {
    seq(|items|, k requires 0 <= k < |items| => items[k].tag)
  }

  /**
   * `array`: every item must have a primitive type; the items are converted
   * to their most general type and the result is tagged "list(T)" with the
   * line of the first item.
   */
  function Array(items: seq<Entry>, show: real -> string): (r: Result<Entry>)
    requires forall k :: 0 <= k < |items| ==> WellTagged(items[k])
  {
    if exists k :: 0 <= k < |items| && !IsPrimitive(items[k].tag) then Err("PQTypeError")
    else
      match InferMostGeneralType(Tags(items))
      case Err(e) => Err(e)
      case Ok(t) =>
        InferIsMostGeneral(Tags(items));
        Ok(Entry(ListV(seq(|items|, k requires 0 <= k < |items| => Convert(t, items[k], show))),
                 "list(" + t + ")", items[0].line))
  }

  /**
   * An array keeps one value per item, in order, each converted to the most
   * general type; it fails exactly on a non-primitive item or on a bool
   * mixed with another type.
   */
  lemma ArrayContents(items: seq<Entry>, show: real -> string)
    requires forall k :: 0 <= k < |items| ==> WellTagged(items[k])
    ensures Array(items, show).Err? <==>
              (exists k :: 0 <= k < |items| && !IsPrimitive(items[k].tag))
              || InferMostGeneralType(Tags(items)).Err?
    ensures Array(items, show).Ok? ==>
      var t := InferMostGeneralType(Tags(items)).value;
      var e := Array(items, show).value;
      && |items| > 0
      && e.tag == "list(" + t + ")" && e.line == items[0].line
      && e.value.ListV? && |e.value.items| == |items|
      && forall k :: 0 <= k < |items| ==>
           && (t == "str" ==> e.value.items[k] == StrV(ToStr(items[k].value, show)))
           && (t == "float" ==> e.value.items[k] == RealV(ToReal(items[k].value)))
           && (t == "int" || t == "bool" ==> e.value.items[k] == items[k].value)
  {
    if Array(items, show).Ok? {
      InferIsMostGeneral(Tags(items));
    }
  }

  /** `[1, 1.0]` becomes `[1.0, 1.0]` of type list(float); `[1, True]` is refused. */
  lemma ArrayExamples(show: real -> string)
    ensures Array([Entry(IntV(1), "int", "1"), Entry(RealV(1.0), "float", "1")], show)
            == Ok(Entry(ListV([RealV(1.0), RealV(1.0)]), "list(float)", "1"))
    ensures Array([Entry(IntV(1), "int", "1"), Entry(BoolV(true), "bool", "1")], show).Err?
    ensures Array([Entry(IntV(1), "int", "1"), Entry(RangeV(0, 2, 1), "range", "1")], show).Err?
  {
    var a := [Entry(IntV(1), "int", "1"), Entry(RealV(1.0), "float", "1")];
    assert Tags(a) == ["int", "float"];
    assert InferMostGeneralType(Tags(a)) == Ok("float");
    assert forall k :: 0 <= k < |a| ==> IsPrimitive(a[k].tag);
    assert Convert("float", a[0], show) == RealV(1.0);
    assert seq(|a|, k requires 0 <= k < |a| => Convert("float", a[k], show)) == [RealV(1.0), RealV(1.0)];
    assert "list(" + "float" + ")" == "list(float)";
    var c := [Entry(IntV(1), "int", "1"), Entry(RangeV(0, 2, 1), "range", "1")];
    assert !IsPrimitive(c[1].tag);
    var b := [Entry(IntV(1), "int", "1"), Entry(BoolV(true), "bool", "1")];
    assert Tags(b) == ["int", "bool"];
    assert Tags(b)[0] != "bool";
  }

  // ---------------------------------------------------------------------
  // Ranges

  /** The elements of Python's `range(start, stop, step)`. */
  function RangeList(start: int, stop: int, step: int): (xs: seq<int>)
    requires step != 0
    ensures forall k :: 0 <= k < |xs| ==> xs[k] == start + k * step
    ensures forall k :: 0 <= k < |xs| ==> if step > 0 then start <= xs[k] < stop else stop < xs[k] <= start
    ensures (step > 0 && start < stop) || (step < 0 && stop < start) <==> |xs| > 0
    decreases if step > 0 then stop - start else start - stop
  {
    if (step > 0 && start < stop) || (step < 0 && stop < start) then
      var rest := RangeList(start + step, stop, step);
      assert forall k :: 0 < k < |rest| + 1 ==> ([start] + rest)[k] == start + step + (k - 1) * step;
      [start] + rest
    else []
  }

  /**
   * `range`: two items give `range(a, b)`; otherwise the first three give
   * `range(a, c, b)`, the middle item being the step. The line is the first
   * item's. Python's own errors: an index past the items, a non-integer
   * bound and a zero step.
   */
  function Range(items: seq<Entry>): (r: Result<Entry>)
  {
    if |items| == 2 then
      if items[0].value.IntV? && items[1].value.IntV? then
        Ok(Entry(RangeV(items[0].value.i, items[1].value.i, 1), "range", items[0].line))
      else Err("TypeError")
    else if |items| < 3 then Err("IndexError")
    else if !(items[0].value.IntV? && items[1].value.IntV? && items[2].value.IntV?) then Err("TypeError")
    else if items[1].value.i == 0 then Err("ValueError")
    else Ok(Entry(RangeV(items[0].value.i, items[2].value.i, items[1].value.i), "range", items[0].line))
  }

  /**
   * The values of a range: with two items every integer from the first up
   * to the second, with three items every step-th integer from the first
   * towards the third.
   */
  lemma RangeValues(items: seq<Entry>)
    requires Range(items).Ok?
    ensures var v := Range(items).value.value;
            v.step != 0 && Range(items).value.tag == "range" && Range(items).value.line == items[0].line
            && var xs := RangeList(v.start, v.stop, v.step);
               && (|items| == 2 ==>
                     && |xs| == (if items[0].value.i < items[1].value.i then items[1].value.i - items[0].value.i else 0)
                     && forall k :: 0 <= k < |xs| ==> xs[k] == items[0].value.i + k)
               && (|items| != 2 ==> forall k :: 0 <= k < |xs| ==> xs[k] == items[0].value.i + k * items[1].value.i)
  {
    var v := Range(items).value.value;
    if |items| == 2 {
      RangeLength(v.start, v.stop);
    }
  }

  /** With step one, a range holds stop - start integers (none when stop <= start). */
  lemma {:induction false} RangeLength(start: int, stop: int)
    ensures |RangeList(start, stop, 1)| == if start < stop then stop - start else 0
    decreases stop - start
  {
    if start < stop {
      RangeLength(start + 1, stop);
    }
  }

  /** `range(1, 20, 4)` from the items 1, 4, 20 is 1, 5, 9, 13, 17. */
  lemma RangeExample()
    ensures Range([Entry(IntV(1), "int", "1"), Entry(IntV(4), "int", "1"), Entry(IntV(20), "int", "1")])
            == Ok(Entry(RangeV(1, 20, 4), "range", "1"))
    ensures RangeList(1, 20, 4) == [1, 5, 9, 13, 17]
  {
    assert RangeList(21, 20, 4) == [];
    assert RangeList(17, 20, 4) == [17];
    assert RangeList(13, 20, 4) == [13, 17];
    assert RangeList(9, 20, 4) == [9, 13, 17];
    assert RangeList(5, 20, 4) == [5, 9, 13, 17];
  }
}
