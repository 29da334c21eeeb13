/** Python values as they travel through the agent (decoded JSON: None, bools, ints, floats,
    strings, lists and dicts), and the few Python operations the agent applies to them, each with
    the exception it raises where Python raises one. */
module Py {
  import opened Strings

  /** The outcome of a Python expression: its value, or the text `str(e)` of the exception it raised. */
  datatype Result<+T> = Ok(value: T) | Raise(error: string) {
    predicate IsFailure() {
      Raise?
    }

    function PropagateFailure<U>(): Result<U>
      requires Raise?
    {
      Raise(error)
    }

    function Extract(): T
      requires Ok?
    {
      value
    }
  }

  /** A Python value. `Null` is None. A float carries its value and the text repr() prints for it.
      A dict keeps its entries in insertion order; its keys are distinct, as in Python. */
  datatype Value =
    | Null
    | Bool(b: bool)
    | Int(i: int)
    | Float(x: real, text: string)
    | Str(s: string)
    | List(items: seq<Value>)
    | Dict(fields: seq<(string, Value)>)

  /** Python's 0.0, the default the source uses for confidences and scores. */
  const ZERO: Value := Float(0.0, "0.0")

  const EMPTY: Value := Dict([])

  function TypeName(v: Value): string {
    match v
    case Null => "NoneType"
    case Bool(_) => "bool"
    case Int(_) => "int"
    case Float(_, _) => "float"
    case Str(_) => "str"
    case List(_) => "list"
    case Dict(_) => "dict"
  }

  /** bool(v). */
  predicate Truthy(v: Value) {
    match v
    case Null => false
    case Bool(b) => b
    case Int(i) => i != 0
    case Float(x, _) => x != 0.0
    case Str(s) => s != ""
    case List(items) => items != []
    case Dict(fields) => fields != []
  }

  /** `a or b`. */
  function Or(a: Value, b: Value): (r: Value)
    ensures Truthy(a) ==> r == a
    ensures !Truthy(a) ==> r == b
  {
    if Truthy(a) then a else b
  }

  /** `k in d`: some entry has key `k`. */
  predicate HasKey(fields: seq<(string, Value)>, k: string) {
    fields != [] && (fields[0].0 == k || HasKey(fields[1..], k))
  }

  lemma {:induction false} HasKeyIff(fields: seq<(string, Value)>, k: string)
    ensures HasKey(fields, k) <==> exists i :: 0 <= i < |fields| && fields[i].0 == k
  {
    if fields != [] {
      HasKeyIff(fields[1..], k);
      if exists i :: 0 <= i < |fields| && fields[i].0 == k {
        var i :| 0 <= i < |fields| && fields[i].0 == k;
        if i > 0 { assert fields[1..][i - 1].0 == k; }
      }
      if HasKey(fields[1..], k) {
        var i :| 0 <= i < |fields[1..]| && fields[1..][i].0 == k;
        assert fields[i + 1].0 == k;
      }
    }
  }

  /** The value stored under `k`, taken from its first entry. */
  function Lookup(fields: seq<(string, Value)>, k: string): (r: Option<Value>)
    ensures r.Some? <==> HasKey(fields, k)
  {
    if fields == [] then None
    else if fields[0].0 == k then Some(fields[0].1)
    else Lookup(fields[1..], k)
  }

  function Keys(fields: seq<(string, Value)>): (r: seq<string>)
    ensures |r| == |fields| && forall i :: 0 <= i < |r| ==> r[i] == fields[i].0
  {
    seq(|fields|, i requires 0 <= i < |fields| => fields[i].0)
  }

  /** `d[k] = v`: an existing key keeps its position and takes the new value; a new key goes last. */
  function Put(fields: seq<(string, Value)>, k: string, v: Value): seq<(string, Value)> {
    if fields == [] then [(k, v)]
    else if fields[0].0 == k then [(k, v)] + fields[1..]
    else [fields[0]] + Put(fields[1..], k, v)
  }

  /** After `d[k] = v`, `k` reads back as `v` and every other key reads as before. */
  lemma {:induction false} PutLookup(fields: seq<(string, Value)>, k: string, v: Value, other: string)
    ensures Lookup(Put(fields, k, v), k) == Some(v)
    ensures other != k ==> Lookup(Put(fields, k, v), other) == Lookup(fields, other)
  {
    if fields != [] && fields[0].0 != k {
      PutLookup(fields[1..], k, v, other);
    }
  }

  /** `d[k] = v` on a dict value. */
  function Assign(d: Value, k: string, v: Value): (r: Value)
    requires d.Dict?
    ensures r.Dict?
  {
    Dict(Put(d.fields, k, v))
  }

  function NoAttribute(v: Value, name: string): string {
    "'" + TypeName(v) + "' object has no attribute '" + name + "'"
  }

  /** In a dict whose earlier keys all differ from the key at index `i`, that key reads as its value. */
  lemma {:induction false} LookupAt(fields: seq<(string, Value)>, i: nat)
    requires i < |fields|
    requires forall j :: 0 <= j < i ==> fields[j].0 != fields[i].0
    ensures Lookup(fields, fields[i].0) == Some(fields[i].1)
  {
    if i > 0 {
      assert forall j :: 0 <= j < i - 1 ==> fields[1..][j].0 == fields[j + 1].0;
      LookupAt(fields[1..], i - 1);
    }
  }

  /** `d.get(k, default)` on a value known to be a dict. */
  function FieldOr(d: Value, k: string, default: Value): (r: Value)
    requires d.Dict?
    ensures HasKey(d.fields, k) ==> r == Lookup(d.fields, k).value
    ensures !HasKey(d.fields, k) ==> r == default
  {
    match Lookup(d.fields, k)
    case Some(x) => x
    case None => default
  }

  /** `d.get(k)` on a value known to be a dict: the value under `k`, or None. */
  function Field(d: Value, k: string): Value
    requires d.Dict?
  {
    FieldOr(d, k, Null)
  }

  /** `v.get(k, default)`: only a dict has `get`. */
  function Get(v: Value, k: string, default: Value): (r: Result<Value>)
    ensures v.Dict? ==> r == Ok(FieldOr(v, k, default))
    ensures !v.Dict? ==> r == Raise(NoAttribute(v, "get"))
  {
    if v.Dict? then Ok(FieldOr(v, k, default)) else Raise(NoAttribute(v, "get"))
  }

  /** `v[k]` with a string key. */
  function Item(v: Value, k: string): (r: Result<Value>)
    ensures r.Ok? <==> v.Dict? && HasKey(v.fields, k)
  {
    match v
    case Dict(fields) =>
      (match Lookup(fields, k)
       case Some(x) => Ok(x)
       case None => Raise(StrRepr(k)))
    case List(_) => Raise("list indices must be integers or slices, not str")
    case Str(_) => Raise("string indices must be integers, not 'str'")
    case _ => Raise("'" + TypeName(v) + "' object is not subscriptable")
  }

  /** `k in c` with a string on the left: a dict key, a list element, or a substring. */
  function In(k: string, c: Value): (r: Result<bool>)
    ensures c.Dict? ==> r == Ok(HasKey(c.fields, k))
    ensures c.List? ==> r == Ok(Str(k) in c.items)
    ensures c.Str? ==> r == Ok(Contains(c.s, k))
    ensures r.Raise? <==> !(c.Dict? || c.List? || c.Str?)
  {
    match c
    case Dict(fields) => Ok(HasKey(fields, k))
    case List(items) => Ok(Str(k) in items)
    case Str(s) => Ok(Contains(s, k))
    case _ => Raise("argument of type '" + TypeName(c) + "' is not iterable")
  }

  /** `v.lower()`. */
  function LowerOf(v: Value): (r: Result<string>)
    ensures v.Str? <==> r.Ok?
    ensures v.Str? ==> r.value == Lower(v.s)
  {
    if v.Str? then Ok(Lower(v.s)) else Raise(NoAttribute(v, "lower"))
  }

  /** `v.upper()`. */
  function UpperOf(v: Value): (r: Result<string>)
    ensures v.Str? <==> r.Ok?
    ensures v.Str? ==> r.value == Upper(v.s)
  {
    if v.Str? then Ok(Upper(v.s)) else Raise(NoAttribute(v, "upper"))
  }

  /** int(x) toward zero, for a real. */
  function Truncate(x: real): int {
    if x >= 0.0 then x.Floor else -((-x).Floor)
  }

  const INVALID_INT := "invalid literal for int() with base 10: "
  const INT_TYPE_ERROR := "int() argument must be a string, a bytes-like object or a real number, not '"

  /** `int(v)`. */
  function ToInt(v: Value): (r: Result<int>)
    ensures v.Int? ==> r == Ok(v.i)
    ensures v.Null? || v.List? || v.Dict? ==> r.Raise?
  {
    match v
    case Int(i) => Ok(i)
    case Bool(b) => Ok(if b then 1 else 0)
    case Float(x, _) => Ok(Truncate(x))
    case Str(s) =>
      (match ParseInt(s)
       case Some(n) => Ok(n)
       case None => Raise(INVALID_INT + StrRepr(s)))
    case _ => Raise(INT_TYPE_ERROR + TypeName(v) + "'")
  }

  /** `len(v)`. */
  function Len(v: Value): (r: Result<nat>)
    ensures v.List? ==> r == Ok(|v.items|)
    ensures v.Dict? ==> r == Ok(|v.fields|)
    ensures v.Str? ==> r == Ok(|v.s|)
  {
    match v
    case Str(s) => Ok(|s|)
    case List(items) => Ok(|items|)
    case Dict(fields) => Ok(|fields|)
    case _ => Raise("object of type '" + TypeName(v) + "' has no len()")
  }

  /** The values a `for` loop over `v` visits: list items, dict keys, or one-character strings. */
  function Iter(v: Value): (r: Result<seq<Value>>)
    ensures v.List? ==> r == Ok(v.items)
    ensures r.Ok? ==> (|r.value| == 0 <==> !Truthy(v))
  {
    match v
    case List(items) => Ok(items)
    case Dict(fields) => Ok(seq(|fields|, i requires 0 <= i < |fields| => Str(fields[i].0)))
    case Str(s) => Ok(seq(|s|, i requires 0 <= i < |s| => Str([s[i]])))
    case _ => Raise("'" + TypeName(v) + "' object is not iterable")
  }

  /** repr(v). */
  function Repr(v: Value): string
    decreases v
  {
    match v
    case Null => "None"
    case Bool(b) => if b then "True" else "False"
    case Int(i) => IntText(i)
    case Float(_, text) => text
    case Str(s) => StrRepr(s)
    case List(items) =>
      "[" + Join(", ", seq(|items|, i requires 0 <= i < |items| => Repr(items[i]))) + "]"
    case Dict(fields) =>
      "{" + Join(", ", seq(|fields|, i requires 0 <= i < |fields| =>
                             StrRepr(fields[i].0) + ": " + Repr(fields[i].1))) + "}"
  }

  /** str(v), which is also what an f-string substitutes for `{v}`. */
  function ToStr(v: Value): (r: string)
    ensures v.Str? ==> r == v.s
  {
    if v.Str? then v.s else Repr(v)
  }
}
