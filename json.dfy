/**
 * The dynamically typed values the council passes around: what `json.loads`
 * produces and what the Python code stores in its dictionaries.
 */
module Json {
  import opened Wrappers

  /**
   * A Python value of JSON shape. `Obj` keeps its entries in insertion order,
   * as a Python dict does; a dict holds each key once.
   */
  datatype Value =
    | Null
    | Bool(b: bool)
    | Int(i: int)
    | Float(r: real)
    | Str(s: string)
    | List(items: seq<Value>)
    | Obj(fields: seq<(string, Value)>)

  /** The Python exceptions the modelled code can raise. */
  datatype PyError = TypeError | AttributeError | KeyError | ZeroDivisionError | ValueError

  /** Python truthiness (`bool(v)`). */
  predicate Truthy(v: Value)
  {
    match v
    case Null => false
    case Bool(b) => b
    case Int(i) => i != 0
    case Float(r) => r != 0.0
    case Str(s) => s != ""
    case List(xs) => xs != []
    case Obj(fs) => fs != []
  }

  /** `isinstance(v, int)` and the integer it denotes: a bool is an int in Python. */
  function AsInt(v: Value): (r: Option<int>)
    ensures r.Some? <==> v.Int? || v.Bool?
    ensures v.Int? ==> r == Some(v.i)
  {
    match v
    case Bool(b) => Some(if b then 1 else 0)
    case Int(i) => Some(i)
    case _ => None
  }

  /** The keys of a dict. */
  function Keys(fields: seq<(string, Value)>): set<string>
  {
    if fields == [] then {} else {fields[0].0} + Keys(fields[1..])
  }

  /** `key in d` together with `d[key]`: the value of the first entry with that key. */
  function Lookup(fields: seq<(string, Value)>, key: string): (r: Option<Value>)
    ensures r.Some? <==> key in Keys(fields)
    ensures r.Some? ==> exists i :: 0 <= i < |fields| && fields[i] == (key, r.value)
  {
    if fields == [] then None
    else if fields[0].0 == key then Some(fields[0].1)
    else Lookup(fields[1..], key)
  }

  /** The keys of concatenated entries. */
  lemma {:induction false} KeysAppend(a: seq<(string, Value)>, b: seq<(string, Value)>)
    ensures Keys(a + b) == Keys(a) + Keys(b)
  {
    if a == [] {
      assert a + b == b;
    } else {
      assert (a + b)[0] == a[0];
      assert (a + b)[1..] == a[1..] + b;
      KeysAppend(a[1..], b);
    }
  }

  /** Looking up in concatenated entries finds the earlier entry first. */
  lemma {:induction false} LookupAppend(a: seq<(string, Value)>, b: seq<(string, Value)>, key: string)
    ensures Lookup(a + b, key) == if key in Keys(a) then Lookup(a, key) else Lookup(b, key)
  {
    if a == [] {
      assert a + b == b;
    } else {
      assert (a + b)[0] == a[0];
      assert (a + b)[1..] == a[1..] + b;
      LookupAppend(a[1..], b, key);
    }
  }

  /** No key occurs twice among `fields`. */
  predicate DistinctKeys(fields: seq<(string, Value)>)
  {
    forall i, j :: 0 <= i < j < |fields| ==> fields[i].0 != fields[j].0
  }

  /** With distinct keys, looking up an entry's key finds that entry. */
  lemma {:induction false} LookupDistinct(fields: seq<(string, Value)>, k: nat)
    requires DistinctKeys(fields) && k < |fields|
    ensures Lookup(fields, fields[k].0) == Some(fields[k].1)
  {
    if k > 0 {
      assert fields[1..][k - 1] == fields[k];
      assert DistinctKeys(fields[1..]) by {
        forall i, j | 0 <= i < j < |fields| - 1
          ensures fields[1..][i].0 != fields[1..][j].0
        {
          assert fields[1..][i] == fields[i + 1] && fields[1..][j] == fields[j + 1];
        }
      }
      LookupDistinct(fields[1..], k - 1);
    }
  }

  /** The keys of a dict in order, as iterating it yields them. */
  function FieldNames(fields: seq<(string, Value)>): (r: seq<string>)
    ensures |r| == |fields| && forall k :: 0 <= k < |fields| ==> r[k] == fields[k].0
  {
    if fields == [] then [] else [fields[0].0] + FieldNames(fields[1..])
  }

  /** `d.get(key, default)`. */
  function Get(fields: seq<(string, Value)>, key: string, default: Value): Value
  {
    match Lookup(fields, key)
    case Some(v) => v
    case None => default
  }

  /** `v[key]` for a string key: a dict's entry, a KeyError when it has none, a TypeError on any other value. */
  function Subscript(v: Value, key: string): (r: Result<Value, PyError>)
    ensures r.Ok? <==> v.Obj? && key in Keys(v.fields)
    ensures r.Ok? ==> Lookup(v.fields, key) == Some(r.value)
    ensures r.Err? ==> r.error == if v.Obj? then KeyError else TypeError
  {
    if !v.Obj? then Err(TypeError)
    else
      match Lookup(v.fields, key)
      case Some(x) => Ok(x)
      case None => Err(KeyError)
  }

  /** The decimal digits of a natural number. */
  function NatToString(n: nat): (r: string)
    ensures r != []
    ensures forall i :: 0 <= i < |r| ==> '0' <= r[i] <= '9'
  {
    var d := ['0', '1', '2', '3', '4', '5', '6', '7', '8', '9'][n % 10];
    if n < 10 then [d] else NatToString(n / 10) + [d]
  }

  /** Python's `str(n)` for an integer. */
  function IntToString(n: int): string
  {
    if n < 0 then "-" + NatToString(-n) else NatToString(n)
  }

  /**
   * Python's `str(v)`. Scalars and empty containers are rendered here; the
   * repr of a float or of a non-empty container is supplied by `repr`.
   */
  function ToText(v: Value, repr: Value -> string): string
  {
    match v
    case Null => "None"
    case Bool(b) => if b then "True" else "False"
    case Int(i) => IntToString(i)
    case Str(s) => s
    case List(xs) => if xs == [] then "[]" else repr(v)
    case Obj(fs) => if fs == [] then "{}" else repr(v)
    case Float(_) => repr(v)
  }
}
