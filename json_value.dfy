/** JSON values as the Python code sees them after `json.loads`, with the
    handful of Python operations the core applies to them: truthiness, `len`,
    `dict.get`, subscripting, `in`, iteration and `str`. Floats are not
    modelled. */
module JsonValue {
  import opened Wrappers
  import Text
  import OrderedMap

  datatype Value =
    | Null
    | Bool(b: bool)
    | Int(i: int)
    | Str(s: string)
    | Arr(items: seq<Value>)
    | Obj(fields: seq<(string, Value)>)

  /** The exceptions Python raises from these operations. */
  datatype PyExc = TypeError | AttributeError | KeyError | ValueError | JsonDecodeError

  /** `bool(v)` */
  predicate Truthy(v: Value) {
    match v
    case Null => false
    case Bool(b) => b
    case Int(i) => i != 0
    case Str(s) => s != []
    case Arr(items) => items != []
    case Obj(fields) => fields != []
  }

  /** `len(v)`; `None` where Python raises `TypeError`. */
  function Len(v: Value): (r: Option<nat>)
    ensures r.Some? <==> (v.Str? || v.Arr? || v.Obj?)
  {
    match v
    case Str(s) => Some(|s|)
    case Arr(items) => Some(|items|)
    case Obj(fields) => Some(|fields|)
    case _ => None
  }

  /** For a sized value, truthiness is a non-zero length. */
  lemma TruthyIffNonEmpty(v: Value)
    requires Len(v).Some?
    ensures Truthy(v) <==> Len(v).value > 0
  {
  }

  /** `isinstance(v, int)`: Python's `bool` is a subclass of `int`. */
  predicate IsPyInt(v: Value) { v.Int? || v.Bool? }

  /** The integer value of an int or bool. */
  function AsInt(v: Value): int
    requires IsPyInt(v)
  {
    if v.Int? then v.i else if v.b then 1 else 0
  }

  /** `int(v)`: ints and bools as numbers, strings through `Text.ParseInt`
      (`ValueError` when it refuses them), `TypeError` for everything else. */
  function PyInt(v: Value): (r: Result<int, PyExc>)
    ensures IsPyInt(v) ==> r == Ok(AsInt(v))
    ensures r.Err? ==> (r.error == ValueError <==> v.Str?)
  {
    match v
    case Int(i) => Ok(i)
    case Bool(b) => Ok(if b then 1 else 0)
    case Str(s) => if Text.ParseInt(s).Some? then Ok(Text.ParseInt(s).value) else Err(ValueError)
    case _ => Err(TypeError)
  }

  /** `v.get(key)` on a dict: `None` for a missing key. */
  function Field(v: Value, key: string): (r: Option<Value>)
    requires v.Obj?
  {
    OrderedMap.Get(v.fields, key)
  }

  /** `key in v` for a dict. */
  predicate HasField(v: Value, key: string) {
    v.Obj? && key in OrderedMap.Keys(v.fields)
  }

  /** `v.get(key, default)`; Python raises `AttributeError` on a non-dict. */
  function GetOr(v: Value, key: string, default: Value): (r: Result<Value, PyExc>)
    ensures r.Err? <==> !v.Obj?
    ensures r.Ok? && HasField(v, key) ==> Field(v, key) == Some(r.value)
    ensures r.Ok? && !HasField(v, key) ==> r.value == default
  {
    if !v.Obj? then Err(AttributeError)
    else
      match Field(v, key)
      case Some(x) => Ok(x)
      case None => Ok(default)
  }

  // The same dict operations read straight off the pairs: `Find`,
  // `Lookup`, `Has` and `Assign` are `Field`, `GetOr`, `HasField` and
  // `Set` (see `FindIsField` and `AssignIsSet`) without the index
  // bookkeeping, which keeps proofs about records with many keys small.

  function Find(fields: seq<(string, Value)>, key: string): Option<Value> {
    if fields == [] then None
    else if fields[0].0 == key then Some(fields[0].1)
    else Find(fields[1..], key)
  }

  /** `d.get(key, default)` on a value known to be a dict. */
  function Lookup(d: Value, key: string, default: Value): Value
    requires d.Obj?
  {
    match Find(d.fields, key) case Some(x) => x case None => default
  }

  /** `key in d` on a value known to be a dict. */
  predicate Has(d: Value, key: string)
    requires d.Obj?
  {
    Find(d.fields, key).Some?
  }

  /** `d[key] = x` on a value known to be a dict. */
  function Assign(d: Value, key: string, x: Value): (r: Value)
    requires d.Obj?
    ensures r.Obj?
  {
    Obj(AssignPairs(d.fields, key, x))
  }

  function AssignPairs(fields: seq<(string, Value)>, key: string, x: Value): seq<(string, Value)> {
    if fields == [] then [(key, x)]
    else if fields[0].0 == key then [(key, x)] + fields[1..]
    else [fields[0]] + AssignPairs(fields[1..], key, x)
  }

  /** The first pair with the key decides the lookup. */
  lemma {:induction false} FindAt(fields: seq<(string, Value)>, i: int, key: string)
    requires 0 <= i < |fields| && fields[i].0 == key
    requires forall j :: 0 <= j < i ==> fields[j].0 != key
    ensures Find(fields, key) == Some(fields[i].1)
  {
    if i > 0 {
      FindAt(fields[1..], i - 1, key);
    }
  }

  /** After `d[key] = x`, `key` holds `x` and every other key what it held. */
  lemma {:induction false} FindAssign(fields: seq<(string, Value)>, key: string, x: Value, k: string)
    ensures Find(AssignPairs(fields, key, x), k) == if k == key then Some(x) else Find(fields, k)
  {
    if fields != [] && fields[0].0 != key {
      FindAssign(fields[1..], key, x, k);
    }
  }

  lemma {:induction false} FindIsGet(fields: seq<(string, Value)>, key: string)
    ensures Find(fields, key) == OrderedMap.Get(fields, key)
  {
    if fields != [] {
      OrderedMap.GetCons(fields, key);
      FindIsGet(fields[1..], key);
    }
  }

  lemma FindIsField(d: Value, key: string)
    requires d.Obj?
    ensures Find(d.fields, key) == Field(d, key)
    ensures Has(d, key) <==> HasField(d, key)
    ensures Lookup(d, key, Null) == GetOr(d, key, Null).value
  {
    FindIsGet(d.fields, key);
  }

  lemma {:induction false} AssignPairsIsPut(fields: seq<(string, Value)>, key: string, x: Value)
    ensures AssignPairs(fields, key, x) == OrderedMap.Put(fields, key, x)
  {
    if fields == [] {
      OrderedMap.PutShape(fields, key, x);
    } else {
      OrderedMap.PutCons(fields, key, x);
      AssignPairsIsPut(fields[1..], key, x);
    }
  }

  lemma AssignIsSet(d: Value, key: string, x: Value)
    requires d.Obj?
    ensures Assign(d, key, x) == Set(d, key, x)
  {
    AssignPairsIsPut(d.fields, key, x);
  }

  /** `v[key]` with a string key. */
  function GetItem(v: Value, key: string): (r: Result<Value, PyExc>)
    ensures r.Ok? <==> HasField(v, key)
    ensures r.Ok? ==> Field(v, key) == Some(r.value)
  {
    if !v.Obj? then Err(TypeError)
    else
      match Field(v, key)
      case Some(x) => Ok(x)
      case None => Err(KeyError)
  }

  /** `key in v` for a string key: dict keys, list elements or substrings;
      `TypeError` on anything else. */
  function In(key: string, v: Value): (r: Result<bool, PyExc>)
    ensures v.Obj? ==> r == Ok(HasField(v, key))
    ensures r.Err? <==> !(v.Obj? || v.Arr? || v.Str?)
  {
    match v
    case Obj(fields) => Ok(key in OrderedMap.Keys(fields))
    case Arr(items) => Ok(Str(key) in items)
    case Str(s) => Ok(Text.Contains(s, key))
    case _ => Err(TypeError)
  }

  /** `for x in v`: list elements, dict keys or one-character strings. */
  function Iterate(v: Value): (r: Option<seq<Value>>)
    ensures r.Some? <==> (v.Arr? || v.Obj? || v.Str?)
    ensures r.Some? ==> |r.value| == Len(v).value
  {
    match v
    case Arr(items) => Some(items)
    case Obj(fields) => Some(seq(|fields|, i requires 0 <= i < |fields| => Str(fields[i].0)))
    case Str(s) => Some(seq(|s|, i requires 0 <= i < |s| => Str([s[i]])))
    case _ => None
  }

  /** `d[key] = x` on a dict. */
  function Set(v: Value, key: string, x: Value): (r: Value)
    requires v.Obj?
    ensures r.Obj? && Field(r, key) == Some(x)
  {
    Obj(OrderedMap.Put(v.fields, key, x))
  }

  /** `repr(v)`; string escaping and the choice of quote character are not
      modelled (strings are always shown in single quotes). */
  function Repr(v: Value): (r: string)
    decreases v
  {
    match v
    case Null => "None"
    case Bool(b) => if b then "True" else "False"
    case Int(i) => Text.IntToString(i)
    case Str(s) => "'" + s + "'"
    case Arr(items) =>
      "[" + Text.Join(", ", seq(|items|, i requires 0 <= i < |items| => Repr(items[i]))) + "]"
    case Obj(fields) =>
      "{" + Text.Join(", ", seq(|fields|, i requires 0 <= i < |fields| =>
                                  "'" + fields[i].0 + "': " + Repr(fields[i].1))) + "}"
  }

  /** `str(v)`: a string is itself, everything else is its `repr`. */
  function PyStr(v: Value): (r: string)
    ensures v.Str? ==> r == v.s
    ensures v.Int? && v.i >= 0 ==> Text.AllDigits(r)
  {
    match v
    case Str(s) => s
    case _ => Repr(v)
  }

  /** Values Python can use as dict keys (lists and dicts cannot). */
  predicate Hashable(v: Value) { !(v.Arr? || v.Obj?) }

  /** The key a hashable value stands for: `True == 1` and `False == 0` are the
      same dict key in Python. */
  function KeyOf(v: Value): (r: Value)
    requires Hashable(v)
    ensures Hashable(r) && !r.Bool?
    ensures v.Str? ==> r == v
  {
    if v.Bool? then Int(if v.b then 1 else 0) else v
  }
}
