/** The values the backend receives from `json.loads` (AI replies, context entries) and the
    handful of Python operations the agents apply to them, with the exceptions Python raises
    when a value has the wrong shape. */
module Json {
  import Text
  import opened Wrappers

  /** A JSON value as Python holds it. An object keeps its members in document order; duplicate
      keys may occur, and then the last one is the one `dict` keeps. */
  datatype Json =
    | Null
    | Bool(b: bool)
    | Int(i: int)
    | Float(f: real)
    | Str(s: string)
    | Arr(items: seq<Json>)
    | Obj(fields: seq<(string, Json)>)

  /** The Python exception classes the agents can meet; `External` stands for anything raised
      by a library or service call outside the model (HTTP, the AI client, file reads). */
  datatype ExcKind = AttributeError | TypeError | KeyError | ValueError | External

  /** An exception together with the text `str(e)` gives for it. */
  datatype Exc = Exc(kind: ExcKind, text: string)

  /** The outcome of a Python expression: a value, or the exception it raised. */
  datatype Py<+T> = Ok(value: T) | Raise(exc: Exc)

  /** `type(v).__name__`. */
  function TypeName(v: Json): string {
    match v
    case Null => "NoneType"
    case Bool(_) => "bool"
    case Int(_) => "int"
    case Float(_) => "float"
    case Str(_) => "str"
    case Arr(_) => "list"
    case Obj(_) => "dict"
  }

  // ---------------------------------------------------------------- dictionaries

  /** The value `dict` keeps for `key`: that of the last member with this key. */
  function Lookup(fields: seq<(string, Json)>, key: string): (r: Option<Json>)
    ensures r.Some? <==> exists i :: 0 <= i < |fields| && fields[i].0 == key
    ensures r.Some? ==> exists i :: 0 <= i < |fields| && fields[i] == (key, r.value)
                                    && forall j :: i < j < |fields| ==> fields[j].0 != key
  {
    if |fields| == 0 then None
    else if fields[|fields| - 1].0 == key then Some(fields[|fields| - 1].1)
    else Lookup(fields[..|fields| - 1], key)
  }

  /** The distinct keys in the order of their first appearance, which is the order a `dict`
      built by `json.loads` iterates them. */
  function Keys(fields: seq<(string, Json)>): (ks: seq<string>)
    ensures forall k :: k in ks <==> exists i :: 0 <= i < |fields| && fields[i].0 == k
    ensures forall i, j :: 0 <= i < j < |ks| ==> ks[i] != ks[j]
  {
    if |fields| == 0 then []
    else
      var ks := Keys(fields[..|fields| - 1]);
      var k := fields[|fields| - 1].0;
      assert forall f :: f in fields[..|fields| - 1] ==> f in fields;
      if k in ks then ks else ks + [k]
  }

  /** `v.get(key, dflt)`: `v` must be a `dict`, anything else has no `get` attribute. */
  function Get(v: Json, key: string, dflt: Json): (r: Py<Json>)
    ensures v.Obj? <==> r.Ok?
    ensures v.Obj? && Lookup(v.fields, key).None? ==> r == Ok(dflt)
    ensures v.Obj? && Lookup(v.fields, key).Some? ==> r == Ok(Lookup(v.fields, key).value)
  {
    if v.Obj? then
      match Lookup(v.fields, key)
      case Some(x) => Ok(x)
      case None => Ok(dflt)
    else Raise(Exc(AttributeError, "'" + TypeName(v) + "' object has no attribute 'get'"))
  }

  /** `v[key]` with a string key: a missing key of a `dict` raises `KeyError`, and every other
      kind of value rejects a string subscript with `TypeError`. */
  function Index(v: Json, key: string): (r: Py<Json>)
    ensures r.Ok? <==> v.Obj? && Lookup(v.fields, key).Some?
    ensures r.Ok? ==> r.value == Lookup(v.fields, key).value
    ensures v.Obj? && r.Raise? ==> r.exc == Exc(KeyError, "'" + key + "'")
  {
    match v
    case Obj(fs) =>
      (match Lookup(fs, key)
       case Some(x) => Ok(x)
       case None => Raise(Exc(KeyError, "'" + key + "'")))
    case Arr(_) => Raise(Exc(TypeError, "list indices must be integers or slices, not str"))
    case Str(_) => Raise(Exc(TypeError, "string indices must be integers, not 'str'"))
    case _ => Raise(Exc(TypeError, "'" + TypeName(v) + "' object is not subscriptable"))
  }

  // ---------------------------------------------------------------- truth and numbers

  /** `bool(v)`. */
  predicate Truthy(v: Json) {
    match v
    case Null => false
    case Bool(b) => b
    case Int(i) => i != 0
    case Float(f) => f != 0.0
    case Str(s) => |s| > 0
    case Arr(xs) => |xs| > 0
    case Obj(fs) => |fs| > 0
  }

  /** The numeric value of a number (`True` counts as 1), or nothing for any other value. */
  function Numeric(v: Json): (r: Option<real>)
    ensures r.Some? <==> v.Bool? || v.Int? || v.Float?
  {
    match v
    case Bool(b) => Some(if b then 1.0 else 0.0)
    case Int(i) => Some(i as real)
    case Float(f) => Some(f)
    case _ => None
  }

  datatype CmpOp = Lt | Le | Gt | Ge

  function OpSymbol(op: CmpOp): string {
    match op
    case Lt => "<" case Le => "<=" case Gt => ">" case Ge => ">="
  }

  function Holds(op: CmpOp, x: real, y: real): bool {
    match op
    case Lt => x < y case Le => x <= y case Gt => x > y case Ge => x >= y
  }

  /** `v <op> k` for a numeric constant `k` (written as the JSON value `kv` so its Python
      type is known): a non-number on the left raises `TypeError`. */
  function Compare(v: Json, op: CmpOp, kv: Json): (r: Py<bool>)
    requires kv.Int? || kv.Float?
    ensures r.Ok? <==> Numeric(v).Some?
    ensures r.Ok? ==> r.value == Holds(op, Numeric(v).value, Numeric(kv).value)
  {
    match Numeric(v)
    case Some(x) => Ok(Holds(op, x, Numeric(kv).value))
    case None =>
      Raise(Exc(TypeError, "'" + OpSymbol(op) + "' not supported between instances of '"
                           + TypeName(v) + "' and '" + TypeName(kv) + "'"))
  }

  // ---------------------------------------------------------------- iteration and membership

  /** The elements `for x in v` visits: the items of a list, the characters of a string, the
      keys of a dict; other values are not iterable. */
  function Iterate(v: Json): (r: Py<seq<Json>>)
    ensures r.Ok? <==> v.Arr? || v.Str? || v.Obj?
    ensures v.Arr? ==> r == Ok(v.items)
    ensures v.Str? ==> r.Ok? && |r.value| == |v.s|
                       && forall i :: 0 <= i < |v.s| ==> r.value[i] == Str([v.s[i]])
    ensures v.Obj? ==> r.Ok? && |r.value| == |Keys(v.fields)|
                       && forall i :: 0 <= i < |r.value| ==> r.value[i] == Str(Keys(v.fields)[i])
  {
    match v
    case Arr(xs) => Ok(xs)
    case Str(s) => Ok(seq(|s|, i requires 0 <= i < |s| => Str([s[i]])))
    case Obj(fs) =>
      var ks := Keys(fs);
      Ok(seq(|ks|, i requires 0 <= i < |ks| => Str(ks[i])))
    case _ => Raise(Exc(TypeError, "'" + TypeName(v) + "' object is not iterable"))
  }

  /** `needle in v` for a string needle: a substring test on a string, key membership on a
      dict, element equality on a list; other values are not containers. */
  function In(needle: string, v: Json): (r: Py<bool>)
    ensures r.Ok? <==> v.Arr? || v.Str? || v.Obj?
    ensures v.Str? ==> r == Ok(Text.Contains(v.s, needle))
    ensures v.Obj? ==> r == Ok(Lookup(v.fields, needle).Some?)
    ensures v.Arr? ==> r == Ok(Str(needle) in v.items)
  {
    match v
    case Str(s) => Ok(Text.ContainsText(s, needle))
    case Obj(fs) => Ok(Lookup(fs, needle).Some?)
    case Arr(xs) => Ok(Str(needle) in xs)
    case _ => Raise(Exc(TypeError, "argument of type '" + TypeName(v) + "' is not iterable"))
  }
}
