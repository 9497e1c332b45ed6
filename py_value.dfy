/** The loosely typed values the scripts receive from yaml.safe_load and
    response.json(): None, booleans, integers, strings, lists and dicts, with
    the Python operations applied to them (truthiness, `in`, `[]`, `.get`,
    str() and repr()). Dict entries are kept in insertion order; their keys
    are strings and are distinct, as the loaders produce them. */
module PyValue {
  import opened Base

  datatype Value =
    | Null
    | Bool(b: bool)
    | Int(i: int)
    | Str(s: string)
    | List(items: seq<Value>)
    | Dict(entries: seq<Entry>)

  datatype Entry = Entry(key: string, val: Value)

  /** Python truthiness: None, False, 0, "", [] and {} are false. */
  predicate Truthy(v: Value) {
    match v
    case Null => false
    case Bool(b) => b
    case Int(i) => i != 0
    case Str(s) => s != ""
    case List(xs) => xs != []
    case Dict(es) => es != []
  }

  /** The value stored under `key`, if any. */
  function Lookup(entries: seq<Entry>, key: string): (r: Option<Value>)
    ensures r.Some? <==> exists k :: 0 <= k < |entries| && entries[k].key == key
    ensures r.Some? ==> exists k :: 0 <= k < |entries| && entries[k] == Entry(key, r.value)
  {
    if entries == [] then None
    else if entries[0].key == key then Some(entries[0].val)
    else
      var r := Lookup(entries[1..], key);
      assert forall k :: 1 <= k < |entries| ==> entries[k] == entries[1..][k - 1];
      r
  }

  predicate HasKey(entries: seq<Entry>, key: string) {
    Lookup(entries, key).Some?
  }

  /** `key in container` for a string key. */
  function In(key: string, container: Value): (r: Result<bool>)
    ensures container.Dict? ==> r == Ok(HasKey(container.entries, key))
    ensures container.Str? ==> r == Ok(Contains(container.s, key))
    ensures (container.Null? || container.Bool? || container.Int?) ==> r == Err(TypeError)
  {
    match container
    case Dict(es) => Ok(HasKey(es, key))
    case Str(s) => Ok(Contains(s, key))
    case List(xs) => Ok(Str(key) in xs)
    case _ => Err(TypeError)
  }

  /** `container[key]` for a string key. */
  function GetItem(container: Value, key: string): (r: Result<Value>)
    ensures r.Ok? <==> container.Dict? && HasKey(container.entries, key)
    ensures container.Dict? && !HasKey(container.entries, key) ==> r == Err(KeyError)
  {
    match container
    case Dict(es) =>
      (match Lookup(es, key)
       case Some(v) => Ok(v)
       case None => Err(KeyError))
    case _ => Err(TypeError)
  }

  /** `container.get(key, default)`; only dicts have a `get` method. */
  function GetOrDefault(container: Value, key: string, default: Value): (r: Result<Value>)
    ensures r.Ok? <==> container.Dict?
    ensures container.Dict? && !HasKey(container.entries, key) ==> r == Ok(default)
  {
    match container
    case Dict(es) => Ok(Lookup(es, key).GetOr(default))
    case _ => Err(AttributeError)
  }

  /** repr() of a value (string escaping is not reproduced). */
  function Repr(v: Value): string
    decreases v, 1
  {
    match v
    case Null => "None"
    case Bool(b) => if b then "True" else "False"
    case Int(i) => IntToString(i)
    case Str(s) => "'" + s + "'"
    case List(xs) => "[" + ReprItems(xs) + "]"
    case Dict(es) => "{" + ReprEntries(es) + "}"
  }

  function ReprItems(xs: seq<Value>): string
    decreases xs, 0
  {
    if xs == [] then ""
    else if |xs| == 1 then Repr(xs[0])
    else Repr(xs[0]) + ", " + ReprItems(xs[1..])
  }

  function ReprEntries(es: seq<Entry>): string
    decreases es, 0
  {
    if es == [] then ""
    else
      var e := "'" + es[0].key + "': " + Repr(es[0].val);
      if |es| == 1 then e else e + ", " + ReprEntries(es[1..])
  }

  /** str() of a value: strings are themselves, everything else is its repr. */
  function StrOf(v: Value): (r: string)
    ensures v.Str? ==> r == v.s
    ensures !v.Str? ==> r == Repr(v)
  {
    match v
    case Str(s) => s
    case _ => Repr(v)
  }
}
