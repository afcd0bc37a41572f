/**
 * The tree a YAML loader returns for a workflow document, and the few Python
 * operations the extractor applies to it, each with the exception Python
 * raises when the operand has the wrong shape. The loader itself is not part
 * of this model: documents arrive already parsed.
 */
module YamlValue {
  import opened Wrappers
  import opened Text

  /**
   * A loaded YAML node. Mapping keys are strings, in document order (a Python
   * dict keeps insertion order). A key that occurs twice is read through its
   * first entry, which is what `Lookup` returns. Floats and
   * timestamps are not distinguished from other non-string scalars.
   */
  datatype Value =
    | Null
    | Bool(b: bool)
    | Int(i: int)
    | Str(s: string)
    | List(items: seq<Value>)
    | Mapping(fields: seq<(string, Value)>)

  /** The outcome of a Python operation: a value, or an exception (TypeError, AttributeError, KeyError). */
  datatype Py<+T> = Ok(value: T) | Raised

  /** Python truthiness, as in `if not workflow_yaml`. */
  predicate Truthy(v: Value)
  {
    match v
    case Null => false
    case Bool(b) => b
    case Int(i) => i != 0
    case Str(s) => s != ""
    case List(items) => items != []
    case Mapping(fields) => fields != []
  }

  predicate HasKey(fields: seq<(string, Value)>, key: string)
  {
    exists k | 0 <= k < |fields| :: fields[k].0 == key
  }

  /** The value stored under `key`, if any. */
  function Lookup(fields: seq<(string, Value)>, key: string): (r: Option<Value>)
    ensures r.Some? <==> HasKey(fields, key)
  {
    if |fields| == 0 then None
    else if fields[0].0 == key then Some(fields[0].1)
    else Lookup(fields[1..], key)
  }

  /** `d.get(key, default)` on a mapping. */
  function Get(fields: seq<(string, Value)>, key: string, default: Value): Value
  {
    Lookup(fields, key).GetOr(default)
  }

  /** Python's `key in v` for a string `key`: a key test, a substring test or an element test. */
  function In(key: string, v: Value): Py<bool>
  {
    match v
    case Mapping(fields) => Ok(HasKey(fields, key))
    case Str(s) => Ok(Occurs(key, s))
    case List(items) => Ok(Str(key) in items)
    case _ => Raised
  }

  /** Python's `v[key]` for a string `key`. */
  function Index(v: Value, key: string): (r: Py<Value>)
    ensures r.Ok? <==> v.Mapping? && HasKey(v.fields, key)
    ensures r.Ok? ==> Lookup(v.fields, key) == Some(r.value)
  {
    match v
    case Mapping(fields) =>
      (match Lookup(fields, key)
       case Some(x) => Ok(x)
       case None => Raised)
    case _ => Raised
  }

  /** Python's `v.items()`. */
  function Items(v: Value): Py<seq<(string, Value)>>
  {
    match v
    case Mapping(fields) => Ok(fields)
    case _ => Raised
  }

  /** The keys of a mapping, as string nodes. */
  function Keys(fields: seq<(string, Value)>): seq<Value>
  {
    seq(|fields|, k requires 0 <= k < |fields| => Str(fields[k].0))
  }

  /**
   * What `for x in v` walks: the elements of a list, the keys of a mapping,
   * the one-character strings of a string.
   */
  function Iterate(v: Value): Py<seq<Value>>
  {
    match v
    case List(items) => Ok(items)
    case Mapping(fields) => Ok(Keys(fields))
    case Str(s) => Ok(seq(|s|, k requires 0 <= k < |s| => Str([s[k]])))
    case _ => Raised
  }
}
