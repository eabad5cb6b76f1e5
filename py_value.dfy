/**
 * The values the backup extractor gets from `plistlib` and `json`, with the
 * parts of Python's semantics the extractor relies on: truthiness, what
 * `list.extend` iterates over, and dictionary lookup.
 */
module PyValue {
  import opened Wrappers
  import opened Bytes

  datatype Value =
    | Null
    | Bool(b: bool)
    | Int(i: int)
    | Float(f: real)
    | Str(s: string)
    | Bytes(data: seq<byte>)
    | Date(seconds: int)
    | List(items: seq<Value>)
    | Dict(entries: seq<(string, Value)>)

  /** Python's `bool(v)`. */
  predicate Truthy(v: Value)
  {
    match v
    case Null => false
    case Bool(b) => b
    case Int(i) => i != 0
    case Float(f) => f != 0.0
    case Str(s) => s != []
    case Bytes(d) => d != []
    case Date(_) => true
    case List(xs) => xs != []
    case Dict(es) => es != []
  }

  /** The keys of a dictionary, in insertion order. */
  function Keys(entries: seq<(string, Value)>): (r: seq<string>)
    ensures |r| == |entries| && forall k :: 0 <= k < |r| ==> r[k] == entries[k].0
  {
    seq(|entries|, k requires 0 <= k < |entries| => entries[k].0)
  }

  /**
   * What iterating over `v` yields, as `list.extend(v)` does: the items of a
   * list, the keys of a dictionary, the one-character strings of a string,
   * the integers of a bytes object. Anything else raises `TypeError`,
   * modelled as `None`.
   */
  function Iterate(v: Value): (r: Option<seq<Value>>)
    ensures v.List? ==> r == Some(v.items)
    ensures r.Some? <==> (v.List? || v.Dict? || v.Str? || v.Bytes?)
    ensures r.Some? ==> (|r.value| == 0 <==> !Truthy(v))
  {
    match v
    case List(xs) => Some(xs)
    case Dict(es) => Some(seq(|es|, k requires 0 <= k < |es| => Str(es[k].0)))
    case Str(s) => Some(seq(|s|, k requires 0 <= k < |s| => Str([s[k]])))
    case Bytes(d) => Some(seq(|d|, k requires 0 <= k < |d| => Int(d[k] as int)))
    case _ => None
  }

  /** `d[key]` on a dictionary: the value stored under `key`, if any. */
  function Lookup(entries: seq<(string, Value)>, key: string): (r: Option<Value>)
    ensures r.Some? <==> key in Keys(entries)
    ensures r.Some? ==> (key, r.value) in entries
  {
    if entries == [] then None
    else if entries[0].0 == key then Some(entries[0].1)
    else
      assert Keys(entries) == [entries[0].0] + Keys(entries[1..]);
      Lookup(entries[1..], key)
  }

  /** `d.get(key, default)`. */
  function Get(entries: seq<(string, Value)>, key: string, default: Value): (r: Value)
    ensures key !in Keys(entries) ==> r == default
    ensures key in Keys(entries) ==> (key, r) in entries && Lookup(entries, key) == Some(r)
  {
    Lookup(entries, key).GetOr(default)
  }
}
