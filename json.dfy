/**
 * The values `json.loads` and `ast.literal_eval` hand back, and the few dict and
 * conversion operations the scripts apply to them.
 */
module Json {
  import opened Wrappers

  /** A parsed value. JSON integers and floats are both `Num`; an object keeps its key order. */
  datatype Value =
    | Null
    | Bool(b: bool)
    | Num(n: real)
    | Str(s: string)
    | Arr(items: seq<Value>)
    | Obj(fields: seq<(string, Value)>)

  /** `d[key]` when present: the first entry with that key. */
  function Lookup(fields: seq<(string, Value)>, key: string): (r: Option<Value>)
    ensures r.Some? <==> exists i :: 0 <= i < |fields| && fields[i].0 == key
    ensures r.Some? ==> (key, r.value) in fields
  {
    if fields == [] then None
    else if fields[0].0 == key then Some(fields[0].1)
    else Lookup(fields[1..], key)
  }

  /** `d.get(key, default)`. */
  function Get(fields: seq<(string, Value)>, key: string, default: Value): Value {
    Lookup(fields, key).GetOr(default)
  }

  /** Python's `bool(v)`. */
  predicate Truthy(v: Value) {
    match v
    case Null => false
    case Bool(b) => b
    case Num(n) => n != 0.0
    case Str(s) => s != []
    case Arr(xs) => xs != []
    case Obj(fs) => fs != []
  }

  lemma {:induction false} LookupAppend(fields: seq<(string, Value)>, key: string, v: Value, k: string)
    ensures Lookup(fields + [(key, v)], k) == if Lookup(fields, k).Some? then Lookup(fields, k) else if k == key then Some(v) else None
  {
    if fields != [] {
      assert (fields + [(key, v)])[1..] == fields[1..] + [(key, v)];
      LookupAppend(fields[1..], key, v, k);
    }
  }

  /**
   * `d.setdefault(key, default)`, as the dict it leaves behind: the key is bound afterwards,
   * an existing binding is kept, every other key is untouched, and a new key goes at the end.
   */
  function SetDefault(fields: seq<(string, Value)>, key: string, default: Value): (r: seq<(string, Value)>)
    ensures Lookup(r, key) == Some(Get(fields, key, default))
    ensures forall k :: k != key ==> Lookup(r, k) == Lookup(fields, k)
    ensures Lookup(fields, key).Some? ==> r == fields
    ensures Lookup(fields, key).None? ==> r == fields + [(key, default)]
  {
    if Lookup(fields, key).Some? then fields
    else
      forall k ensures Lookup(fields + [(key, default)], k) == if k == key then Some(default) else Lookup(fields, k) {
        LookupAppend(fields, key, default, k);
      }
      fields + [(key, default)]
  }

  /** Python's `str(v)`: a string is itself; every other value goes through `repr`, which stands for Python's formatting. */
  function PyStr(v: Value, repr: Value -> string): string {
    if v.Str? then v.s else repr(v)
  }

  /** Python's `float(v)`; `parse` stands for `float()` applied to a string. `None` means it raised. */
  function PyFloat(v: Value, parse: string -> Option<real>): Option<real> {
    match v
    case Num(n) => Some(n)
    case Bool(b) => Some(if b then 1.0 else 0.0)
    case Str(s) => parse(s)
    case _ => None
  }

  /** Python's `v[k]` for a small non-negative `k`; `None` when it raises. */
  function Index(v: Value, k: nat): Option<Value> {
    match v
    case Arr(xs) => if k < |xs| then Some(xs[k]) else None
    case Str(s) => if k < |s| then Some(Str([s[k]])) else None
    case _ => None
  }
}
