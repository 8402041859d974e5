/**
 * The Python values the extractor inspects: what a cell of the `Additional Info`
 * column holds before and after `json.loads`, and the few Python operations the
 * extractor applies to them (`in`, subscription, iteration, `dict.get`), with the
 * exceptions they raise.
 */
module PyValues {
  import opened Wrappers

  datatype PyValue =
    | PyNone
    | PyBool(b: bool)
    | PyNum(n: int)                      // an int; floats other than NaN are not represented
    | PyNaN                              // float('nan'): what pandas puts in an empty cell
    | PyStr(s: string)
    | PyList(items: seq<PyValue>)
    | PyDict(fields: map<string, PyValue>)

  /** The exceptions the extraction loop can raise. */
  datatype Fault =
    | TypeError                          // `k in v` or `v[k]` or `for x in v` on a value that does not support it
    | KeyError(key: string)              // `options[key]` with a key that options lacks
    | AttributeError                     // `x.get(...)` on a sub-item that is not a dict

  /** Python's `k in s` for two strs: `k` is a substring of `s` (the empty str is in every str). */
  predicate Occurs(k: string, s: string)
    decreases |s|
  {
    if |k| > |s| then false
    else s[..|k|] == k || (|s| > 0 && Occurs(k, s[1..]))
  }

  /**
   * `key in v`, then `v[key]` when the membership test holds: `None` when the key
   * is not there, the value when `v` is a dict holding it, and a fault otherwise.
   * A list or str answers `in` (element or substring test) but not a str subscript.
   */
  function Lookup(v: PyValue, key: string): (r: Result<Option<PyValue>, Fault>)
    ensures r.Ok? && r.value.Some? <==> v.PyDict? && key in v.fields
    ensures r.Ok? && r.value.Some? ==> r.value.value == v.fields[key]
    ensures r.Err? ==> r.error == TypeError
    ensures v.PyDict? ==> r.Ok?
    ensures v.PyNone? || v.PyBool? || v.PyNum? || v.PyNaN? ==> r == Err(TypeError)
    ensures v.PyList? ==> (r.Err? <==> PyStr(key) in v.items)
    ensures v.PyStr? ==> (r.Err? <==> Occurs(key, v.s))
  {
    match v
    case PyDict(m) => if key in m then Ok(Some(m[key])) else Ok(None)
    case PyList(items) => if PyStr(key) in items then Err(TypeError) else Ok(None)
    case PyStr(s) => if Occurs(key, s) then Err(TypeError) else Ok(None)
    case _ => Err(TypeError)
  }

  /** What `for c in s` yields for a str: one-character strs. */
  function Chars(s: string): (r: seq<PyValue>)
    ensures |r| == |s|
    ensures forall i :: 0 <= i < |s| ==> r[i] == PyStr([s[i]])
  {
    seq(|s|, i requires 0 <= i < |s| => PyStr([s[i]]))
  }

  /** `d.get(name, '')` on a dict. */
  function GetOr(d: map<string, PyValue>, name: string): (r: PyValue)
    ensures name in d ==> r == d[name]
    ensures name !in d ==> r == PyStr("")
  {
    if name in d then d[name] else PyStr("")
  }
}
