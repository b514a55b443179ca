/** The few Python rules the integration relies on: `dict.get` with a
    default, iterating a value whose elements are then used as dicts,
    `+=` on an int, and list slicing. */
module PyRules {
  import opened Json

  /** What the integration's code can raise. */
  datatype PyError = TypeError | AttributeError | KeyError | ClientError | DecodeError

  /** `m.get(key, default)`: the default applies only when the key is absent. */
  function PyGet(m: map<string, Json>, key: string, default: Json): Json
  {
    if key in m then m[key] else default
  }

  /** `for x in v`, where every element `x` is then used as a dict
      (subscripted or sent `.get`).  A list yields its elements and each
      must be a dict; iterating a dict yields its keys and a string yields
      its characters, both `str`, so either only works when it is empty;
      any other value is not iterable. */
  function PyDicts(v: Json): (r: Result<seq<map<string, Json>>, PyError>)
    ensures r.Ok? <==> (v.JArr? && forall i :: 0 <= i < |v.items| ==> v.items[i].JObj?)
                       || v == JObj(map[]) || v == JStr("")
    ensures r.Ok? && v.JArr? ==> |r.value| == |v.items| &&
                                 forall i :: 0 <= i < |v.items| ==> v.items[i] == JObj(r.value[i])
    ensures r.Ok? && !v.JArr? ==> r.value == []
  {
    match v
    case JArr(items) => DictItems(items)
    case JObj(m) => if m == map[] then Ok([]) else Err(TypeError)
    case JStr(s) => if s == "" then Ok([]) else Err(TypeError)
    case _ => Err(TypeError)
  }

  function DictItems(items: seq<Json>): (r: Result<seq<map<string, Json>>, PyError>)
    ensures r.Ok? <==> forall i :: 0 <= i < |items| ==> items[i].JObj?
    ensures r.Ok? ==> |r.value| == |items| && forall i :: 0 <= i < |items| ==> items[i] == JObj(r.value[i])
  {
    if items == [] then Ok([])
    else if !items[0].JObj? then Err(TypeError)
    else match DictItems(items[1..])
      case Err(e) => Err(e)
      case Ok(rest) => Ok([items[0].fields] + rest)
  }

  /** The integer a JSON value contributes to `total += value`: an int,
      or a bool (`True` counts 1); anything else raises TypeError. */
  function PyNumber(v: Json): Option<int>
  {
    match v
    case JNum(n) => Some(n)
    case JBool(b) => Some(if b then 1 else 0)
    case _ => None
  }

  /** Where one bound of `s[i:j]` lands in a sequence of length `n`. */
  function SliceIndex(i: int, n: nat): (k: nat)
    ensures k <= n
    ensures 0 <= i <= n ==> k == i
    ensures i > n ==> k == n
    ensures i < 0 && 0 <= i + n ==> k == i + n
    ensures i + n < 0 ==> k == 0
  {
    if i < 0 then (if i + n < 0 then 0 else i + n)
    else if i > n then n
    else i
  }

  /** `s[i:j]` with Python's rules for out-of-range and negative bounds. */
  function PySlice<T>(s: seq<T>, i: int, j: int): (r: seq<T>)
    ensures |r| <= |s|
  {
    var lo, hi := SliceIndex(i, |s|), SliceIndex(j, |s|);
    if lo < hi then s[lo..hi] else []
  }

  /** `for x in v[i:j]`, every `x` then used as a dict.  Slicing a list
      gives a list; slicing a string gives a string, which only works as
      an empty one; a dict, None, a number or a bool cannot be sliced. */
  function PySliceDicts(v: Json, i: int, j: int): Result<seq<map<string, Json>>, PyError>
  {
    match v
    case JArr(items) => DictItems(PySlice(items, i, j))
    case JStr(s) => if PySlice(s, i, j) == "" then Ok([]) else Err(TypeError)
    case _ => Err(TypeError)
  }
}
