/** Decoded JSON documents, as Python's `json` module hands them to the
    adapters, and the handful of Python operations the adapters apply to them:
    truthiness, subscription `v[k]`, `dict.get`, iteration, slicing `v[:n]`
    and `dict.keys()`. An operation that raises in Python answers `None`
    here; every adapter turns such a `None` into its "Failed to parse ..."
    error. */
module PyJson {

  datatype Option<+T> = None | Some(value: T) {
    predicate IsFailure() { None? }

    function PropagateFailure<U>(): Option<U> {
      None
    }

    function Extract(): T
      requires Some?
    {
      value
    }
  }

  /** A decoded document. Objects keep their members in document order, as a
      Python dict keeps insertion order; numbers are integers only. */
  datatype Json =
    | JNull
    | JBool(b: bool)
    | JNum(n: int)
    | JStr(s: string)
    | JArr(items: seq<Json>)
    | JObj(members: seq<(string, Json)>)

  /** Python's `bool(v)`: null, false, 0 and empty strings, lists and dicts are false. */
  predicate Truthy(v: Json) {
    match v
    case JNull => false
    case JBool(b) => b
    case JNum(n) => n != 0
    case JStr(s) => s != ""
    case JArr(items) => items != []
    case JObj(members) => members != []
  }

  /** The position of the first member named `k`, or `|members|` if there is none. */
  function FirstIndex(members: seq<(string, Json)>, k: string): (i: nat)
    ensures i <= |members|
    ensures i < |members| ==> members[i].0 == k
    ensures forall j :: 0 <= j < i ==> members[j].0 != k
  {
    if members == [] then 0
    else if members[0].0 == k then 0
    else 1 + FirstIndex(members[1..], k)
  }

  predicate HasKey(members: seq<(string, Json)>, k: string) {
    exists i :: 0 <= i < |members| && members[i].0 == k
  }

  /** The value stored under `k`, if any. */
  function Lookup(members: seq<(string, Json)>, k: string): (r: Option<Json>)
    ensures r.Some? <==> HasKey(members, k)
    ensures r.Some? ==> exists i :: 0 <= i < |members| && members[i] == (k, r.value)
  {
    var i := FirstIndex(members, k);
    if i < |members| then Some(members[i].1) else None
  }

  /** The member at `i` is the one found when no earlier member has its key. */
  lemma LookupAt(members: seq<(string, Json)>, i: nat)
    requires i < |members|
    requires forall j :: 0 <= j < i ==> members[j].0 != members[i].0
    ensures Lookup(members, members[i].0) == Some(members[i].1)
  {
    var k := members[i].0;
    var first := FirstIndex(members, k);
    assert first <= i;
    assert first == i;
  }

  /** `v` is a dict holding the key `k`. */
  predicate Has(v: Json, k: string) {
    v.JObj? && HasKey(v.members, k)
  }

  /** `v[k]` where the caller already knows it succeeds. */
  function Field(v: Json, k: string): Json
    requires Has(v, k)
  {
    Lookup(v.members, k).value
  }

  /** `v.get(k, default)` where the caller already knows `v` is a dict. */
  function FieldOr(v: Json, k: string, default: Json): Json
    requires v.JObj?
  {
    if HasKey(v.members, k) then Field(v, k) else default
  }

  /** Python's `v[k]` with a string key: only a dict holding `k` answers;
      a missing key raises KeyError and any other value raises TypeError. */
  function Subscript(v: Json, k: string): (r: Option<Json>)
    ensures r.Some? <==> Has(v, k)
    ensures r.Some? ==> r.value == Field(v, k)
  {
    if v.JObj? then Lookup(v.members, k) else None
  }

  /** Python's `v.get(k, default)`: only dicts have `get` (AttributeError
      otherwise); a key stored with value null yields null, not the default. */
  function GetOr(v: Json, k: string, default: Json): (r: Option<Json>)
    ensures r.Some? <==> v.JObj?
    ensures r.Some? ==> r.value == FieldOr(v, k, default)
  {
    if v.JObj? then
      match Lookup(v.members, k)
      case Some(x) => Some(x)
      case None => Some(default)
    else None
  }

  /** `v.get(key, default)` with a key that is itself a decoded value. Decoded
      dicts have string keys only, so null, booleans and numbers are never
      found; lists and dicts are unhashable and raise TypeError. */
  function GetByValue(v: Json, key: Json, default: Json): (r: Option<Json>)
    ensures r.Some? <==> v.JObj? && !key.JArr? && !key.JObj?
    ensures r.Some? && key.JStr? ==> r.value == FieldOr(v, key.s, default)
    ensures r.Some? && !key.JStr? ==> r.value == default
  {
    if !v.JObj? || key.JArr? || key.JObj? then None
    else if key.JStr? then GetOr(v, key.s, default)
    else Some(default)
  }

  /** `v[i]` for a non-negative integer index: lists and strings answer when
      `i` is in range; a dict raises KeyError (its keys are strings). */
  function Index(v: Json, i: nat): (r: Option<Json>)
    ensures v.JArr? && i < |v.items| ==> r == Some(v.items[i])
    ensures r.Some? ==> v.JArr? || v.JStr?
  {
    match v
    case JArr(items) => if i < |items| then Some(items[i]) else None
    case JStr(s) => if i < |s| then Some(JStr([s[i]])) else None
    case _ => None
  }

  /** The key list of a dict, in order: `list(d.keys())`. */
  function Keys(members: seq<(string, Json)>): (ks: seq<string>)
    ensures |ks| == |members|
    ensures forall i :: 0 <= i < |members| ==> ks[i] == members[i].0
  {
    seq(|members|, i requires 0 <= i < |members| => members[i].0)
  }

  /** What `for x in v` visits: the items of a list, the keys of a dict, the
      characters of a string; anything else is not iterable. */
  function Iterate(v: Json): (r: Option<seq<Json>>)
    ensures v.JArr? ==> r == Some(v.items)
    ensures r.Some? ==> v.JArr? || v.JObj? || v.JStr?
  {
    match v
    case JArr(items) => Some(items)
    case JObj(members) => Some(seq(|members|, i requires 0 <= i < |members| => JStr(members[i].0)))
    case JStr(s) => Some(seq(|s|, i requires 0 <= i < |s| => JStr([s[i]])))
    case _ => None
  }

  /** Python's `s[:n]` on a sequence: the first `n` elements, and for a
      negative `n` all but the last `-n`. */
  function PrefixSlice<T>(s: seq<T>, n: int): (r: seq<T>)
    ensures r <= s
    ensures 0 <= n ==> |r| == if n < |s| then n else |s|
    ensures n < 0 ==> |r| == if -n < |s| then |s| + n else 0
  {
    if 0 <= n then (if n < |s| then s[..n] else s)
    else if -n < |s| then s[..|s| + n]
    else []
  }

  /** `v[:n]`: lists and strings slice; a dict, null, a number or a boolean raise. */
  function SliceTo(v: Json, n: int): (r: Option<Json>)
    ensures r.Some? <==> v.JArr? || v.JStr?
    ensures v.JArr? ==> r == Some(JArr(PrefixSlice(v.items, n)))
    ensures v.JStr? ==> r == Some(JStr(PrefixSlice(v.s, n)))
  {
    match v
    case JArr(items) => Some(JArr(PrefixSlice(items, n)))
    case JStr(s) => Some(JStr(PrefixSlice(s, n)))
    case _ => None
  }

  /** What `for x in v[:n]` visits; for a non-negative `n` it is never more than `n` values. */
  function SliceItems(v: Json, n: int): (r: Option<seq<Json>>)
    ensures r.Some? <==> v.JArr? || v.JStr?
    ensures v.JArr? ==> r == Some(PrefixSlice(v.items, n))
    ensures r.Some? && 0 <= n ==> |r.value| <= n
  {
    var sliced :- SliceTo(v, n);
    Iterate(sliced)
  }

  /** A list comprehension `[f(x) for x in xs]` whose element expression may
      raise: all results in order, or nothing as soon as one element raises. */
  function MapAll<T, U>(xs: seq<T>, f: T -> Option<U>): (r: Option<seq<U>>)
    ensures r.Some? <==> forall i :: 0 <= i < |xs| ==> f(xs[i]).Some?
    ensures r.Some? ==> |r.value| == |xs|
    ensures r.Some? ==> forall i :: 0 <= i < |xs| ==> r.value[i] == f(xs[i]).value
  {
    if xs == [] then Some([])
    else
      match f(xs[0])
      case None => None
      case Some(y) =>
        match MapAll(xs[1..], f)
        case None => None
        case Some(ys) => Some([y] + ys)
  }
}
