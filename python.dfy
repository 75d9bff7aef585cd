/**
 * The slice of the Python runtime that the tracker and the transport rely on:
 * the values a caller can hand to the library, the exceptions the library can
 * raise, CPython's insertion-ordered dictionaries, and the library functions
 * (str, int, float, the MD5-derived uuid) that the model leaves uninterpreted.
 */
module Python {

  datatype Option<+T> = None | Some(value: T) {
    function GetOr(default: T): T {
      match this
      case Some(v) => v
      case None => default
    }
  }

  /** The exceptions the modelled code raises or lets through. */
  datatype PyError = KeyError | IndexError | TypeError | ValueError

  /** A Python computation that either returns a value or raises. */
  datatype Result<+T> = Ok(value: T) | Err(error: PyError)

  /** The Python values that reach the library as parameter values. */
  datatype Value =
    | NoneVal
    | Bool(b: bool)
    | Int(i: int)
    | Float(x: real)                        // a finite float; rounding is not modelled
    | Str(s: string)
    | DateTime(stamp: real)                 // a datetime.datetime, by its Unix timestamp
    | DictVal(items: seq<(string, Value)>)  // a dict, in insertion order

  /** isinstance(v, str) */
  predicate IsStr(v: Value) {
    v.Str?
  }

  /** isinstance(v, int): bool is a subclass of int */
  predicate IsInt(v: Value) {
    v.Int? || v.Bool?
  }

  /** isinstance(v, (int, float)) */
  predicate IsNumber(v: Value) {
    IsInt(v) || v.Float?
  }

  /** The numeric value of an int, bool or float. */
  function NumberOf(v: Value): real
    requires IsNumber(v)
  {
    match v
    case Int(i) => i as real
    case Bool(b) => if b then 1.0 else 0.0
    case Float(x) => x
  }

  /** Python truthiness, as used by `x or y`. */
  predicate Truthy(v: Value) {
    match v
    case NoneVal => false
    case Bool(b) => b
    case Int(i) => i != 0
    case Float(x) => x != 0.0
    case Str(s) => s != ""
    case DateTime(_) => true
    case DictVal(items) => items != []
  }

  /** int(r) for a real r: truncation toward zero. */
  function Truncate(r: real): (n: int)
    ensures r >= 0.0 ==> n as real <= r < n as real + 1.0
    ensures r < 0.0 ==> n as real - 1.0 < r <= n as real
  {
    if r >= 0.0 then r.Floor else -((-r).Floor)
  }

  lemma TruncateWhole(n: int)
    ensures Truncate(n as real) == n
  {
  }

  // ---------------------------------------------------------------------------
  // Insertion-ordered dictionaries with string keys.
  // ---------------------------------------------------------------------------

  type Dict = seq<(string, Value)>

  /** The keys of a dictionary, in iteration order. */
  function Keys(d: Dict): (ks: seq<string>)
    ensures |ks| == |d|
    ensures forall i :: 0 <= i < |d| ==> ks[i] == d[i].0
  {
    if d == [] then [] else [d[0].0] + Keys(d[1..])
  }

  predicate HasKey(d: Dict, k: string) {
    k in Keys(d)
  }

  /** d.get(k): the value of the first entry with key k. */
  function Get(d: Dict, k: string): (r: Option<Value>)
    ensures r.Some? <==> HasKey(d, k)
  {
    if d == [] then None
    else if d[0].0 == k then Some(d[0].1)
    else Get(d[1..], k)
  }

  /** The value d.get(k) returns is stored under k. */
  lemma {:induction false} GetIn(d: Dict, k: string)
    ensures Get(d, k).Some? ==> (k, Get(d, k).value) in d
  {
    if d != [] && d[0].0 != k {
      GetIn(d[1..], k);
    }
  }

  lemma AppendAssoc<T>(a: seq<T>, b: seq<T>, c: seq<T>)
    ensures a + (b + c) == (a + b) + c
  {
  }

  /** A non-empty sequence is its prefix followed by its last element. */
  lemma SnocSplit<T>(s: seq<T>)
    requires |s| > 0
    ensures s == s[..|s| - 1] + [s[|s| - 1]]
  {
  }

  /** A prefix of a prefix is a prefix. */
  lemma TakeTake<T>(s: seq<T>, i: nat, j: nat)
    requires i <= j <= |s|
    ensures s[..j][..i] == s[..i]
  {
  }

  /** How Keys, HasKey and Get see an entry put in front of a dict. */
  lemma {:induction false} ConsFacts(e: (string, Value), rest: Dict)
    ensures ([e] + rest)[1..] == rest
    ensures Keys([e] + rest) == [e.0] + Keys(rest)
    ensures forall k :: HasKey([e] + rest, k) <==> e.0 == k || HasKey(rest, k)
    ensures forall k :: Get([e] + rest, k) == if e.0 == k then Some(e.1) else Get(rest, k)
  {
    assert ([e] + rest)[1..] == rest;
  }

  /** d[k] = v: an existing key keeps its position, a new key goes last. */
  function Put(d: Dict, k: string, v: Value): (r: Dict)
    ensures Get(r, k) == Some(v)
    ensures forall k' :: k' != k ==> Get(r, k') == Get(d, k')
  {
    if d == [] then [(k, v)]
    else
      assert d == [d[0]] + d[1..];
      ConsFacts(d[0], d[1..]);
      if d[0].0 == k then
        ConsFacts((k, v), d[1..]);
        [(k, v)] + d[1..]
      else
        var rest := Put(d[1..], k, v);
        ConsFacts(d[0], rest);
        [d[0]] + rest
  }

  /** Assigning keeps the key order, and a new key goes last. */
  lemma {:induction false} PutKeys(d: Dict, k: string, v: Value)
    ensures Keys(Put(d, k, v)) == if HasKey(d, k) then Keys(d) else Keys(d) + [k]
  {
    if d != [] {
      assert d == [d[0]] + d[1..];
      ConsFacts(d[0], d[1..]);
      if d[0].0 == k {
        ConsFacts((k, v), d[1..]);
      } else {
        var rest := Put(d[1..], k, v);
        PutKeys(d[1..], k, v);
        ConsFacts(d[0], rest);
        assert HasKey(d, k) == HasKey(d[1..], k);
        AppendAssoc([d[0].0], Keys(d[1..]), [k]);
      }
    }
  }

  /** del d[k] (or d.pop(k)) when k is present; no change otherwise. */
  function Remove(d: Dict, k: string): (r: Dict)
    ensures !HasKey(r, k)
    ensures forall k' :: k' != k ==> Get(r, k') == Get(d, k')
    ensures !HasKey(d, k) ==> r == d
  {
    if d == [] then []
    else if d[0].0 == k then Remove(d[1..], k)
    else [d[0]] + Remove(d[1..], k)
  }

  lemma {:induction false} KeysSnoc(d: Dict, e: (string, Value))
    ensures Keys(d + [e]) == Keys(d) + [e.0]
  {
  }

  /** Looking up a key in a dict extended at the end: earlier entries win. */
  lemma {:induction false} GetSnoc(d: Dict, e: (string, Value), k: string)
    ensures Get(d + [e], k) == if HasKey(d, k) then Get(d, k) else if e.0 == k then Some(e.1) else None
  {
    KeysSnoc(d, e);
    if d != [] {
      assert (d + [e])[1..] == d[1..] + [e];
      assert Keys(d) == [d[0].0] + Keys(d[1..]);
      if d[0].0 != k {
        GetSnoc(d[1..], e, k);
      }
    }
  }

  /** Assigning a new key appends it. */
  lemma {:induction false} PutNew(d: Dict, k: string, v: Value)
    requires !HasKey(d, k)
    ensures Put(d, k, v) == d + [(k, v)]
  {
    if d != [] {
      assert d == [d[0]] + d[1..];
      ConsFacts(d[0], d[1..]);
      PutNew(d[1..], k, v);
      assert Put(d, k, v) == [d[0]] + Put(d[1..], k, v);
      AppendAssoc([d[0]], d[1..], [(k, v)]);
    }
  }

  /** A key is present exactly when some entry carries it. */
  lemma HasKeyIndex(d: Dict, k: string)
    ensures HasKey(d, k) <==> exists i :: 0 <= i < |d| && d[i].0 == k
  {
    if HasKey(d, k) {
      var i :| 0 <= i < |Keys(d)| && Keys(d)[i] == k;
      assert d[i].0 == k;
    }
  }

  /** Keys are pairwise distinct, as in every Python dict. */
  predicate DistinctKeys(d: Dict) {
    forall i, j :: 0 <= i < j < |d| ==> d[i].0 != d[j].0
  }

  lemma {:induction false} PutKeepsKeysDistinct(d: Dict, k: string, v: Value)
    requires DistinctKeys(d)
    ensures DistinctKeys(Put(d, k, v))
  {
    var r := Put(d, k, v);
    PutKeys(d, k, v);
    forall i, j | 0 <= i < j < |r| ensures r[i].0 != r[j].0 {
      assert Keys(r)[i] == r[i].0 && Keys(r)[j] == r[j].0;
      if !HasKey(d, k) && j == |d| {
        assert Keys(d)[i] == d[i].0;
      } else {
        assert Keys(d)[i] == d[i].0 && Keys(d)[j] == d[j].0;
      }
    }
  }

  // ---------------------------------------------------------------------------
  // Library functions the model does not interpret.
  // ---------------------------------------------------------------------------

  /**
   * str(), int(), float() and the MD5-derived uuid of generate_uuid(<str>).
   * int and float may raise; str is total (the UnicodeDecodeError fallback of
   * safe_unicode is not modelled).
   */
  datatype Builtins = Builtins(
    str: Value -> string,
    toInt: Value -> Result<int>,
    toFloat: Value -> Result<real>,
    uuidOf: string -> string)

  /** The facts about the builtins that the proofs below use. */
  ghost predicate Pythonic(py: Builtins) {
    && (forall s :: py.str(Str(s)) == s)
    && (forall n :: py.toInt(Int(n)) == Ok(n))
    && py.toInt(NoneVal) == Err(TypeError)
    && py.toFloat(NoneVal) == Err(TypeError)
  }
}
