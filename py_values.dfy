// Python values as the agent sees them: JSON-like dictionaries, `None`,
// truthiness, Python's `==`, the exceptions the core can raise, and `dict.get`.

module PyValues {

  datatype Option<+T> = None | Some(value: T)
  {
    function GetOr(default: T): T
    {
      if Some? then value else default
    }
  }

  datatype Result<+T> = Ok(value: T) | Err(error: PyError)

  /** A JSON-serialisable Python value. `JNull` is Python's `None`. */
  datatype Json =
    | JNull
    | JBool(b: bool)
    | JInt(i: int)
    | JStr(s: string)
    | JList(items: seq<Json>)
    | JObj(fields: map<string, Json>)

  type StateMap = map<string, Json>

  /** The exceptions the modelled code raises or lets escape. */
  datatype PyError =
    | AttributeError(attribute: string)
    | KeyError(key: string)
    | IndexError
    | TypeError(argument: string)
    | ValueError(text: string)
    | UnboundLocalError(variable: string)
    | NotImplementedError
    | JsonDecodeError(text: string)

  /** Python truthiness of a JSON value: None, False, 0, "", [] and {} are false. */
  predicate Truthy(v: Json)
  {
    match v
    case JNull => false
    case JBool(b) => b
    case JInt(i) => i != 0
    case JStr(s) => s != ""
    case JList(xs) => xs != []
    case JObj(m) => m != map[]
  }

  /** The number a boolean or an integer stands for: Python's `bool` is a subclass of `int`. */
  function NumberOf(v: Json): (n: Option<int>)
    ensures v.JInt? ==> n == Some(v.i)
    ensures v.JBool? ==> n == Some(if v.b then 1 else 0)
    ensures !v.JInt? && !v.JBool? ==> n.None?
  {
    match v
    case JBool(b) => Some(if b then 1 else 0)
    case JInt(i) => Some(i)
    case _ => None
  }

  /**
   * Python's `==` on JSON values: booleans and integers compare as numbers
   * (`True == 1`, `False == 0`), strings by content, lists element by
   * element and dictionaries key by key; values of different kinds differ.
   */
  predicate PyEq(a: Json, b: Json)
  {
    match a
    case JNull => b.JNull?
    case JBool(_) => NumberOf(b).Some? && NumberOf(b) == NumberOf(a)
    case JInt(_) => NumberOf(b).Some? && NumberOf(b) == NumberOf(a)
    case JStr(s) => b.JStr? && b.s == s
    case JList(xs) => b.JList? && |b.items| == |xs| && forall i :: 0 <= i < |xs| ==> PyEq(xs[i], b.items[i])
    case JObj(m) => b.JObj? && b.fields.Keys == m.Keys && forall k :: k in m ==> PyEq(m[k], b.fields[k])
  }

  /** Every value equals itself, so structurally equal values are `==`. */
  lemma {:induction false} PyEqReflexive(a: Json)
    ensures PyEq(a, a)
  {
    match a
    case JList(xs) =>
      forall i | 0 <= i < |xs|
        ensures PyEq(xs[i], xs[i])
      {
        PyEqReflexive(xs[i]);
      }
    case JObj(m) =>
      forall k | k in m
        ensures PyEq(m[k], m[k])
      {
        PyEqReflexive(m[k]);
      }
    case _ =>
  }

  /** `==` is symmetric. */
  lemma {:induction false} PyEqSymmetric(a: Json, b: Json)
    requires PyEq(a, b)
    ensures PyEq(b, a)
  {
    match a
    case JList(xs) =>
      forall i | 0 <= i < |xs|
        ensures PyEq(b.items[i], xs[i])
      {
        PyEqSymmetric(xs[i], b.items[i]);
      }
    case JObj(m) =>
      forall k | k in b.fields
        ensures PyEq(b.fields[k], m[k])
      {
        PyEqSymmetric(m[k], b.fields[k]);
      }
    case _ =>
  }

  /** `True == 1` and `[False] == [0]` hold, while `"1" == 1` and `None == False` do not. */
  lemma BoolsAreNumbers()
    ensures PyEq(JBool(true), JInt(1)) && PyEq(JInt(0), JBool(false))
    ensures PyEq(JList([JBool(false)]), JList([JInt(0)]))
    ensures !PyEq(JStr("1"), JInt(1)) && !PyEq(JNull, JBool(false)) && !PyEq(JBool(true), JInt(2))
  {
    assert [JBool(false)][0] == JBool(false);
  }

  /** Python's `x or {}` for an optional dictionary. */
  function OrEmpty(m: Option<StateMap>): (r: StateMap)
    ensures m.None? ==> r == map[]
    ensures m.Some? ==> r == m.value
  {
    if m.Some? then m.value else map[]
  }

  /** Python's `d.get(key, default)`. */
  function Get<K, V>(d: map<K, V>, key: K, default: V): (r: V)
    ensures key in d ==> r == d[key]
    ensures key !in d ==> r == default
  {
    if key in d then d[key] else default
  }

  /** A string argument that may be `None`; Python's `s or default`. */
  function StrOr(s: Option<string>, default: string): (r: string)
    ensures s.Some? && s.value != "" ==> r == s.value
    ensures (s.None? || s.value == "") ==> r == default
  {
    if s.Some? && s.value != "" then s.value else default
  }

  /** An optional string as a JSON value (`None` becomes null). */
  function OptStr(s: Option<string>): (r: Json)
    ensures s.None? <==> r == JNull
    ensures s.Some? ==> r == JStr(s.value)
  {
    if s.Some? then JStr(s.value) else JNull
  }

  /** The entries of a list that are truthy, in order (`[x for x in xs if x]`). */
  function FilterTruthy(xs: seq<Json>): (r: seq<Json>)
    ensures |r| <= |xs|
    ensures forall i :: 0 <= i < |r| ==> Truthy(r[i])
    ensures forall v :: v in r ==> v in xs
  {
    if xs == [] then []
    else (if Truthy(xs[0]) then [xs[0]] else []) + FilterTruthy(xs[1..])
  }

  lemma {:induction false} FilterTruthyAppend(xs: seq<Json>, v: Json)
    ensures FilterTruthy(xs + [v]) == FilterTruthy(xs) + (if Truthy(v) then [v] else [])
  {
    if xs == [] {
      assert xs + [v] == [v];
    } else {
      assert (xs + [v])[1..] == xs[1..] + [v];
      FilterTruthyAppend(xs[1..], v);
    }
  }

  /** Every truthy entry is kept. */
  lemma {:induction false} FilterTruthyKeepsTruthy(xs: seq<Json>, v: Json)
    requires v in xs && Truthy(v)
    ensures v in FilterTruthy(xs)
  {
    if xs[0] != v {
      FilterTruthyKeepsTruthy(xs[1..], v);
    }
  }

  lemma {:induction false} FilterTruthyOfTruthy(xs: seq<Json>)
    requires forall i :: 0 <= i < |xs| ==> Truthy(xs[i])
    ensures FilterTruthy(xs) == xs
  {
    if xs != [] {
      FilterTruthyOfTruthy(xs[1..]);
    }
  }

  /** Concatenation regroups freely; stated once so that long proofs need not rediscover it. */
  lemma ConcatAssoc<T>(a: seq<T>, b: seq<T>, c: seq<T>)
    ensures a + b + c == a + (b + c)
  {
  }
}
