/**
 * A decoded JSON document as Python holds it (None, bool, int, str, list,
 * dict), and the Python operations the modelled code applies to it.
 * A dict is a `map`, so two dicts are equal whatever their key order,
 * as Python's `==` on dicts is.
 */
module Json {
  import opened Wrappers
  import opened Errors
  import Decimal

  datatype Value =
    | Null
    | Bool(b: bool)
    | Num(n: int)
    | Str(s: string)
    | Arr(items: seq<Value>)
    | Obj(fields: map<string, Value>)

  /** `v[key]`: KeyError on a dict without the key, TypeError on anything but a dict. */
  function Get(v: Value, key: string): (r: Result<Value, PyError>)
    ensures r.Ok? <==> v.Obj? && key in v.fields
    ensures r.Ok? ==> r.value == v.fields[key]
    ensures r.Err? ==> r.error == (if v.Obj? then KeyError(key) else TypeError)
  {
    match v
    case Obj(fields) => if key in fields then Ok(fields[key]) else Err(KeyError(key))
    case _ => Err(TypeError)
  }

  /** `v[k0][k1]...`: the first failing subscript raises. */
  function GetPath(v: Value, keys: seq<string>): (r: Result<Value, PyError>)
    ensures r.Err? ==> r.error == TypeError || exists i :: 0 <= i < |keys| && r.error == KeyError(keys[i])
    decreases |keys|
  {
    if keys == [] then Ok(v)
    else match Get(v, keys[0])
      case Err(e) => Err(e)
      case Ok(w) => GetPath(w, keys[1..])
  }

  /** Python truthiness: None, False, 0, "", [] and {} are false. */
  predicate Truthy(v: Value)
  {
    match v
    case Null => false
    case Bool(b) => b
    case Num(n) => n != 0
    case Str(s) => s != ""
    case Arr(items) => items != []
    case Obj(fields) => fields != map[]
  }

  /**
   * The items of `for item in v` when the loop body subscripts each item
   * with a string. A list yields its elements. An empty dict or str runs
   * the body zero times. A non-empty dict or str yields keys or characters,
   * which a string subscript rejects with TypeError, and anything else is
   * not iterable: TypeError too.
   */
  function Items(v: Value): (r: Result<seq<Value>, PyError>)
    ensures v.Arr? ==> r == Ok(v.items)
    ensures r.Ok? && !v.Arr? ==> r.value == []
    ensures r.Err? ==> r.error == TypeError
  {
    match v
    case Arr(items) => Ok(items)
    case Obj(fields) => if fields == map[] then Ok([]) else Err(TypeError)
    case Str(s) => if s == "" then Ok([]) else Err(TypeError)
    case _ => Err(TypeError)
  }

  /** `f"{v:03d}"` needs an int (a bool is one): a str raises ValueError, the rest TypeError. */
  function AsInt(v: Value): (r: Result<int, PyError>)
    ensures r.Ok? <==> v.Num? || v.Bool?
    ensures v.Num? ==> r == Ok(v.n)
  {
    match v
    case Num(n) => Ok(n)
    case Bool(b) => Ok(if b then 1 else 0)
    case Str(_) => Err(FormatError)
    case _ => Err(TypeError)
  }

  /** `acc + v` for an int accumulator: an int or bool adds, anything else is a TypeError. */
  function Add(acc: int, v: Value): (r: Result<int, PyError>)
    ensures r.Ok? <==> v.Num? || v.Bool?
    ensures v.Num? ==> r == Ok(acc + v.n)
    ensures r.Ok? ==> r.value == acc + NumOf(v)
  {
    match AsInt(v)
    case Ok(n) => Ok(acc + n)
    case Err(_) => Err(TypeError)
  }

  /** `str(v)` for a scalar; the text of a list or dict is not modelled. */
  function Render(v: Value): (r: Option<string>)
    ensures r.Some? <==> !v.Arr? && !v.Obj?
    ensures v.Str? ==> r == Some(v.s)
  {
    match v
    case Null => Some("None")
    case Bool(b) => Some(if b then "True" else "False")
    case Num(n) => Some(Decimal.IntToString(n))
    case Str(s) => Some(s)
    case _ => None
  }

  function NumOf(v: Value): int
    requires v.Num? || v.Bool?
  {
    if v.Num? then v.n else if v.b then 1 else 0
  }

  /**
   * Python `a == b` on decoded values: `True == 1` and `False == 0`, a str
   * equals only the same str, lists compare element by element and dicts
   * compare their key sets and the value under each key.
   */
  predicate PyEq(a: Value, b: Value)
    decreases a
  {
    match a
    case Null => b.Null?
    case Bool(_) => (b.Num? || b.Bool?) && NumOf(a) == NumOf(b)
    case Num(_) => (b.Num? || b.Bool?) && NumOf(a) == NumOf(b)
    case Str(s) => b.Str? && b.s == s
    case Arr(xs) =>
      b.Arr? && |xs| == |b.items| && forall i :: 0 <= i < |xs| ==> PyEq(xs[i], b.items[i])
    case Obj(f) =>
      b.Obj? && f.Keys == b.fields.Keys && forall k :: k in f ==> PyEq(f[k], b.fields[k])
  }

  lemma {:induction false} PyEqReflexive(a: Value)
    ensures PyEq(a, a)
    decreases a
  {
    match a
    case Arr(xs) =>
      forall i | 0 <= i < |xs| ensures PyEq(xs[i], xs[i]) { PyEqReflexive(xs[i]); }
    case Obj(f) =>
      forall k | k in f ensures PyEq(f[k], f[k]) { PyEqReflexive(f[k]); }
    case _ =>
  }

  lemma {:induction false} PyEqSymmetric(a: Value, b: Value)
    requires PyEq(a, b)
    ensures PyEq(b, a)
    decreases a
  {
    match a
    case Arr(xs) =>
      forall i | 0 <= i < |xs| ensures PyEq(b.items[i], xs[i]) { PyEqSymmetric(xs[i], b.items[i]); }
    case Obj(f) =>
      forall k | k in f ensures PyEq(b.fields[k], f[k]) { PyEqSymmetric(f[k], b.fields[k]); }
    case _ =>
  }

  lemma {:induction false} PyEqTransitive(a: Value, b: Value, c: Value)
    requires PyEq(a, b) && PyEq(b, c)
    ensures PyEq(a, c)
    decreases a
  {
    match a
    case Arr(xs) =>
      forall i | 0 <= i < |xs| ensures PyEq(xs[i], c.items[i]) {
        PyEqTransitive(xs[i], b.items[i], c.items[i]);
      }
    case Obj(f) =>
      forall k | k in f ensures PyEq(f[k], c.fields[k]) {
        PyEqTransitive(f[k], b.fields[k], c.fields[k]);
      }
    case _ =>
  }

  /** Python `p in s` for two strs: `p` occurs somewhere in `s`. */
  predicate IsSubstring(p: string, s: string)
  {
    p <= s || (s != [] && IsSubstring(p, s[1..]))
  }

  /**
   * `key in v`: key membership for a dict, element membership for a list,
   * substring for a str, TypeError for anything else.
   */
  function Contains(v: Value, key: string): (r: Result<bool, PyError>)
    ensures r.Err? <==> !(v.Obj? || v.Arr? || v.Str?)
    ensures v.Obj? ==> r == Ok(key in v.fields)
    ensures v.Arr? ==> r == Ok(Str(key) in v.items)
  {
    match v
    case Obj(f) => Ok(key in f)
    case Arr(xs) => Ok(Str(key) in xs)
    case Str(s) => Ok(IsSubstring(key, s))
    case _ => Err(TypeError)
  }
}
