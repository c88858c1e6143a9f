/**
 * The Python runtime values that benchmark result records and data-frame cells hold,
 * and the few operators of the language the leaderboard applies to them: truthiness,
 * the `in` operator, subscripting, `dict.get`, arithmetic and comparisons on numbers,
 * and `str.lower` on ASCII text.
 */
module Python {

  datatype Option<+T> = None | Some(value: T)

  /** A Python int or float; `NaN` is the float pandas puts in a cell a record did not have. */
  datatype Number = Finite(x: real) | NaN

  datatype Value =
    | Null                              // None
    | Bool(b: bool)
    | Num(n: Number)                    // int or float
    | Str(s: string)
    | Arr(items: seq<Value>)            // list
    | Obj(fields: map<string, Value>)   // dict with string keys
    | Instant(seconds: real)            // datetime, as seconds since the epoch

  /** A dict with string keys: one benchmark record, or one row of a data frame. */
  type Row = map<string, Value>

  /** The exceptions the modelled code can raise (and does not catch). */
  datatype PyError = TypeError | KeyError(key: string) | AttributeError

  /** The outcome of Python code that may raise. */
  datatype Result<+T> = Ok(value: T) | Err(error: PyError) {
    predicate IsFailure() { Err? }

    function PropagateFailure<U>(): Result<U>
      requires Err?
    {
      Err(error)
    }

    function Extract(): T
      requires Ok?
    {
      value
    }
  }

  /** `bool(v)`; NaN is truthy in Python. */
  predicate Truthy(v: Value) {
    match v
    case Null => false
    case Bool(b) => b
    case Num(n) => n != Finite(0.0)
    case Str(s) => s != ""
    case Arr(items) => items != []
    case Obj(fields) => fields != map[]
    case Instant(_) => true
  }

  /**
   * What `bool(v)` means for each kind of value: None is falsy, a datetime truthy, a number
   * or bool falsy exactly when it equals zero (so NaN is truthy), a container falsy exactly
   * when it is empty.
   */
  lemma TruthyMeaning(v: Value)
    ensures v.Null? ==> !Truthy(v)
    ensures v.Instant? ==> Truthy(v)
    ensures (v.Bool? || v.Num?) ==> (Truthy(v) <==> AsNumber(v) != Some(Finite(0.0)))
    ensures v == Num(NaN) ==> Truthy(v)
    ensures v.Str? ==> (Truthy(v) <==> |v.s| > 0)
    ensures v.Arr? ==> (Truthy(v) <==> |v.items| > 0)
    ensures v.Obj? ==> (Truthy(v) <==> |v.fields| > 0)
  {
    if v.Obj? && Truthy(v) {
      assert v.fields != map[];
      var k :| k in v.fields;
    }
  }

  /** The number a value stands for in arithmetic and comparisons: bool is a subclass of int. */
  function AsNumber(v: Value): (r: Option<Number>)
    ensures r.Some? <==> (v.Bool? || v.Num?)
    ensures v.Num? ==> r == Some(v.n)
    ensures v.Bool? ==> r == Some(Finite(if v.b then 1.0 else 0.0))
  {
    match v
    case Bool(b) => Some(Finite(if b then 1.0 else 0.0))
    case Num(n) => Some(n)
    case _ => None
  }

  /** `n < t` for a float `n`: every comparison with NaN is false. */
  predicate Below(n: Number, t: real) {
    n.Finite? && n.x < t
  }

  /** `n >= t` for a float `n`. */
  predicate AtLeast(n: Number, t: real) {
    n.Finite? && n.x >= t
  }

  /** `(a - b) / d` on numbers; NaN propagates. */
  function DiffOver(a: Number, b: Number, d: real): (r: Number)
    requires d != 0.0
    ensures r.NaN? <==> (a.NaN? || b.NaN?)
    ensures r.Finite? ==> r.x * d == a.x - b.x
  {
    if a.NaN? || b.NaN? then NaN else Finite((a.x - b.x) / d)
  }

  /** `key` occurs in `s` starting at position `i`. */
  predicate InfixAt(s: string, key: string, i: int) {
    0 <= i && i + |key| <= |s| && s[i..i + |key|] == key
  }

  /** An occurrence in `s[1..]` is one in `s`, one place later; one in `s` is at 0 or shifts down. */
  lemma InfixShift(s: string, key: string)
    requires s != []
    ensures (exists i :: InfixAt(s, key, i)) <==> key <= s || exists j :: InfixAt(s[1..], key, j)
  {
    if key <= s {
      assert InfixAt(s, key, 0);
    }
    if exists j :: InfixAt(s[1..], key, j) {
      var j :| InfixAt(s[1..], key, j);
      assert s[j + 1..j + 1 + |key|] == s[1..][j..j + |key|];
      assert InfixAt(s, key, j + 1);
    }
    if exists i :: InfixAt(s, key, i) {
      var i :| InfixAt(s, key, i);
      if i > 0 {
        assert s[1..][i - 1..i - 1 + |key|] == s[i..i + |key|];
        assert InfixAt(s[1..], key, i - 1);
      }
    }
  }

  /** `key in s` for strings: `key` occurs in `s` as a contiguous piece. */
  predicate HasInfix(s: string, key: string): (r: bool)
    ensures r <==> exists i :: InfixAt(s, key, i)
    ensures key == "" ==> r
    ensures r ==> |key| <= |s|
    decreases |s|
  {
    if s == [] then
      assert key == "" ==> InfixAt(s, key, 0);
      key <= s
    else
      InfixShift(s, key);
      key <= s || HasInfix(s[1..], key)
  }

  /**
   * `key in container` for a string key: a key of a dict, a piece of a string, an element
   * of a list; any other value is not iterable and raises TypeError.
   */
  function Contains(container: Value, key: string): (r: Result<bool>)
    ensures r.Err? <==> !(container.Obj? || container.Str? || container.Arr?)
    ensures r.Err? ==> r.error == TypeError
    ensures container.Obj? ==> r == Ok(key in container.fields)
  {
    match container
    case Obj(fields) => Ok(key in fields)
    case Str(s) => Ok(HasInfix(s, key))
    case Arr(items) => Ok(Str(key) in items)
    case _ => Err(TypeError)
  }

  /**
   * `container[key]` for a string key: a missing dict key raises KeyError; strings and
   * lists need integer indices and everything else is not subscriptable (TypeError).
   */
  function Subscript(container: Value, key: string): (r: Result<Value>)
    ensures r.Ok? <==> container.Obj? && key in container.fields
    ensures r.Ok? ==> r.value == container.fields[key]
    ensures r.Err? && container.Obj? ==> r.error == KeyError(key)
    ensures r.Err? && !container.Obj? ==> r.error == TypeError
  {
    match container
    case Obj(fields) => if key in fields then Ok(fields[key]) else Err(KeyError(key))
    case _ => Err(TypeError)
  }

  /** `d.get(key, default)` on a dict. */
  function Get(d: Row, key: string, default: Value): (r: Value)
    ensures key in d ==> r == d[key]
    ensures key !in d ==> r == default
  {
    if key in d then d[key] else default
  }

  /** `container.get(key, default)`: only dicts have a `get` method. */
  function GetAttr(container: Value, key: string, default: Value): (r: Result<Value>)
    ensures r.Ok? <==> container.Obj?
    ensures r.Err? ==> r.error == AttributeError
    ensures r.Ok? ==> r.value == Get(container.fields, key, default)
  {
    match container
    case Obj(fields) => Ok(Get(fields, key, default))
    case _ => Err(AttributeError)
  }

  function LowerChar(c: char): (r: char)
    ensures 'A' <= c <= 'Z' ==> r as int == c as int + 32
    ensures !('A' <= c <= 'Z') ==> r == c
  {
    if 'A' <= c <= 'Z' then (c as int + 32) as char else c
  }

  /** `s.lower()`, restricted to the ASCII letters. */
  function Lower(s: string): (r: string)
    ensures |r| == |s|
    ensures forall i :: 0 <= i < |s| ==> r[i] == LowerChar(s[i])
  {
    seq(|s|, i requires 0 <= i < |s| => LowerChar(s[i]))
  }

  lemma LowerIdempotent(s: string)
    ensures Lower(Lower(s)) == Lower(s)
  {
  }
}
