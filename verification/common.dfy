/**
 * The pieces of the Python runtime the cost-governance core leans on:
 * optional values, exceptions, JSON-like configuration values and their
 * truthiness, `round(x, 6)`, `str(n)` on integers and `str.join`.
 */
module Common {

  datatype Option<+T> = None | Some(value: T)

  datatype Result<+T, +E> = Success(value: T) | Failure(error: E)

  /** The Python exceptions the core raises, each with what `str(e)` shows. */
  datatype Exc =
    | ValueError(msg: string)
    | RuntimeError(msg: string)
    | KeyError(key: string)
    | TypeError(msg: string)
    | AttributeError(msg: string)
    | StorageError(msg: string)  // an sqlite3 error from the ledger store

  /** The message an `except ... as e` handler obtains with `str(e)`. */
  function Message(e: Exc): string
  {
    match e
    case ValueError(m) => m
    case RuntimeError(m) => m
    case KeyError(k) => "'" + k + "'"
    case TypeError(m) => m
    case AttributeError(m) => m
    case StorageError(m) => m
  }

  /** A JSON value as read from a configuration file. */
  datatype Value =
    | Null
    | Bool(b: bool)
    | Int(i: int)
    | Float(x: real)
    | Str(s: string)
    | List(items: seq<Value>)
    | Obj(fields: map<string, Value>)

  /** Python's truth value of a JSON value (`if v:`). */
  predicate Truthy(v: Value)
  {
    match v
    case Null => false
    case Bool(b) => b
    case Int(i) => i != 0
    case Float(x) => x != 0.0
    case Str(s) => s != ""
    case List(xs) => xs != []
    case Obj(m) => m != map[]
  }

  /** The name `type(v).__name__` gives for a JSON value. */
  function TypeName(v: Value): string
  {
    match v
    case Null => "NoneType"
    case Bool(_) => "bool"
    case Int(_) => "int"
    case Float(_) => "float"
    case Str(_) => "str"
    case List(_) => "list"
    case Obj(_) => "dict"
  }

  /** What calling `.get` on a value that is not a dict raises. */
  function NoGetAttribute(v: Value): (e: Exc)
    ensures e.AttributeError?
  {
    AttributeError("'" + TypeName(v) + "' object has no attribute 'get'")
  }

  /** The number a value stands for in a Python comparison; bools are 0 and 1. */
  function Numeric(v: Value): (r: Option<real>)
    ensures r.Some? <==> (v.Bool? || v.Int? || v.Float?)
  {
    match v
    case Bool(b) => Some(if b then 1.0 else 0.0)
    case Int(i) => Some(i as real)
    case Float(x) => Some(x)
    case _ => None
  }

  /** `d.get(k, default)` */
  function Get<K, V>(m: map<K, V>, k: K, default: V): (r: V)
    ensures k in m ==> r == m[k]
    ensures k !in m ==> r == default
  {
    if k in m then m[k] else default
  }

  /** `d.get(k)`, with `None` for a missing key. */
  function Lookup<K, V>(m: map<K, V>, k: K): (r: Option<V>)
    ensures r.Some? <==> k in m
    ensures r.Some? ==> r.value == m[k]
  {
    if k in m then Some(m[k]) else None
  }

  // ---------------------------------------------------------------------
  // round(x, 6)

  const Micro: real := 1000000.0

  /**
   * The integer nearest to `m`; when `m` lies exactly halfway between two
   * integers, the even one (the tie rule of Python's `round`).
   */
  function RoundHalfEven(m: real): (n: int)
    ensures n as real - 0.5 <= m <= n as real + 0.5
    ensures (m == n as real - 0.5 || m == n as real + 0.5) ==> n % 2 == 0
  {
    var f := m.Floor;
    var frac := m - f as real;
    if frac < 0.5 then f
    else if frac > 0.5 then f + 1
    else if f % 2 == 0 then f
    else f + 1
  }

  /** A whole number of micro-dollars. */
  predicate IsMicroMultiple(x: real)
  {
    (x * Micro).Floor as real == x * Micro
  }

  /** `round(x, 6)`: the multiple of 10^-6 nearest to `x`, ties to even. */
  function Round6(x: real): (r: real)
    ensures IsMicroMultiple(r)
    ensures r - 0.0000005 <= x <= r + 0.0000005
  {
    var n := RoundHalfEven(x * Micro);
    assert (n as real / Micro) * Micro == n as real;
    n as real / Micro
  }

  lemma RoundHalfEvenMonotone(a: real, b: real)
    requires a <= b
    ensures RoundHalfEven(a) <= RoundHalfEven(b)
  {
    // Were the order reversed, a and b would both sit on ties whose even
    // neighbours lie one apart.
    if RoundHalfEven(a) > RoundHalfEven(b) {
      assert false;
    }
  }

  /** Rounding never reverses the order of two amounts. */
  lemma Round6Monotone(a: real, b: real)
    requires a <= b
    ensures Round6(a) <= Round6(b)
  {
    RoundHalfEvenMonotone(a * Micro, b * Micro);
  }

  /** An amount that is already a whole number of micro-dollars is left as it is. */
  lemma Round6Exact(k: int)
    ensures Round6(k as real / Micro) == k as real / Micro
  {
    var x := k as real / Micro;
    assert x * Micro == k as real;
    assert (k as real).Floor == k;
  }

  // ---------------------------------------------------------------------
  // str(n) for a non-negative integer, and its inverse

  function DigitChar(d: nat): (c: char)
    requires d < 10
    ensures '0' <= c <= '9'
  {
    ('0' as int + d) as char
  }

  predicate AllDigits(s: string)
  {
    forall i :: 0 <= i < |s| ==> '0' <= s[i] <= '9'
  }

  /** `str(n)`: the decimal digits of `n`, most significant first. */
  function NatToString(n: nat): (s: string)
    ensures |s| > 0 && AllDigits(s)
    decreases n
  {
    if n < 10 then [DigitChar(n)]
    else NatToString(n / 10) + [DigitChar(n % 10)]
  }

  /** `int(s)` on a string of decimal digits. */
  function ParseNat(s: string): nat
    requires AllDigits(s)
  {
    if s == [] then 0
    else ParseNat(s[..|s| - 1]) * 10 + (s[|s| - 1] as int - '0' as int)
  }

  /** The decimal text of a number reads back as that number. */
  lemma {:induction false} ParseNatToString(n: nat)
    ensures ParseNat(NatToString(n)) == n
    decreases n
  {
    var s := NatToString(n);
    if n >= 10 {
      ParseNatToString(n / 10);
      assert s[..|s| - 1] == NatToString(n / 10);
    }
  }

  // ---------------------------------------------------------------------
  // substrings and str.join

  /** `t` occurs in `s` starting at index `k`. */
  predicate ContainsAt(s: string, t: string, k: nat)
  {
    k + |t| <= |s| && s[k..k + |t|] == t
  }

  /** Python's `t in s` on strings. */
  predicate Contains(s: string, t: string)
  {
    exists k: nat | k <= |s| :: ContainsAt(s, t, k)
  }

  predicate StartsWith(s: string, prefix: string)
  {
    ContainsAt(s, prefix, 0)
  }

  lemma ContainsAtShift(a: string, b: string, t: string, k: nat)
    requires ContainsAt(b, t, k)
    ensures ContainsAt(a + b, t, |a| + k)
  {
    assert (a + b)[|a| + k..|a| + k + |t|] == b[k..k + |t|];
  }

  lemma ContainsAtNested(s: string, t: string, u: string, k: nat, j: nat)
    requires ContainsAt(s, t, k) && ContainsAt(t, u, j)
    ensures ContainsAt(s, u, k + j)
  {
    forall i | 0 <= i < |u|
      ensures s[k + j..k + j + |u|][i] == u[i]
    {
      assert s[k..k + |t|][j + i] == t[j + i];
      assert t[j..j + |u|][i] == u[i];
    }
    assert s[k + j..k + j + |u|] == u;
  }

  /** A string occurs in any concatenation it is the middle part of. */
  lemma ConcatParts(a: string, b: string, c: string)
    ensures Contains(a + b + c, b)
  {
    assert (a + b + c)[|a|..|a| + |b|] == b;
    assert ContainsAt(a + b + c, b, |a|);
  }

  /** `sep.join(parts)` */
  function Join(parts: seq<string>, sep: string): (r: string)
    ensures |parts| > 0 ==> StartsWith(r, parts[0])
  {
    if |parts| == 0 then ""
    else if |parts| == 1 then parts[0]
    else parts[0] + sep + Join(parts[1..], sep)
  }

  /** Every part of a joined string occurs in it. */
  lemma {:induction false} JoinContainsPart(parts: seq<string>, sep: string, i: nat)
    requires i < |parts|
    ensures Contains(Join(parts, sep), parts[i])
  {
    if i == 0 {
      assert ContainsAt(Join(parts, sep), parts[0], 0);
    } else {
      JoinContainsPart(parts[1..], sep, i - 1);
      var k: nat :| ContainsAt(Join(parts[1..], sep), parts[1..][i - 1], k);
      ContainsAtShift(parts[0] + sep, Join(parts[1..], sep), parts[i], k);
    }
  }

  /** A string that contains `t` contains every substring of `t`. */
  lemma ContainsTransitive(s: string, t: string, u: string, j: nat)
    requires Contains(s, t) && ContainsAt(t, u, j)
    ensures Contains(s, u)
  {
    var k: nat :| ContainsAt(s, t, k);
    ContainsAtNested(s, t, u, k, j);
  }
}
