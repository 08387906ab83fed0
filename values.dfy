/**
  The Python values a VPS attribute or a JSON document value can hold (None, str, int, bool),
  with the three Python operations the host manager applies to them: truth testing,
  `str()` (through f-string interpolation) and ordering (through `list.sort`).
 */
module Values {

  datatype Value = Null | Str(s: string) | Int(i: int) | Bool(b: bool)

  /** A parsed JSON object, as `json.load` returns it for a host file. */
  type Json = map<string, Value>

  /** Python truth testing: None, "", 0 and False are false. */
  predicate Truthy(v: Value) {
    match v
    case Null => false
    case Str(s) => s != ""
    case Int(i) => i != 0
    case Bool(b) => b
  }

  /** For an attribute that holds a str or None, truthiness is "set and non-empty". */
  lemma TruthyStringOrNone(v: Value)
    requires v.Null? || v.Str?
    ensures Truthy(v) <==> v.Str? && v.s != ""
  {
  }

  function DigitChar(d: nat): (c: char)
    requires d < 10
    ensures '0' <= c <= '9'
  {
    "0123456789"[d]
  }

  /** Decimal digits of n, most significant first, without leading zeros. */
  function Digits(n: nat): (r: string)
    ensures 1 <= |r|
    ensures forall k :: 0 <= k < |r| ==> '0' <= r[k] <= '9'
    ensures r[0] == '0' ==> n == 0
    decreases n
  {
    if n < 10 then [DigitChar(n)] else Digits(n / 10) + [DigitChar(n % 10)]
  }

  /** Python's `str(v)`, which is what `f'{v}'` interpolates. */
  function Display(v: Value): string {
    match v
    case Null => "None"
    case Str(s) => s
    case Int(i) => if i < 0 then "-" + Digits(-i) else Digits(i)
    case Bool(b) => if b then "True" else "False"
  }

  /** Python's `a <= b` on str: lexicographic order of code points. */
  predicate StrLe(a: string, b: string)
    decreases |a|
  {
    a == [] || (b != [] && (a[0] < b[0] || (a[0] == b[0] && StrLe(a[1..], b[1..]))))
  }

  lemma {:induction false} StrLeReflexive(a: string)
    ensures StrLe(a, a)
    decreases |a|
  {
    if a != [] {
      StrLeReflexive(a[1..]);
    }
  }

  lemma {:induction false} StrLeTotal(a: string, b: string)
    ensures StrLe(a, b) || StrLe(b, a)
    decreases |a|
  {
    if a != [] && b != [] && a[0] == b[0] {
      StrLeTotal(a[1..], b[1..]);
    }
  }

  lemma {:induction false} StrLeTransitive(a: string, b: string, c: string)
    requires StrLe(a, b) && StrLe(b, c)
    ensures StrLe(a, c)
    decreases |a|
  {
    if a != [] && b != [] && c != [] && a[0] == b[0] && b[0] == c[0] {
      StrLeTransitive(a[1..], b[1..], c[1..]);
    }
  }

  lemma {:induction false} StrLeAntisymmetric(a: string, b: string)
    requires StrLe(a, b) && StrLe(b, a)
    ensures a == b
    decreases |a|
  {
    if a != [] && b != [] {
      StrLeAntisymmetric(a[1..], b[1..]);
    }
  }

  /** The classes of values Python can order among themselves: str with str, number with number. */
  datatype Kind = TextKind | NumberKind | NoneKind

  function KindOf(v: Value): Kind {
    match v
    case Null => NoneKind
    case Str(_) => TextKind
    case Int(_) => NumberKind
    case Bool(_) => NumberKind
  }

  /** bool is a subclass of int: True orders as 1 and False as 0. */
  function NumberOf(v: Value): int
    requires KindOf(v) == NumberKind
  {
    if v.Int? then v.i else if v.b then 1 else 0
  }

  /**
    The order the sorted list is in: `a <= b` between two str or two numbers, false where
    Python raises TypeError. `list.sort` itself only asks `b < a` (`KeyLt`); where that is
    defined, `KeyLe(a, b)` is its negation (`KeyLeIsNotGreater`).
   */
  predicate KeyLe(a: Value, b: Value) {
    if a.Str? && b.Str? then StrLe(a.s, b.s)
    else if KindOf(a) == NumberKind && KindOf(b) == NumberKind then NumberOf(a) <= NumberOf(b)
    else false
  }

  lemma KeyLeTotal(a: Value, b: Value)
    requires KindOf(a) == KindOf(b) != NoneKind
    ensures KeyLe(a, b) || KeyLe(b, a)
  {
    if a.Str? {
      StrLeTotal(a.s, b.s);
    }
  }

  lemma KeyLeTransitive(a: Value, b: Value, c: Value)
    requires KeyLe(a, b) && KeyLe(b, c)
    ensures KeyLe(a, c)
  {
    if a.Str? {
      StrLeTransitive(a.s, b.s, c.s);
    }
  }

  /** Python raises TypeError on `None < None`, `"a" < 1` and every other cross-kind comparison. */
  lemma KeyLeNeedsOneKind(a: Value, b: Value)
    requires KeyLe(a, b)
    ensures KindOf(a) == KindOf(b) != NoneKind
  {
  }

  /** Python's `a == b`: numbers compare by value (so `1 == True`), everything else structurally. */
  predicate PyEq(a: Value, b: Value) {
    if KindOf(a) == NumberKind && KindOf(b) == NumberKind then NumberOf(a) == NumberOf(b) else a == b
  }

  /** Python's `a < b` on str. */
  predicate StrLt(a: string, b: string)
    decreases |a|
  {
    b != [] && (a == [] || a[0] < b[0] || (a[0] == b[0] && StrLt(a[1..], b[1..])))
  }

  /** Python's `a < b` on sort keys, where it does not raise. */
  predicate KeyLt(a: Value, b: Value) {
    if a.Str? && b.Str? then StrLt(a.s, b.s)
    else if KindOf(a) == NumberKind && KindOf(b) == NumberKind then NumberOf(a) < NumberOf(b)
    else false
  }

  lemma {:induction false} StrLeIsNotGreater(a: string, b: string)
    ensures StrLe(a, b) <==> !StrLt(b, a)
    decreases |a|
  {
    if a != [] && b != [] {
      StrLeIsNotGreater(a[1..], b[1..]);
    }
  }

  /** Between keys that `<` can compare, `KeyLe(a, b)` holds exactly when `b < a` is false. */
  lemma KeyLeIsNotGreater(a: Value, b: Value)
    requires KindOf(a) == KindOf(b) != NoneKind
    ensures KeyLe(a, b) <==> !KeyLt(b, a)
  {
    if a.Str? {
      StrLeIsNotGreater(a.s, b.s);
    }
  }

  /** Python's own rule: a value is false when it is None, an empty str, or equal to 0 (False == 0). */
  lemma TruthyExact(v: Value)
    ensures Truthy(v) <==> !(v == Null || v == Str("") || PyEq(v, Int(0)))
  {
  }

  /** `str(v)` is empty only for the empty str: None, numbers and bools print something. */
  lemma DisplayEmpty(v: Value)
    ensures Display(v) == "" <==> v == Str("")
  {
  }
}
