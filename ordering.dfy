/** Sort keys and Python's comparison on them: integers numerically,
    strings lexicographically by code point. */
module Ordering {

  /** A sort key: a size or a timestamp, or a name or a suffix. */
  datatype Key = Num(n: int) | Text(s: string)

  /** Python's `<=` on `str`. */
  predicate StrLe(a: string, b: string)
  {
    if a == [] then true
    else if b == [] then false
    else if a[0] != b[0] then a[0] < b[0]
    else StrLe(a[1..], b[1..])
  }

  /** Python's `<=` on the key values of one sort; all keys of one sort
      share a constructor, and numbers are put before strings to make the
      order total. */
  predicate KeyLe(a: Key, b: Key)
  {
    match (a, b)
    case (Num(x), Num(y)) => x <= y
    case (Text(x), Text(y)) => StrLe(x, y)
    case (Num(_), Text(_)) => true
    case (Text(_), Num(_)) => false
  }

  /** The order a sort establishes: ascending, or descending with `reverse`. */
  predicate Before(a: Key, b: Key, reverse: bool)
  {
    if reverse then KeyLe(b, a) else KeyLe(a, b)
  }

  lemma {:induction false} StrLeReflexive(a: string)
    ensures StrLe(a, a)
  {
    if a != [] { StrLeReflexive(a[1..]); }
  }

  lemma {:induction false} StrLeTotal(a: string, b: string)
    ensures StrLe(a, b) || StrLe(b, a)
  {
    if a != [] && b != [] && a[0] == b[0] { StrLeTotal(a[1..], b[1..]); }
  }

  lemma {:induction false} StrLeAntisymmetric(a: string, b: string)
    requires StrLe(a, b) && StrLe(b, a)
    ensures a == b
  {
    if a != [] && b != [] {
      StrLeAntisymmetric(a[1..], b[1..]);
      assert a == [a[0]] + a[1..] && b == [b[0]] + b[1..];
    }
  }

  lemma {:induction false} StrLeTransitive(a: string, b: string, c: string)
    requires StrLe(a, b) && StrLe(b, c)
    ensures StrLe(a, c)
  {
    if a != [] && b != [] && c != [] && a[0] == b[0] == c[0] {
      StrLeTransitive(a[1..], b[1..], c[1..]);
    }
  }

  /** `Before` is a total preorder whose ties are exactly equal keys. */
  lemma BeforeReflexive(a: Key, reverse: bool)
    ensures Before(a, a, reverse)
  {
    if a.Text? { StrLeReflexive(a.s); }
  }

  lemma BeforeTotal(a: Key, b: Key, reverse: bool)
    ensures Before(a, b, reverse) || Before(b, a, reverse)
  {
    if a.Text? && b.Text? { StrLeTotal(a.s, b.s); }
  }

  lemma BeforeTransitive(a: Key, b: Key, c: Key, reverse: bool)
    requires Before(a, b, reverse) && Before(b, c, reverse)
    ensures Before(a, c, reverse)
  {
    if a.Text? && b.Text? && c.Text? {
      if reverse { StrLeTransitive(c.s, b.s, a.s); } else { StrLeTransitive(a.s, b.s, c.s); }
    }
  }

  lemma BeforeAntisymmetric(a: Key, b: Key, reverse: bool)
    requires Before(a, b, reverse) && Before(b, a, reverse)
    ensures a == b
  {
    if a.Text? && b.Text? { StrLeAntisymmetric(a.s, b.s); }
  }
}
