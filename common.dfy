/** Small value-level helpers shared by every module of the model. */
module Common {

  datatype Option<+T> = None | Some(value: T)

  /** `s` is obtained from `t` by deleting elements, keeping the order of the rest. */
  predicate IsSubsequence<T(==)>(s: seq<T>, t: seq<T>)
    decreases |t|
  {
    if s == [] then true
    else if t == [] then false
    else if s[0] == t[0] then IsSubsequence(s[1..], t[1..])
    else IsSubsequence(s, t[1..])
  }

  lemma {:induction false} SubsequenceElements<T>(s: seq<T>, t: seq<T>)
    requires IsSubsequence(s, t)
    ensures |s| <= |t|
    ensures forall i :: 0 <= i < |s| ==> s[i] in t
    decreases |t|
  {
    if s != [] && t != [] {
      if s[0] == t[0] {
        SubsequenceElements(s[1..], t[1..]);
      } else {
        SubsequenceElements(s, t[1..]);
      }
    }
  }

  lemma {:induction false} SubsequenceDropHead<T>(s: seq<T>, t: seq<T>)
    requires s != [] && IsSubsequence(s, t)
    ensures IsSubsequence(s[1..], t)
    decreases |t|
  {
    if s[1..] != [] {
      if s[0] != t[0] {
        SubsequenceDropHead(s, t[1..]);
      }
      assert IsSubsequence(s[1..], t[1..]);
      if s[1] == t[0] {
        SubsequenceDropHead(s[1..], t[1..]);
      }
    }
  }

  lemma {:induction false} SubsequenceTransitive<T>(a: seq<T>, b: seq<T>, c: seq<T>)
    requires IsSubsequence(a, b) && IsSubsequence(b, c)
    ensures IsSubsequence(a, c)
    decreases |c|
  {
    if a != [] && c != [] {
      if b[0] == c[0] {
        if a[0] == b[0] {
          SubsequenceTransitive(a[1..], b[1..], c[1..]);
        } else {
          SubsequenceTransitive(a, b[1..], c[1..]);
        }
      } else {
        SubsequenceTransitive(a, b, c[1..]);
        if a[0] == c[0] {
          SubsequenceDropHead(a, c[1..]);
        }
      }
    }
  }

  /** `Array.prototype.filter`: the elements satisfying `p`, in their original order. */
  function Filter<T>(s: seq<T>, p: T -> bool): (r: seq<T>)
    ensures IsSubsequence(r, s)
    ensures forall i :: 0 <= i < |r| ==> r[i] in s && p(r[i])
    ensures forall i :: 0 <= i < |s| && p(s[i]) ==> s[i] in r
    ensures |r| <= |s|
    decreases |s|
  {
    if s == [] then []
    else if p(s[0]) then [s[0]] + Filter(s[1..], p)
    else Filter(s[1..], p)
  }

  /** Elements satisfying `p` and elements satisfying its negation together account for all of `s`. */
  lemma {:induction false} FilterSplit<T>(s: seq<T>, p: T -> bool, q: T -> bool)
    requires forall x :: q(x) == !p(x)
    ensures |Filter(s, p)| + |Filter(s, q)| == |s|
    decreases |s|
  {
    if s != [] {
      FilterSplit(s[1..], p, q);
    }
  }

  /** `s.filter((_, i) => i !== index)`. */
  function RemoveIndex<T>(s: seq<T>, index: int): (r: seq<T>)
    ensures 0 <= index < |s| ==> r == s[..index] + s[index + 1..]
    ensures !(0 <= index < |s|) ==> r == s
    decreases |s|
  {
    if s == [] then []
    else
      var rest := RemoveIndex(s[1..], index - 1);
      assert 0 < index < |s| ==> rest == s[1..][..index - 1] + s[1..][index..];
      assert 0 < index < |s| ==> s[..index] == [s[0]] + s[1..][..index - 1];
      (if index == 0 then [] else [s[0]]) + rest
  }

  /** Number of occurrences of `x` in `s` (`s.filter(y => y === x).length`). */
  function Count<T(==)>(s: seq<T>, x: T): (n: nat)
    ensures n <= |s|
    ensures n == 0 <==> x !in s
    decreases |s|
  {
    if s == [] then 0 else (if s[0] == x then 1 else 0) + Count(s[1..], x)
  }

  function Min(a: int, b: int): int { if a <= b then a else b }
  function Max(a: int, b: int): int { if a >= b then a else b }

  /** `Math.ceil` on exact rationals. */
  function Ceil(x: real): (r: int)
    ensures r as real - 1.0 < x <= r as real
  {
    -((-x).Floor)
  }

  /** Decimal rendering of a natural number, as JavaScript's template strings print it. */
  function NatToString(n: nat): (s: string)
    ensures |s| >= 1
    decreases n
  {
    if n < 10 then [Digit(n)] else NatToString(n / 10) + [Digit(n % 10)]
  }

  function Digit(d: nat): char
    requires d < 10
  {
    "0123456789"[d]
  }

  lemma {:induction false} NatToStringInjective(n: nat, m: nat)
    requires NatToString(n) == NatToString(m)
    ensures n == m
    decreases n
  {
    var s := NatToString(n);
    if n >= 10 && m >= 10 {
      var a, b := NatToString(n / 10), NatToString(m / 10);
      assert s == a + [Digit(n % 10)] == b + [Digit(m % 10)];
      assert |a| == |b|;
      assert Digit(n % 10) == s[|s| - 1] == Digit(m % 10);
      assert a == s[..|s| - 1] == b;
      NatToStringInjective(n / 10, m / 10);
    }
  }

  /** Identifiers built as `prefix + counter` (`nation_3`, `hero_7`) differ whenever the counters do. */
  lemma PrefixedIdsDistinct(prefix: string, n: nat, m: nat)
    requires n != m
    ensures prefix + NatToString(n) != prefix + NatToString(m)
  {
    if prefix + NatToString(n) == prefix + NatToString(m) {
      assert NatToString(n) == (prefix + NatToString(n))[|prefix|..];
      assert NatToString(m) == (prefix + NatToString(m))[|prefix|..];
      NatToStringInjective(n, m);
    }
  }
}
