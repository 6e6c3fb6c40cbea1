/** Small shared vocabulary: optional values, bounds, and totals over finite maps. */
module Basics {

  datatype Option<+T> = None | Some(value: T)

  function Max(a: int, b: int): int {
    if a < b then b else a
  }

  function Min(a: int, b: int): int {
    if a < b then a else b
  }

  ghost function AnyKey<K, V>(m: map<K, V>): K
    requires |m| > 0
  {
    var k :| k in m;
    k
  }

  /** The sum of all values of a finite map. */
  ghost function Total<K>(m: map<K, int>): int
    decreases |m|
  {
    if |m| == 0 then 0 else m[AnyKey(m)] + Total(m - {AnyKey(m)})
  }

  /** Any key may be split off first, so the order of summation is irrelevant. */
  lemma {:induction false} TotalSplit<K>(m: map<K, int>, k: K)
    requires k in m
    ensures Total(m) == m[k] + Total(m - {k})
    decreases |m|
  {
    var first := AnyKey(m);
    if first != k {
      TotalSplit(m - {first}, k);
      TotalSplit(m - {k}, first);
      assert m - {first} - {k} == m - {k} - {first};
    }
  }

  lemma TotalUpdate<K>(m: map<K, int>, k: K, v: int)
    ensures Total(m[k := v]) == Total(m) + v - (if k in m then m[k] else 0)
  {
    hide Total;
    TotalSplit(m[k := v], k);
    if k in m {
      TotalSplit(m, k);
      assert m[k := v] - {k} == m - {k};
    } else {
      assert m[k := v] - {k} == m;
    }
  }

  lemma Unused(used: set<nat>) returns (n: nat)
    ensures n !in used
  {
    var left := used;
    n := 0;
    while left != {}
      invariant left <= used && forall k :: k in used && k !in left ==> k < n
    {
      var k :| k in left;
      n, left := Max(n, k + 1), left - {k};
    }
  }

  /** What holds of each step of a sequence and composes, holds from any point to any later one. */
  lemma {:induction false} Chained<T(!new)>(s: seq<T>, r: (T, T) -> bool, x: nat, y: nat)
    requires x <= y < |s| && r(s[x], s[x])
    requires forall a, b, d :: r(a, b) && r(b, d) ==> r(a, d)
    requires forall i :: x < i <= y ==> r(s[i - 1], s[i])
    ensures r(s[x], s[y])
    decreases y - x
  {
    if x < y {
      Chained(s, r, x, y - 1);
      assert r(s[y - 1], s[y]);
    }
  }

  /** What does not hold at first and holds later begins to hold at some step. */
  lemma {:induction false} Onset<T>(s: seq<T>, p: T -> bool, n: nat) returns (i: nat)
    requires n < |s| && !p(s[0]) && p(s[n])
    ensures i < n && !p(s[i]) && p(s[i + 1])
    decreases n
  {
    if p(s[n - 1]) {
      i := Onset(s, p, n - 1);
    } else {
      i := n - 1;
    }
  }

  lemma AtLeastOnce(x: int, b: int)
    requires x >= 1 && b >= 0
    ensures x * b >= b
  {
    assert x * b == (x - 1) * b + b;
    assert (x - 1) * b >= 0;
  }

  /** Quotient and remainder are determined by the division equation. */
  lemma DivisionIsUnique(a: int, b: int, q: int, r: int)
    requires b >= 1 && a == q * b + r && 0 <= r < b
    ensures a / b == q && a % b == r
  {
    var p, s := a / b, a % b;
    assert a == p * b + s;
    assert (p - q) * b == p * b - q * b == r - s;
    if p > q {
      AtLeastOnce(p - q, b);
    } else if p < q {
      AtLeastOnce(q - p, b);
    }
  }
}
