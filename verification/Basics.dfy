// What several of the models share.
module Basics {
  datatype Option<+T> = None | Some(value: T)

  // A day in milliseconds.
  const DAY: nat := 86_400_000

  function Max(a: int, b: int): int {
    if a < b then b else a
  }

  function Pow2(n: nat): (r: nat)
    ensures r > 0
  {
    if n == 0 then 1 else 2 * Pow2(n - 1)
  }

  // Which of the blocks of d numbers, one after the other, n is in.
  lemma QuotientIs(n: nat, d: nat, q: nat)
    requires d > 0
    ensures n / d == q <==> q * d <= n < (q + 1) * d
    ensures n / d >= 0
  {
    var r, k := n % d, n / d;
    assert n == k * d + r && 0 <= r < d;
    if k < q {
      TimesMonotonic(k + 1, q, d);
    } else if k > q {
      TimesMonotonic(q + 1, k, d);
    }
  }

  lemma TimesMonotonic(a: int, b: int, d: nat)
    requires a <= b
    ensures a * d <= b * d
  {
  }

  // The larger of b and everything in s.
  ghost function Largest(b: nat, s: set<nat>): (r: nat)
    ensures b <= r && (r == b || r in s)
    ensures forall x :: x in s ==> x <= r
    decreases |s|
  {
    if s == {} then b
    else
      var x :| x in s;
      var r := Largest(b, s - {x});
      assert s == s - {x} + {x};
      if x > r then x else r
  }
}
