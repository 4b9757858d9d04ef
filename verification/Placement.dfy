/** How the pods of a set are spread over its coordinates (controllers/stateful_set_utils.go:249-267). */
module Placement {
  /** coordinatorPod: pod `ordinal` goes to this coordinate of m. */
  function CoordinateOf(ordinal: nat, m: nat): nat
    requires m >= 1
  {
    ordinal % m
  }

  /** How many of the ordinals below n go to coordinate c. */
  function Assigned(n: nat, m: nat, c: nat): nat
    requires m >= 1
  {
    if n == 0 then 0 else Assigned(n - 1, m, c) + (if CoordinateOf(n - 1, m) == c then 1 else 0)
  }

  lemma NextDivMod(n: nat, m: nat)
    requires m >= 1
    ensures
      if n % m == m - 1 then (n + 1) / m == n / m + 1 && (n + 1) % m == 0
      else (n + 1) / m == n / m && (n + 1) % m == n % m + 1
  {
    var q, r := n / m, n % m;
    assert n == q * m + r;
    if r == m - 1 {
      DivModUnique(n + 1, m, q + 1, 0);
    } else {
      DivModUnique(n + 1, m, q, r + 1);
    }
  }

  lemma DivModUnique(n: nat, m: nat, q: nat, r: nat)
    requires m >= 1 && r < m && n == q * m + r
    ensures n / m == q && n % m == r
  {
    var d := n / m - q;
    assert n == (n / m) * m + n % m;
    assert d * m == r - n % m;
    assert d >= 1 ==> (d - 1) * m >= 0;
    assert d <= -1 ==> (-1 - d) * m >= 0;
  }

  /** Every coordinate gets the quotient, and the first `n % m` of them one more. */
  lemma {:induction false} PlacementIsBalanced(n: nat, m: nat, c: nat)
    requires m >= 1 && c < m
    ensures Assigned(n, m, c) == n / m + (if c < n % m then 1 else 0)
  {
    if n > 0 {
      PlacementIsBalanced(n - 1, m, c);
      NextDivMod(n - 1, m);
    } else {
      DivModUnique(0, m, 0, 0);
    }
  }
}
