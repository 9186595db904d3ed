/**
 * Picking an index by `rng.Int() % n`, as the web server does for the A/B
 * pick and for the decoy context values. `rng.Int()` yields a non-negative
 * Go `int`, so Go's truncating `%` and Dafny's Euclidean `%` agree here.
 */
module ModuloPick {

  /** `rng.Int()` on a 64-bit platform draws from [0, 2^63). */
  const IntRange: nat := 0x8000_0000_0000_0000

  /** The index selected by `draw % n`. */
  function PickIndex(draw: nat, n: nat): (i: nat)
    requires 0 < n
    ensures i < n
    ensures draw < n ==> i == draw
  {
    draw % n
  }

  /** Number of draws in [0, bound) that select index `i` out of `n`. */
  ghost function Hits(n: nat, i: nat, bound: nat): nat
    requires 0 < n
  {
    if bound == 0 then 0
    else Hits(n, i, bound - 1) + (if PickIndex(bound - 1, n) == i then 1 else 0)
  }

  /** Stepping a draw by one either moves to the next index or wraps to 0. */
  lemma NextDraw(b: nat, n: nat)
    requires 0 < n
    ensures b % n < n - 1 ==> (b + 1) % n == b % n + 1 && (b + 1) / n == b / n
    ensures b % n == n - 1 ==> (b + 1) % n == 0 && (b + 1) / n == b / n + 1
  {
    var q, r := b / n, b % n;
    assert b == q * n + r;
    if r < n - 1 {
      DivModUnique(b + 1, n, q, r + 1);
    } else {
      assert b + 1 == (q + 1) * n;
      DivModUnique(b + 1, n, q + 1, 0);
    }
  }

  /** Quotient and remainder are determined by the division equation. */
  lemma DivModUnique(a: nat, n: nat, q: int, r: int)
    requires 0 < n && 0 <= r < n && a == q * n + r
    ensures a / n == q && a % n == r
  {
    var q', r' := a / n, a % n;
    assert (q - q') * n == r' - r by {
      assert (q - q') * n == q * n - q' * n;
    }
    if q > q' {
      PositiveMultiple(q - q', n);
    } else if q < q' {
      PositiveMultiple(q' - q, n);
    }
  }

  /** A positive multiple of `n` is at least `n`. */
  lemma PositiveMultiple(d: int, n: nat)
    requires 1 <= d
    ensures d * n >= n
  {
  }

  /**
   * Exact count: among the draws [0, bound), index `i` is selected
   * `bound / n` times, plus once more when `i` falls in the leftover
   * `bound % n` indices.
   */
  lemma {:induction false} HitsClosedForm(n: nat, i: nat, bound: nat)
    requires 0 < n && i < n
    ensures Hits(n, i, bound) == bound / n + (if i < bound % n then 1 else 0)
  {
    if bound > 0 {
      var b := bound - 1;
      HitsClosedForm(n, i, b);
      NextDraw(b, n);
      var q, r := b / n, b % n;
      assert Hits(n, i, bound) == Hits(n, i, b) + (if r == i then 1 else 0);
      if r < n - 1 {
        assert bound / n == q && bound % n == r + 1;
      } else {
        assert bound / n == q + 1 && bound % n == 0;
      }
    }
  }

  /**
   * With uniform draws from [0, bound), any two indices are selected a
   * number of times that differ by at most one, and exactly equally often
   * when `n` divides `bound`.
   */
  lemma NearlyUniform(n: nat, i: nat, j: nat, bound: nat)
    requires 0 < n && i < n && j < n
    ensures Hits(n, i, bound) <= Hits(n, j, bound) + 1
    ensures bound % n == 0 ==> Hits(n, i, bound) == Hits(n, j, bound)
  {
    HitsClosedForm(n, i, bound);
    HitsClosedForm(n, j, bound);
  }
}
