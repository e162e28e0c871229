/**
 * Python's `round(x, 1)`, the rounded square roots published by the accuracy
 * summary, and sums of reals, over exact reals.
 */
module Rounding {

  /** The number of tenths closest to `x`, ties to the even neighbour
      (Python's rounding rule for an exactly representable tie). */
  function Tenths(x: real): (n: int)
    ensures -0.5 <= n as real - x * 10.0 <= 0.5
  {
    var t := x * 10.0;
    var lo := t.Floor;
    var frac := t - lo as real;
    if frac < 0.5 then lo
    else if frac > 0.5 then lo + 1
    else if lo % 2 == 0 then lo
    else lo + 1
  }

  /** `round(x, 1)`: the nearest multiple of 0.1, never more than 0.05 away. */
  function Round1(x: real): (r: real)
    ensures -0.05 <= r - x <= 0.05
  {
    Tenths(x) as real / 10.0
  }

  /** A value that already has one decimal place is left unchanged. */
  lemma Round1OfTenths(n: int)
    ensures Round1(n as real / 10.0) == n as real / 10.0
  {
  }

  /** Rounding is monotone: it never reverses the order of two values. */
  lemma Round1Monotone(x: real, y: real)
    requires x <= y
    ensures Round1(x) <= Round1(y)
  {
    var tx, ty := x * 10.0, y * 10.0;
    var lx, ly := tx.Floor, ty.Floor;
    assert lx <= ly;
    if lx < ly {
      assert Tenths(x) <= lx + 1 <= ly <= Tenths(y);
    } else {
      assert Tenths(x) <= Tenths(y);
    }
  }

  /** Rounding commutes with negation (both directions of a tie go to even). */
  lemma Round1Negate(x: real)
    ensures Round1(-x) == -Round1(x)
  {
    var t := x * 10.0;
    var lo := t.Floor;
    var frac := t - lo as real;
    var nt := (-x) * 10.0;
    assert nt == -t;
    if frac == 0.0 {
      assert nt.Floor == -lo;
    } else {
      assert nt.Floor == -lo - 1;
    }
  }

  /** The sum of a sequence of reals (`sum(...)`, `np.sum`). */
  function Sum(xs: seq<real>): real {
    if |xs| == 0 then 0.0 else xs[0] + Sum(xs[1..])
  }

  lemma {:induction false} SumNonNegative(xs: seq<real>)
    requires forall i :: 0 <= i < |xs| ==> xs[i] >= 0.0
    ensures Sum(xs) >= 0.0
  {
    if |xs| > 0 {
      SumNonNegative(xs[1..]);
    }
  }

  lemma {:induction false} SumZero(xs: seq<real>)
    requires forall i :: 0 <= i < |xs| ==> xs[i] == 0.0
    ensures Sum(xs) == 0.0
  {
    if |xs| > 0 {
      SumZero(xs[1..]);
    }
  }

  /** The sum of `n` values in `[lo, hi]` lies in `[n * lo, n * hi]`. */
  lemma {:induction false} SumBounds(xs: seq<real>, lo: real, hi: real)
    requires forall i :: 0 <= i < |xs| ==> lo <= xs[i] <= hi
    ensures |xs| as real * lo <= Sum(xs) <= |xs| as real * hi
  {
    if |xs| > 0 {
      SumBounds(xs[1..], lo, hi);
    }
  }

  /** Square of an integer. */
  function Sq(k: int): int {
    k * k
  }

  /** Integer square-bound fact: a smaller square means a smaller non-negative root. */
  lemma SquareLess(a: int, b: int)
    requires b >= 0
    ensures Sq(a) < Sq(b) ==> a < b
  {
  }

  /** Searches upward from `k` for the tenths count of `sqrt(q / 400)`:
      the least `r >= k` with `q <= (2r+1)^2`. */
  function SqrtTenthsFrom(q: real, k: nat): (r: nat)
    requires q >= 0.0
    requires k == 0 || (Sq(2 * k - 1) as real) < q
    ensures r >= k
    ensures r == 0 || (Sq(2 * r - 1) as real) < q
    ensures q <= Sq(2 * r + 1) as real
    decreases q.Floor + 1 - k
  {
    if q <= Sq(2 * k + 1) as real then k
    else
      assert k <= Sq(2 * k + 1);
      SqrtTenthsFrom(q, k + 1)
  }

  /** The tenths count of `sqrt(v)`: `k / 10` lies within 0.05 of the square root,
      stated without a square root as `(2k-1)^2 < 400 v <= (2k+1)^2`. */
  function SqrtTenths(v: real): (k: nat)
    requires v >= 0.0
    ensures k == 0 || (Sq(2 * k - 1) as real) < 400.0 * v
    ensures 400.0 * v <= Sq(2 * k + 1) as real
  {
    SqrtTenthsFrom(400.0 * v, 0)
  }

  /** `round(sqrt(v), 1)`. */
  function RoundedSqrt(v: real): (r: real)
    requires v >= 0.0
    ensures r >= 0.0
    ensures r == 0.0 || (r - 0.05) * (r - 0.05) < v
    ensures v <= (r + 0.05) * (r + 0.05)
  {
    var k := SqrtTenths(v);
    var r := k as real / 10.0;
    assert (Sq(2 * k - 1) as real) == (2.0 * k as real - 1.0) * (2.0 * k as real - 1.0);
    assert (Sq(2 * k + 1) as real) == (2.0 * k as real + 1.0) * (2.0 * k as real + 1.0);
    r
  }

  /** Doubling a number quadruples its square. */
  lemma SqDouble(n: int)
    ensures Sq(2 * n) == 4 * Sq(n)
  {
  }

  /** Rounding `sqrt(4v) = 2 sqrt(v)` gives twice the rounded root up to one tenth,
      and never less than the rounded root itself. */
  lemma SqrtTenthsDouble(v: real)
    requires v >= 0.0
    ensures SqrtTenths(v) <= SqrtTenths(4.0 * v)
    ensures 2 * SqrtTenths(v) - 1 <= SqrtTenths(4.0 * v) <= 2 * SqrtTenths(v) + 1
  {
    var k: int, k2: int := SqrtTenths(v), SqrtTenths(4.0 * v);
    var q := 400.0 * v;
    assert 400.0 * (4.0 * v) == 4.0 * q;
    SqDouble(2 * k + 1);
    SqDouble(2 * k - 1);
    var up, lo := Sq(2 * k + 1), Sq(2 * k - 1);
    var up2, lo2 := Sq(2 * k2 + 1), Sq(2 * k2 - 1);
    assert q <= up as real;
    assert 4.0 * q <= up2 as real;
    if k2 > 0 {
      assert (lo2 as real) < 4.0 * q;
      assert lo2 < 4 * up;
      assert 2 * (2 * k + 1) == 4 * k + 2;
      SquareLess(2 * k2 - 1, 4 * k + 2);
    }
    if k > 0 {
      assert (lo as real) < q;
      assert 4 * lo < up2;
      assert 2 * (2 * k - 1) == 4 * k - 2;
      SquareLess(4 * k - 2, 2 * k2 + 1);
    }
  }
}
