/** The ring turns a ticket into a slot number with `ticket & (Q_SIZE - 1)`. This module says what that
    mask means: for a size that is a power of two it is the remainder. */
module Masking {

  function Pow2(k: nat): (p: nat)
    ensures p > 0
  {
    if k == 0 then 1 else 2 * Pow2(k - 1)
  }

  /** Bitwise and of two unsigned integers, bit by bit from the low end. */
  function BitAnd(a: nat, b: nat): nat
  {
    if a == 0 || b == 0 then 0
    else (a % 2) * (b % 2) + 2 * BitAnd(a / 2, b / 2)
  }

  ghost predicate IsPow2(q: nat) {
    exists k: nat :: q == Pow2(k)
  }

  lemma RemainderIsUnique(t: nat, d: nat, q: nat, r: nat)
    requires 0 <= r < d && t == d * q + r
    ensures t % d == r && t / d == q
  {
    var q', r' := t / d, t % d;
    assert d * (q - q') == d * q - d * q' == r' - r;
    if q > q' {
      MulAtLeast(d, q - q');
    } else if q < q' {
      MulAtLeast(d, q' - q);
    }
  }

  lemma MulAtLeast(d: nat, n: nat)
    requires n >= 1
    ensures d * n >= d
  {
    assert d * n == d + d * (n - 1);
  }

  /** (t / 2) mod p and t mod 2 determine t mod 2p. */
  lemma ModOfHalf(t: nat, p: nat)
    requires p > 0
    ensures t % (2 * p) == t % 2 + 2 * ((t / 2) % p)
  {
    var q, r := (t / 2) / p, (t / 2) % p;
    assert t / 2 == p * q + r;
    assert (2 * p) * q == 2 * (p * q);
    RemainderIsUnique(t, 2 * p, q, t % 2 + 2 * r);
  }

  lemma BitAndStep(t: nat, m: nat)
    ensures BitAnd(t, 2 * m + 1) == t % 2 + 2 * BitAnd(t / 2, m)
  {
    assert (2 * m + 1) % 2 == 1 && (2 * m + 1) / 2 == m;
  }

  /** The low k bits of t. */
  function Low(t: nat, k: nat): nat {
    if k == 0 then 0 else t % 2 + 2 * Low(t / 2, k - 1)
  }

  lemma {:induction false} MaskIsLow(t: nat, k: nat)
    ensures BitAnd(t, Pow2(k) - 1) == Low(t, k)
  {
    if k > 0 {
      MaskIsLow(t / 2, k - 1);
      BitAndStep(t, Pow2(k - 1) - 1);
    }
  }

  lemma {:induction false} ModIsLow(t: nat, k: nat)
    ensures t % Pow2(k) == Low(t, k)
  {
    if k > 0 {
      ModIsLow(t / 2, k - 1);
      ModOfHalf(t, Pow2(k - 1));
    }
  }

  /** `t & (2^k - 1)` is `t mod 2^k`. */
  lemma MaskIsMod(t: nat, k: nat)
    ensures BitAnd(t, Pow2(k) - 1) == t % Pow2(k)
  {
    MaskIsLow(t, k);
    ModIsLow(t, k);
  }

  lemma SlotIsMod(t: nat, q: nat)
    requires IsPow2(q)
    ensures q > 0 && BitAnd(t, q - 1) == t % q
  {
    var k: nat :| q == Pow2(k);
    MaskIsMod(t, k);
  }

  lemma SameRemainderFarApart(s: nat, t: nat, q: nat)
    requires q > 0 && s < t && s % q == t % q
    ensures s + q <= t
  {
    var m, n := s / q, t / q;
    assert s == q * m + s % q && t == q * n + t % q;
    assert q * (n - m) == q * n - q * m == t - s;
    if n > m {
      MulAtLeast(q, n - m);
    }
  }

  /** Two different tickets share a slot only when they are at least the ring size apart. */
  lemma SameSlotFarApart(s: nat, t: nat, q: nat)
    requires IsPow2(q) && s < t && BitAnd(s, q - 1) == BitAnd(t, q - 1)
    ensures s + q <= t
  {
    SlotIsMod(s, q);
    SlotIsMod(t, q);
    SameRemainderFarApart(s, t, q);
  }
}
