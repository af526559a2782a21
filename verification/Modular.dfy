/** Facts about remainders that ring positions and residue classes rest on. */
module Modular {

  /** The remainder is the only number of its kind. */
  lemma Remainder(x: int, q: int, r: int, s: int)
    requires s >= 1 && x == q * s + r && 0 <= r < s
    ensures x % s == r && x / s == q
  {
    var a := x / s - q;
    assert a * s == r - x % s;
    assert a >= 1 ==> a * s >= s;
    assert a <= -1 ==> a * s <= -s;
  }

  lemma Multiple(x: int, k: int, s: int)
    requires s >= 1
    ensures (x + k * s) % s == x % s
  {
    var q, r := x / s, x % s;
    assert x + k * s == (q + k) * s + r;
    Remainder(x + k * s, q + k, r, s);
  }

  /** Numbers less than `n` apart have different remainders. */
  lemma Distinct(a: nat, b: nat, n: nat)
    requires n > 0 && a < b < a + n
    ensures a % n != b % n
  {
    var d := b / n - a / n;
    assert a % n == b % n ==> b - a == d * n;
    assert d >= 1 ==> d * n >= n;
    assert d <= 0 ==> d * n <= 0;
  }

  lemma Around(a: nat, n: nat)
    requires n > 0
    ensures (a + n) % n == a % n
  {
    Multiple(a, 1, n);
  }

  /** Any `n` consecutive numbers hit every remainder. */
  lemma Covered(r: nat, i: nat, n: nat) returns (q: nat)
    requires i < n
    ensures r <= q < r + n && q % n == i
  {
    var m, k := r % n, r / n;
    assert r == k * n + m;
    if i >= m {
      q := r - m + i;
      Remainder(q, k, i, n);
    } else {
      q := r - m + i + n;
      assert (k + 1) * n == k * n + n;
      Remainder(q, k + 1, i, n);
    }
  }
}
