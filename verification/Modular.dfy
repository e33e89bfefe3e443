/**
 Remainders: what the ring of a menu's rows and the clock's wrap-around share.
 */
module Modular {

  lemma MulGap(k: int, n: int)
    requires n > 0
    ensures k == 0 || k * n >= n || k * n <= -n
  {
    if k >= 1 {
      assert (k - 1) * n >= 0;
    } else if k <= -1 {
      assert (-k - 1) * n >= 0;
    }
  }

  lemma ModShift(r: int, q: int, n: int)
    requires 0 <= r < n
    ensures (r + q * n) % n == r
  {
    var m := (r + q * n) % n;
    var p := (r + q * n) / n;
    assert r + q * n == p * n + m;
    assert r - m == (p - q) * n;
    MulGap(p - q, n);
  }

  lemma ModStep(a: int, b: int, n: int)
    requires n > 0
    ensures (a % n + b) % n == (a + b) % n
  {
    var q := a / n;
    var r := (a % n + b) % n;
    var p := (a % n + b) / n;
    assert a == q * n + a % n;
    assert a + b == (q + p) * n + r by {
      assert (q + p) * n == q * n + p * n;
    }
    ModShift(r, q + p, n);
  }
}
