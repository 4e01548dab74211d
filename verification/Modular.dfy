// Remainders with a divisor that is not a constant.
module Modular {

  lemma NoSmallMultiple(d: int, m: int)
    requires d != 0 && m >= 0
    ensures d * m >= m || d * m <= -m
  {
    assert if d > 0 then (d - 1) * m >= 0 else (-d - 1) * m >= 0;
  }

  lemma ModUnique(v: int, m: nat, q: int, r: int)
    requires m > 0 && v == q * m + r && 0 <= r < m
    ensures v % m == r
  {
    var d := v / m - q;
    assert d * m == r - v % m;
    if d != 0 { NoSmallMultiple(d, m); }
  }

  lemma SameMod(y: int, x: int, m: nat, k: int)
    requires m > 0 && y == x + k * m
    ensures y % m == x % m
  {
    var q := x / m;
    assert x == q * m + x % m;
    assert y == (q + k) * m + x % m;
    ModUnique(y, m, q + k, x % m);
  }
}
