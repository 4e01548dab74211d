// Products and quotients of reals, one step at a time.
module Reals {

  function Abs(x: real): real { if x < 0.0 then -x else x }

  lemma Product(x: real, y: real)
    requires x >= 0.0 && y >= 0.0
    ensures x * y >= 0.0
  {
  }

  lemma Spread(k: real, x: real, y: real)
    ensures k * (x + y) == k * x + k * y
    ensures k * (x - y) == k * x - k * y
  {
  }

  lemma QuotientTimes(x: real, y: real)
    requires y > 0.0
    ensures (x / y) * y == x
  {
  }

  lemma SelfQuotient(x: real)
    requires x > 0.0
    ensures x / x == 1.0
  {
  }

  lemma Cancel(p: real, q: real, r: real)
    requires p * r <= q * r && r > 0.0
    ensures p <= q
  {
  }

  lemma QuotientRises(x: real, y: real, r: real)
    requires x <= y && r > 0.0
    ensures x / r <= y / r
  {
    QuotientTimes(x, r);
    QuotientTimes(y, r);
    Cancel(x / r, y / r, r);
  }
}
