// Feeding bits one at a time to a remainder of any kind, and what follows from
// additivity of a step alone.
module Division {

  // The remainder after feeding bits to r; step takes one bit.
  function Divide<S>(step: (S, bool) -> S, r: S, bits: seq<bool>): S
    decreases |bits|
  {
    if bits == [] then r else Divide(step, step(r, bits[0]), bits[1..])
  }

  lemma {:induction false} DivideAppend<S>(step: (S, bool) -> S, r: S, a: seq<bool>, b: seq<bool>)
    ensures Divide(step, r, a + b) == Divide(step, Divide(step, r, a), b)
    decreases |a|
  {
    if a == [] {
      assert a + b == b;
    } else {
      assert (a + b)[1..] == a[1..] + b;
      DivideAppend(step, step(r, a[0]), a[1..], b);
    }
  }

  lemma DivideOne<S>(step: (S, bool) -> S, r: S, p: bool)
    ensures Divide(step, r, [p]) == step(r, p)
  {
    assert [p][1..] == [];
  }

  lemma DivideTwo<S>(step: (S, bool) -> S, r: S, p: bool, q: bool)
    ensures Divide(step, r, [p, q]) == step(step(r, p), q)
  {
    assert [p, q][1..] == [q];
    DivideOne(step, step(r, p), q);
  }

  lemma DivideFour<S>(step: (S, bool) -> S, r: S, p: bool, q: bool, s: bool, t: bool)
    ensures Divide(step, r, [p, q, s, t]) == step(step(step(step(r, p), q), s), t)
  {
    assert [p, q] + [s, t] == [p, q, s, t];
    DivideAppend(step, r, [p, q], [s, t]);
    DivideTwo(step, r, p, q);
    DivideTwo(step, step(step(r, p), q), s, t);
  }

  lemma DivideEight<S>(step: (S, bool) -> S, r: S, p: bool, q: bool, s: bool, t: bool,
                       u: bool, v: bool, w: bool, x: bool)
    ensures Divide(step, r, [p, q, s, t, u, v, w, x]) ==
            step(step(step(step(step(step(step(step(r, p), q), s), t), u), v), w), x)
  {
    assert [p, q, s, t] + [u, v, w, x] == [p, q, s, t, u, v, w, x];
    DivideAppend(step, r, [p, q, s, t], [u, v, w, x]);
    DivideFour(step, r, p, q, s, t);
    DivideFour(step, step(step(step(step(r, p), q), s), t), u, v, w, x);
  }

  // The bitwise sum of two strings of one length: a frame and the errors on it.
  function AddBits(a: seq<bool>, b: seq<bool>): seq<bool>
    requires |a| == |b|
  {
    seq(|a|, i requires 0 <= i < |a| => a[i] != b[i])
  }

  ghost predicate Additive<S(!new)>(step: (S, bool) -> S, add: (S, S) -> S) {
    forall r, s, p, q {:trigger add(step(r, p), step(s, q))} ::
      step(add(r, s), p != q) == add(step(r, p), step(s, q))
  }

  // If one step is additive, so is the remainder of whole strings.
  lemma {:induction false} DivideAdditive<S(!new)>(step: (S, bool) -> S, add: (S, S) -> S,
                                                   r: S, s: S, a: seq<bool>, b: seq<bool>)
    requires Additive(step, add) && |a| == |b|
    ensures Divide(step, add(r, s), AddBits(a, b)) == add(Divide(step, r, a), Divide(step, s, b))
    decreases |a|
  {
    if a != [] {
      assert AddBits(a, b)[1..] == AddBits(a[1..], b[1..]);
      assert step(add(r, s), a[0] != b[0]) == add(step(r, a[0]), step(s, b[0]));
      DivideAdditive(step, add, step(r, a[0]), step(s, b[0]), a[1..], b[1..]);
    }
  }
}
