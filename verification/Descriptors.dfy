// What the receive and the transmit descriptors have in common: a ring of status words,
// the last of which carries the wrap flag.
module Descriptors {

  const SIZE: nat := 5

  const WRAP: bv16 := 0x2000

  // The descriptor j places after descriptor p, going round.
  function At(p: nat, j: nat): nat {
    if p + j < SIZE then p + j else if p + j < 2 * SIZE then p + j - SIZE else 0
  }

  lemma AtDistinct(p: nat, i: nat, j: nat)
    requires p < SIZE && i < SIZE && j < SIZE && i != j
    ensures At(p, i) != At(p, j)
  {
  }

  lemma AtNext(p: nat, n: nat)
    requires p < SIZE && n < SIZE
    ensures At(At(p, n), 1) == At(p, n + 1)
  {
  }

  // The wrap flag is set on the last descriptor and nowhere else.
  ghost predicate Wraps(st: seq<bv16>) {
    |st| == SIZE && forall i :: 0 <= i < SIZE ==> (st[i] & WRAP != 0 <==> i == SIZE - 1)
  }

  lemma WrapsStay(st: seq<bv16>, i: nat, s: bv16)
    requires Wraps(st) && i < SIZE && s & WRAP == st[i] & WRAP
    ensures Wraps(st[i := s])
  {
  }

  // The descriptor after bd, by the wrap flag.
  method After(status: array<bv16>, bd: nat) returns (next: nat)
    requires Wraps(status[..]) && bd < SIZE
    ensures next == At(bd, 1)
  {
    assert status[..][bd] == status[bd];
    next := if status[bd] & WRAP != 0 then 0 else bd + 1;
  }
}
