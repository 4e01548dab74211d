// The receive descriptors in place: status words with an empty and a wrap bit, the
// driver's pointer p_rxbd and the hardware's own pointer into the same ring.
module RxRing {
  import opened Options
  import opened Descriptors
  import opened RxMachine

  const FLAGS: bv16 := 0x5fff  // everything but EMPTY and WRAP

  lemma StatusBits(old_: bv16, new_: bv16)
    ensures ((old_ & WRAP) | (new_ & FLAGS)) & EMPTY == 0
    ensures ((old_ & WRAP) | (new_ & FLAGS)) & WRAP == old_ & WRAP
    ensures ((old_ & WRAP) | (new_ & FLAGS)) & FLAGS == new_ & FLAGS
    ensures (new_ & FLAGS) & ERR_MASK == new_ & ERR_MASK
    ensures ((old_ & WRAP) | EMPTY) & EMPTY != 0
    ensures ((old_ & WRAP) | EMPTY) & WRAP == old_ & WRAP
  {
  }

  // In the numbers of the hardware: only the five error bits and other flags come from it.
  lemma FilledNumber(s: bv16, f: Frame)
    ensures Filled(s, f) == (s & 0x2000) | (f.status & 0x5fff)
    ensures !Empty(Filled(s, f)) && (Bad(f) <==> Filled(s, f) & ERR_MASK != 0)
  {
    StatusBits(s, f.status);
  }

  predicate Empty(s: bv16) { s & EMPTY != 0 }

  ghost predicate Holds(s: bv16, d: seq<bv8>, f: Frame) {
    !Empty(s) && s & FLAGS == f.status & FLAGS && d == f.data
  }

  // The filled descriptors are one cyclic run starting at p; the one being copied is
  // just before it; all others are empty.
  ghost predicate Layout(st: seq<bv16>, dt: seq<seq<bv8>>, p: nat, ring: seq<Frame>, held: Option<Frame>) {
    && |st| == |dt| == RX_SIZE && p < RX_SIZE
    && |ring| + (if held.Some? then 1 else 0) <= RX_SIZE
    && (forall j :: 0 <= j < |ring| ==> Holds(st[At(p, j)], dt[At(p, j)], ring[j]))
    && (held.Some? ==> Holds(st[At(p, RX_SIZE - 1)], dt[At(p, RX_SIZE - 1)], held.value))
    && (forall j :: |ring| <= j < RX_SIZE - (if held.Some? then 1 else 0) ==> Empty(st[At(p, j)]))
  }

  // The hardware's descriptor is empty exactly when the ring is not full.
  lemma LayoutFull(st: seq<bv16>, dt: seq<seq<bv8>>, p: nat, ring: seq<Frame>, held: Option<Frame>)
    requires Layout(st, dt, p, ring, held)
    ensures Empty(st[At(p, |ring|)]) <==> |ring| + (if held.Some? then 1 else 0) < RX_SIZE
  {
    if |ring| == RX_SIZE {
      assert At(p, |ring|) == At(p, 0) && Holds(st[At(p, 0)], dt[At(p, 0)], ring[0]);
    }
  }

  lemma LayoutReceive(st: seq<bv16>, dt: seq<seq<bv8>>, p: nat, ring: seq<Frame>, held: Option<Frame>,
                      f: Frame, s: bv16)
    requires Layout(st, dt, p, ring, held) && |ring| + (if held.Some? then 1 else 0) < RX_SIZE
    requires Holds(s, f.data, f)
    ensures Layout(st[At(p, |ring|) := s], dt[At(p, |ring|) := f.data], p, ring + [f], held)
  {
    forall j | 0 <= j < RX_SIZE && j != |ring|
      ensures At(p, j) != At(p, |ring|)
    {
      AtDistinct(p, j, |ring|);
    }
  }

  lemma LayoutScan(st: seq<bv16>, dt: seq<seq<bv8>>, p: nat, ring: seq<Frame>)
    requires Layout(st, dt, p, ring, None) && ring != []
    ensures Layout(st, dt, At(p, 1), ring[1..], Some(ring[0]))
    ensures At(At(p, 1), |ring[1..]|) == At(p, |ring|) && At(At(p, 1), RX_SIZE - 1) == p
  {
    var q := At(p, 1);
    forall j | 0 <= j < RX_SIZE - 1
      ensures At(q, j) == At(p, j + 1)
    {
    }
  }

  lemma LayoutInput(st: seq<bv16>, dt: seq<seq<bv8>>, p: nat, ring: seq<Frame>, held: Option<Frame>)
    requires Layout(st, dt, p, ring, held) && held.Some?
    ensures var bd := At(p, RX_SIZE - 1);
            && Layout(st[bd := (st[bd] & WRAP) | EMPTY], dt, p, ring, None)
            && (st[bd] & ERR_MASK != 0 <==> Bad(held.value)) && dt[bd] == held.value.data
  {
    var bd := At(p, RX_SIZE - 1);
    StatusBits(st[bd], held.value.status);
    StatusBits(st[bd], st[bd]);
  }

  // The status word of a descriptor that has received f.
  function Filled(s: bv16, f: Frame): bv16 { (s & WRAP) | (f.status & FLAGS) }

  lemma LayoutFill(st: seq<bv16>, dt: seq<seq<bv8>>, p: nat, ring: seq<Frame>, held: Option<Frame>, f: Frame)
    requires Wraps(st) && Layout(st, dt, p, ring, held) && |ring| + (if held.Some? then 1 else 0) < RX_SIZE
    ensures var hw := At(p, |ring|);
            var st' := st[hw := Filled(st[hw], f)];
            && Wraps(st') && Layout(st', dt[hw := f.data], p, ring + [f], held)
            && At(hw, 1) == At(p, |ring + [f]|)
  {
    var hw := At(p, |ring|);
    StatusBits(st[hw], f.status);
    LayoutReceive(st, dt, p, ring, held, f, Filled(st[hw], f));
    WrapsStay(st, hw, Filled(st[hw], f));
    AtNext(p, |ring|);
  }

  class RxRing {
    const status: array<bv16>
    const data: array<seq<bv8>>
    var rxbd: nat       // p_rxbd, as an index
    var hw: nat         // the descriptor the hardware fills next
    var pending: bool   // ENET_EIR_RXF
    var rxReady: bool
    ghost var m: Mac

    ghost predicate Valid()
      reads this, status, data
    {
      && status as object != data && Wraps(status[..]) && Layout(status[..], data[..], rxbd, m.ring, m.held)
      && hw == At(rxbd, |m.ring|) && pending == m.pending && rxReady == m.ready
    }

    // t41_low_level_init: all empty, the last one with the wrap flag.
    constructor ()
      ensures Valid() && m == RESET && fresh(status) && fresh(data)
      ensures status.Length == 5 && forall i :: 0 <= i < 5 ==> status[i] == if i == 4 then 0xa000 else 0x8000
    {
      status := new bv16[RX_SIZE](i => if i == RX_SIZE - 1 then EMPTY | WRAP else EMPTY);
      data := new seq<bv8>[RX_SIZE](_ => []);
      rxbd, hw, pending, rxReady := 0, 0, false, false;
      m := RESET;
    }

    // Hardware: fills the next descriptor if it is empty and raises RXF.
    method Receive(f: Frame)
      requires Valid()
      modifies this`hw, this`pending, this`m, status, data
      ensures Valid() && m == Next(old(m), RxMachine.Receive(f))
    {
      LayoutFull(status[..], data[..], rxbd, m.ring, m.held);
      if status[hw] & EMPTY != 0 {
        Fill(f);
      } else {
        m := Next(m, RxMachine.Receive(f));
      }
    }

    method Fill(f: Frame)
      requires Valid() && Used(m) < RX_SIZE
      modifies this`hw, this`pending, this`m, status, data
      ensures Valid() && m == Next(old(m), RxMachine.Receive(f))
    {
      ghost var st, dt := status[..], data[..];
      LayoutFill(st, dt, rxbd, m.ring, m.held, f);
      WriteDescriptor(f);
      hw := After(status, hw);
      pending := true;
      m := Next(m, RxMachine.Receive(f));
    }

    method WriteDescriptor(f: Frame)
      requires status as object != data && status.Length == data.Length == RX_SIZE && hw < RX_SIZE
      modifies status, data
      ensures status[..] == old(status[..])[hw := Filled(old(status[..])[hw], f)]
      ensures data[..] == old(data[..])[hw := f.data]
    {
      status[hw] := (status[hw] & WRAP) | (f.status & FLAGS);
      data[hw] := f.data;
    }

    // enet_isr
    method Isr()
      requires Valid()
      modifies this`pending, this`rxReady, this`m
      ensures Valid() && m == Next(old(m), RxMachine.Isr)
    {
      if pending {
        pending := false;
        rxReady := true;
      }
      m := Next(m, RxMachine.Isr);
    }

    ghost predicate FirstFilled(k: nat)
      reads this, status
      requires status.Length == RX_SIZE && k < RX_SIZE
    {
      !Empty(status[At(rxbd, k)]) && forall j :: 0 <= j < k ==> Empty(status[At(rxbd, j)])
    }

    // The scan of rxbd_next: the first filled descriptor from p_rxbd on, within one lap.
    method FindFilled() returns (found: Option<nat>)
      requires Wraps(status[..]) && rxbd < RX_SIZE
      ensures found.None? <==> forall j :: 0 <= j < RX_SIZE ==> Empty(status[At(rxbd, j)])
      ensures found.Some? ==> exists k :: 0 <= k < RX_SIZE && found.value == At(rxbd, k) && FirstFilled(k)
    {
      var bd := rxbd;
      ghost var k := 0;
      while status[bd] & EMPTY != 0
        invariant 0 <= k < RX_SIZE && bd == At(rxbd, k)
        invariant forall j :: 0 <= j < k ==> Empty(status[At(rxbd, j)])
        decreases RX_SIZE - k
      {
        bd := After(status, bd);
        k := k + 1;
        if bd == rxbd { return None; }
      }
      assert FirstFilled(k);
      return Some(bd);
    }

    // What the scan finds: the oldest frame, where p_rxbd stands.
    method FindOldest() returns (found: Option<nat>)
      requires Valid() && m.held.None?
      ensures found == if m.ring == [] then None else Some(rxbd)
    {
      assert forall i :: 0 <= i < RX_SIZE ==> status[..][i] == status[i];
      found := FindFilled();
      if m.ring != [] { assert !Empty(status[At(rxbd, 0)]); }
    }

    // rxbd_next: p_rxbd moves on by one whenever a filled descriptor was found.
    method RxbdNext() returns (bd: Option<nat>)
      requires Valid() && m.draining && m.held.None?
      modifies this`rxbd, this`m
      ensures Valid() && m == Next(old(m), Scan)
      ensures bd == if old(m).ring == [] then None else Some(old(rxbd))
      ensures bd.Some? ==> At(rxbd, RX_SIZE - 1) == bd.value
    {
      bd := FindOldest();
      if m.ring != [] { LayoutScan(status[..], data[..], rxbd, m.ring); }
      if bd.Some? {
        rxbd := After(status, rxbd);
      }
      m := Next(m, Scan);
    }

    // t41_low_level_input: copies a good frame out and empties the descriptor.
    method LowLevelInput(bd: nat, pbuf: bool) returns (p: Option<seq<bv8>>)
      requires Valid() && m.held.Some? && bd == At(rxbd, RX_SIZE - 1)
      modifies this`m, status
      ensures Valid() && m == Next(old(m), Input(pbuf))
      ensures p == if Bad(old(m).held.value) || !pbuf then None else Some(old(m).held.value.data)
    {
      LayoutInput(status[..], data[..], rxbd, m.ring, m.held);
      StatusBits(status[bd], status[bd]);
      p := None;
      if status[bd] & ERR_MASK == 0 && pbuf {
        p := Some(data[bd]);
      }
      status[bd] := (status[bd] & WRAP) | EMPTY;
      m := Next(m, Input(pbuf));
    }

    // enet_rx_next: null both for an empty ring and for a dropped frame.
    method RxNext(pbuf: bool) returns (p: Option<seq<bv8>>)
      requires Valid() && m.draining && m.held.None?
      modifies this`rxbd, this`m, status
      ensures Valid() && m.held.None? && (p.Some? <==> m.draining)
      ensures m == Once(old(m), pbuf) && (m.draining ==> |m.ring| < |old(m).ring|)
      ensures Payloads(m.done) == Payloads(old(m).done) + if p.Some? then [p.value] else []
    {
      var bd := RxbdNext();
      p := None;
      if bd.Some? {
        p := LowLevelInput(bd.value, pbuf);
        PayloadsAppend(old(m).done, m.done[|m.done| - 1]);
      }
    }

    // The flag is cleared before the ring is looked at.
    method TakeFlag()
      requires Valid() && rxReady && !m.draining
      modifies this`rxReady, this`m
      ensures Valid() && m == Next(old(m), Poll)
    {
      rxReady := false;
      m := Next(m, Poll);
    }

    // enet_proc_input; pbufs says for each frame in turn whether a buffer was free, and
    // stack is what netif->input received.
    method ProcInput(pbufs: seq<bool>) returns (stack: seq<seq<bv8>>)
      requires Valid() && !m.draining && m.held.None?
      modifies this`rxReady, this`rxbd, this`m, status
      ensures Valid()
      ensures m == if old(rxReady) then Drain(Next(old(m), Poll), pbufs) else old(m)
      ensures Payloads(m.done) == Payloads(old(m).done) + stack
    {
      stack := [];
      if !rxReady { return; }
      TakeFlag();
      stack := DrainRing(pbufs);
    }

    method DrainRing(pbufs: seq<bool>) returns (stack: seq<seq<bv8>>)
      requires Valid() && m.draining && m.held.None?
      modifies this`rxbd, this`m, status
      ensures Valid() && m == Drain(old(m), pbufs)
      ensures Payloads(m.done) == Payloads(old(m).done) + stack
    {
      stack := [];
      var left := pbufs;
      var draining := true;
      ghost var target, before := Drain(m, pbufs), Payloads(m.done);
      while draining
        invariant Valid() && m.held.None? && draining == m.draining
        invariant Drain(m, left) == target
        invariant Payloads(m.done) == before + stack
        decreases draining, |m.ring|
      {
        var p := Round(left);
        left := Tail(left);
        draining := p.Some?;
        if p.Some? {
          Assoc(before, stack, [p.value]);
          stack := stack + [p.value];
        }
      }
    }

    method Round(pbufs: seq<bool>) returns (p: Option<seq<bv8>>)
      requires Valid() && m.draining && m.held.None?
      modifies this`rxbd, this`m, status
      ensures Valid() && m.held.None? && (p.Some? <==> m.draining)
      ensures Drain(m, Tail(pbufs)) == Drain(old(m), pbufs)
      ensures m.draining ==> |m.ring| < |old(m).ring|
      ensures Payloads(m.done) == Payloads(old(m).done) + if p.Some? then [p.value] else []
    {
      p := RxNext(Head(pbufs));
    }
  }

  lemma Assoc<T>(a: seq<T>, b: seq<T>, c: seq<T>)
    ensures a + b + c == a + (b + c)
  {
  }

  function Payloads(done: seq<Done>): seq<seq<bv8>> {
    if done == [] then []
    else (if done[0].delivered then [done[0].frame.data] else []) + Payloads(done[1..])
  }

  lemma {:induction false} PayloadsAppend(done: seq<Done>, d: Done)
    ensures Payloads(done + [d]) == Payloads(done) + if d.delivered then [d.frame.data] else []
  {
    if done != [] {
      PayloadsAppend(done[1..], d);
      assert (done + [d])[1..] == done[1..] + [d];
    } else {
      assert (done + [d])[1..] == [];
    }
  }
}
