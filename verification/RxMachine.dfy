// Frame reception as three interleaved parties: the MAC hardware, the interrupt
// handler, and enet_proc_input polled by the main loop. The ring is here the queue of
// filled descriptors; its descriptors and pointers are in RxRing.
module RxMachine {
  import opened Options
  import opened Descriptors

  const RX_SIZE := SIZE

  const TRUNC: bv16 := 0x0001
  const OVERRUN: bv16 := 0x0002
  const CRC: bv16 := 0x0004
  const NON_OCTET: bv16 := 0x0010
  const LENGTH_VIOLATION: bv16 := 0x0020
  const ERR_MASK: bv16 := TRUNC | OVERRUN | CRC | NON_OCTET | LENGTH_VIOLATION
  const EMPTY: bv16 := 0x8000

  // status: the bits the hardware reports with the frame.
  datatype Frame = Frame(data: seq<bv8>, status: bv16)

  predicate Bad(f: Frame) { f.status & ERR_MASK != 0 }

  // A frame is bad if and only if the hardware set one of the five error bits.
  lemma BadExactly(f: Frame)
    ensures Bad(f) <==>
            || f.status & 0x0001 != 0 || f.status & 0x0002 != 0 || f.status & 0x0004 != 0
            || f.status & 0x0010 != 0 || f.status & 0x0020 != 0
  {
    ErrorBits(f.status);
  }

  lemma ErrorBits(s: bv16)
    ensures s & ERR_MASK != 0 <==>
            s & 0x0001 != 0 || s & 0x0002 != 0 || s & 0x0004 != 0 || s & 0x0010 != 0 || s & 0x0020 != 0
  {
  }

  // A frame the driver is done with, and whether it reached the stack.
  datatype Done = Done(frame: Frame, delivered: bool)

  // ring: the filled descriptors from p_rxbd on, oldest first. held: the one being
  // copied. pending: the RXF event. ready: rx_ready.
  // The rest is history. cut: the last drain ended on a dropped frame. announced: how many
  // frames had been accepted at the last interrupt. answered: how many of them the last
  // drain was called for.
  datatype Mac = Mac(ring: seq<Frame>, held: Option<Frame>, pending: bool, ready: bool, draining: bool,
                     cut: bool, announced: nat, answered: nat, accepted: seq<Frame>, done: seq<Done>)

  const RESET := Mac([], None, false, false, false, false, 0, 0, [], [])

  datatype Step =
    | Receive(frame: Frame)   // hardware: a frame arrives
    | Isr                     // enet_isr
    | Poll                    // enet_proc_input is called
    | Scan                    // rxbd_next inside the draining loop
    | Input(pbuf: bool)       // t41_low_level_input; pbuf: was there a buffer

  function Used(m: Mac): nat { |m.ring| + if m.held.Some? then 1 else 0 }

  function Next(m: Mac, s: Step): Mac {
    match s
    case Receive(frame) =>
      if Used(m) < RX_SIZE then
        m.(ring := m.ring + [frame], pending := true, accepted := m.accepted + [frame])
      else m
    case Isr =>
      if m.pending then m.(pending := false, ready := true, announced := |m.accepted|) else m
    case Poll =>
      if !m.draining && m.ready then
        m.(ready := false, draining := true, cut := false, answered := m.announced)
      else m
    case Scan =>
      if !m.draining || m.held.Some? then m
      else if m.ring == [] then m.(draining := false)
      else m.(held := Some(m.ring[0]), ring := m.ring[1..])
    case Input(pbuf) =>
      if m.held.None? then m
      else
        var f := m.held.value;
        var ok := !Bad(f) && pbuf;
        m.(held := None, done := m.done + [Done(f, ok)], draining := ok, cut := !ok)
  }

  function Run(m: Mac, steps: seq<Step>): Mac
    decreases |steps|
  {
    if steps == [] then m else Run(Next(m, steps[0]), steps[1..])
  }

  function Frames(done: seq<Done>): seq<Frame> {
    if done == [] then [] else [done[0].frame] + Frames(done[1..])
  }

  function Delivered(done: seq<Done>): seq<Frame> {
    if done == [] then [] else (if done[0].delivered then [done[0].frame] else []) + Delivered(done[1..])
  }

  function HeldPart(m: Mac): seq<Frame> { if m.held.Some? then [m.held.value] else [] }

  // A full descriptor that neither an interrupt nor the flag will bring anyone to.
  predicate Stalled(m: Mac) { !m.draining && m.ring != [] && !m.pending && !m.ready }

  ghost predicate Inv(m: Mac) {
    && Used(m) <= RX_SIZE
    && (m.held.Some? ==> m.draining)
    && m.accepted == Frames(m.done) + HeldPart(m) + m.ring
    && (forall d :: d in m.done && d.delivered ==> !Bad(d.frame))
    && m.answered <= m.announced <= |m.accepted|
    && (m.pending <==> m.announced < |m.accepted|) && (m.ready <==> m.answered < m.announced)
    && (m.cut || m.draining || m.ring == [] || m.pending || m.ready)
    && (m.cut ==> !m.draining && |m.done| > 0 && !m.done[|m.done| - 1].delivered)
    && (m.cut && m.answered == |m.accepted| ==> Used(m) < RX_SIZE)
  }

  lemma {:induction false} FramesAppend(done: seq<Done>, d: Done)
    ensures Frames(done + [d]) == Frames(done) + [d.frame]
    ensures Delivered(done + [d]) == Delivered(done) + if d.delivered then [d.frame] else []
  {
    if done != [] {
      FramesAppend(done[1..], d);
      assert (done + [d])[1..] == done[1..] + [d];
    } else {
      assert (done + [d])[1..] == [];
    }
  }

  lemma ReceiveKeeps(m: Mac, f: Frame)
    requires Inv(m)
    ensures Inv(Next(m, Receive(f)))
  {
    assert Frames(m.done) + HeldPart(m) + m.ring + [f] == Frames(m.done) + HeldPart(m) + (m.ring + [f]);
  }

  lemma ScanKeeps(m: Mac)
    requires Inv(m)
    ensures Inv(Next(m, Scan))
  {
    if m.draining && m.held.None? && m.ring != [] {
      assert m.ring == [m.ring[0]] + m.ring[1..];
      assert Frames(m.done) + [] + m.ring == Frames(m.done) + [m.ring[0]] + m.ring[1..];
    }
  }

  lemma InputKeeps(m: Mac, pbuf: bool)
    requires Inv(m)
    ensures Inv(Next(m, Input(pbuf)))
  {
    if m.held.Some? {
      var d := Done(m.held.value, !Bad(m.held.value) && pbuf);
      FramesAppend(m.done, d);
      assert Frames(m.done + [d]) + [] + m.ring == Frames(m.done) + [d.frame] + m.ring;
    }
  }

  lemma NextKeeps(m: Mac, s: Step)
    requires Inv(m)
    ensures Inv(Next(m, s))
  {
    match s
    case Receive(f) => ReceiveKeeps(m, f);
    case Scan => ScanKeeps(m);
    case Input(pbuf) => InputKeeps(m, pbuf);
    case _ =>
  }

  lemma {:induction false} RunKeeps(m: Mac, steps: seq<Step>)
    requires Inv(m)
    ensures Inv(Run(m, steps))
    decreases |steps|
  {
    if steps != [] {
      NextKeeps(m, steps[0]);
      RunKeeps(Next(m, steps[0]), steps[1..]);
    }
  }

  // Main result on order: after any interleaving, every accepted frame is either still
  // in the ring, being copied, or finished exactly once, in arrival order; no bad frame
  // is ever delivered.
  lemma InOrderOnce(steps: seq<Step>)
    ensures var m := Run(RESET, steps);
            && m.accepted == Frames(m.done) + HeldPart(m) + m.ring
            && |m.ring| <= RX_SIZE
            && (forall d :: d in m.done && d.delivered ==> !Bad(d.frame))
  {
    RunKeeps(RESET, steps);
  }

  // Main result on wakeups: after any interleaving a full descriptor is left without an
  // interrupt or the flag exactly when the last drain ended on a frame it dropped, with
  // others behind it, and no frame has been accepted that it was not called for. Then the
  // last frame finished is the dropped one, and a descriptor is free, so that the next
  // frame to arrive raises the interrupt again.
  lemma StalledExactly(steps: seq<Step>, next: Frame)
    ensures var m := Run(RESET, steps);
            && (Stalled(m) <==> m.cut && m.ring != [] && m.answered == |m.accepted|)
            && (m.cut ==> |m.done| > 0 && !m.done[|m.done| - 1].delivered)
            && (Stalled(m) ==>
                Next(m, Receive(next)).pending && Next(m, Receive(next)).ring == m.ring + [next])
  {
    RunKeeps(RESET, steps);
  }

  // No frame that arrives is bad and there is always a buffer.
  predicate DropFree(steps: seq<Step>) {
    forall s :: s in steps ==> (s.Receive? ==> !Bad(s.frame)) && (s.Input? ==> s.pbuf)
  }

  ghost predicate AllGood(m: Mac) {
    && Inv(m) && (forall f :: f in m.ring + HeldPart(m) ==> !Bad(f))
    && (forall d :: d in m.done ==> d.delivered)
  }

  lemma {:induction false} GoodStays(m: Mac, steps: seq<Step>)
    requires AllGood(m) && DropFree(steps)
    ensures AllGood(Run(m, steps))
    decreases |steps|
  {
    if steps != [] {
      GoodNext(m, steps[0]);
      GoodStays(Next(m, steps[0]), steps[1..]);
    }
  }

  lemma GoodNext(m: Mac, s: Step)
    requires AllGood(m) && (s.Receive? ==> !Bad(s.frame)) && (s.Input? ==> s.pbuf)
    ensures AllGood(Next(m, s))
  {
    NextKeeps(m, s);
    if m.held.Some? { assert m.held.value in m.ring + HeldPart(m); }
  }

  // Without drops there is no lost wakeup, and nothing is finished undelivered.
  lemma NoLostWakeup(steps: seq<Step>)
    requires DropFree(steps)
    ensures !Stalled(Run(RESET, steps))
    ensures forall d :: d in Run(RESET, steps).done ==> d.delivered
  {
    GoodStays(RESET, steps);
  }

  // ------------------------------------------------------------- one drain, alone

  // One round of the draining loop: it goes on only after a delivered frame.
  function Once(m: Mac, pbuf: bool): (a: Mac)
    requires m.draining && m.held.None?
    ensures a.held.None? && a.ring == (if m.ring == [] then [] else m.ring[1..])
    ensures a.draining <==> m.ring != [] && !Bad(m.ring[0]) && pbuf
  {
    if m.ring == [] then Next(m, Scan) else Next(Next(m, Scan), Input(pbuf))
  }

  function Head(pbufs: seq<bool>): bool { pbufs != [] && pbufs[0] }
  function Tail(pbufs: seq<bool>): seq<bool> { if pbufs == [] then [] else pbufs[1..] }

  // The draining loop with nobody interfering; pbufs says of each frame in turn whether
  // there is a buffer for it.
  function Drain(m: Mac, pbufs: seq<bool>): Mac
    requires m.held.None?
    decreases m.draining, |m.ring|
  {
    if m.draining then Drain(Once(m, Head(pbufs)), Tail(pbufs)) else m
  }

  predicate Drops(m: Mac, pbufs: seq<bool>, i: nat)
    requires |pbufs| == |m.ring| && i < |m.ring|
  {
    Bad(m.ring[i]) || !pbufs[i]
  }

  // Exactly when a drain loses the wakeup: some frame that is not the last one in the
  // ring is dropped. The loop takes the null it gets for it for an empty ring.
  lemma {:induction false} DrainStalls(m: Mac, pbufs: seq<bool>)
    requires m.draining && m.held.None? && |pbufs| == |m.ring| && !m.pending && !m.ready
    ensures Stalled(Drain(m, pbufs)) <==> exists i :: 0 <= i < |m.ring| - 1 && Drops(m, pbufs, i)
    ensures !Drain(m, pbufs).draining
    decreases |m.ring|
  {
    if m.ring != [] {
      var a := Once(m, pbufs[0]);
      if a.draining {
        DrainStalls(a, pbufs[1..]);
        if exists i :: 0 <= i < |a.ring| - 1 && Drops(a, pbufs[1..], i) {
          var i :| 0 <= i < |a.ring| - 1 && Drops(a, pbufs[1..], i);
          assert Drops(m, pbufs, i + 1);
        }
        if exists i :: 0 <= i < |m.ring| - 1 && Drops(m, pbufs, i) {
          var i :| 0 <= i < |m.ring| - 1 && Drops(m, pbufs, i);
          assert i > 0 && Drops(a, pbufs[1..], i - 1);
        }
      } else {
        assert Drops(m, pbufs, 0);
        assert a.ring == m.ring[1..];
      }
    }
  }

  // Two frames, the first with a checksum error: the second stays in its descriptor
  // although the flag is clear and no interrupt is pending.
  lemma BadFrameLosesWakeup()
    ensures var bad, good := Frame([1], 4), Frame([2], 0);
            var m := Run(RESET, [Receive(bad), Receive(good), Isr, Poll, Scan, Input(true)]);
            Stalled(m) && m.ring == [good]
  {
    var bad, good := Frame([1], 4), Frame([2], 0);
    assert Bad(bad);
    var s := [Receive(bad), Receive(good), Isr, Poll, Scan, Input(true)];
    var m1 := Next(RESET, s[0]);
    var m2 := Next(m1, s[1]);
    assert m2.ring == [bad, good];
    var m3 := Next(m2, s[2]);
    var m4 := Next(m3, s[3]);
    var m5 := Next(m4, s[4]);
    assert m5.ring == [good];
    var m6 := Next(m5, s[5]);
    assert s[1..][1..][1..][1..][1..][1..] == [];
    assert Run(m6, []) == m6;
    assert Run(m5, s[5..]) == Run(m6, s[5..][1..]);
    assert s[4..][1..] == s[5..] && s[3..][1..] == s[4..] && s[2..][1..] == s[3..] && s[1..][1..] == s[2..];
    assert Run(m4, s[4..]) == Run(m5, s[5..]);
    assert Run(m3, s[3..]) == Run(m4, s[4..]);
    assert Run(m2, s[2..]) == Run(m3, s[3..]);
  }
}
