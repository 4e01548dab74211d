// The display command stream on values: the producer's cached room, what it has
// published, and how far the coprocessor has read. The 4 KB ring is in DisplayFifo.
module DisplayStream {

  type Byte = x: int | 0 <= x < 256

  const RING: nat := 4096
  const ROOM: nat := RING - 4  // the producer never fills the last word

  // log: every byte ever emitted. kept: the bytes that have a place in the stream.
  // pub: REG_CMD_WRITE, rd: REG_CMD_READ, both counted from the start of the stream.
  // free: the cached, possibly stale, freespace.
  datatype Fifo = Fifo(log: seq<Byte>, kept: seq<Byte>, pub: nat, rd: nat, free: nat) {
    function Unread(): int { |kept| - rd }
    predicate Aligned() { |kept| % 4 == 0 }
  }

  ghost predicate Inv(f: Fifo) {
    && f.rd <= f.pub <= |f.kept| && f.rd % 4 == 0 && f.pub % 4 == 0
    && f.Unread() + f.free <= ROOM
  }

  function Put(f: Fifo, bytes: seq<Byte>): Fifo
    requires |bytes| <= f.free
  {
    f.(log := f.log + bytes, kept := f.kept + bytes, free := f.free - |bytes|)
  }

  // The coprocessor reads up to k words of what has been published, at any time.
  function Drain(f: Fifo, k: nat): (g: Fifo)
    ensures Inv(f) ==> Inv(g) && Inv(g.(free := 0))
  {
    f.(rd := if f.rd + 4 * k <= f.pub then f.rd + 4 * k else f.pub)
  }

  // Writing wp & 0xffc to REG_CMD_WRITE makes whole words visible.
  function Publish(f: Fifo): Fifo { f.(pub := |f.kept| - |f.kept| % 4) }

  // One poll: freespace from the read pointer seen now.
  function Refresh(f: Fifo): Fifo
    requires Inv(f.(free := 0))
  {
    f.(free := ROOM - f.Unread())
  }

  // stop() and finish() round wp itself down: bytes past the last word lose their place.
  function Cut(f: Fifo): Fifo {
    Publish(f.(kept := f.kept[..|f.kept| - |f.kept| % 4]))
  }

  // plan: how many words the coprocessor reads before each poll. A plan that runs out
  // is a producer still polling: ok is false.
  datatype Wait = Wait(f: Fifo, ok: bool, plan: seq<nat>)

  function Poll(f: Fifo, n: nat, plan: seq<nat>): (w: Wait)
    requires Inv(f)
    ensures Inv(w.f) && w.f.kept == f.kept && w.f.log == f.log && w.f.pub == f.pub && f.rd <= w.f.rd
    decreases |plan|
  {
    if plan == [] then Wait(f, false, [])
    else
      var g := Refresh(Drain(f, plan[0]));
      if g.free < n then Poll(g, n, plan[1..]) else Wait(g, true, plan[1..])
  }

  function GetFree(f: Fifo, n: nat, plan: seq<nat>): Wait
    requires Inv(f)
  {
    Poll(Publish(f), n, plan)
  }

  // cmdbyte, cmd32 and cmd_n: wait only when the cached room is too small.
  function Emit(f: Fifo, bytes: seq<Byte>, plan: seq<nat>): Wait
    requires Inv(f)
  {
    var w := if f.free < |bytes| then GetFree(f, |bytes|, plan) else Wait(f, true, plan);
    if w.ok && |bytes| <= w.f.free then w.(f := Put(w.f, bytes)) else w.(ok := false)
  }

  // finish(): polls until the read pointer meets the write pointer.
  function Meet(f: Fifo, plan: seq<nat>): (w: Wait)
    requires Inv(f)
    ensures Inv(w.f) && w.f.kept == f.kept && w.f.log == f.log && w.f.pub == f.pub && f.rd <= w.f.rd
    ensures w.ok ==> w.f.rd == |w.f.kept|
    decreases |plan|
  {
    if plan == [] then Wait(f, false, [])
    else
      var g := Drain(f, plan[0]);
      if g.rd == |g.kept| then Wait(g, true, plan[1..]) else Meet(g, plan[1..])
  }

  function Finish(f: Fifo, plan: seq<nat>): Wait
    requires Inv(f)
  {
    Meet(Cut(f), plan)
  }

  datatype Op = OpEmit(bytes: seq<Byte>) | OpDrain(k: nat) | OpFlush | OpFinish | OpStop

  function Do(f: Fifo, op: Op, plan: seq<nat>): Wait
    requires Inv(f)
  {
    match op
    case OpEmit(bytes) => Emit(f, bytes, plan)
    case OpDrain(k) => Wait(Drain(f, k), true, plan)
    case OpFlush => GetFree(f, 0, plan)
    case OpFinish => Finish(f, plan)
    case OpStop => Wait(Cut(f), true, plan)
  }

  // A run goes on until the producer hangs in a poll.
  function Run(f: Fifo, ops: seq<Op>, plan: seq<nat>): (w: Wait)
    requires Inv(f)
    ensures Inv(w.f)
    decreases |ops|
  {
    if ops == [] then Wait(f, true, plan)
    else
      DoKeeps(f, ops[0], plan);
      var w := Do(f, ops[0], plan);
      if w.ok then Run(w.f, ops[1..], w.plan) else w
  }

  const BEGIN := Fifo([], [], 0, 0, ROOM)

  // ---------------------------------------------------------------- lemmas

  lemma PublishKeeps(f: Fifo)
    requires Inv(f)
    ensures Inv(Publish(f)) && Seen(Publish(f)) == Seen(f)
  {
  }

  lemma DrainKeeps(f: Fifo, k: nat)
    requires Inv(f)
    ensures Inv(Drain(f, k))
    ensures Drain(f, k).rd == f.rd + if 4 * k <= f.pub - f.rd then 4 * k else f.pub - f.rd
  {
  }

  lemma CutKeeps(f: Fifo)
    requires Inv(f)
    ensures Inv(Cut(f)) && Seen(Cut(f)) == Seen(f) && Cut(f).kept <= f.kept
    ensures Cut(f).pub == |Cut(f).kept| == |f.kept| - |f.kept| % 4
  {
  }

  lemma DoKeeps(f: Fifo, op: Op, plan: seq<nat>)
    requires Inv(f)
    ensures Inv(Do(f, op, plan).f)
  {
  }

  // Every cut comes when whole words have been emitted; n bytes have been before ops.
  predicate CutsOnWords(n: nat, ops: seq<Op>)
    decreases |ops|
  {
    ops == [] ||
    match ops[0]
    case OpEmit(bytes) => CutsOnWords(n + |bytes|, ops[1..])
    case OpFinish | OpStop => n % 4 == 0 && CutsOnWords(n, ops[1..])
    case _ => CutsOnWords(n, ops[1..])
  }

  // The bytes that ops emit, run to the end.
  function Emitted(ops: seq<Op>): seq<Byte>
    decreases |ops|
  {
    if ops == [] then [] else (if ops[0].OpEmit? then ops[0].bytes else []) + Emitted(ops[1..])
  }

  // What the coprocessor has read so far.
  function Seen(f: Fifo): seq<Byte>
    requires Inv(f)
  {
    f.kept[..f.rd]
  }

  // What a step of the run keeps: the coprocessor's past, and every byte emitted if
  // the stream ends on a word whenever it is cut.
  ghost predicate Continues(f: Fifo, g: Fifo, cut: bool) {
    && Inv(f) && Inv(g) && Seen(f) <= Seen(g)
    && (f.kept == f.log && (cut ==> f.Aligned()) ==> g.kept == g.log)
    && |g.log| - |g.kept| >= |f.log| - |f.kept| + if cut then |f.kept| % 4 else 0
  }

  lemma CutContinues(f: Fifo)
    requires Inv(f)
    ensures Continues(f, Cut(f), true) && Cut(f).log == f.log
  {
    CutKeeps(f);
    if f.Aligned() { assert f.kept[..|f.kept|] == f.kept; }
  }

  lemma WaitContinues(f: Fifo, g: Fifo)
    requires Inv(f) && Inv(g) && f.kept == g.kept && f.log == g.log && f.rd <= g.rd
    ensures Continues(f, g, false)
  {
    assert Seen(g)[..f.rd] == Seen(f);
  }

  lemma PutContinues(f: Fifo, bytes: seq<Byte>)
    requires Inv(f) && |bytes| <= f.free
    ensures Continues(f, Put(f, bytes), false)
  {
    assert (f.kept + bytes)[..f.rd] == f.kept[..f.rd];
  }

  lemma EmitOrder(f: Fifo, bytes: seq<Byte>, plan: seq<nat>)
    requires Inv(f)
    ensures Continues(f, Emit(f, bytes, plan).f, false)
    ensures Emit(f, bytes, plan).f.log == f.log + if Emit(f, bytes, plan).ok then bytes else []
  {
    DoKeeps(f, OpEmit(bytes), plan);
    var w := if f.free < |bytes| then GetFree(f, |bytes|, plan) else Wait(f, true, plan);
    WaitContinues(f, w.f);
    if w.ok && |bytes| <= w.f.free { PutContinues(w.f, bytes); }
    assert f.log + [] == f.log;
  }

  lemma StepOrder(f: Fifo, op: Op, plan: seq<nat>)
    requires Inv(f)
    ensures Continues(f, Do(f, op, plan).f, op.OpFinish? || op.OpStop?)
    ensures Do(f, op, plan).f.log == f.log + if op.OpEmit? && Do(f, op, plan).ok then op.bytes else []
  {
    DoKeeps(f, op, plan);
    var g := Do(f, op, plan).f;
    assert f.log + [] == f.log;
    match op
    case OpEmit(bytes) => EmitOrder(f, bytes, plan);
    case OpFinish =>
      CutContinues(f);
      WaitContinues(Cut(f), g);
    case OpStop => CutContinues(f);
    case _ => WaitContinues(f, g);
  }

  // Over a run the log grows by what is emitted, in order, and nothing read is unread.
  lemma {:induction false} RunLogs(f: Fifo, ops: seq<Op>, plan: seq<nat>)
    requires Inv(f)
    ensures var w := Run(f, ops, plan);
            Seen(f) <= Seen(w.f) && w.f.log <= f.log + Emitted(ops) && (w.ok ==> w.f.log == f.log + Emitted(ops))
    decreases |ops|
  {
    if ops != [] {
      StepOrder(f, ops[0], plan);
      var w := Do(f, ops[0], plan);
      var first := if ops[0].OpEmit? then ops[0].bytes else [];
      assert (f.log + first) + Emitted(ops[1..]) == f.log + Emitted(ops);
      if w.ok { RunLogs(w.f, ops[1..], w.plan); }
    }
  }

  // If every cut comes on a word, no byte is ever dropped; and if a run goes through, only
  // then.
  lemma {:induction false} RunOrder(f: Fifo, ops: seq<Op>, plan: seq<nat>)
    requires Inv(f) && f.kept == f.log
    ensures var w := Run(f, ops, plan);
            && (CutsOnWords(|f.log|, ops) ==> w.f.kept == w.f.log)
            && (w.ok && w.f.kept == w.f.log ==> CutsOnWords(|f.log|, ops))
    decreases |ops|
  {
    if ops != [] {
      StepOrder(f, ops[0], plan);
      var w := Do(f, ops[0], plan);
      if w.ok {
        if w.f.kept == w.f.log {
          RunOrder(w.f, ops[1..], w.plan);
        } else {
          GapStays(w.f, ops[1..], w.plan);
        }
      }
    }
  }

  lemma {:induction false} GapStays(f: Fifo, ops: seq<Op>, plan: seq<nat>)
    requires Inv(f)
    ensures var g := Run(f, ops, plan).f; |g.log| - |g.kept| >= |f.log| - |f.kept|
    decreases |ops|
  {
    if ops != [] {
      StepOrder(f, ops[0], plan);
      var w := Do(f, ops[0], plan);
      if w.ok { GapStays(w.f, ops[1..], w.plan); }
    }
  }

  // Main result: whatever the order of emits and coprocessor reads, the cached room
  // never exceeds the true one and at most 4092 bytes are unread. When every cut comes on
  // a word, the coprocessor has read a prefix of exactly what was emitted; and a run that
  // goes through keeps all bytes only then.
  lemma StreamAlways(ops: seq<Op>, plan: seq<nat>)
    ensures var w := Run(BEGIN, ops, plan);
            && w.f.Unread() <= 4092 && w.f.free <= 4092 - w.f.Unread()
            && w.f.log <= Emitted(ops) && (w.ok ==> w.f.log == Emitted(ops))
            && (CutsOnWords(0, ops) ==> Seen(w.f) <= w.f.log && w.f.kept == w.f.log)
            && (w.ok ==> (w.f.kept == w.f.log <==> CutsOnWords(0, ops)))
  {
    RunOrder(BEGIN, ops, plan);
    RunLogs(BEGIN, ops, plan);
    assert [] + Emitted(ops) == Emitted(ops);
  }

  // finish() returns only with everything emitted so far read, when it began on a word;
  // otherwise it drops the bytes past the last word, never more than three.
  lemma FinishDrains(f: Fifo, plan: seq<nat>)
    requires Inv(f) && f.kept == f.log && Finish(f, plan).ok
    ensures var g := Finish(f, plan).f;
            && g.log == f.log && Seen(g) == f.log[..|f.log| - |f.log| % 4]
            && (Seen(g) == f.log <==> f.Aligned())
  {
    var g := Finish(f, plan).f;
    assert Seen(g) == g.kept;
    assert f.Aligned() ==> f.log[..|f.log|] == f.log;
  }

  // How long a request waits. It can only end when the request and the unpublished
  // bytes of the last word fit in the ring together, and then it does end as soon as
  // the coprocessor catches up.
  lemma {:induction false} PollEnds(f: Fifo, n: nat, plan: seq<nat>)
    requires Inv(f) && f.pub == |f.kept| - |f.kept| % 4
    ensures Poll(f, n, plan).ok ==> n + |f.kept| % 4 <= ROOM && n <= Poll(f, n, plan).f.free
    ensures n + |f.kept| % 4 <= ROOM && (exists i :: 0 <= i < |plan| && plan[i] >= RING) ==> Poll(f, n, plan).ok
    decreases |plan|
  {
    if plan != [] {
      var g := Refresh(Drain(f, plan[0]));
      if g.free < n { PollEnds(g, n, plan[1..]); }
      if g.free < n && exists i :: 0 <= i < |plan| && plan[i] >= RING {
        var i :| 0 <= i < |plan| && plan[i] >= RING;
        if i == 0 {
          assert g.rd == f.pub;
        } else {
          assert plan[1..][i - 1] == plan[i];
        }
      }
    }
  }

  // A request that waits completes under some schedule exactly when it fits beside the
  // partial word before it; a longer one polls forever.
  lemma EmitCompletes(f: Fifo, bytes: seq<Byte>)
    requires Inv(f)
    ensures (exists plan :: Emit(f, bytes, plan).ok) <==>
            |bytes| <= f.free || |bytes| + |f.kept| % 4 <= ROOM
  {
    if |bytes| <= f.free {
      assert Emit(f, bytes, []).ok;
    } else {
      var g := Publish(f);
      if |bytes| + |f.kept| % 4 <= ROOM {
        var plan: seq<nat> := [RING];
        assert plan[0] >= RING;
        PollEnds(g, |bytes|, plan);
        assert Emit(f, bytes, plan).ok;
      }
      forall plan | Emit(f, bytes, plan).ok
        ensures |bytes| + |f.kept| % 4 <= ROOM
      {
        PollEnds(g, |bytes|, plan);
      }
    }
  }

  // After a single byte the whole ring can no longer be asked for: such a request polls
  // for ever, under every schedule.
  lemma WholeRingHangs(bytes: seq<Byte>, plan: seq<nat>)
    requires |bytes| == 4092
    ensures var f := Emit(BEGIN, [0], []).f; Inv(f) && !Emit(f, bytes, plan).ok
  {
    var f := Emit(BEGIN, [0], []).f;
    DoKeeps(BEGIN, OpEmit([0]), []);
    EmitCompletes(f, bytes);
  }
}
