// One TCP connection as seen from the receive side, on values: what every lwIP
// callback and every client read does to the bytes that are waiting.
// The buffer layout (position, capacity, compaction) lives in TcpConnection.
module TcpStream {

  type Byte = x: int | 0 <= x < 256

  // err_t, as far as the callbacks distinguish it.
  datatype Err = ErrOk | ErrClsd | ErrAbrt | ErrArg | ErrInProgress | ErrOther

  // A pbuf chain. Null is the null pointer lwIP passes for a closed connection.
  datatype Pbuf = Null | Node(payload: seq<Byte>, next: Pbuf)

  // All payload bytes of a chain; tot_len is the length of this.
  function Bytes(p: Pbuf): seq<Byte> {
    match p
    case Null => []
    case Node(payload, next) => payload + Bytes(next)
  }

  // Chaining q behind p, as the stack does with a second segment.
  function Chained(p: Pbuf, q: Pbuf): Pbuf {
    match p
    case Null => q
    case Node(payload, next) => Node(payload, Chained(next, q))
  }

  lemma {:induction false} ChainedBytes(p: Pbuf, q: Pbuf)
    ensures Bytes(Chained(p, q)) == Bytes(p) + Bytes(q)
    ensures forall payload :: Bytes(Node(payload, Null)) == payload
    decreases p
  {
    match p
    case Null => assert [] + Bytes(q) == Bytes(q);
    case Node(payload, next) =>
      ChainedBytes(next, q);
      assert payload + (Bytes(next) + Bytes(q)) == payload + Bytes(next) + Bytes(q);
  }

  // lwIP calls back; closeOk is what tcp_close answers when the callback calls it.
  datatype Callback =
    | Recv(p: Pbuf, err: Err, closeOk: bool)
    | Failed(err: Err, closeOk: bool)
    | Connected(err: Err, closeOk: bool)

  // arg: the callbacks still get the holder as their argument.
  // live: the holder has a ConnectionState; buf is its unread part.
  // rest: the unread part of the holder's 'remaining'.
  datatype Conn = Conn(arg: bool, connected: bool, live: bool, buf: seq<Byte>, rest: seq<Byte>) {
    function Unread(): seq<Byte> { buf + rest }

    // Dropping the state runs its destructor, which takes the callback argument away.
    function Dropped(newRest: seq<Byte>): Conn {
      Conn(arg && !live, false, false, [], newRest)
    }
  }

  function OnRecv(c: Conn, cap: nat, p: Pbuf, err: Err): Conn {
    if p.Null? || err != ErrOk then
      c.Dropped(if c.live then c.buf + Bytes(p) else c.rest)
    else if c.live && |c.buf| + |Bytes(p)| <= cap then
      c.(connected := true, buf := c.buf + Bytes(p))
    else
      c.(connected := true)
  }

  function OnFailed(c: Conn, err: Err): Conn {
    if err == ErrOk then c.(connected := true)
    else if c.live then c.Dropped(c.buf)
    else c.(connected := false)
  }

  // A failed connect drops the state without saving its buffer.
  function OnConnected(c: Conn, err: Err): Conn {
    if err == ErrOk then c.(connected := true) else c.Dropped(c.rest)
  }

  function Deliver(c: Conn, cap: nat, cb: Callback): Conn {
    if !c.arg then c else
    match cb
    case Recv(p, err, _) => OnRecv(c, cap, p, err)
    case Failed(err, _) => OnFailed(c, err)
    case Connected(err, _) => OnConnected(c, err)
  }

  // A segment that does not fit is refused; lwIP keeps it and offers it again.
  predicate Refuses(c: Conn, cap: nat, cb: Callback) {
    cb.Recv? && !cb.p.Null? && cb.err == ErrOk && c.live && |c.buf| + |Bytes(cb.p)| > cap
  }

  // The bytes whose receipt the callback acknowledges to lwIP.
  function Taken(c: Conn, cap: nat, cb: Callback): seq<Byte> {
    if c.arg && cb.Recv? && !Refuses(c, cap, cb) then Bytes(cb.p) else []
  }

  // EthernetClass::loop(): the callbacks that happen to run inside it, in order.
  function Loop(c: Conn, cap: nat, cbs: seq<Callback>): Conn
    decreases |cbs|
  {
    if cbs == [] then c else Loop(Deliver(c, cap, cbs[0]), cap, cbs[1..])
  }

  function LoopTaken(c: Conn, cap: nat, cbs: seq<Callback>): seq<Byte>
    decreases |cbs|
  {
    if cbs == [] then []
    else Taken(c, cap, cbs[0]) + LoopTaken(Deliver(c, cap, cbs[0]), cap, cbs[1..])
  }

  // ---------------------------------------------------------------- client

  // What a client call leaves behind: the connection, whether the client still
  // refers to it, and what it returned. Got is what a read handed to its caller.
  datatype Outcome = Outcome(c: Conn, attached: bool, got: seq<Byte>, result: int)

  // The calls that wait for data all start the same way.
  datatype Gate = Saved | Detached | Stateless | Looped(c: Conn)

  function Enter(c: Conn, cap: nat, attached: bool, inner: seq<Callback>): Gate {
    if !attached then Detached
    else if c.rest != [] then Saved
    else if !c.connected then Detached
    else if !c.live then Stateless
    else Looped(Loop(c, cap, inner))
  }

  // read(): one byte, or -1 for none.
  function Read1(c: Conn, cap: nat, attached: bool, inner: seq<Callback>): Outcome {
    match Enter(c, cap, attached, inner)
    case Saved => Outcome(c.(rest := c.rest[1..]), true, c.rest[..1], c.rest[0])
    case Detached => Outcome(c, false, [], -1)
    case Stateless => Outcome(c, true, [0], 0)  // hands out a byte nobody sent
    case Looped(d) =>
      if d.live && d.buf != [] then Outcome(d.(buf := d.buf[1..]), true, d.buf[..1], d.buf[0])
      else Outcome(d, true, [], -1)
  }

  function Min(a: nat, b: nat): nat { if a < b then a else b }

  // read(buf, size): up to size bytes, and how many.
  function ReadN(c: Conn, cap: nat, attached: bool, size: nat, inner: seq<Callback>): Outcome {
    match Enter(c, cap, attached, inner)
    case Saved =>
      var n := Min(size, |c.rest|);
      Outcome(c.(rest := c.rest[n..]), true, c.rest[..n], n)
    case Detached => Outcome(c, false, [], 0)
    case Stateless => Outcome(c, true, [], 0)
    case Looped(d) =>
      if d.live then
        var n := Min(size, |d.buf|);
        Outcome(d.(buf := d.buf[n..]), true, d.buf[..n], n)
      else Outcome(d, true, [], 0)
  }

  // peek(): the next byte without taking it, or -1.
  function Peek(c: Conn, cap: nat, attached: bool, inner: seq<Callback>): Outcome {
    match Enter(c, cap, attached, inner)
    case Saved => Outcome(c, true, [], c.rest[0])
    case Detached => Outcome(c, false, [], -1)
    case Stateless => Outcome(c, true, [], 0)
    case Looped(d) => Outcome(d, true, [], if d.live && d.buf != [] then d.buf[0] else -1)
  }

  // available(): how many bytes a read could hand out now.
  function Available(c: Conn, cap: nat, attached: bool, inner: seq<Callback>): Outcome {
    match Enter(c, cap, attached, inner)
    case Saved => Outcome(c, true, [], |c.rest|)
    case Detached => Outcome(c, false, [], 0)
    case Stateless => Outcome(c, true, [], 0)
    case Looped(d) => Outcome(d, true, [], if d.live then |d.buf| else 0)
  }

  // stop(): the client lets go, whatever is unread; a connected one lets data in first.
  function Stop(c: Conn, cap: nat, attached: bool, inner: seq<Callback>): Outcome {
    Outcome(if attached && c.live && c.connected then Loop(c, cap, inner) else c, false, [], 0)
  }

  // connected(): also true while saved bytes are left; lets data in.
  function IsConnected(c: Conn, cap: nat, attached: bool, inner: seq<Callback>): Outcome {
    if !attached || (!c.connected && c.rest == []) then Outcome(c, false, [], 0)
    else Outcome(Loop(c, cap, inner), true, [], 1)
  }

  // The test "if (client)": false without a connection that is open, whatever is saved;
  // lets go of one that is closed and empty, and lets data into one that is open.
  function IsTrue(c: Conn, cap: nat, attached: bool, inner: seq<Callback>): Outcome {
    if !attached || !c.connected then Outcome(c, attached && c.rest != [], [], 0)
    else Outcome(Loop(c, cap, inner), true, [], 1)
  }

  // ~EthernetClient(): nothing is called, but the reference is gone.
  function Destroyed(c: Conn): Outcome { Outcome(c, false, [], 0) }

  // ---------------------------------------------------------------- runs

  datatype Op =
    | Async(cb: Callback)                       // a callback between client calls
    | OpFound(inner: seq<Callback>)             // accept() finds it, lets things happen, hands it out
    | OpLent(inner: seq<Callback>)              // available() does so without taking it off the list
    | OpRead1(inner: seq<Callback>)
    | OpReadN(size: nat, inner: seq<Callback>)
    | OpPeek(inner: seq<Callback>)
    | OpAvailable(inner: seq<Callback>)
    | OpConnected(inner: seq<Callback>)
    | OpTrue(inner: seq<Callback>)
    | OpStop(inner: seq<Callback>)
    | OpDestroy                                 // the last client object that refers to it dies

  // The two ways to part from a connection whatever is unread.
  predicate Leaves(op: Op) { op.OpStop? || op.OpDestroy? }

  predicate Client(op: Op) { !op.Async? && !op.OpFound? && !op.OpLent? }

  function Do(c: Conn, cap: nat, attached: bool, op: Op): Outcome
    requires Client(op)
  {
    match op
    case OpRead1(inner) => Read1(c, cap, attached, inner)
    case OpReadN(size, inner) => ReadN(c, cap, attached, size, inner)
    case OpPeek(inner) => Peek(c, cap, attached, inner)
    case OpAvailable(inner) => Available(c, cap, attached, inner)
    case OpConnected(inner) => IsConnected(c, cap, attached, inner)
    case OpTrue(inner) => IsTrue(c, cap, attached, inner)
    case OpStop(inner) => Stop(c, cap, attached, inner)
    case OpDestroy => Destroyed(c)
  }

  // Whether a client call gets as far as loop().
  predicate Loops(c: Conn, attached: bool, op: Op)
    requires Client(op)
  {
    match op
    case OpConnected(_) => attached && (c.connected || c.rest != [])
    case OpTrue(_) => attached && c.connected
    case OpStop(_) => attached && c.live && c.connected
    case OpDestroy => false
    case _ => attached && c.rest == [] && c.connected && c.live
  }

  // The callbacks that really run during op: a call that answers early never loops.
  function Runs(c: Conn, attached: bool, op: Op): seq<Callback>
    requires Client(op)
  {
    if Loops(c, attached, op) then op.inner else []
  }

  // The life of one connection. listed: the manager's list refers to the holder. held: a
  // client does. taken: every byte acknowledged to lwIP; got: every byte handed out.
  // stranded: bytes were destroyed that had been acknowledged.
  datatype History = History(c: Conn, listed: bool, held: bool, taken: seq<Byte>, got: seq<Byte>, stranded: bool)

  // A holder that nobody refers to any more is destroyed, and its state with it.
  function Settle(h: History): History {
    if h.listed || h.held then h else h.(c := h.c.Dropped([]))
  }

  // The callback that ends a live connection.
  predicate Ends(cb: Callback) {
    match cb
    case Recv(p, err, _) => p.Null? || err != ErrOk
    case Failed(err, _) => err != ErrOk
    case Connected(err, _) => err != ErrOk
  }

  // It ends a connection that no client holds although there are bytes in it or come with
  // it; or it is a failed connect that finds some.
  predicate Strands(h: History, cb: Callback) {
    && h.c.arg && h.c.live && Ends(cb)
    && if h.held then cb.Connected? && h.c.buf != [] else h.c.buf != [] || (cb.Recv? && Bytes(cb.p) != [])
  }

  // Closing takes the holder off the list.
  function Hear(h: History, cap: nat, cb: Callback): History {
    var d := Deliver(h.c, cap, cb);
    Settle(History(d, h.listed && d.live, h.held, h.taken + Taken(h.c, cap, cb), h.got, h.stranded || Strands(h, cb)))
  }

  function HearAll(h: History, cap: nat, cbs: seq<Callback>): History
    decreases |cbs|
  {
    if cbs == [] then h else HearAll(Hear(h, cap, cbs[0]), cap, cbs[1..])
  }

  // A client that lets go leaves its unread bytes to nobody, unless the list still has the
  // holder.
  function Call(h: History, cap: nat, op: Op): History
    requires Client(op)
  {
    var o, cbs := Do(h.c, cap, h.held, op), Runs(h.c, h.held, op);
    var listed := h.listed && o.c.live;
    Settle(History(o.c, listed, o.attached, h.taken + LoopTaken(h.c, cap, cbs), h.got + o.got,
                   h.stranded || LoopLoses(h.c, cap, cbs) || (!o.attached && !listed && o.c.Unread() != [])))
  }

  function Step(h: History, cap: nat, op: Op): History {
    match op
    case Async(cb) => Hear(h, cap, cb)
    case OpFound(inner) =>
      if h.listed then HearAll(h.(held := true), cap, inner).(listed := false) else HearAll(h, cap, inner)
    case OpLent(inner) => HearAll(if h.listed then h.(held := true) else h, cap, inner)
    case _ => Call(h, cap, op)
  }

  function Run(h: History, cap: nat, ops: seq<Op>): History
    decreases |ops|
  {
    if ops == [] then h else Run(Step(h, cap, ops[0]), cap, ops[1..])
  }

  // acceptFunc starts a connection that is connected and waits on the list for accept();
  // connect() starts an unconnected one and gives it to its client at once.
  function Start(incoming: bool): History {
    History(Conn(true, incoming, true, [], []), true, !incoming, [], [], false)
  }

  // What holds of a connection in every reachable state.
  ghost predicate Inv(c: Conn, cap: nat) {
    && c.arg == c.live
    && (c.connected ==> c.live)
    && (c.live ==> c.rest == [] && |c.buf| <= cap)
    && (!c.live ==> c.buf == [])
    && (c.live && !c.connected ==> c.buf == [])
  }

  // A failed connect that would throw unread bytes away.
  predicate Loses(c: Conn, cb: Callback) {
    c.arg && cb.Connected? && cb.err != ErrOk && c.buf != []
  }

  predicate LoopLoses(c: Conn, cap: nat, cbs: seq<Callback>)
    decreases |cbs|
  {
    cbs != [] && (Loses(c, cbs[0]) || LoopLoses(Deliver(c, cap, cbs[0]), cap, cbs[1..]))
  }

  // ---------------------------------------------------------------- lemmas

  lemma DeliverKeeps(c: Conn, cap: nat, cb: Callback)
    requires Inv(c, cap)
    ensures Inv(Deliver(c, cap, cb), cap)
    ensures var d := Deliver(c, cap, cb);
            if Loses(c, cb) then |d.Unread()| < |c.Unread() + Taken(c, cap, cb)|
            else d.Unread() == c.Unread() + Taken(c, cap, cb)
    ensures Refuses(c, cap, cb) ==> Deliver(c, cap, cb).buf == c.buf
  {
  }

  // Callbacks, in any number and order, append what they take to the unread bytes,
  // and nothing else, exactly when none of them is a losing one.
  lemma {:induction false} LoopKeeps(c: Conn, cap: nat, cbs: seq<Callback>)
    requires Inv(c, cap)
    ensures Inv(Loop(c, cap, cbs), cap)
    ensures var d := Loop(c, cap, cbs);
            var all := c.Unread() + LoopTaken(c, cap, cbs);
            if LoopLoses(c, cap, cbs) then |d.Unread()| < |all| else d.Unread() == all
    decreases |cbs|
  {
    if cbs != [] {
      DeliverKeeps(c, cap, cbs[0]);
      LoopKeeps(Deliver(c, cap, cbs[0]), cap, cbs[1..]);
    }
  }

  // A call that reads leaves exactly the unread bytes behind the ones it hands out.
  lemma ReadKeeps(c: Conn, cap: nat, attached: bool, op: Op)
    requires Inv(c, cap) && (op.OpRead1? || op.OpReadN?)
    ensures var o := Do(c, cap, attached, op);
            && Inv(o.c, cap)
            && o.got + o.c.Unread() == Loop(c, cap, Runs(c, attached, op)).Unread()
  {
    if op.OpRead1? {
      Read1Keeps(c, cap, attached, op.inner);
    } else {
      ReadNKeeps(c, cap, attached, op.size, op.inner);
    }
  }

  lemma Read1Keeps(c: Conn, cap: nat, attached: bool, inner: seq<Callback>)
    requires Inv(c, cap)
    ensures var o := Read1(c, cap, attached, inner);
            && Inv(o.c, cap)
            && o.got + o.c.Unread() == Loop(c, cap, Runs(c, attached, OpRead1(inner))).Unread()
  {
    LoopKeeps(c, cap, inner);
    match Enter(c, cap, attached, inner)
    case Saved => assert c.rest[..1] + c.rest[1..] == c.rest;
    case Looped(d) => if d.live && d.buf != [] { Front(d.buf, d.rest, 1); }
    case _ =>
  }

  lemma ReadNKeeps(c: Conn, cap: nat, attached: bool, size: nat, inner: seq<Callback>)
    requires Inv(c, cap)
    ensures var o := ReadN(c, cap, attached, size, inner);
            && Inv(o.c, cap)
            && o.got + o.c.Unread() == Loop(c, cap, Runs(c, attached, OpReadN(size, inner))).Unread()
  {
    LoopKeeps(c, cap, inner);
    match Enter(c, cap, attached, inner)
    case Saved =>
      var k := Min(size, |c.rest|);
      assert c.rest[..k] + c.rest[k..] == c.rest;
    case Looped(d) => if d.live { Front(d.buf, d.rest, Min(size, |d.buf|)); }
    case _ =>
  }

  lemma Front(buf: seq<Byte>, rest: seq<Byte>, k: nat)
    requires k <= |buf|
    ensures buf[..k] + (buf[k..] + rest) == buf + rest
  {
  }

  // Every other call hands out nothing and changes only what its callbacks change.
  lemma OtherKeeps(c: Conn, cap: nat, attached: bool, op: Op)
    requires Inv(c, cap) && Client(op) && !op.OpRead1? && !op.OpReadN?
    ensures var o := Do(c, cap, attached, op);
            o.got == [] && o.c == Loop(c, cap, Runs(c, attached, op))
  {
  }

  // One client call: what it hands out comes off the front of the unread bytes plus what
  // arrived meanwhile, and the rest stays, in order.
  lemma DoKeeps(c: Conn, cap: nat, attached: bool, op: Op, o: Outcome)
    requires Inv(c, cap) && Client(op) && o == Do(c, cap, attached, op)
    ensures var cbs := Runs(c, attached, op);
            var all := c.Unread() + LoopTaken(c, cap, cbs);
            && Inv(o.c, cap)
            && (if LoopLoses(c, cap, cbs) then |o.got + o.c.Unread()| < |all|
                else o.got + o.c.Unread() == all)
  {
    LoopKeeps(c, cap, Runs(c, attached, op));
    if op.OpRead1? || op.OpReadN? {
      ReadKeeps(c, cap, attached, op);
    } else {
      OtherKeeps(c, cap, attached, op);
      assert o.got + o.c.Unread() == o.c.Unread();
    }
  }

  // A client lets go by itself only when nothing is unread.
  lemma DetachKeeps(c: Conn, cap: nat, op: Op)
    requires Inv(c, cap) && Client(op) && !Leaves(op) && !Do(c, cap, true, op).attached
    ensures Do(c, cap, true, op).c == c && c.Unread() == [] && !c.connected
  {
  }

  // Appending, on plain sequences.
  lemma Append(taken: seq<Byte>, got: seq<Byte>, unread: seq<Byte>,
               more: seq<Byte>, out: seq<Byte>, unread': seq<Byte>)
    requires taken == got + unread && out + unread' == unread + more
    ensures taken + more == (got + out) + unread'
  {
    assert got + out + unread' == got + (out + unread');
    assert got + unread + more == got + (unread + more);
  }

  // The amount by which the bytes taken exceed those handed out or still unread.
  function Missing(h: History): int { |h.taken| - |h.got| - |h.c.Unread()| }

  // What holds of every life: the list has live holders only, a live one is on the list or
  // with a client, and bytes are missing exactly when some were stranded.
  ghost predicate Sound(h: History, cap: nat) {
    && Inv(h.c, cap)
    && (h.listed ==> h.c.live)
    && (h.c.live ==> h.listed || h.held)
    && (!h.held ==> h.c.rest == [])
    && (if h.stranded then Missing(h) > 0 else h.taken == h.got + h.c.Unread())
  }

  lemma HearKeeps(h: History, cap: nat, cb: Callback)
    requires Sound(h, cap)
    ensures Sound(Hear(h, cap, cb), cap) && Hear(h, cap, cb).held == h.held
    ensures Hear(h, cap, cb).c.live == (h.c.live && !Ends(cb))
    ensures Hear(h, cap, cb).listed == (h.listed && Hear(h, cap, cb).c.live)
    ensures h.held ==> Hear(h, cap, cb).c == Deliver(h.c, cap, cb)
  {
    var more := Taken(h.c, cap, cb);
    DeliverKeeps(h.c, cap, cb);
    var d := Deliver(h.c, cap, cb);
    if h.taken == h.got + h.c.Unread() && d.Unread() == h.c.Unread() + more {
      Append(h.taken, h.got, h.c.Unread(), more, [], d.Unread());
      assert h.got + [] == h.got && [] + d.Unread() == d.Unread();
    }
  }

  lemma {:induction false} HearAllKeeps(h: History, cap: nat, cbs: seq<Callback>)
    requires Sound(h, cap)
    ensures Sound(HearAll(h, cap, cbs), cap) && HearAll(h, cap, cbs).held == h.held
    ensures HearAll(h, cap, cbs).listed == (h.listed && HearAll(h, cap, cbs).c.live)
    ensures HearAll(h, cap, cbs).c.live ==> h.c.live
    ensures h.held ==> HearAll(h, cap, cbs).c == Loop(h.c, cap, cbs)
    decreases |cbs|
  {
    if cbs != [] {
      HearKeeps(h, cap, cbs[0]);
      HearAllKeeps(Hear(h, cap, cbs[0]), cap, cbs[1..]);
    }
  }

  lemma CallKeeps(h: History, cap: nat, op: Op)
    requires Sound(h, cap) && Client(op)
    ensures Sound(Call(h, cap, op), cap)
  {
    CallHolds(h, cap, op);
    CallCounts(h, cap, op);
  }

  // Who has the connection after a call,
  lemma CallHolds(h: History, cap: nat, op: Op)
    requires Sound(h, cap) && Client(op)
    ensures var e := Call(h, cap, op);
            && Inv(e.c, cap) && (e.listed ==> e.c.live) && (e.c.live ==> e.listed || e.held)
            && (!e.held ==> e.c.rest == [])
  {
    DoKeeps(h.c, cap, h.held, op, Do(h.c, cap, h.held, op));
  }

  // and where its bytes are.
  lemma CallCounts(h: History, cap: nat, op: Op)
    requires Sound(h, cap) && Client(op)
    ensures var e := Call(h, cap, op);
            if e.stranded then Missing(e) > 0 else e.taken == e.got + e.c.Unread()
  {
    if h.stranded || LoopLoses(h.c, cap, Runs(h.c, h.held, op)) {
      CallMisses(h, cap, op);
    } else {
      CallExact(h, cap, op);
    }
  }

  lemma CallMisses(h: History, cap: nat, op: Op)
    requires Sound(h, cap) && Client(op)
    requires h.stranded || LoopLoses(h.c, cap, Runs(h.c, h.held, op))
    ensures Missing(Call(h, cap, op)) > 0
  {
    DoKeeps(h.c, cap, h.held, op, Do(h.c, cap, h.held, op));
  }

  lemma CallExact(h: History, cap: nat, op: Op)
    requires Sound(h, cap) && Client(op)
    requires !h.stranded && !LoopLoses(h.c, cap, Runs(h.c, h.held, op))
    ensures var e := Call(h, cap, op);
            if e.stranded then Missing(e) > 0 else e.taken == e.got + e.c.Unread()
  {
    var o, more := Do(h.c, cap, h.held, op), LoopTaken(h.c, cap, Runs(h.c, h.held, op));
    DoKeeps(h.c, cap, h.held, op, o);
    if h.held && !o.attached && !Leaves(op) { DetachKeeps(h.c, cap, op); }
    Append(h.taken, h.got, h.c.Unread(), more, o.got, o.c.Unread());
  }

  lemma StepKeeps(h: History, cap: nat, op: Op)
    requires Sound(h, cap)
    ensures Sound(Step(h, cap, op), cap)
  {
    match op
    case Async(cb) => HearKeeps(h, cap, cb);
    case OpFound(inner) => HearAllKeeps(if h.listed then h.(held := true) else h, cap, inner);
    case OpLent(inner) => HearAllKeeps(if h.listed then h.(held := true) else h, cap, inner);
    case _ => CallKeeps(h, cap, op);
  }

  // Conservation over every run: what was handed out followed by what is unread is what
  // was taken, if and only if nothing was ever stranded; and a gap never closes.
  lemma {:induction false} RunKeeps(h: History, cap: nat, ops: seq<Op>)
    requires Sound(h, cap)
    ensures Sound(Run(h, cap, ops), cap)
    ensures h.stranded ==> Run(h, cap, ops).stranded
    decreases |ops|
  {
    if ops != [] {
      StepKeeps(h, cap, ops[0]);
      StrandedStays(h, cap, ops[0]);
      RunKeeps(Step(h, cap, ops[0]), cap, ops[1..]);
    }
  }

  lemma {:induction false} RunAppend(h: History, cap: nat, a: seq<Op>, b: seq<Op>)
    ensures Run(h, cap, a + b) == Run(Run(h, cap, a), cap, b)
    decreases |a|
  {
    if a == [] {
      assert a + b == b;
    } else {
      assert (a + b)[1..] == a[1..] + b;
      RunAppend(Step(h, cap, a[0]), cap, a[1..], b);
    }
  }

  lemma {:induction false} HearAllStays(h: History, cap: nat, cbs: seq<Callback>)
    ensures h.stranded ==> HearAll(h, cap, cbs).stranded
    decreases |cbs|
  {
    if cbs != [] { HearAllStays(Hear(h, cap, cbs[0]), cap, cbs[1..]); }
  }

  lemma StrandedStays(h: History, cap: nat, op: Op)
    ensures h.stranded ==> Step(h, cap, op).stranded
  {
    if op.OpFound? || op.OpLent? { HearAllStays(if h.listed then h.(held := true) else h, cap, op.inner); }
  }

  // Main result, from the birth of a connection of either kind: over every interleaving of
  // callbacks, accepts and client calls, the client has received exactly the acknowledged
  // bytes, in order, up to the ones still unread, if and only if nothing was stranded; if
  // something was, bytes are missing for good; and the live buffer never outgrows its
  // capacity.
  lemma FifoRefinement(incoming: bool, cap: nat, ops: seq<Op>)
    ensures var e := Run(Start(incoming), cap, ops);
            && (e.taken == e.got + e.c.Unread() <==> !e.stranded)
            && (e.stranded ==> |e.taken| > |e.got| + |e.c.Unread()|)
            && (e.c.live ==> |e.c.buf| <= cap)
            && (e.c.connected ==> e.c.live)
            && (e.c.rest != [] ==> !e.c.live && !e.c.connected)
  {
    RunKeeps(Start(incoming), cap, ops);
  }

  // ------------------------------------------------------- what a loss takes, exactly

  // The callbacks that reach a connection in a client's hands during op.
  function Within(h: History, op: Op): seq<Callback> {
    match op
    case Async(cb) => if h.held then [cb] else []
    case OpFound(inner) => if h.listed || h.held then inner else []
    case OpLent(inner) => if h.listed || h.held then inner else []
    case _ => Runs(h.c, h.held, op)
  }

  // A callback ends a connection that no client holds, and that has bytes or gets some
  // with it.
  predicate ClosesUnheld(h: History, op: Op) {
    && op.Async? && !h.held && h.c.live && Ends(op.cb)
    && (h.c.buf != [] || (op.cb.Recv? && Bytes(op.cb.p) != []))
  }

  // A client stops or dies with bytes unread, also those that came in while it stopped,
  // when the list does not refer to the connection.
  predicate LetsGo(h: History, cap: nat, op: Op) {
    && Leaves(op) && h.held
    && var d := Loop(h.c, cap, Runs(h.c, true, op));
       d.Unread() != [] && !(h.listed && d.live)
  }

  // The third way is a failed connect on a connection with unread bytes.
  predicate Loss(h: History, cap: nat, op: Op) {
    ClosesUnheld(h, op) || LetsGo(h, cap, op) || LoopLoses(h.c, cap, Within(h, op))
  }

  predicate LossIn(h: History, cap: nat, ops: seq<Op>)
    decreases |ops|
  {
    ops != [] && (Loss(h, cap, ops[0]) || LossIn(Step(h, cap, ops[0]), cap, ops[1..]))
  }

  lemma {:induction false} HeldLoses(h: History, cap: nat, cbs: seq<Callback>)
    requires Sound(h, cap) && h.held
    ensures HearAll(h, cap, cbs).stranded <==> h.stranded || LoopLoses(h.c, cap, cbs)
    decreases |cbs|
  {
    if cbs != [] {
      HearKeeps(h, cap, cbs[0]);
      HeldLoses(Hear(h, cap, cbs[0]), cap, cbs[1..]);
    }
  }

  lemma {:induction false} DeadHears(h: History, cap: nat, cbs: seq<Callback>)
    requires Sound(h, cap) && !h.c.live
    ensures HearAll(h, cap, cbs).stranded == h.stranded
    decreases |cbs|
  {
    if cbs != [] {
      HearKeeps(h, cap, cbs[0]);
      DeadHears(Hear(h, cap, cbs[0]), cap, cbs[1..]);
    }
  }

  lemma AsyncLoses(h: History, cap: nat, cb: Callback)
    requires Sound(h, cap) && !h.stranded
    ensures Hear(h, cap, cb).stranded <==> Loss(h, cap, Async(cb))
  {
    assert [cb][1..] == [];
    assert LoopLoses(h.c, cap, [cb]) <==> Loses(h.c, cb);
  }

  lemma CallLoses(h: History, cap: nat, op: Op)
    requires Sound(h, cap) && !h.stranded && Client(op)
    ensures Call(h, cap, op).stranded <==> Loss(h, cap, op)
  {
    var o := Do(h.c, cap, h.held, op);
    if h.held && !o.attached && !Leaves(op) { DetachKeeps(h.c, cap, op); }
  }

  lemma OneLoses(h: History, cap: nat, op: Op)
    requires Sound(h, cap) && !h.stranded
    ensures Step(h, cap, op).stranded <==> Loss(h, cap, op)
  {
    if op.Async? {
      AsyncLoses(h, cap, op.cb);
    } else if op.OpFound? || op.OpLent? {
      var g := if h.listed then h.(held := true) else h;
      if g.held { HeldLoses(g, cap, op.inner); } else { DeadHears(g, cap, op.inner); }
    } else {
      CallLoses(h, cap, op);
    }
  }

  // Main result: over every run whatever, what was handed out followed by what is unread is
  // what was acknowledged if and only if no step loses bytes in one of the three ways: a
  // connection that closes with bytes while no client holds it, a client that lets go of
  // the last reference with bytes unread, a failed connect that finds some.
  lemma {:induction false} ConservedExactly(h: History, cap: nat, ops: seq<Op>)
    requires Sound(h, cap) && !h.stranded
    ensures var e := Run(h, cap, ops);
            && (e.stranded <==> LossIn(h, cap, ops))
            && (e.taken == e.got + e.c.Unread() <==> !LossIn(h, cap, ops))
    decreases |ops|
  {
    RunKeeps(h, cap, ops);
    if ops != [] {
      StepKeeps(h, cap, ops[0]);
      OneLoses(h, cap, ops[0]);
      var g := Step(h, cap, ops[0]);
      if g.stranded {
        RunKeeps(g, cap, ops[1..]);
      } else {
        ConservedExactly(g, cap, ops[1..]);
      }
    }
  }

  // ------------------------------------------------- what the stack really does

  // The stack of this repository passes no other error to a connect callback.
  predicate ConnectsOk(cbs: seq<Callback>) { forall cb :: cb in cbs && cb.Connected? ==> cb.err == ErrOk }

  predicate Ordinary(op: Op) {
    ConnectsOk(match op case Async(cb) => [cb] case OpDestroy => [] case _ => op.inner)
  }

  lemma {:induction false} OkLoses(c: Conn, cap: nat, cbs: seq<Callback>)
    requires ConnectsOk(cbs)
    ensures !LoopLoses(c, cap, cbs)
    decreases |cbs|
  {
    if cbs != [] {
      assert cbs[0] in cbs;
      OkLoses(Deliver(c, cap, cbs[0]), cap, cbs[1..]);
    }
  }

  // So the third way to lose bytes is never taken.
  lemma OrdinaryLoss(h: History, cap: nat, op: Op)
    requires Ordinary(op)
    ensures Loss(h, cap, op) <==> ClosesUnheld(h, op) || LetsGo(h, cap, op)
  {
    OkLoses(h.c, cap, Within(h, op));
  }

  predicate LostIn(h: History, cap: nat, ops: seq<Op>)
    decreases |ops|
  {
    ops != [] &&
    (ClosesUnheld(h, ops[0]) || LetsGo(h, cap, ops[0]) || LostIn(Step(h, cap, ops[0]), cap, ops[1..]))
  }

  // Bytes are lost exactly when a connection closes with bytes while no client holds it, or
  // a client lets go of the last reference with bytes unread.
  lemma StrandedExactly(h: History, cap: nat, ops: seq<Op>)
    requires Sound(h, cap) && !h.stranded && forall op :: op in ops ==> Ordinary(op)
    ensures var e := Run(h, cap, ops);
            && (e.stranded <==> LostIn(h, cap, ops))
            && (e.taken == e.got + e.c.Unread() <==> !LostIn(h, cap, ops))
  {
    ConservedExactly(h, cap, ops);
    OrdinaryLossIn(h, cap, ops);
  }

  lemma {:induction false} OrdinaryLossIn(h: History, cap: nat, ops: seq<Op>)
    requires forall op :: op in ops ==> Ordinary(op)
    ensures LossIn(h, cap, ops) <==> LostIn(h, cap, ops)
    decreases |ops|
  {
    if ops != [] {
      assert ops[0] in ops;
      OrdinaryLoss(h, cap, ops[0]);
      OrdinaryLossIn(Step(h, cap, ops[0]), cap, ops[1..]);
    }
  }

  // The callback that ends a connection waiting on the list strands its bytes exactly when
  // there are some, and takes it off the list.
  lemma WaitingStrands(h: History, cap: nat, cb: Callback)
    requires Sound(h, cap) && !h.stranded && h.listed && !h.held && Ends(cb)
    ensures Hear(h, cap, cb).stranded <==> h.c.buf != [] || (cb.Recv? && Bytes(cb.p) != [])
    ensures Hear(h, cap, cb).c.Unread() == [] && !Hear(h, cap, cb).listed
  {
  }

  // A connection that a client holds, and that is open if it is live; or one that is over.
  ghost predicate InHand(h: History, cap: nat) {
    Sound(h, cap) && !h.stranded && (h.c.live ==> h.held && h.c.connected)
  }

  predicate LetsGoIn(h: History, cap: nat, ops: seq<Op>)
    decreases |ops|
  {
    ops != [] && (LetsGo(h, cap, ops[0]) || LetsGoIn(Step(h, cap, ops[0]), cap, ops[1..]))
  }

  lemma HearInHand(h: History, cap: nat, cb: Callback)
    requires InHand(h, cap) && (cb.Connected? ==> cb.err == ErrOk)
    ensures InHand(Hear(h, cap, cb), cap)
  {
    HearKeeps(h, cap, cb);
  }

  lemma {:induction false} HearAllInHand(h: History, cap: nat, cbs: seq<Callback>)
    requires InHand(h, cap) && ConnectsOk(cbs)
    ensures InHand(HearAll(h, cap, cbs), cap) && (HearAll(h, cap, cbs).listed ==> h.listed)
    decreases |cbs|
  {
    if cbs != [] {
      assert cbs[0] in cbs;
      HearInHand(h, cap, cbs[0]);
      HearAllInHand(Hear(h, cap, cbs[0]), cap, cbs[1..]);
    }
  }

  lemma {:induction false} LoopOk(c: Conn, cap: nat, cbs: seq<Callback>)
    requires Inv(c, cap) && ConnectsOk(cbs) && (c.live ==> c.connected)
    ensures !LoopLoses(c, cap, cbs) && (Loop(c, cap, cbs).live ==> Loop(c, cap, cbs).connected)
    decreases |cbs|
  {
    if cbs != [] {
      assert cbs[0] in cbs;
      DeliverKeeps(c, cap, cbs[0]);
      LoopOk(Deliver(c, cap, cbs[0]), cap, cbs[1..]);
    }
  }

  lemma CallInHand(h: History, cap: nat, op: Op)
    requires InHand(h, cap) && Client(op) && Ordinary(op) && !LetsGo(h, cap, op) && !(h.listed && Leaves(op))
    ensures InHand(Call(h, cap, op), cap)
  {
    CallKeeps(h, cap, op);
    CallLoses(h, cap, op);
    OrdinaryLoss(h, cap, op);
    LoopOk(h.c, cap, Runs(h.c, h.held, op));
    var o := Do(h.c, cap, h.held, op);
    if h.held && !o.attached && !Leaves(op) { DetachKeeps(h.c, cap, op); }
  }

  lemma StepInHand(h: History, cap: nat, op: Op)
    requires InHand(h, cap) && Ordinary(op) && !LetsGo(h, cap, op) && !(h.listed && Leaves(op))
    ensures InHand(Step(h, cap, op), cap) && (Step(h, cap, op).listed ==> h.listed)
  {
    if op.Async? {
      assert op.cb in [op.cb];
      HearInHand(h, cap, op.cb);
    } else if op.OpFound? || op.OpLent? {
      HearAllInHand(if h.listed then h.(held := true) else h, cap, op.inner);
    } else {
      CallInHand(h, cap, op);
    }
  }

  // Once a client holds an open connection, what it gets followed by what is unread is
  // what was acknowledged, whatever happens, if and only if no client lets go of it with
  // bytes unread. While the list refers to it too, no client may part from it at all:
  // then it would be waiting again.
  lemma {:induction false} InHandConserves(h: History, cap: nat, ops: seq<Op>)
    requires InHand(h, cap) && forall op :: op in ops ==> Ordinary(op) && !(h.listed && Leaves(op))
    ensures var e := Run(h, cap, ops); e.taken == e.got + e.c.Unread() <==> !LetsGoIn(h, cap, ops)
    decreases |ops|
  {
    if ops != [] {
      var op := ops[0];
      assert op in ops && Ordinary(op);
      if LetsGo(h, cap, op) {
        ConservedExactly(h, cap, ops);
      } else {
        StepInHand(h, cap, op);
        InHandConserves(Step(h, cap, op), cap, ops[1..]);
      }
    }
  }

  // accept() and available() put a connection in hand if they find it in time, even one that
  // closes during the call.
  lemma FoundInHand(h: History, cap: nat, inner: seq<Callback>)
    requires Sound(h, cap) && !h.stranded && h.listed && h.c.connected && ConnectsOk(inner)
    ensures InHand(Step(h, cap, OpFound(inner)), cap) && InHand(Step(h, cap, OpLent(inner)), cap)
  {
    HearAllInHand(h.(held := true), cap, inner);
  }

  // The test "if (client)" answers false, without letting go, exactly when the connection
  // is closed and bytes are saved; the client that then dies loses them.
  lemma FalseThoughSaved(h: History, cap: nat, inner: seq<Callback>)
    requires Sound(h, cap) && !h.stranded && h.held
    ensures var o := IsTrue(h.c, cap, true, inner);
            && (o.result == 1 <==> h.c.connected)
            && (o.result == 0 && o.attached <==> h.c.rest != [])
            && (o.result == 0 && o.attached ==> Step(h, cap, OpTrue(inner)) == h)
    ensures h.c.rest != [] ==> LetsGo(h, cap, OpDestroy) && IsConnected(h.c, cap, true, inner).result == 1
  {
    if !h.c.connected {
      assert h.taken + [] == h.taken && h.got + [] == h.got;
    }
  }

  // connected() answers 1 exactly while the client has a connection that is open or has
  // unread bytes, and keeps it then; otherwise it answers 0 and lets go. The boolean test
  // lets go of the same connections but is true of the open ones only.
  lemma ConnectedAnswers(c: Conn, cap: nat, attached: bool, inner: seq<Callback>)
    requires Inv(c, cap)
    ensures var o := IsConnected(c, cap, attached, inner);
            && o.result == (if attached && (c.connected || c.Unread() != []) then 1 else 0)
            && (o.attached <==> o.result == 1)
            && o.c == if o.result == 1 then Loop(c, cap, inner) else c
    ensures var o := IsTrue(c, cap, attached, inner);
            && o.result == (if attached && c.connected then 1 else 0)
            && o.attached == IsConnected(c, cap, attached, inner).attached
            && o.c == if o.result == 1 then Loop(c, cap, inner) else c
  {
  }

  // Which calls let callbacks in: those of a client with an open connection, and connected()
  // also while bytes are saved. Only stop and destruction let go of an open connection, and
  // they always do.
  lemma LoopsWhenOpen(c: Conn, cap: nat, attached: bool, op: Op)
    requires Inv(c, cap) && Client(op)
    ensures Loops(c, attached, op) <==>
            && attached && !op.OpDestroy?
            && (c.connected || (op.OpConnected? && c.Unread() != []))
    ensures Leaves(op) ==> !Do(c, cap, attached, op).attached
    ensures attached && c.connected && !Leaves(op) ==> Do(c, cap, attached, op).attached
  {
  }

  // A connection is open after callbacks that reach it exactly when it was open or any came,
  // and none of them ended it: an outgoing one opens with the first.
  lemma {:induction false} LoopOpens(c: Conn, cap: nat, cbs: seq<Callback>)
    requires Inv(c, cap) && c.live
    ensures Loop(c, cap, cbs).connected <==>
            (c.connected || cbs != []) && forall k :: 0 <= k < |cbs| ==> !Ends(cbs[k])
    decreases |cbs|
  {
    if cbs != [] {
      var d := Deliver(c, cap, cbs[0]);
      DeliverKeeps(c, cap, cbs[0]);
      if Ends(cbs[0]) {
        LoopDead(d, cap, cbs[1..]);
      } else {
        LoopOpens(d, cap, cbs[1..]);
        assert forall k :: 0 < k < |cbs| ==> cbs[k] == cbs[1..][k - 1];
      }
    }
  }

  // An incoming connection is open from birth, an outgoing one from its first callback, until
  // a callback ends it.
  lemma BornOpen(incoming: bool, cap: nat, cbs: seq<Callback>)
    ensures Loop(Start(incoming).c, cap, cbs).connected <==>
            (incoming || cbs != []) && forall k :: 0 <= k < |cbs| ==> !Ends(cbs[k])
    ensures Start(incoming).listed && (Start(incoming).held <==> !incoming)
  {
    LoopOpens(Start(incoming).c, cap, cbs);
  }

  lemma {:induction false} LoopDead(c: Conn, cap: nat, cbs: seq<Callback>)
    requires Inv(c, cap) && !c.live
    ensures Loop(c, cap, cbs) == c
    decreases |cbs|
  {
    if cbs != [] { LoopDead(c, cap, cbs[1..]); }
  }

  // ------------------------------------------------------------------ the answers

  lemma {:induction false} HearAllExtends(h: History, cap: nat, cbs: seq<Callback>)
    ensures h.taken <= HearAll(h, cap, cbs).taken && HearAll(h, cap, cbs).got == h.got
    decreases |cbs|
  {
    if cbs != [] { HearAllExtends(Hear(h, cap, cbs[0]), cap, cbs[1..]); }
  }

  lemma {:induction false} RunExtends(h: History, cap: nat, ops: seq<Op>)
    ensures h.taken <= Run(h, cap, ops).taken && h.got <= Run(h, cap, ops).got
    decreases |ops|
  {
    if ops != [] {
      var op := ops[0];
      if op.OpFound? || op.OpLent? { HearAllExtends(if h.listed then h.(held := true) else h, cap, op.inner); }
      RunExtends(Step(h, cap, op), cap, ops[1..]);
    }
  }

  // What the calls answer. A connection that closes inside the call's own loop answers
  // "nothing" although its bytes were saved; otherwise the answers are exact, and the
  // phantom byte of the stateless branch is never handed out.
  lemma Answers(c: Conn, cap: nat, inner: seq<Callback>, size: nat)
    requires Inv(c, cap)
    ensures !Enter(c, cap, true, inner).Stateless?
    ensures var o := Available(c, cap, true, inner);
            o.result == if c.live && !o.c.live then 0 else |o.c.Unread()|
    ensures var o := Peek(c, cap, true, inner);
            o.result == if o.c.Unread() == [] || (c.live && !o.c.live) then -1 else o.c.Unread()[0]
    ensures var o := Read1(c, cap, true, inner);
            && (o.result >= 0 <==> |o.got| == 1) && (o.result < 0 <==> o.got == [])
            && (o.got != [] ==> o.got == [o.result])
            && (o.got == [] ==> o.c.Unread() == [] || (c.live && !o.c.live))
    ensures var o := ReadN(c, cap, true, size, inner);
            && o.result == |o.got| <= size
            && (|o.got| < size ==> o.c.Unread() == [] || (c.live && !o.c.live))
  {
    LoopKeeps(c, cap, inner);
  }

  // Without an open connection or saved bytes the client has nothing: the answers say so, it
  // lets go, and nothing changes.
  lemma NothingAnswers(c: Conn, cap: nat, attached: bool, inner: seq<Callback>, size: nat)
    requires Inv(c, cap) && !(attached && (c.connected || c.Unread() != []))
    ensures Read1(c, cap, attached, inner) == Peek(c, cap, attached, inner) == Outcome(c, false, [], -1)
    ensures ReadN(c, cap, attached, size, inner) == Available(c, cap, attached, inner) == Outcome(c, false, [], 0)
  {
  }

  // A byte that peek shows is the next one handed out, whatever happens in between.
  lemma PeekPredicts(h: History, cap: nat, inner: seq<Callback>, ops: seq<Op>)
    requires Sound(h, cap) && !h.stranded
    requires h.held && Peek(h.c, cap, true, inner).result >= 0
    ensures var p := Step(h, cap, OpPeek(inner));
            var e := Run(p, cap, ops);
            && p.got == h.got
            && (!e.stranded && |e.got| > |h.got| ==> e.got[|h.got|] == Peek(h.c, cap, true, inner).result)
  {
    var p := PeekLeaves(h, cap, inner);
    var e := Run(p, cap, ops);
    RunKeeps(p, cap, ops);
    RunExtends(p, cap, ops);
    if !e.stranded && |e.got| > |h.got| {
      FirstUnread(p.taken, p.got, p.c.Unread(), e.taken, e.got, e.c.Unread());
    }
  }

  lemma PeekLeaves(h: History, cap: nat, inner: seq<Callback>) returns (p: History)
    requires Sound(h, cap) && h.held && Peek(h.c, cap, true, inner).result >= 0
    ensures p == Step(h, cap, OpPeek(inner)) && Sound(p, cap) && p.got == h.got
    ensures p.c.Unread() != [] && p.c.Unread()[0] == Peek(h.c, cap, true, inner).result
  {
    p := Step(h, cap, OpPeek(inner));
    Answers(h.c, cap, inner, 0);
    CallKeeps(h, cap, OpPeek(inner));
  }

  // The first unread byte is the next one to be got, on plain sequences.
  lemma FirstUnread(taken: seq<Byte>, got: seq<Byte>, unread: seq<Byte>,
                    taken': seq<Byte>, got': seq<Byte>, unread': seq<Byte>)
    requires taken == got + unread && taken' == got' + unread'
    requires taken <= taken' && got <= got' && |got| < |got'| && unread != []
    ensures got'[|got|] == unread[0]
  {
    assert taken'[|got|] == got'[|got|] && taken[|got|] == unread[0];
  }

  // Bytes saved at close are not stranded: reading them one by one hands out all of
  // them, and the read after the last one lets go of the connection.
  lemma {:induction false} DrainAfterClose(h: History, cap: nat, calls: seq<Op>)
    requires Inv(h.c, cap) && !h.c.live && h.held
    requires |calls| == |h.c.rest| && forall i :: 0 <= i < |calls| ==> calls[i].OpRead1?
    ensures var e := Run(h, cap, calls);
            && e.got == h.got + h.c.rest && e.taken == h.taken && e.c.rest == []
            && e.held && !Read1(e.c, cap, true, []).attached
    ensures IsConnected(h.c, cap, true, []).result == if calls == [] then 0 else 1
    decreases |calls|
  {
    if calls != [] {
      var h' := Step(h, cap, calls[0]);
      assert Runs(h.c, true, calls[0]) == [] && LoopTaken(h.c, cap, []) == [];
      DrainAfterClose(h', cap, calls[1..]);
      assert h.got + h.c.rest[..1] + h.c.rest[1..] == h.got + h.c.rest;
    }
  }

  // The error branch of the connect callback, were it ever taken on an open connection,
  // would throw its unread bytes away.
  lemma FailedConnectStrands(h: History, cap: nat, err: Err, closeOk: bool)
    requires Sound(h, cap) && !h.stranded && h.held && h.c.live && err != ErrOk
    ensures Hear(h, cap, Connected(err, closeOk)).stranded <==> h.c.buf != []
    ensures Hear(h, cap, Failed(err, closeOk)).stranded <==> false
  {
  }
}
