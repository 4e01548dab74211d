// All connections together: the manager's list and the life of every connection, driven by
// callbacks, by accept() and by client calls, each of which lets other callbacks in.
module TcpSystem {
  import opened Options
  import opened TcpStream
  import R = Registry

  // lives has an entry for every connection there ever was.
  datatype System<T(==)> = System(reg: R.Reg<T>, lives: map<T, History>)

  datatype Event<T> = On(t: T, cb: Callback) | Incoming(t: T)

  // A call carries no callbacks of its own; they come with the step.
  datatype Step<!T> =
    | Happens(e: Event<T>)
    | Connects(t: T)
    | Accepts(onPort: T -> bool, inner: seq<Event<T>>)
    | Lends(onPort: T -> bool, inner: seq<Event<T>>)
    | Calls(t: T, call: Op, inner: seq<Event<T>>)

  function Begin<T>(): System<T> { System(R.Reg({}, {}, {}, [], []), map[]) }

  // The registry sees a life end.
  function Seen<T>(reg: R.Reg<T>, t: T, h: History, h': History): R.Reg<T> {
    if h.c.live && !h'.c.live then R.OnClose(reg, t) else reg
  }

  function Live<T>(s: System<T>, t: T, h: History): System<T>
    requires t in s.lives
  {
    System(Seen(s.reg, t, s.lives[t], h), s.lives[t := h])
  }

  function Opened<T>(s: System<T>, t: T, incoming: bool): System<T> {
    if t in s.lives then s else System(R.OnOpen(s.reg, t), s.lives[t := Start(incoming)])
  }

  function Happen<T>(s: System<T>, cap: nat, e: Event<T>): System<T> {
    match e
    case On(t, cb) => if t in s.lives then Live(s, t, Hear(s.lives[t], cap, cb)) else s
    case Incoming(t) => Opened(s, t, true)
  }

  function Loop<T>(s: System<T>, cap: nat, es: seq<Event<T>>): System<T>
    decreases |es|
  {
    if es == [] then s else Loop(Happen(s, cap, es[0]), cap, es[1..])
  }

  // The callbacks among events that concern t.
  function Mine<T(==)>(es: seq<Event<T>>, t: T): seq<Callback> {
    if es == [] then []
    else (if es[0].On? && es[0].t == t then [es[0].cb] else []) + Mine(es[1..], t)
  }

  // The connection a server call has found is held while other things happen.
  function Holding<T>(s: System<T>, cap: nat, t: T, inner: seq<Event<T>>): System<T>
    requires t in s.lives
  {
    Loop(s.(lives := s.lives[t := s.lives[t].(held := true)]), cap, inner)
  }

  // accept(): the connection it finds is off the list at the end.
  function Accept<T>(s: System<T>, cap: nat, onPort: T -> bool, inner: seq<Event<T>>): System<T> {
    match R.Find(s.reg.list, s.reg.live, onPort)
    case None => Loop(s, cap, inner)
    case Some(t) =>
      if t !in s.lives then s
      else
        var s1 := Holding(s, cap, t, inner);
        if t !in s1.lives then s1
        else System(R.Remove(s1.reg, t).(out := s1.reg.out + [t]), s1.lives[t := s1.lives[t].(listed := false)])
  }

  // The live connections that have bytes waiting in their buffer.
  function WithData<T>(s: System<T>): set<T> {
    set t | t in s.reg.live && t in s.lives && s.lives[t].c.buf != []
  }

  // available(): the first connection with bytes waiting is lent to a client and stays on
  // the list.
  function Lend<T>(s: System<T>, cap: nat, onPort: T -> bool, inner: seq<Event<T>>): System<T> {
    match R.Find(s.reg.list, WithData(s), onPort)
    case None => Loop(s, cap, inner)
    case Some(t) => if t in s.lives then Holding(s, cap, t, inner) else s
  }

  function With(call: Op, cbs: seq<Callback>): Op
    requires Client(call)
  {
    match call
    case OpRead1(_) => OpRead1(cbs)
    case OpReadN(n, _) => OpReadN(n, cbs)
    case OpPeek(_) => OpPeek(cbs)
    case OpAvailable(_) => OpAvailable(cbs)
    case OpConnected(_) => OpConnected(cbs)
    case OpTrue(_) => OpTrue(cbs)
    case OpStop(_) => OpStop(cbs)
    case OpDestroy => OpDestroy
  }

  // A client call on t: the others see what its loop() lets in, and t the whole call.
  function CallOn<T>(s: System<T>, cap: nat, t: T, call: Op, inner: seq<Event<T>>): System<T> {
    if !Client(call) || t !in s.lives || !s.lives[t].held then s
    else
      var h, op := s.lives[t], With(call, Mine(inner, t));
      var s1 := if Loops(h.c, true, call) then Loop(s, cap, inner) else s;
      if t in s1.lives then Live(s1, t, Call(h, cap, op)) else s1
  }

  function Do<T>(s: System<T>, cap: nat, step: Step<T>): System<T> {
    match step
    case Happens(e) => Happen(s, cap, e)
    case Connects(t) => Opened(s, t, false)
    case Accepts(onPort, inner) => Accept(s, cap, onPort, inner)
    case Lends(onPort, inner) => Lend(s, cap, onPort, inner)
    case Calls(t, call, inner) => CallOn(s, cap, t, call, inner)
  }

  function Run<T>(s: System<T>, cap: nat, steps: seq<Step<T>>): System<T>
    decreases |steps|
  {
    if steps == [] then s else Run(Do(s, cap, steps[0]), cap, steps[1..])
  }

  // ----------------------------------------------------------------------- lemmas

  // Registry and lives tell the same story.
  ghost predicate Agree<T(!new)>(s: System<T>, cap: nat, t: T)
    requires t in s.lives
  {
    && Sound(s.lives[t], cap)
    && (t in s.reg.list <==> s.lives[t].listed)
    && (t in s.reg.live <==> s.lives[t].c.live)
  }

  ghost predicate Inv<T(!new)>(s: System<T>, cap: nat) {
    && R.Inv(s.reg) && s.reg.known == s.lives.Keys
    && forall t :: t in s.lives ==> Agree(s, cap, t)
  }

  lemma OpenedKeeps<T(!new)>(s: System<T>, cap: nat, t: T, incoming: bool)
    requires Inv(s, cap)
    ensures Inv(Opened(s, t, incoming), cap)
  {
    R.ApplyKeeps(s.reg, R.Open(t));
    var s' := Opened(s, t, incoming);
    forall u | u in s'.lives ensures Agree(s', cap, u) {
      if u != t { assert Agree(s, cap, u); }
    }
  }

  // A life goes on: closing takes it off the list, and nothing else does.
  lemma LiveKeeps<T(!new)>(s: System<T>, cap: nat, t: T, h: History)
    requires Inv(s, cap) && t in s.lives && Sound(h, cap)
    requires h.listed == (s.lives[t].listed && h.c.live) && (h.c.live ==> s.lives[t].c.live)
    ensures Inv(Live(s, t, h), cap)
    ensures forall u :: u in s.lives && u != t ==> Live(s, t, h).lives[u] == s.lives[u]
  {
    R.ApplyKeeps(s.reg, R.Close(t));
    R.EraseOnce(s.reg.list, t);
    var s' := Live(s, t, h);
    assert Agree(s, cap, t);
    forall u | u in s'.lives ensures Agree(s', cap, u) {
      if u != t { assert Agree(s, cap, u); }
    }
  }

  lemma HappenKeeps<T(!new)>(s: System<T>, cap: nat, e: Event<T>)
    requires Inv(s, cap)
    ensures Inv(Happen(s, cap, e), cap)
    ensures s.lives.Keys <= Happen(s, cap, e).lives.Keys && Happen(s, cap, e).reg.out == s.reg.out
  {
    match e
    case On(t, cb) =>
      if t in s.lives {
        assert Agree(s, cap, t);
        HearKeeps(s.lives[t], cap, cb);
        LiveKeeps(s, cap, t, Hear(s.lives[t], cap, cb));
        assert Happen(s, cap, e) == Live(s, t, Hear(s.lives[t], cap, cb));
      }
    case Incoming(t) =>
      OpenedKeeps(s, cap, t, true);
      assert Happen(s, cap, e) == Opened(s, t, true);
  }

  lemma {:induction false} LoopKeeps<T(!new)>(s: System<T>, cap: nat, es: seq<Event<T>>)
    requires Inv(s, cap)
    ensures Inv(Loop(s, cap, es), cap)
    ensures s.lives.Keys <= Loop(s, cap, es).lives.Keys && Loop(s, cap, es).reg.out == s.reg.out
    decreases |es|
  {
    if es != [] {
      HappenKeeps(s, cap, es[0]);
      LoopKeeps(Happen(s, cap, es[0]), cap, es[1..]);
    }
  }

  // In a loop every connection hears its own callbacks, in order, and no others.
  lemma {:induction false} LoopHears<T(!new)>(s: System<T>, cap: nat, es: seq<Event<T>>, t: T)
    requires Inv(s, cap) && t in s.lives
    ensures t in Loop(s, cap, es).lives
    ensures Loop(s, cap, es).lives[t] == HearAll(s.lives[t], cap, Mine(es, t))
    decreases |es|
  {
    if es != [] {
      var s1 := Happen(s, cap, es[0]);
      HappenKeeps(s, cap, es[0]);
      LoopHears(s1, cap, es[1..], t);
      if es[0].On? && es[0].t == t {
        var cb := es[0].cb;
        assert Mine(es, t) == [cb] + Mine(es[1..], t);
        assert Mine(es, t)[1..] == Mine(es[1..], t);
        assert s1.lives[t] == Hear(s.lives[t], cap, cb);
      } else {
        assert Mine(es, t) == [] + Mine(es[1..], t) == Mine(es[1..], t);
        assert s1.lives[t] == s.lives[t];
      }
    }
  }

  lemma AcceptKeeps<T(!new)>(s: System<T>, cap: nat, onPort: T -> bool, inner: seq<Event<T>>)
    requires Inv(s, cap)
    ensures Inv(Accept(s, cap, onPort, inner), cap)
  {
    var f := R.Find(s.reg.list, s.reg.live, onPort);
    R.FindFirst(s.reg.list, s.reg.live, onPort);
    if f.None? {
      LoopKeeps(s, cap, inner);
    } else {
      var t := f.value;
      assert Agree(s, cap, t);
      var s0 := s.(lives := s.lives[t := s.lives[t].(held := true)]);
      HeldKeeps(s, cap, t);
      LoopKeeps(s0, cap, inner);
      LoopHears(s0, cap, inner, t);
      HearAllKeeps(s0.lives[t], cap, Mine(inner, t));
      OutKeeps(Loop(s0, cap, inner), cap, t);
    }
  }

  lemma HeldKeeps<T(!new)>(s: System<T>, cap: nat, t: T)
    requires Inv(s, cap) && t in s.lives
    ensures Inv(s.(lives := s.lives[t := s.lives[t].(held := true)]), cap)
  {
    var s0 := s.(lives := s.lives[t := s.lives[t].(held := true)]);
    forall u | u in s0.lives ensures Agree(s0, cap, u) {
      assert Agree(s, cap, u);
    }
  }

  lemma LendKeeps<T(!new)>(s: System<T>, cap: nat, onPort: T -> bool, inner: seq<Event<T>>)
    requires Inv(s, cap)
    ensures Inv(Lend(s, cap, onPort, inner), cap)
  {
    var f := R.Find(s.reg.list, WithData(s), onPort);
    if f.None? {
      LoopKeeps(s, cap, inner);
    } else if f.value in s.lives {
      var t := f.value;
      HeldKeeps(s, cap, t);
      LoopKeeps(s.(lives := s.lives[t := s.lives[t].(held := true)]), cap, inner);
    }
  }

  // What available() lends is a connection of the port on the list that has bytes waiting,
  // and nothing only if none of them has any.
  lemma LendsWaiting<T(!new)>(s: System<T>, cap: nat, onPort: T -> bool)
    requires Inv(s, cap)
    ensures match R.Find(s.reg.list, WithData(s), onPort)
            case None => forall t :: t in s.reg.list && t in s.lives && onPort(t) ==> s.lives[t].c.Unread() == []
            case Some(t) => t in s.reg.list && onPort(t) && t in s.lives && s.lives[t].c.Unread() != []
  {
    R.FindFirst(s.reg.list, WithData(s), onPort);
  }

  lemma OutKeeps<T(!new)>(s: System<T>, cap: nat, t: T)
    requires Inv(s, cap) && t in s.lives && s.lives[t].held && t !in s.reg.out
    ensures Inv(System(R.Remove(s.reg, t).(out := s.reg.out + [t]), s.lives[t := s.lives[t].(listed := false)]), cap)
  {
    R.HandOutKeeps(s.reg, t);
    R.EraseOnce(s.reg.list, t);
    var s' := System(R.Remove(s.reg, t).(out := s.reg.out + [t]), s.lives[t := s.lives[t].(listed := false)]);
    forall u | u in s'.lives ensures Agree(s', cap, u) {
      assert Agree(s, cap, u);
    }
  }

  lemma CallOnKeeps<T(!new)>(s: System<T>, cap: nat, t: T, call: Op, inner: seq<Event<T>>)
    requires Inv(s, cap)
    ensures Inv(CallOn(s, cap, t, call, inner), cap)
  {
    if Client(call) && t in s.lives && s.lives[t].held {
      var h, op := s.lives[t], With(call, Mine(inner, t));
      assert Agree(s, cap, t);
      CallKeeps(h, cap, op);
      CallLive(h, cap, op);
      if Loops(h.c, true, call) {
        LoopKeeps(s, cap, inner);
        LoopHears(s, cap, inner, t);
        HearAllKeeps(h, cap, Mine(inner, t));
        LiveKeeps(Loop(s, cap, inner), cap, t, Call(h, cap, op));
      } else {
        LiveKeeps(s, cap, t, Call(h, cap, op));
      }
    }
  }

  // A client call ends a connection only by its callbacks, or by letting go of the last
  // reference.
  lemma CallLive(h: History, cap: nat, op: Op)
    requires Sound(h, cap) && Client(op) && h.held
    ensures var d, h' := TcpStream.Loop(h.c, cap, Runs(h.c, true, op)), Call(h, cap, op);
            && h'.listed == (h.listed && d.live && h'.c.live)
            && (h'.c.live ==> d.live)
  {
  }

  lemma DoKeeps<T(!new)>(s: System<T>, cap: nat, step: Step<T>)
    requires Inv(s, cap)
    ensures Inv(Do(s, cap, step), cap)
  {
    match step
    case Happens(e) => HappenKeeps(s, cap, e);
    case Connects(t) => OpenedKeeps(s, cap, t, false);
    case Accepts(onPort, inner) => AcceptKeeps(s, cap, onPort, inner);
    case Lends(onPort, inner) => LendKeeps(s, cap, onPort, inner);
    case Calls(t, call, inner) => CallOnKeeps(s, cap, t, call, inner);
  }

  lemma {:induction false} RunKeeps<T(!new)>(s: System<T>, cap: nat, steps: seq<Step<T>>)
    requires Inv(s, cap)
    ensures Inv(Run(s, cap, steps), cap)
    decreases |steps|
  {
    if steps != [] {
      DoKeeps(s, cap, steps[0]);
      RunKeeps(Do(s, cap, steps[0]), cap, steps[1..]);
    }
  }

  // Main result: over every run of callbacks, connects, accepts and client calls on any
  // number of connections, each client has got exactly the acknowledged bytes of its
  // connection, in order, up to the unread ones, if and only if none were stranded; and
  // each connection is handed out at most once, none that waits being dead.
  lemma EveryStreamConserved<T(!new)>(cap: nat, steps: seq<Step<T>>)
    ensures var s := Run(Begin(), cap, steps);
            && (forall t :: t in s.lives ==>
                  var h := s.lives[t];
                  && (h.taken == h.got + h.c.Unread() <==> !h.stranded)
                  && (h.stranded ==> |h.taken| > |h.got| + |h.c.Unread()|)
                  && (h.listed <==> t in s.reg.list) && (h.c.live <==> t in s.reg.live))
            && R.NoDup(s.reg.out) && R.NoDup(s.reg.list)
            && (forall t :: t in s.reg.list ==> t in s.reg.live && t !in s.reg.out)
  {
    RunKeeps(Begin(), cap, steps);
    var s := Run(Begin(), cap, steps);
    forall t | t in s.lives ensures Agree(s, cap, t) {
    }
  }

  // The registry's own steps behind a loop and behind an accept.
  ghost function Closings<T(!new)>(s: System<T>, cap: nat, es: seq<Event<T>>): seq<R.Event<T>>
    decreases |es|
  {
    if es == [] then []
    else
      (match es[0]
       case On(t, cb) =>
         if t in s.lives && s.lives[t].c.live && !Hear(s.lives[t], cap, cb).c.live then [R.Close(t)] else []
       case Incoming(t) => if t in s.lives then [] else [R.Open(t)])
      + Closings(Happen(s, cap, es[0]), cap, es[1..])
  }

  lemma {:induction false} LoopFollows<T(!new)>(s: System<T>, cap: nat, es: seq<Event<T>>)
    ensures Loop(s, cap, es).reg == R.Loop(s.reg, Closings(s, cap, es))
    decreases |es|
  {
    if es != [] {
      var s1 := Happen(s, cap, es[0]);
      var rest := Closings(s1, cap, es[1..]);
      LoopFollows(s1, cap, es[1..]);
      match es[0] {
        case On(t, cb) => assert ([R.Close(t)] + rest)[1..] == rest && [] + rest == rest;
        case Incoming(t) => assert ([R.Open(t)] + rest)[1..] == rest && [] + rest == rest;
      }
    }
  }

  // So the accept here is the accept the classes implement.
  lemma AcceptFollows<T(!new)>(s: System<T>, cap: nat, onPort: T -> bool, inner: seq<Event<T>>)
      returns (es: seq<R.Event<T>>)
    requires Inv(s, cap)
    ensures Accept(s, cap, onPort, inner).reg == R.Accept(s.reg, onPort, es)
    ensures match R.Find(s.reg.list, s.reg.live, onPort)
            case None => Accept(s, cap, onPort, inner).reg.out == s.reg.out
            case Some(t) => t in Accept(s, cap, onPort, inner).lives
                            && !Accept(s, cap, onPort, inner).lives[t].listed
                            && Accept(s, cap, onPort, inner).reg.out == s.reg.out + [t]
  {
    var f := R.Find(s.reg.list, s.reg.live, onPort);
    R.FindFirst(s.reg.list, s.reg.live, onPort);
    if f.None? {
      es := Closings(s, cap, inner);
      LoopFollows(s, cap, inner);
      LoopKeeps(s, cap, inner);
    } else {
      var t := f.value;
      assert Agree(s, cap, t);
      var s0 := s.(lives := s.lives[t := s.lives[t].(held := true)]);
      es := Closings(s0, cap, inner);
      LoopFollows(s0, cap, inner);
      HeldKeeps(s, cap, t);
      LoopKeeps(s0, cap, inner);
    }
  }

  // ------------------------------------------------------------- each life is a run

  function Asyncs(cbs: seq<Callback>): seq<Op> {
    if cbs == [] then [] else [Async(cbs[0])] + Asyncs(cbs[1..])
  }

  // The events a step lets happen.
  function Heard<T>(s: System<T>, step: Step<T>): seq<Event<T>> {
    match step
    case Happens(e) => [e]
    case Connects(_) => []
    case Accepts(_, inner) => inner
    case Lends(_, inner) => inner
    case Calls(t, call, inner) =>
      if Client(call) && t in s.lives && s.lives[t].held && Loops(s.lives[t].c, true, call) then inner else []
  }

  // The step as t sees it if it is about t itself.
  function Own<T>(s: System<T>, step: Step<T>, t: T): Option<Op> {
    match step
    case Accepts(onPort, inner) =>
      if R.Find(s.reg.list, s.reg.live, onPort) == Some(t) then Some(OpFound(Mine(inner, t))) else None
    case Lends(onPort, inner) =>
      if R.Find(s.reg.list, WithData(s), onPort) == Some(t) then Some(OpLent(Mine(inner, t))) else None
    case Calls(u, call, inner) =>
      if u == t && Client(call) && t in s.lives && s.lives[t].held then Some(With(call, Mine(inner, t))) else None
    case _ => None
  }

  // The events after t came in; none if it does not.
  function After<T(==)>(es: seq<Event<T>>, t: T): seq<Event<T>> {
    if es == [] then [] else if es[0] == Incoming(t) then es[1..] else After(es[1..], t)
  }

  // What a step is in the life of t.
  function OpsOf<T>(s: System<T>, step: Step<T>, t: T): seq<Op> {
    if t !in s.lives then Asyncs(Mine(After(Heard(s, step), t), t))
    else match Own(s, step, t) case Some(op) => [op] case None => Asyncs(Mine(Heard(s, step), t))
  }

  // The life of t, read off the schedule.
  function Schedule<T>(s: System<T>, cap: nat, steps: seq<Step<T>>, t: T): seq<Op>
    decreases |steps|
  {
    if steps == [] then [] else OpsOf(s, steps[0], t) + Schedule(Do(s, cap, steps[0]), cap, steps[1..], t)
  }

  // How it began: with an incoming connection, or with connect().
  function CameIn<T>(s: System<T>, cap: nat, steps: seq<Step<T>>, t: T): bool
    decreases |steps|
  {
    steps != [] &&
    var s1 := Do(s, cap, steps[0]);
    if t !in s.lives && t in s1.lives then !steps[0].Connects? else CameIn(s1, cap, steps[1..], t)
  }

  lemma {:induction false} HearAllRuns(h: History, cap: nat, cbs: seq<Callback>)
    ensures TcpStream.Run(h, cap, Asyncs(cbs)) == HearAll(h, cap, cbs)
    decreases |cbs|
  {
    if cbs != [] {
      assert Asyncs(cbs)[1..] == Asyncs(cbs[1..]);
      HearAllRuns(Hear(h, cap, cbs[0]), cap, cbs[1..]);
    }
  }

  lemma OneRuns(h: History, cap: nat, op: Op)
    ensures TcpStream.Run(h, cap, [op]) == TcpStream.Step(h, cap, op)
  {
    assert [op][1..] == [];
  }

  // A connection that comes in during a loop hears what follows.
  lemma {:induction false} LoopBorn<T(!new)>(s: System<T>, cap: nat, es: seq<Event<T>>, t: T)
    requires Inv(s, cap) && t !in s.lives
    ensures t in Loop(s, cap, es).lives ==>
              Loop(s, cap, es).lives[t] == HearAll(Start(true), cap, Mine(After(es, t), t))
    ensures t !in Loop(s, cap, es).lives ==> After(es, t) == []
    decreases |es|
  {
    if es != [] {
      var s1 := Happen(s, cap, es[0]);
      HappenKeeps(s, cap, es[0]);
      if es[0] == Incoming(t) {
        LoopHears(s1, cap, es[1..], t);
      } else {
        LoopBorn(s1, cap, es[1..], t);
      }
    }
  }

  lemma OneHappens<T(!new)>(s: System<T>, cap: nat, e: Event<T>)
    ensures Loop(s, cap, [e]) == Happen(s, cap, e)
  {
    assert [e][1..] == [];
  }

  // A life in its own accept or available,
  lemma FoundLife<T(!new)>(s: System<T>, cap: nat, t: T, inner: seq<Event<T>>)
    requires Inv(s, cap) && t in s.lives
    ensures t in Holding(s, cap, t, inner).lives
    ensures Holding(s, cap, t, inner).lives[t] == HearAll(s.lives[t].(held := true), cap, Mine(inner, t))
  {
    HeldKeeps(s, cap, t);
    LoopHears(s.(lives := s.lives[t := s.lives[t].(held := true)]), cap, inner, t);
  }

  // and in that of another.
  lemma OtherLife<T(!new)>(s: System<T>, cap: nat, u: T, inner: seq<Event<T>>, t: T)
    requires Inv(s, cap) && u in s.lives && u != t
    ensures t in s.lives ==>
              && t in Holding(s, cap, u, inner).lives
              && Holding(s, cap, u, inner).lives[t] == HearAll(s.lives[t], cap, Mine(inner, t))
    ensures t !in s.lives ==>
              if t in Holding(s, cap, u, inner).lives then
                Holding(s, cap, u, inner).lives[t] == HearAll(Start(true), cap, Mine(After(inner, t), t))
              else After(inner, t) == []
  {
    HeldKeeps(s, cap, u);
    var s0 := s.(lives := s.lives[u := s.lives[u].(held := true)]);
    if t in s.lives { LoopHears(s0, cap, inner, t); } else { LoopBorn(s0, cap, inner, t); }
  }

  lemma AcceptLife<T(!new)>(s: System<T>, cap: nat, onPort: T -> bool, inner: seq<Event<T>>, t: T)
    requires Inv(s, cap) && t in s.lives
    ensures var s' := Accept(s, cap, onPort, inner);
            && t in s'.lives
            && s'.lives[t] == TcpStream.Run(s.lives[t], cap, OpsOf(s, Accepts(onPort, inner), t))
  {
    var f := R.Find(s.reg.list, s.reg.live, onPort);
    R.FindFirst(s.reg.list, s.reg.live, onPort);
    if f == Some(t) {
      assert Agree(s, cap, t);
      FoundLife(s, cap, t, inner);
      OneRuns(s.lives[t], cap, OpFound(Mine(inner, t)));
    } else {
      HearAllRuns(s.lives[t], cap, Mine(inner, t));
      if f.None? { LoopHears(s, cap, inner, t); } else { OtherLife(s, cap, f.value, inner, t); }
    }
  }

  lemma LendLife<T(!new)>(s: System<T>, cap: nat, onPort: T -> bool, inner: seq<Event<T>>, t: T)
    requires Inv(s, cap) && t in s.lives
    ensures var s' := Lend(s, cap, onPort, inner);
            && t in s'.lives
            && s'.lives[t] == TcpStream.Run(s.lives[t], cap, OpsOf(s, Lends(onPort, inner), t))
  {
    var f := R.Find(s.reg.list, WithData(s), onPort);
    R.FindFirst(s.reg.list, WithData(s), onPort);
    if f == Some(t) {
      assert Agree(s, cap, t);
      FoundLife(s, cap, t, inner);
      OneRuns(s.lives[t], cap, OpLent(Mine(inner, t)));
    } else {
      HearAllRuns(s.lives[t], cap, Mine(inner, t));
      if f.None? { LoopHears(s, cap, inner, t); } else { OtherLife(s, cap, f.value, inner, t); }
    }
  }

  lemma OwnCallLife<T(!new)>(s: System<T>, cap: nat, t: T, call: Op, inner: seq<Event<T>>)
    requires Inv(s, cap) && t in s.lives && Client(call) && s.lives[t].held
    ensures var s' := CallOn(s, cap, t, call, inner);
            t in s'.lives && s'.lives[t] == Call(s.lives[t], cap, With(call, Mine(inner, t)))
  {
    LoopHears(s, cap, inner, t);
  }

  lemma OtherCallLife<T(!new)>(s: System<T>, cap: nat, u: T, call: Op, inner: seq<Event<T>>, t: T)
    requires Inv(s, cap) && t in s.lives && u != t
    ensures var s' := CallOn(s, cap, u, call, inner);
            && t in s'.lives
            && s'.lives[t] == HearAll(s.lives[t], cap, Mine(Heard(s, Calls(u, call, inner)), t))
  {
    if Client(call) && u in s.lives && s.lives[u].held {
      LoopHears(s, cap, inner, t);
      LoopHears(s, cap, inner, u);
    }
  }

  lemma CallLife<T(!new)>(s: System<T>, cap: nat, u: T, call: Op, inner: seq<Event<T>>, t: T)
    requires Inv(s, cap) && t in s.lives
    ensures var s' := CallOn(s, cap, u, call, inner);
            && t in s'.lives
            && s'.lives[t] == TcpStream.Run(s.lives[t], cap, OpsOf(s, Calls(u, call, inner), t))
  {
    if u != t {
      OtherCallLife(s, cap, u, call, inner, t);
      HearAllRuns(s.lives[t], cap, Mine(Heard(s, Calls(u, call, inner)), t));
    } else if Client(call) && s.lives[t].held {
      OwnCallLife(s, cap, t, call, inner);
      OneRuns(s.lives[t], cap, With(call, Mine(inner, t)));
    } else {
      assert Heard(s, Calls(u, call, inner)) == [];
    }
  }

  lemma StepLife<T(!new)>(s: System<T>, cap: nat, step: Step<T>, t: T)
    requires Inv(s, cap) && t in s.lives
    ensures var s' := Do(s, cap, step);
            t in s'.lives && s'.lives[t] == TcpStream.Run(s.lives[t], cap, OpsOf(s, step, t))
  {
    match step
    case Happens(e) =>
      OneHappens(s, cap, e);
      LoopHears(s, cap, [e], t);
      HearAllRuns(s.lives[t], cap, Mine([e], t));
    case Connects(_) =>
    case Accepts(onPort, inner) => AcceptLife(s, cap, onPort, inner, t);
    case Lends(onPort, inner) => LendLife(s, cap, onPort, inner, t);
    case Calls(u, call, inner) => CallLife(s, cap, u, call, inner, t);
  }

  lemma AcceptBirth<T(!new)>(s: System<T>, cap: nat, onPort: T -> bool, inner: seq<Event<T>>, t: T)
    requires Inv(s, cap) && t !in s.lives
    ensures var s' := Accept(s, cap, onPort, inner);
            if t in s'.lives then s'.lives[t] == HearAll(Start(true), cap, Mine(After(inner, t), t))
            else After(inner, t) == []
  {
    R.FindFirst(s.reg.list, s.reg.live, onPort);
    var f := R.Find(s.reg.list, s.reg.live, onPort);
    if f.None? { LoopBorn(s, cap, inner, t); } else { OtherLife(s, cap, f.value, inner, t); }
  }

  lemma LendBirth<T(!new)>(s: System<T>, cap: nat, onPort: T -> bool, inner: seq<Event<T>>, t: T)
    requires Inv(s, cap) && t !in s.lives
    ensures var s' := Lend(s, cap, onPort, inner);
            if t in s'.lives then s'.lives[t] == HearAll(Start(true), cap, Mine(After(inner, t), t))
            else After(inner, t) == []
  {
    R.FindFirst(s.reg.list, WithData(s), onPort);
    var f := R.Find(s.reg.list, WithData(s), onPort);
    if f.None? { LoopBorn(s, cap, inner, t); } else { OtherLife(s, cap, f.value, inner, t); }
  }

  lemma CallBirth<T(!new)>(s: System<T>, cap: nat, u: T, call: Op, inner: seq<Event<T>>, t: T)
    requires Inv(s, cap) && t !in s.lives
    ensures var s', es := CallOn(s, cap, u, call, inner), Heard(s, Calls(u, call, inner));
            if t in s'.lives then s'.lives[t] == HearAll(Start(true), cap, Mine(After(es, t), t))
            else After(es, t) == []
  {
    LoopBorn(s, cap, Heard(s, Calls(u, call, inner)), t);
    if u in s.lives { LoopHears(s, cap, inner, u); }
  }

  // The step in which a life begins, or one before it.
  lemma StepBirth<T(!new)>(s: System<T>, cap: nat, step: Step<T>, t: T)
    requires Inv(s, cap) && t !in s.lives
    ensures var s' := Do(s, cap, step);
            if t in s'.lives then s'.lives[t] == TcpStream.Run(Start(!step.Connects?), cap, OpsOf(s, step, t))
            else OpsOf(s, step, t) == []
  {
    HearAllRuns(Start(true), cap, Mine(After(Heard(s, step), t), t));
    match step
    case Happens(e) =>
      OneHappens(s, cap, e);
      LoopBorn(s, cap, [e], t);
    case Connects(_) =>
    case Accepts(onPort, inner) => AcceptBirth(s, cap, onPort, inner, t);
    case Lends(onPort, inner) => LendBirth(s, cap, onPort, inner, t);
    case Calls(u, call, inner) => CallBirth(s, cap, u, call, inner, t);
  }

  lemma {:induction false} LifeFrom<T(!new)>(s: System<T>, cap: nat, steps: seq<Step<T>>, t: T)
    requires Inv(s, cap) && t in Run(s, cap, steps).lives
    ensures Run(s, cap, steps).lives[t] ==
            TcpStream.Run(if t in s.lives then s.lives[t] else Start(CameIn(s, cap, steps, t)), cap,
                          Schedule(s, cap, steps, t))
    decreases |steps|
  {
    if steps != [] {
      var s1 := Do(s, cap, steps[0]);
      var now, later := OpsOf(s, steps[0], t), Schedule(s1, cap, steps[1..], t);
      DoKeeps(s, cap, steps[0]);
      LifeFrom(s1, cap, steps[1..], t);
      if t in s.lives {
        StepLife(s, cap, steps[0], t);
        RunAppend(s.lives[t], cap, now, later);
      } else {
        StepBirth(s, cap, steps[0], t);
        RunAppend(Start(!steps[0].Connects?), cap, now, later);
        assert [] + later == later;
      }
    }
  }

  // Whatever happens to the other connections, each one lives a run of its own, which can be
  // read off the steps.
  lemma EveryLifeIsARun<T(!new)>(cap: nat, steps: seq<Step<T>>, t: T)
    requires t in Run(Begin(), cap, steps).lives
    ensures Run(Begin(), cap, steps).lives[t] ==
            TcpStream.Run(Start(CameIn(Begin(), cap, steps, t)), cap, Schedule(Begin(), cap, steps, t))
  {
    LifeFrom(Begin<T>(), cap, steps, t);
  }

  predicate OkEvents<T(==)>(es: seq<Event<T>>) {
    forall e :: e in es && e.On? && e.cb.Connected? ==> e.cb.err == ErrOk
  }

  // Connect callbacks carry the only error the stack passes to them.
  predicate OkStep<T(==)>(step: Step<T>) {
    match step
    case Happens(e) => OkEvents([e])
    case Connects(_) => true
    case Accepts(_, inner) => OkEvents(inner)
    case Lends(_, inner) => OkEvents(inner)
    case Calls(_, _, inner) => OkEvents(inner)
  }

  lemma {:induction false} MineOk<T(!new)>(es: seq<Event<T>>, t: T)
    requires OkEvents(es)
    ensures ConnectsOk(Mine(es, t)) && OkEvents(After(es, t))
  {
    if es != [] {
      assert es[0] in es;
      MineOk(es[1..], t);
    }
  }

  lemma {:induction false} AsyncsOk(cbs: seq<Callback>)
    requires ConnectsOk(cbs)
    ensures forall op :: op in Asyncs(cbs) ==> Ordinary(op)
  {
    if cbs != [] {
      assert cbs[0] in cbs;
      AsyncsOk(cbs[1..]);
    }
  }

  lemma OpsOk<T(!new)>(s: System<T>, step: Step<T>, t: T)
    requires OkStep(step)
    ensures forall op :: op in OpsOf(s, step, t) ==> Ordinary(op)
  {
    var es := Heard(s, step);
    MineOk(es, t);
    MineOk(After(es, t), t);
    AsyncsOk(Mine(es, t));
    AsyncsOk(Mine(After(es, t), t));
    if step.Accepts? || step.Lends? || step.Calls? { MineOk(step.inner, t); }
  }

  lemma {:induction false} ScheduleOk<T(!new)>(s: System<T>, cap: nat, steps: seq<Step<T>>, t: T)
    requires forall i :: 0 <= i < |steps| ==> OkStep(steps[i])
    ensures forall op :: op in Schedule(s, cap, steps, t) ==> Ordinary(op)
    decreases |steps|
  {
    if steps != [] {
      OpsOk(s, steps[0], t);
      ScheduleOk(Do(s, cap, steps[0]), cap, steps[1..], t);
    }
  }

  // Main result: over every run of any number of connections, the acknowledged bytes of a
  // connection are those its client got and those unread if and only if its life, as the
  // steps show it, has no losing step. With the errors the stack really passes these are
  // two: it closes with bytes while no client holds it, or a client lets go of the last
  // reference with bytes unread.
  lemma LostExactly<T(!new)>(cap: nat, steps: seq<Step<T>>, t: T)
    requires t in Run(Begin(), cap, steps).lives
    ensures var h, start := Run(Begin(), cap, steps).lives[t], Start(CameIn(Begin(), cap, steps, t));
            var ops := Schedule(Begin(), cap, steps, t);
            && (h.taken == h.got + h.c.Unread() <==> !LossIn(start, cap, ops))
            && ((forall i :: 0 <= i < |steps| ==> OkStep(steps[i])) ==>
                (h.taken == h.got + h.c.Unread() <==> !LostIn(start, cap, ops)))
  {
    EveryLifeIsARun(cap, steps, t);
    var start, ops := Start(CameIn(Begin(), cap, steps, t)), Schedule(Begin(), cap, steps, t);
    ConservedExactly(start, cap, ops);
    if forall i :: 0 <= i < |steps| ==> OkStep(steps[i]) {
      ScheduleOk(Begin<T>(), cap, steps, t);
      StrandedExactly(start, cap, ops);
    }
  }

  lemma AcceptsSaved<T(!new)>(s: System<T>, t: T, onPort: T -> bool, data: Callback, fin: Callback, byte: Byte)
    requires R.Inv(s.reg) && s.reg.list == [t] && t in s.reg.live && s.reg.out == []
    requires t in s.lives && s.lives[t] == Start(true) && onPort(t)
    requires data == Recv(Node([byte], Null), ErrOk, true) && fin == Recv(Null, ErrOk, true)
    ensures var s' := Accept(s, 10, onPort, [On(t, data), On(t, fin)]);
            && s'.reg.out == [t] && t in s'.lives
            && s'.lives[t] == History(Conn(false, false, false, [], [byte]), false, true, [byte], [], false)
  {
    assert Bytes(data.p) == [byte];
    var s0 := s.(lives := s.lives[t := s.lives[t].(held := true)]);
    var s1 := Happen(s0, 10, On(t, data));
    assert s1.lives[t] == History(Conn(true, true, true, [byte], []), true, true, [byte], [], false);
    var s2 := Happen(s1, 10, On(t, fin));
    assert s2.lives[t] == History(Conn(false, false, false, [], [byte]), false, true, [byte], [], false);
    assert [On(t, data), On(t, fin)][1..] == [On(t, fin)] && [On(t, fin)][1..] == [];
    assert Loop(s2, 10, []) == s2 && Loop(s1, 10, [On(t, fin)]) == s2;
  }

  // What the firmware's own server loop does with a connection that brings a byte and
  // closes while accept() runs: accept() hands it out, the byte saved; the test "if
  // (client)" is false; the client dies, and the byte with it.
  lemma LostAfterTest<T(!new)>(t: T, byte: Byte, onPort: T -> bool)
    requires onPort(t)
    ensures var inner := [On(t, Recv(Node([byte], Null), ErrOk, true)), On(t, Recv(Null, ErrOk, true))];
            var steps: seq<Step<T>> := [Happens(Incoming(t)), Accepts(onPort, inner)];
            var s := Run(Begin<T>(), 10, steps);
            var s' := Run(s, 10, [Calls(t, OpTrue([]), []), Calls(t, OpDestroy, [])]);
            && s.reg.out == [t] && t in s.lives && s.lives[t].c.rest == [byte]
            && IsTrue(s.lives[t].c, 10, true, []).result == 0
            && t in s'.lives && s'.lives[t].taken == [byte] && s'.lives[t].got == []
            && s'.lives[t].c.Unread() == []
  {
    var data, fin := Recv(Node([byte], Null), ErrOk, true), Recv(Null, ErrOk, true);
    var inner: seq<Event<T>> := [On(t, data), On(t, fin)];
    var s1 := Opened(Begin<T>(), t, true);
    assert s1.lives[t] == Start(true) && s1.reg.list == [t];
    AcceptsSaved(s1, t, onPort, data, fin, byte);
    TwoSteps(Begin<T>(), Happens(Incoming(t)), Accepts(onPort, inner));
    TestsAndDies(Accept(s1, 10, onPort, inner), t, byte);
  }

  lemma TwoSteps<T(!new)>(s: System<T>, a: Step<T>, b: Step<T>)
    ensures Run(s, 10, [a, b]) == Do(Do(s, 10, a), 10, b)
  {
    var s2 := Do(Do(s, 10, a), 10, b);
    assert [a, b][1..] == [b] && [b][1..] == [];
    assert Run(s2, 10, []) == s2 && Run(Do(s, 10, a), 10, [b]) == s2;
  }

  lemma TestsAndDies<T(!new)>(s: System<T>, t: T, byte: Byte)
    requires t in s.lives
    requires s.lives[t] == History(Conn(false, false, false, [], [byte]), false, true, [byte], [], false)
    ensures var s' := Run(s, 10, [Calls(t, OpTrue([]), []), Calls(t, OpDestroy, [])]);
            && t in s'.lives && s'.lives[t].taken == [byte] && s'.lives[t].got == []
            && s'.lives[t].c.Unread() == []
  {
    var h := s.lives[t];
    assert [byte] + [] == [byte];
    assert Call(h, 10, OpTrue([])) == h;
    assert Do(s, 10, Calls(t, OpTrue([]), [])).lives[t] == h;
    TwoSteps(s, Calls(t, OpTrue([]), []), Calls(t, OpDestroy, []));
  }

  // A connection that comes in, brings a byte and closes before accept() looks: the byte
  // was acknowledged, accept() finds nothing, and nobody will ever get it.
  lemma ClosedBeforeAccept(byte: Byte)
    ensures var steps := [Happens(Incoming(0)), Happens(On(0, Recv(Node([byte], Null), ErrOk, true))),
                          Happens(On(0, Recv(Null, ErrOk, true))), Accepts(_ => true, [])];
            var s := Run(Begin<nat>(), 10, steps);
            && s.reg.out == [] && s.reg.list == [] && 0 in s.lives
            && s.lives[0].taken == [byte] && s.lives[0].got == [] && s.lives[0].c.Unread() == []
  {
    var data, fin := Recv(Node([byte], Null), ErrOk, true), Recv(Null, ErrOk, true);
    var a: Step<nat>, b: Step<nat>, c: Step<nat>, d: Step<nat> :=
      Happens(Incoming(0)), Happens(On(0, data)), Happens(On(0, fin)), Accepts(_ => true, []);
    assert Bytes(data.p) == [byte];
    var s1 := Do(Begin<nat>(), 10, a);
    assert s1.lives[0] == Start(true) && s1.reg.list == [0];
    var s2 := Do(s1, 10, b);
    assert s2.lives[0] == History(Conn(true, true, true, [byte], []), true, false, [byte], [], false);
    var s3 := Do(s2, 10, c);
    assert s3.reg.list == [] && s3.lives[0].taken == [byte] && s3.lives[0].c.Unread() == [];
    var s4 := Do(s3, 10, d);
    assert s4 == s3;
    FourSteps(Begin<nat>(), a, b, c, d);
  }

  lemma FourSteps<T(!new)>(s: System<T>, a: Step<T>, b: Step<T>, c: Step<T>, d: Step<T>)
    ensures Run(s, 10, [a, b, c, d]) == Do(Do(Do(Do(s, 10, a), 10, b), 10, c), 10, d)
  {
    assert [a, b, c, d][1..] == [b, c, d] && [b, c, d][1..] == [c, d];
    TwoSteps(Do(Do(s, 10, a), 10, b), c, d);
  }
}
