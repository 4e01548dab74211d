// The receive buffers in place: the holder and state objects, the lwIP callbacks that
// fill and compact them, and the client and server calls that empty them. Every method
// is tied to the value-level meaning in TcpStream and Registry.
module TcpConnection {
  import opened Options
  import opened TcpStream
  import R = Registry

  // buf is the vector; capacity is what reserve(TCP_WND) gave it and never changes.
  class ConnectionState {
    const capacity: nat
    const owner: ConnectionHolder
    var buf: seq<Byte>
    var bufPos: nat
    var hooked: bool  // removeFunc is set

    constructor (owner: ConnectionHolder, capacity: nat)
      ensures this.owner == owner && this.capacity == capacity
      ensures buf == [] && bufPos == 0 && !hooked
    {
      this.owner, this.capacity := owner, capacity;
      buf, bufPos, hooked := [], 0, false;
    }
  }

  class ConnectionHolder {
    const localPort: nat
    const window: nat     // TCP_WND
    var lastError: Err
    var connected: bool
    var state: ConnectionState?
    var remaining: seq<Byte>
    var remainingPos: nat
    var registered: bool  // lwIP still passes this holder to the callbacks

    constructor (localPort: nat, window: nat)
      ensures this.localPort == localPort && this.window == window
      ensures !connected && state == null && remaining == [] && remainingPos == 0 && !registered
      ensures lastError == ErrOk
    {
      this.localPort, this.window := localPort, window;
      lastError, connected, state, registered := ErrOk, false, null, false;
      remaining, remainingPos := [], 0;
    }

    ghost predicate Layout()
      reads this, state
    {
      && (state != null ==>
            state.owner == this && state.capacity == window && state.bufPos <= |state.buf| <= window)
      && (if remaining == [] then remainingPos == 0 else remainingPos < |remaining|)
    }

    ghost function View(): Conn
      reads this, state
      requires Layout()
    {
      Conn(registered, connected, state != null,
           if state == null then [] else state.buf[state.bufPos..], remaining[remainingPos..])
    }
  }

  ghost function Parts(h: ConnectionHolder?): set<object>
    reads h
  {
    if h == null then {} else if h.state == null then {h} else {h, h.state}
  }

  ghost function OnPort(port: nat): ConnectionHolder -> bool { (h: ConnectionHolder) => h.localPort == port }

  datatype Event = On(h: ConnectionHolder, cb: Callback) | Incoming(port: nat, err: Err, closeOk: bool)

  // The callbacks among events that concern h.
  ghost function Mine(events: seq<Event>, h: ConnectionHolder): seq<Callback> {
    if events == [] then []
    else if events[0].On? && events[0].h == h then [events[0].cb] + Mine(events[1..], h)
    else Mine(events[1..], h)
  }

  class ConnectionManager {
    const window: nat
    var connections: seq<ConnectionHolder>
    ghost var all: set<ConnectionHolder>
    ghost var out: seq<ConnectionHolder>  // what accept() has handed out

    constructor (window: nat)
      ensures Valid() && this.window == window && all == {}
      ensures Reg() == R.Reg({}, {}, {}, [], [])
    {
      this.window := window;
      connections, all, out := [], {}, [];
    }

    ghost predicate Valid()
      reads this, all, States()
    {
      && (forall h :: h in all ==> h.Layout() && h.window == window)
      && (forall h :: h in connections ==> h in all)
    }

    ghost function States(): set<ConnectionState>
      reads this, all
    {
      set h | h in all && h.state != null :: h.state
    }

    ghost function Reg(): R.Reg<ConnectionHolder>
      reads this, all, States()
    {
      R.Reg(all, (set h | h in all && h.state != null),
            (set h | h in all && h.state != null && h.state.hooked), connections, out)
    }

    // holder->state = nullptr: the destructor takes the callback argument away and runs
    // removeFunc, which erases the holder from the list.
    method DropState(holder: ConnectionHolder)
      requires Valid() && holder in all
      modifies this`connections, holder`state, holder`registered
      ensures Valid() && holder.state == null
      ensures holder.registered == (old(holder.registered) && old(holder.state) == null)
      ensures Reg() == R.OnClose(old(Reg()), holder)
    {
      var state := holder.state;
      holder.state := null;
      if state != null {
        holder.registered := false;
        if state.hooked {
          connections := R.Erase(connections, holder);
        }
      }
    }

    method MaybeCopyRemaining(holder: ConnectionHolder)
      requires holder.Layout() && holder.state != null
      modifies holder`remaining, holder`remainingPos
      ensures holder.Layout() && holder.remainingPos == 0
      ensures holder.remaining == holder.state.buf[holder.state.bufPos..]
    {
      holder.remaining, holder.remainingPos := [], 0;
      if holder.state.bufPos < |holder.state.buf| {
        holder.remaining := holder.remaining + holder.state.buf[holder.state.bufPos..];
      }
    }

    // ~ConnectionHolder(), when nothing refers to the holder any more: the state goes with it,
    // and what was saved.
    method Free(holder: ConnectionHolder)
      requires Valid() && holder in all && holder !in connections
      modifies this`connections, holder`connected, holder`remaining, holder`remainingPos
      modifies holder`state, holder`registered
      ensures Valid() && holder.View() == old(holder.View()).Dropped([])
      ensures Reg() == R.OnClose(old(Reg()), holder)
    {
      holder.connected := false;
      holder.remaining, holder.remainingPos := [], 0;
      assert Reg() == old(Reg());
      DropState(holder);
    }

    method ConnectedFunc(arg: ConnectionHolder?, err: Err, closeOk: bool) returns (r: Err)
      requires Valid() && (arg == null || arg in all)
      modifies this`connections, Parts(arg)
      ensures Valid()
      ensures arg == null ==> Reg() == old(Reg()) && r == ErrArg
      ensures arg != null ==> arg.lastError == err && arg.state in {null, old(arg.state)}
      ensures arg != null ==>
        && arg.View() == OnConnected(old(arg.View()), err)
        && Reg() == (if err == ErrOk then old(Reg()) else R.OnClose(old(Reg()), arg))
    {
      if arg == null { return ErrArg; }
      var holder := arg;
      SetStatus(holder, err, err == ErrOk);
      if err != ErrOk {
        DropState(holder);
        if err != ErrClsd && err != ErrAbrt && !closeOk { return ErrAbrt; }
      }
      return ErrOk;
    }

    // holder->lastError and holder->connected
    method SetStatus(holder: ConnectionHolder, err: Err, connected: bool)
      requires Valid() && holder in all
      modifies holder`lastError, holder`connected
      ensures Valid() && Reg() == old(Reg()) && holder.lastError == err
      ensures holder.View() == old(holder.View()).(connected := connected)
    {
      holder.lastError := err;
      holder.connected := connected;
    }

    method ErrFunc(arg: ConnectionHolder?, err: Err, closeOk: bool)
      requires Valid() && (arg == null || arg in all)
      modifies this`connections, Parts(arg)
      ensures Valid()
      ensures arg == null ==> Reg() == old(Reg())
      ensures arg != null ==> arg.lastError == err && arg.state in {null, old(arg.state)}
      ensures arg != null ==>
        && arg.View() == OnFailed(old(arg.View()), err)
        && Reg() == (if err == ErrOk then old(Reg()) else R.OnClose(old(Reg()), arg))
    {
      if arg == null { return; }
      var holder := arg;
      SetStatus(holder, err, err == ErrOk);
      if err != ErrOk { CloseErr(holder, err); }
    }

    // errFunc on a real error: unread bytes are saved and the state goes.
    method CloseErr(holder: ConnectionHolder, err: Err)
      requires Valid() && holder in all && err != ErrOk && !holder.connected
      modifies this`connections, holder`remaining, holder`remainingPos, holder`state, holder`registered
      ensures Valid() && holder.View() == OnFailed(old(holder.View()), err)
      ensures holder.state == null
      ensures Reg() == R.OnClose(old(Reg()), holder)
    {
      if holder.state != null {
        MaybeCopyRemaining(holder);
        assert holder.remaining[holder.remainingPos..] == holder.remaining;
      }
      assert Reg() == old(Reg());
      DropState(holder);
    }

    // Appends a pbuf chain to the saved bytes.
    method SaveChain(holder: ConnectionHolder, p: Pbuf)
      requires holder.Layout() && holder.remainingPos == 0
      modifies holder`remaining
      ensures holder.Layout()
      ensures holder.remaining == old(holder.remaining) + Bytes(p)
    {
      var q := p;
      while q.Node?
        invariant holder.remaining + Bytes(q) == old(holder.remaining) + Bytes(p)
        decreases q
      {
        assert holder.remaining + Bytes(q) == (holder.remaining + q.payload) + Bytes(q.next);
        holder.remaining := holder.remaining + q.payload;
        q := q.next;
      }
    }

    // Stores a pbuf chain in the live buffer, moving unread bytes to the front first if
    // the chain does not fit behind them. Refuses a chain that does not fit at all.
    method Store(state: ConnectionState, p: Pbuf) returns (stored: bool)
      requires state.bufPos <= |state.buf| <= state.capacity
      modifies state`buf, state`bufPos
      ensures stored <==> |old(state.buf[state.bufPos..])| + |Bytes(p)| <= state.capacity
      ensures state.bufPos <= |state.buf| <= state.capacity
      ensures state.buf[state.bufPos..] ==
              old(state.buf[state.bufPos..]) + if stored then Bytes(p) else []
      ensures !stored ==> unchanged(state)
    {
      var rem := state.capacity - |state.buf| + state.bufPos;
      if rem < |Bytes(p)| {
        return false;
      }
      if state.capacity - |state.buf| < |Bytes(p)| {
        state.buf := state.buf[state.bufPos..];
        state.bufPos := 0;
      }
      ghost var unread := old(state.buf[state.bufPos..]);
      var q := p;
      while q.Node?
        invariant state.bufPos <= |state.buf| && |state.buf| + |Bytes(q)| <= state.capacity
        invariant state.buf[state.bufPos..] + Bytes(q) == unread + Bytes(p)
        decreases q
      {
        ghost var tail := state.buf[state.bufPos..];
        assert tail + Bytes(q) == (tail + q.payload) + Bytes(q.next);
        state.buf := state.buf + q.payload;
        assert state.buf[state.bufPos..] == tail + q.payload;
        q := q.next;
      }
      return true;
    }

    // The closing branch of recvFunc: null chain or error.
    method CloseRecv(holder: ConnectionHolder, p: Pbuf, err: Err)
      requires Valid() && holder in all && (p.Null? || err != ErrOk)
      modifies this`connections, holder
      ensures Valid() && holder.View() == OnRecv(old(holder.View()), window, p, err)
      ensures holder.lastError == old(holder.lastError)
      ensures Reg() == R.OnClose(old(Reg()), holder)
    {
      holder.connected := false;
      if holder.state != null { SaveBuffer(holder, p); }
      assert Reg() == old(Reg());
      DropState(holder);
    }

    method SaveBuffer(holder: ConnectionHolder, p: Pbuf)
      requires holder.Layout() && holder.state != null
      modifies holder`remaining, holder`remainingPos
      ensures holder.Layout()
      ensures holder.View() == old(holder.View()).(rest := old(holder.View()).buf + Bytes(p))
    {
      MaybeCopyRemaining(holder);
      SaveChain(holder, p);
      assert holder.remaining[holder.remainingPos..] == holder.remaining;
    }

    // The data branch of recvFunc. Answers whether the chain was accepted.
    method TakeRecv(holder: ConnectionHolder, p: Pbuf) returns (ok: bool)
      requires Valid() && holder in all && p.Node?
      modifies holder, holder.state
      ensures Valid() && holder.state == old(holder.state) && holder.lastError == old(holder.lastError)
      ensures holder.View() == OnRecv(old(holder.View()), window, p, ErrOk)
      ensures Reg() == old(Reg())
      ensures ok <==> !Refuses(old(holder.View()), window, Recv(p, ErrOk, true))
    {
      holder.connected := true;
      ok := true;
      if holder.state != null {
        ok := Store(holder.state, p);
        assert holder.state.hooked == old(holder.state.hooked);
      }
    }

    // recvFunc, once the argument is known to be a holder.
    method RecvHolder(holder: ConnectionHolder, p: Pbuf, err: Err, closeOk: bool) returns (r: Err)
      requires Valid() && holder in all
      modifies this`connections, holder, holder.state
      ensures Valid() && holder.lastError == err && holder.state in {null, old(holder.state)}
      ensures holder.View() == OnRecv(old(holder.View()), window, p, err)
      ensures Reg() == if p.Null? || err != ErrOk then R.OnClose(old(Reg()), holder) else old(Reg())
      ensures r == ErrInProgress <==> Refuses(old(holder.View()), window, Recv(p, err, closeOk))
    {
      holder.lastError := err;
      assert Reg() == old(Reg()) && holder.View() == old(holder.View());
      if p.Null? || err != ErrOk {
        CloseRecv(holder, p, err);
        r := if err != ErrClsd && err != ErrAbrt && !closeOk then ErrAbrt else ErrOk;
      } else {
        var ok := TakeRecv(holder, p);
        r := if ok then ErrOk else ErrInProgress;
      }
    }

    method RecvFunc(arg: ConnectionHolder?, p: Pbuf, err: Err, closeOk: bool) returns (r: Err)
      requires Valid() && (arg == null || arg in all)
      modifies this`connections, Parts(arg)
      ensures Valid()
      ensures arg == null ==> Reg() == old(Reg()) && r == ErrArg
      ensures arg != null ==>
        && arg.lastError == err && arg.state in {null, old(arg.state)}
        && arg.View() == OnRecv(old(arg.View()), window, p, err)
        && Reg() == (if p.Null? || err != ErrOk then R.OnClose(old(Reg()), arg) else old(Reg()))
        && (r == ErrInProgress <==> Refuses(old(arg.View()), window, Recv(p, err, closeOk)))
    {
      if arg == null { return ErrArg; }
      r := RecvHolder(arg, p, err, closeOk);
    }

    // Files a finished holder on the list and hooks its state to it.
    method AddConnection(holder: ConnectionHolder)
      requires Valid() && holder !in all && holder.Layout() && holder.window == window
      requires holder.state != null
      modifies this`connections, this`all, holder.state`hooked
      ensures Valid() && Reg() == R.OnOpen(old(Reg()), holder)
      ensures all == old(all) + {holder} && unchanged(holder.state`buf, holder.state`bufPos)
    {
      connections := connections + [holder];
      holder.state.hooked := true;
      all := all + {holder};
      assert Reg().live == old(Reg()).live + {holder};
      assert Reg().hooked == old(Reg()).hooked + {holder};
    }

    // A new connection to a listening port; null when it is turned away.
    method AcceptFunc(port: nat, err: Err) returns (holder: ConnectionHolder?)
      requires Valid()
      modifies this`connections, this`all
      ensures Valid() && (holder != null <==> err == ErrOk)
      ensures holder == null ==> unchanged(this)
      ensures holder != null ==>
        && fresh(holder) && holder.localPort == port && all == old(all) + {holder}
        && holder.state != null && fresh(holder.state)
        && holder.View() == Start(true).c && Reg() == R.OnOpen(old(Reg()), holder)
    {
      if err != ErrOk { return null; }
      var h := NewHolder(port);
      h.lastError, h.connected := err, true;
      assert h.View() == Start(true).c;
      AddConnection(h);
      return h;
    }

    method NewHolder(port: nat) returns (h: ConnectionHolder)
      ensures fresh(h) && h.localPort == port && h.window == window && h.Layout()
      ensures h.state != null && fresh(h.state) && h.View() == Start(false).c
    {
      h := new ConnectionHolder(port, window);
      h.state := new ConnectionState(h, window);
      h.registered := true;
    }

    // An outgoing connection; ok is whether tcp_new, tcp_bind and tcp_connect succeeded.
    method Connect(port: nat, ok: bool) returns (holder: ConnectionHolder?)
      requires Valid()
      modifies this`connections, this`all
      ensures Valid() && (holder != null <==> ok)
      ensures holder == null ==> unchanged(this)
      ensures holder != null ==>
        && fresh(holder) && all == old(all) + {holder}
        && holder.View() == Start(false).c && Reg() == R.OnOpen(old(Reg()), holder)
    {
      if !ok { return null; }
      var h := NewHolder(port);
      AddConnection(h);
      return h;
    }

    // One callback, with the argument lwIP has on record for the connection.
    method Dispatch(h: ConnectionHolder, cb: Callback) returns (ghost closed: bool)
      requires Valid() && h in all
      modifies this`connections, Parts(h)
      ensures Valid() && h.View() == Deliver(old(h.View()), window, cb)
      ensures h.state in {null, old(h.state)}
      ensures Reg() == if closed then R.OnClose(old(Reg()), h) else old(Reg())
    {
      var arg := if h.registered then h else null;
      match cb
      case Recv(p, err, closeOk) =>
        var r := RecvFunc(arg, p, err, closeOk);
        closed := arg != null && (p.Null? || err != ErrOk);
      case Failed(err, closeOk) =>
        ErrFunc(arg, err, closeOk);
        closed := arg != null && err != ErrOk;
      case Connected(err, closeOk) =>
        var r := ConnectedFunc(arg, err, closeOk);
        closed := arg != null && err != ErrOk;
    }

    // One thing that happens inside loop(): it concerns one connection only.
    method Happen(event: Event) returns (ghost e: Option<R.Event<ConnectionHolder>>)
      requires Valid() && (event.On? ==> event.h in all)
      modifies this`connections, this`all, if event.On? then Parts(event.h) else {}
      ensures Valid() && old(all) <= all && fresh(all - old(all))
      ensures fresh(States() - old(States()))
      ensures Reg() == if e.None? then old(Reg()) else R.Apply(old(Reg()), e.value)
      ensures forall h :: h in old(all) ==>
                h.View() == TcpStream.Loop(old(h.View()), window, Mine([event], h))
    {
      match event {
        case On(h, cb) => e := HappenOn(h, cb);
        case Incoming(port, err, _) =>
          var h := AcceptFunc(port, err);
          e := if h != null then Some(R.Open(h)) else None;
      }
    }

    method HappenOn(h: ConnectionHolder, cb: Callback) returns (ghost e: Option<R.Event<ConnectionHolder>>)
      requires Valid() && h in all
      modifies this`connections, Parts(h)
      ensures Valid() && Reg() == if e.None? then old(Reg()) else R.Apply(old(Reg()), e.value)
      ensures fresh(States() - old(States()))
      ensures forall g :: g in all ==>
                g.View() == TcpStream.Loop(old(g.View()), window, Mine([On(h, cb)], g))
    {
      var closed := Dispatch(h, cb);
      e := if closed then Some(R.Close(h)) else None;
      assert Mine([On(h, cb)], h) == [cb];
      forall g | g in all
        ensures g.View() == TcpStream.Loop(old(g.View()), window, Mine([On(h, cb)], g))
      {
        LoopOne(old(g.View()), window, cb);
      }
    }

    // EthernetClass::loop(): whatever happens in it, every connection sees its own
    // callbacks in order and nothing else.
    method Loop(events: seq<Event>) returns (ghost es: seq<R.Event<ConnectionHolder>>)
      requires Valid() && forall i :: 0 <= i < |events| && events[i].On? ==> events[i].h in all
      modifies this`connections, this`all, all, States()
      ensures Valid() && old(all) <= all && fresh(all - old(all))
      ensures fresh(States() - old(States()))
      ensures Reg() == R.Loop(old(Reg()), es)
      ensures forall h :: h in old(all) ==>
                h.View() == TcpStream.Loop(old(h.View()), window, Mine(events, h))
      decreases |events|
    {
      es := [];
      if events == [] { return; }
      var e := Happen(events[0]);
      label rest:
      es := Loop(events[1..]);
      forall h | h in old(all)
        ensures h.View() == TcpStream.Loop(old(h.View()), window, Mine(events, h))
      {
        MineSplit(events, h, old(h.View()), window);
        assert old@rest(h.View()) == TcpStream.Loop(old(h.View()), window, Mine([events[0]], h));
      }
      es := if e.None? then es else [e.value] + es;
    }

    // The oldest listed connection of the port that still has a state.
    method FindConnected(port: nat) returns (found: Option<ConnectionHolder>)
      requires Valid()
      ensures found == R.Find(connections, Reg().live, OnPort(port))
      ensures found.Some? ==> found.value.localPort == port && found.value.state != null
    {
      ghost var onPort := OnPort(port);
      var i := 0;
      while i < |connections|
        invariant 0 <= i <= |connections|
        invariant R.Find(connections[i..], Reg().live, onPort) == R.Find(connections, Reg().live, onPort)
      {
        var h := connections[i];
        assert h in connections;
        if h.state != null && h.localPort == port { return Some(h); }
        i := i + 1;
      }
      return None;
    }

    // The holders whose state has bytes waiting.
    ghost function WithData(): set<ConnectionHolder>
      requires Valid()
      reads this, all, States()
    {
      set h | h in all && h.state != null && h.View().buf != []
    }

    // The oldest listed connection of the port with bytes waiting.
    method FindAvailable(port: nat) returns (found: Option<ConnectionHolder>)
      requires Valid()
      ensures found == R.Find(connections, WithData(), OnPort(port))
      ensures found.Some? ==> found.value.localPort == port && found.value in all && found.value.View().buf != []
    {
      ghost var onPort := OnPort(port);
      var i := 0;
      while i < |connections|
        invariant 0 <= i <= |connections|
        invariant R.Find(connections[i..], WithData(), onPort) == R.Find(connections, WithData(), onPort)
      {
        var h := connections[i];
        assert h in connections;
        if h.state != null && h.localPort == port && h.state.bufPos < |h.state.buf| { return Some(h); }
        i := i + 1;
      }
      return None;
    }

    // Takes a connection off the list; its state no longer erases it on destruction.
    method Remove(holder: ConnectionHolder) returns (removed: bool)
      requires Valid() && holder in all
      modifies this`connections, States()`hooked
      ensures forall h :: h in all ==> h.View() == old(h.View())
      ensures Valid() && Reg() == R.Remove(old(Reg()), holder)
      ensures removed <==> holder in old(connections)
    {
      removed := holder in connections;
      if removed {
        if holder.state != null { holder.state.hooked := false; }
        connections := R.Erase(connections, holder);
      }
    }

    // The last step of accept().
    method HandOut(holder: ConnectionHolder)
      requires Valid() && holder in all
      modifies this`connections, this`out, States()`hooked
      ensures forall h :: h in all ==> h.View() == old(h.View())
      ensures Valid() && Reg() == R.Remove(old(Reg()), holder).(out := old(out) + [holder])
    {
      var _ := Remove(holder);
      out := out + [holder];
    }

    // EthernetServer::accept().
    method Accept(port: nat, events: seq<Event>)
        returns (conn: Option<ConnectionHolder>, ghost es: seq<R.Event<ConnectionHolder>>)
      requires Valid() && forall i :: 0 <= i < |events| && events[i].On? ==> events[i].h in all
      modifies this`connections, this`all, this`out, all, States()
      ensures Valid() && old(all) <= all
      ensures Reg() == R.Accept(old(Reg()), OnPort(port), es)
      ensures conn == R.Find(old(connections), old(Reg().live), OnPort(port))
      ensures forall h :: h in old(all) ==>
                h.View() == TcpStream.Loop(old(h.View()), window, Mine(events, h))
    {
      conn := FindConnected(port);
      FindListed(connections, Reg().live, OnPort(port));
      es := Loop(events);
      if conn.Some? {
        HandOut(conn.value);
      }
    }

    // EthernetServer::available(): the connection found stays on the list.
    method Available(port: nat, events: seq<Event>)
        returns (conn: Option<ConnectionHolder>, ghost es: seq<R.Event<ConnectionHolder>>)
      requires Valid() && forall i :: 0 <= i < |events| && events[i].On? ==> events[i].h in all
      modifies this`connections, this`all, all, States()
      ensures Valid() && old(all) <= all
      ensures Reg() == R.Loop(old(Reg()), es)
      ensures conn == R.Find(old(connections), old(WithData()), OnPort(port))
      ensures forall h :: h in old(all) ==>
                h.View() == TcpStream.Loop(old(h.View()), window, Mine(events, h))
    {
      conn := FindAvailable(port);
      es := Loop(events);
    }
  }

  // How a receiving call goes on: TcpStream.Gate without the connection.
  datatype Way = FromSaved | Gone | NoState | FromLive

  class EthernetClient {
    var conn: ConnectionHolder?

    constructor (conn: ConnectionHolder?)
      ensures this.conn == conn
    {
      this.conn := conn;
    }

    ghost predicate Ready(m: ConnectionManager, events: seq<Event>)
      reads this, m, m.all, m.States()
    {
      && m.Valid() && (conn == null || conn in m.all)
      && forall i :: 0 <= i < |events| && events[i].On? ==> events[i].h in m.all
    }

    // What a call left behind for connection h, in the terms of TcpStream.
    ghost predicate Shows(h: ConnectionHolder, o: Outcome)
      requires h.Layout()
      reads this, h, h.state
    {
      conn == (if o.attached then h else null) && h.View() == o.c
    }

    // The first lines every receiving call shares. Only the last way in runs loop().
    method Enter(m: ConnectionManager, events: seq<Event>) returns (way: Way)
      requires Ready(m, events)
      modifies this, m`connections, m`all, m.all, m.States()
      ensures m.Valid() && fresh(m.States() - old(m.States())) && old(m.all) <= m.all
      ensures old(conn) == null ==> way == Gone && conn == null
      ensures old(conn) != null ==>
        var h, g := old(conn), TcpStream.Enter(old(conn.View()), m.window, true, Mine(events, old(conn)));
        && way == (match g case Saved => FromSaved case Detached => Gone
                           case Stateless => NoState case Looped(_) => FromLive)
        && conn == (if way == Gone then null else h)
        && h.View() == (if g.Looped? then g.c else old(h.View()))
    {
      if conn == null { return Gone; }
      if conn.remaining != [] { return FromSaved; }
      if !conn.connected {
        conn := null;
        return Gone;
      }
      if conn.state == null { return NoState; }
      var _ := m.Loop(events);
      return FromLive;
    }

    // Moves past n saved bytes; the vector is emptied with its last byte.
    method SkipSaved(h: ConnectionHolder, n: nat)
      requires h.Layout() && h.remaining != [] && n <= |h.remaining| - h.remainingPos
      modifies h`remaining, h`remainingPos
      ensures h.Layout() && h.View() == old(h.View()).(rest := old(h.View()).rest[n..])
    {
      h.remainingPos := h.remainingPos + n;
      if h.remainingPos >= |h.remaining| {
        h.remaining, h.remainingPos := [], 0;
      }
    }

    // read()
    method Read1(m: ConnectionManager, events: seq<Event>) returns (r: int)
      requires Ready(m, events)
      modifies this, m`connections, m`all, m.all, m.States()
      ensures m.Valid() && old(m.all) <= m.all
      ensures old(conn) == null ==> r == -1 && conn == null
      ensures old(conn) != null ==>
        var o := TcpStream.Read1(old(conn.View()), m.window, true, Mine(events, old(conn)));
        Shows(old(conn), o) && r == o.result
    {
      var way := Enter(m, events);
      match way
      case Gone => return -1;
      case NoState => return 0;
      case FromSaved =>
        r := conn.remaining[conn.remainingPos];
        SkipSaved(conn, 1);
      case FromLive =>
        r := -1;
        if conn.state != null { r := TakeLive(conn); }
    }

    method TakeLive(h: ConnectionHolder) returns (r: int)
      requires h.Layout() && h.state != null
      modifies h.state`bufPos
      ensures h.Layout()
      ensures var c := old(h.View());
              if c.buf != [] then r == c.buf[0] && h.View() == c.(buf := c.buf[1..])
              else r == -1 && h.View() == c
    {
      var state := h.state;
      if !(state.bufPos < |state.buf|) { return -1; }
      r := state.buf[state.bufPos];
      state.bufPos := state.bufPos + 1;
    }

    // read(buf, size): data is what was copied out.
    method ReadN(m: ConnectionManager, events: seq<Event>, size: nat) returns (n: int, data: seq<Byte>)
      requires Ready(m, events)
      modifies this, m`connections, m`all, m.all, m.States()
      ensures m.Valid() && old(m.all) <= m.all
      ensures old(conn) == null ==> n == 0 && data == [] && conn == null
      ensures old(conn) != null ==>
        var o := TcpStream.ReadN(old(conn.View()), m.window, true, size, Mine(events, old(conn)));
        Shows(old(conn), o) && n == o.result && data == o.got
    {
      n, data := 0, [];
      var way := Enter(m, events);
      match way
      case Gone =>
      case NoState =>
      case FromSaved => n, data := CopySaved(conn, size);
      case FromLive =>
        if conn.state != null { n, data := CopyLive(conn, size); }
    }

    method CopySaved(h: ConnectionHolder, size: nat) returns (n: nat, data: seq<Byte>)
      requires h.Layout() && h.remaining != []
      modifies h`remaining, h`remainingPos
      ensures h.Layout() && n == Min(size, |old(h.View()).rest|) && data == old(h.View()).rest[..n]
      ensures h.View() == old(h.View()).(rest := old(h.View()).rest[n..])
    {
      if size == 0 { return 0, []; }
      n := Min(size, |h.remaining| - h.remainingPos);
      data := h.remaining[h.remainingPos..h.remainingPos + n];
      SkipSaved(h, n);
    }

    method CopyLive(h: ConnectionHolder, size: nat) returns (n: nat, data: seq<Byte>)
      requires h.Layout() && h.state != null
      modifies h.state`bufPos
      ensures h.Layout() && n == Min(size, |old(h.View()).buf|) && data == old(h.View()).buf[..n]
      ensures h.View() == old(h.View()).(buf := old(h.View()).buf[n..])
    {
      var state := h.state;
      if size == 0 || !(state.bufPos < |state.buf|) { return 0, []; }
      n := Min(size, |state.buf| - state.bufPos);
      data := state.buf[state.bufPos..state.bufPos + n];
      state.bufPos := state.bufPos + n;
    }

    // peek()
    method Peek(m: ConnectionManager, events: seq<Event>) returns (r: int)
      requires Ready(m, events)
      modifies this, m`connections, m`all, m.all, m.States()
      ensures m.Valid() && old(m.all) <= m.all
      ensures old(conn) == null ==> r == -1 && conn == null
      ensures old(conn) != null ==>
        var o := TcpStream.Peek(old(conn.View()), m.window, true, Mine(events, old(conn)));
        Shows(old(conn), o) && r == o.result
    {
      var way := Enter(m, events);
      match way
      case Gone => r := -1;
      case NoState => r := 0;
      case FromSaved => r := conn.remaining[conn.remainingPos];
      case FromLive =>
        var state := conn.state;
        r := if state == null || !(state.bufPos < |state.buf|) then -1 else state.buf[state.bufPos];
    }

    // available()
    method Available(m: ConnectionManager, events: seq<Event>) returns (r: int)
      requires Ready(m, events)
      modifies this, m`connections, m`all, m.all, m.States()
      ensures m.Valid() && old(m.all) <= m.all
      ensures old(conn) == null ==> r == 0 && conn == null
      ensures old(conn) != null ==>
        var o := TcpStream.Available(old(conn.View()), m.window, true, Mine(events, old(conn)));
        Shows(old(conn), o) && r == o.result
    {
      var way := Enter(m, events);
      match way
      case Gone => r := 0;
      case NoState => r := 0;
      case FromSaved => r := |conn.remaining| - conn.remainingPos;
      case FromLive =>
        var state := conn.state;
        r := if state == null || !(state.bufPos < |state.buf|) then 0 else |state.buf| - state.bufPos;
    }

    // stop(): lets go of the connection, after one more loop() if it is open.
    method Stop(m: ConnectionManager, events: seq<Event>)
      requires Ready(m, events)
      modifies this, m`connections, m`all, m.all, m.States()
      ensures m.Valid() && old(m.all) <= m.all
      ensures old(conn) == null ==> conn == null
      ensures old(conn) != null ==>
        Shows(old(conn), TcpStream.Stop(old(conn.View()), m.window, true, Mine(events, old(conn))))
    {
      if conn == null { return; }
      if conn.state != null && conn.connected {
        var _ := m.Loop(events);
      }
      conn := null;
    }

    // operator bool()
    method IsTrue(m: ConnectionManager, events: seq<Event>) returns (r: bool)
      requires Ready(m, events)
      modifies this, m`connections, m`all, m.all, m.States()
      ensures m.Valid() && old(m.all) <= m.all
      ensures old(conn) == null ==> !r && conn == null
      ensures old(conn) != null ==>
        var o := TcpStream.IsTrue(old(conn.View()), m.window, true, Mine(events, old(conn)));
        Shows(old(conn), o) && (r <==> o.result == 1)
      ensures r <==> old(conn) != null && old(conn.connected)
    {
      if conn == null { return false; }
      if !conn.connected {
        if conn.remaining == [] { conn := null; }
        return false;
      }
      var _ := m.Loop(events);
      return true;
    }

    // ~EthernetClient(); last: no copy of this object refers to the connection. Unless the
    // list does, the holder is destroyed then.
    method Destroy(m: ConnectionManager, last: bool)
      requires Ready(m, [])
      modifies this, m`connections, m.all
      ensures m.Valid() && conn == null
      ensures old(conn) != null ==>
        var h, o := old(conn), Destroyed(old(conn.View()));
        && h.View() == Settle(History(o.c, h in old(m.connections), !last, [], [], false)).c
        && m.Reg() == if last && h !in old(m.connections) then R.OnClose(old(m.Reg()), h) else old(m.Reg())
    {
      var h := conn;
      conn := null;
      if h != null && last && h !in m.connections { m.Free(h); }
    }

    // connected()
    method IsConnected(m: ConnectionManager, events: seq<Event>) returns (r: bool)
      requires Ready(m, events)
      modifies this, m`connections, m`all, m.all, m.States()
      ensures m.Valid() && old(m.all) <= m.all
      ensures old(conn) == null ==> !r && conn == null
      ensures old(conn) != null ==>
        var o := TcpStream.IsConnected(old(conn.View()), m.window, true, Mine(events, old(conn)));
        Shows(old(conn), o) && (r <==> o.result == 1)
      ensures r <==> old(conn) != null && (old(conn.connected) || old(conn.View()).rest != [])
      ensures conn == if r then old(conn) else null
    {
      if conn == null { return false; }
      if !conn.connected && conn.remaining == [] {
        conn := null;
        return false;
      }
      var _ := m.Loop(events);
      return true;
    }
  }

  lemma LoopOne(c: Conn, cap: nat, cb: Callback)
    ensures TcpStream.Loop(c, cap, [cb]) == Deliver(c, cap, cb)
  {
    assert [cb][1..] == [];
  }

  lemma FindListed(list: seq<ConnectionHolder>, live: set<ConnectionHolder>, onPort: ConnectionHolder -> bool)
    ensures var f := R.Find(list, live, onPort); f.Some? ==> f.value in list
  {
  }

  lemma MineSplit(events: seq<Event>, h: ConnectionHolder, c: Conn, cap: nat)
    requires events != []
    ensures TcpStream.Loop(c, cap, Mine(events, h)) ==
            TcpStream.Loop(TcpStream.Loop(c, cap, Mine([events[0]], h)), cap, Mine(events[1..], h))
  {
    var e := events[0];
    assert [e][1..] == [];
    if e.On? && e.h == h {
      assert Mine([e], h) == [e.cb];
      LoopOne(c, cap, e.cb);
      assert ([e.cb] + Mine(events[1..], h))[1..] == Mine(events[1..], h);
    }
  }
}
