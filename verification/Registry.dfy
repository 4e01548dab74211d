// Which connections exist, wait to be accepted, and have been handed out.
// T is the identity of a connection; the classes use the holder object itself.
module Registry {
  import opened Options

  // live: the holder has a state. hooked: that state still carries the function that
  // takes the holder off the list. list: connections_. out: what accept() handed out.
  datatype Reg<T(==)> = Reg(known: set<T>, live: set<T>, hooked: set<T>, list: seq<T>, out: seq<T>)

  datatype Event<T> = Open(t: T) | Close(t: T)

  function Erase<T(==)>(s: seq<T>, t: T): (r: seq<T>)
    ensures forall x :: x in r ==> x in s
  {
    if s == [] then [] else if s[0] == t then s[1..] else [s[0]] + Erase(s[1..], t)
  }

  // Every new holder is a new object.
  function OnOpen<T>(r: Reg<T>, t: T): Reg<T> {
    if t in r.known then r
    else Reg(r.known + {t}, r.live + {t}, r.hooked + {t}, r.list + [t], r.out)
  }

  // The state is dropped; its destructor runs the hook.
  function OnClose<T>(r: Reg<T>, t: T): Reg<T> {
    if t !in r.live then r
    else r.(live := r.live - {t}, hooked := r.hooked - {t},
            list := if t in r.hooked then Erase(r.list, t) else r.list)
  }

  function Apply<T>(r: Reg<T>, e: Event<T>): Reg<T> {
    match e
    case Open(t) => OnOpen(r, t)
    case Close(t) => OnClose(r, t)
  }

  function Loop<T>(r: Reg<T>, es: seq<Event<T>>): Reg<T>
    decreases |es|
  {
    if es == [] then r else Loop(Apply(r, es[0]), es[1..])
  }

  // findConnected: the first listed connection that has a state and the port.
  function Find<T>(list: seq<T>, live: set<T>, onPort: T -> bool): Option<T> {
    if list == [] then None
    else if list[0] in live && onPort(list[0]) then Some(list[0])
    else Find(list[1..], live, onPort)
  }

  function Remove<T>(r: Reg<T>, t: T): Reg<T> {
    if t in r.list then r.(hooked := r.hooked - {t}, list := Erase(r.list, t)) else r
  }

  // accept(): find, let things happen, remove, hand out.
  function Accept<T>(r: Reg<T>, onPort: T -> bool, inner: seq<Event<T>>): Reg<T> {
    var f := Find(r.list, r.live, onPort);
    var r1 := Loop(r, inner);
    if f.None? then r1 else Remove(r1, f.value).(out := r1.out + [f.value])
  }

  datatype Op<!T> = Happens(e: Event<T>) | Accepts(onPort: T -> bool, inner: seq<Event<T>>)

  function Run<T>(r: Reg<T>, ops: seq<Op<T>>): Reg<T>
    decreases |ops|
  {
    if ops == [] then r
    else Run(match ops[0]
             case Happens(e) => Apply(r, e)
             case Accepts(onPort, inner) => Accept(r, onPort, inner), ops[1..])
  }

  ghost predicate NoDup<T>(s: seq<T>) { forall i, j :: 0 <= i < j < |s| ==> s[i] != s[j] }

  // The listed connections are distinct, alive and exactly the hooked ones; what was
  // handed out is distinct and no longer listed; no live connection is ever mislaid.
  ghost predicate Inv<T(!new)>(r: Reg<T>) {
    && NoDup(r.list) && NoDup(r.out)
    && (forall t :: t in r.list <==> t in r.hooked)
    && r.hooked <= r.live <= r.known
    && (forall t :: t in r.out ==> t in r.known && t !in r.list)
    && (forall t :: t in r.live ==> t in r.list || t in r.out)
  }

  lemma {:induction false} EraseOnce<T>(s: seq<T>, t: T)
    requires NoDup(s)
    ensures NoDup(Erase(s, t))
    ensures forall x :: x in Erase(s, t) <==> x in s && x != t
  {
    if s != [] {
      EraseOnce(s[1..], t);
      assert s == [s[0]] + s[1..];
      if s[0] == t {
        assert forall x :: x in s[1..] ==> x != t;
      } else {
        assert s[0] !in s[1..];
      }
    }
  }

  lemma ApplyKeeps<T(!new)>(r: Reg<T>, e: Event<T>)
    requires Inv(r)
    ensures Inv(Apply(r, e)) && Apply(r, e).out == r.out && r.known <= Apply(r, e).known
    ensures forall t :: t in r.known && t in Apply(r, e).list ==> t in r.list
  {
    EraseOnce(r.list, e.t);
  }

  lemma {:induction false} LoopKeeps<T(!new)>(r: Reg<T>, es: seq<Event<T>>)
    requires Inv(r)
    ensures Inv(Loop(r, es)) && Loop(r, es).out == r.out && r.known <= Loop(r, es).known
    ensures forall t :: t in r.known && t in Loop(r, es).list ==> t in r.list
    decreases |es|
  {
    if es != [] {
      ApplyKeeps(r, es[0]);
      LoopKeeps(Apply(r, es[0]), es[1..]);
    }
  }

  // findConnected returns the oldest match, and nothing only when there is none.
  lemma {:induction false} FindFirst<T>(list: seq<T>, live: set<T>, onPort: T -> bool)
    ensures match Find(list, live, onPort)
            case None => forall t :: t in list ==> t !in live || !onPort(t)
            case Some(t) => exists i :: 0 <= i < |list| && list[i] == t && t in live && onPort(t) &&
                              forall j :: 0 <= j < i ==> list[j] !in live || !onPort(list[j])
  {
    if list != [] && !(list[0] in live && onPort(list[0])) {
      FindFirst(list[1..], live, onPort);
      var f := Find(list[1..], live, onPort);
      if f.Some? {
        var i :| 0 <= i < |list[1..]| && list[1..][i] == f.value &&
                 forall j :: 0 <= j < i ==> list[1..][j] !in live || !onPort(list[1..][j]);
        assert list[i + 1] == f.value;
        assert forall j :: 1 <= j < i + 1 ==> list[j] == list[1..][j - 1];
      }
    }
  }

  // accept() hands out the oldest waiting connection of the port, even one that closes
  // during its own loop, and leaves no trace of it on the list.
  lemma AcceptKeeps<T(!new)>(r: Reg<T>, onPort: T -> bool, inner: seq<Event<T>>)
    requires Inv(r)
    ensures var r' := Accept(r, onPort, inner);
            && Inv(r')
            && match Find(r.list, r.live, onPort)
               case None => r'.out == r.out
               case Some(t) => r'.out == r.out + [t] && t !in r.out && t !in r'.list
  {
    FindFirst(r.list, r.live, onPort);
    LoopKeeps(r, inner);
    var f := Find(r.list, r.live, onPort);
    if f.Some? {
      EraseOnce(Loop(r, inner).list, f.value);
    }
  }

  lemma HandOutKeeps<T(!new)>(r: Reg<T>, t: T)
    requires Inv(r) && t in r.known && t !in r.out
    ensures Inv(Remove(r, t).(out := r.out + [t]))
  {
    EraseOnce(r.list, t);
  }

  // A connection that closed while it waited is gone: no later accept() hands it out.
  lemma {:induction false} GoneStaysGone<T(!new)>(r: Reg<T>, ops: seq<Op<T>>, t: T)
    requires Inv(r) && t in r.known && t !in r.list && t !in r.out
    ensures t !in Run(r, ops).out
    decreases |ops|
  {
    if ops != [] {
      match ops[0] {
        case Happens(e) =>
          ApplyKeeps(r, e);
          GoneStaysGone(Apply(r, e), ops[1..], t);
        case Accepts(onPort, inner) =>
          AcceptKeeps(r, onPort, inner);
          AcceptLeaves(r, onPort, inner, t);
          GoneStaysGone(Accept(r, onPort, inner), ops[1..], t);
      }
    }
  }

  lemma AcceptLeaves<T(!new)>(r: Reg<T>, onPort: T -> bool, inner: seq<Event<T>>, t: T)
    requires Inv(r) && t in r.known && t !in r.list && t !in r.out
    ensures var r' := Accept(r, onPort, inner); t in r'.known && t !in r'.list && t !in r'.out
  {
    FindFirst(r.list, r.live, onPort);
    LoopKeeps(r, inner);
  }

  // Over every run from the empty manager: each connection is handed out at most once,
  // the list never holds a duplicate or a connection without a state, and every live
  // connection is either waiting or handed out.
  lemma {:induction false} RunKeeps<T(!new)>(r: Reg<T>, ops: seq<Op<T>>)
    requires Inv(r)
    ensures Inv(Run(r, ops)) && r.out <= Run(r, ops).out
    decreases |ops|
  {
    if ops != [] {
      match ops[0] {
        case Happens(e) => ApplyKeeps(r, e); RunKeeps(Apply(r, e), ops[1..]);
        case Accepts(onPort, inner) =>
          AcceptKeeps(r, onPort, inner);
          RunKeeps(Accept(r, onPort, inner), ops[1..]);
      }
    }
  }

  lemma BookkeepingAlways<T(!new)>(ops: seq<Op<T>>)
    ensures var r := Run(Reg({}, {}, {}, [], []), ops);
            && NoDup(r.out) && NoDup(r.list)
            && (forall t :: t in r.list ==> t in r.live && t !in r.out)
            && (forall t :: t in r.live ==> t in r.list || t in r.out)
  {
    RunKeeps(Reg({}, {}, {}, [], []), ops);
  }
}
