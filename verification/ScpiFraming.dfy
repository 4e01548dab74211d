// SCPI message framing: characters collected in a small buffer until the terminator is
// seen, the buffer is full, or nothing has come for too long.
module ScpiFraming {

  const BUFFER_LENGTH := 64

  const NUL := '\0'

  // A C string ends at its first NUL.
  function UpToNul(s: string): string {
    if s == [] || s[0] == NUL then [] else [s[0]] + UpToNul(s[1..])
  }

  predicate OccursAt(s: string, t: string, i: int) { 0 <= i <= |s| - |t| && s[i..i + |t|] == t }

  // strstr finds t in s.
  predicate Found(s: string, t: string) { exists i :: 0 <= i <= |s| - |t| && OccursAt(s, t, i) }

  datatype Event = Message(text: string) | Overflow

  // One character: the buffer after it and what is reported, if anything. The message
  // handed out is the buffer, cut a terminator's length before its end.
  function Take(buf: string, c: char, term: string): (string, seq<Event>) {
    var now := buf + [c];
    if |now| >= BUFFER_LENGTH then ("", [Overflow])
    else if Found(UpToNul(now), term) then
      UpToNulLength(now); ("", [Message(UpToNul(now[..|now| - |term|]))])
    else (now, [])
  }

  lemma UpToNulLength(s: string)
    ensures |UpToNul(s)| <= |s|
  {
  }

  // ----------------------------------------------------- the stream as a whole

  // What an input means, taken one character after the other.
  function Frames(buf: string, input: string, term: string): seq<Event>
    decreases |input|
  {
    if input == [] then []
    else var (buf', events) := Take(buf, input[0], term); events + Frames(buf', input[1..], term)
  }

  function Rest(buf: string, input: string, term: string): string
    decreases |input|
  {
    if input == [] then buf else Rest(Take(buf, input[0], term).0, input[1..], term)
  }

  lemma {:induction false} FramesAppend(buf: string, a: string, b: string, term: string)
    ensures Frames(buf, a + b, term) == Frames(buf, a, term) + Frames(Rest(buf, a, term), b, term)
    ensures Rest(buf, a + b, term) == Rest(Rest(buf, a, term), b, term)
    decreases |a|
  {
    if a == [] {
      assert a + b == b;
    } else {
      assert (a + b)[1..] == a[1..] + b;
      FramesAppend(Take(buf, a[0], term).0, a[1..], b, term);
    }
  }

  // ----------------------------------------------------------------- one call

  datatype Outcome = Nothing | Got(event: Event) | Timeout

  datatype Called = Called(buf: string, pending: string, outcome: Outcome)

  // A call reads until it has something to report or nothing more to read; late says
  // that the last character came too long ago.
  function Call(buf: string, pending: string, term: string, late: bool): Called
    decreases |pending|
  {
    if pending == [] then
      if buf != [] && late then Called("", pending, Timeout) else Called(buf, pending, Nothing)
    else
      var (buf', events) := Take(buf, pending[0], term);
      if events == [] then Call(buf', pending[1..], term, late) else Called(buf', pending[1..], Got(events[0]))
  }

  function Reported(outcome: Outcome): seq<Event> { if outcome.Got? then [outcome.event] else [] }

  // A call reports the first event of what is waiting, and leaves the rest as it was.
  lemma {:induction false} CallIsPrefix(buf: string, pending: string, term: string, late: bool)
    requires !Call(buf, pending, term, late).outcome.Timeout?
    ensures var c := Call(buf, pending, term, late);
            && Frames(buf, pending, term) == Reported(c.outcome) + Frames(c.buf, c.pending, term)
            && Rest(buf, pending, term) == Rest(c.buf, c.pending, term)
            && (c.outcome == Nothing ==> c.pending == [])
            && (pending != [] ==> |c.pending| < |pending|)
    decreases |pending|
  {
    if pending != [] {
      var (buf', events) := Take(buf, pending[0], term);
      if events == [] {
        CallIsPrefix(buf', pending[1..], term, late);
        assert [] + Frames(buf', pending[1..], term) == Frames(buf', pending[1..], term);
      }
    }
  }

  // -------------------------------------------------------------- whole schedules

  datatype Act = Arrive(bytes: string) | Poll(late: bool)

  datatype Link = Link(buf: string, pending: string, out: seq<Event>, timeouts: nat)

  function Do(l: Link, act: Act, term: string): Link {
    match act
    case Arrive(bytes) => l.(pending := l.pending + bytes)
    case Poll(late) =>
      var c := Call(l.buf, l.pending, term, late);
      Link(c.buf, c.pending, l.out + Reported(c.outcome), l.timeouts + if c.outcome.Timeout? then 1 else 0)
  }

  function Run(l: Link, acts: seq<Act>, term: string): Link
    decreases |acts|
  {
    if acts == [] then l else Run(Do(l, acts[0], term), acts[1..], term)
  }

  function Arrived(acts: seq<Act>): string {
    if acts == [] then [] else (if acts[0].Arrive? then acts[0].bytes else []) + Arrived(acts[1..])
  }

  // What a link has said and will say.
  function Said(l: Link, term: string): seq<Event> { l.out + Frames(l.buf, l.pending, term) }

  lemma DoKeeps(l: Link, act: Act, term: string)
    requires Do(l, act, term).timeouts == l.timeouts
    ensures var l' := Do(l, act, term);
            && l'.timeouts >= l.timeouts
            && Said(l', term) == Said(l, term)
               + Frames(Rest(l.buf, l.pending, term), if act.Arrive? then act.bytes else [], term)
            && Rest(l'.buf, l'.pending, term)
               == Rest(Rest(l.buf, l.pending, term), if act.Arrive? then act.bytes else [], term)
  {
    match act {
      case Arrive(bytes) =>
        FramesAppend(l.buf, l.pending, bytes, term);
        Regroup(l.out, Frames(l.buf, l.pending, term), Frames(Rest(l.buf, l.pending, term), bytes, term));
      case Poll(late) =>
        CallIsPrefix(l.buf, l.pending, term, late);
        var c := Call(l.buf, l.pending, term, late);
        Regroup(l.out, Reported(c.outcome), Frames(c.buf, c.pending, term));
    }
  }

  // A call that comes late drops what there is of a message that has not ended, and nothing
  // else: it times out exactly when no event and some characters are waiting.
  lemma {:induction false} LateCall(buf: string, pending: string, term: string, late: bool)
    ensures var c := Call(buf, pending, term, late);
            && (c.outcome.Timeout? <==> late && Frames(buf, pending, term) == [] && Rest(buf, pending, term) != [])
            && (c.outcome == Nothing <==> Frames(buf, pending, term) == [] && !c.outcome.Timeout?)
            && (!c.outcome.Got? ==>
                  c.pending == [] && c.buf == if c.outcome.Timeout? then [] else Rest(buf, pending, term))
    decreases |pending|
  {
    if pending != [] {
      var (buf', events) := Take(buf, pending[0], term);
      if events == [] {
        LateCall(buf', pending[1..], term, late);
        assert [] + Frames(buf', pending[1..], term) == Frames(buf', pending[1..], term);
      }
    }
  }

  lemma Regroup(a: seq<Event>, b: seq<Event>, c: seq<Event>)
    ensures (a + b) + c == a + (b + c)
    ensures a + [] == a
  {
  }

  lemma {:induction false} TimeoutsGrow(l: Link, acts: seq<Act>, term: string)
    ensures Run(l, acts, term).timeouts >= l.timeouts
    decreases |acts|
  {
    if acts != [] { TimeoutsGrow(Do(l, acts[0], term), acts[1..], term); }
  }

  // Chunks do not matter: without a timeout, however arrivals and calls interleave, what
  // has been reported and what is still waiting are the frames of the input as a whole.
  lemma {:induction false} ChunkingIrrelevant(l: Link, acts: seq<Act>, term: string)
    requires Run(l, acts, term).timeouts == l.timeouts
    ensures Said(Run(l, acts, term), term) == Said(l, term) + Frames(Rest(l.buf, l.pending, term), Arrived(acts), term)
    decreases |acts|
  {
    if acts != [] {
      var l' := Do(l, acts[0], term);
      TimeoutsGrow(l', acts[1..], term);
      var bytes := if acts[0].Arrive? then acts[0].bytes else [];
      DoGrow(l, acts[0], term);
      DoKeeps(l, acts[0], term);
      ChunkingIrrelevant(l', acts[1..], term);
      FramesAppend(Rest(l.buf, l.pending, term), bytes, Arrived(acts[1..]), term);
    }
  }

  lemma DoGrow(l: Link, act: Act, term: string)
    ensures Do(l, act, term).timeouts >= l.timeouts
  {
  }

  // Calls made for as long as something waits come to an end, and then everything has
  // been said.
  lemma {:induction false} CallsDrain(l: Link, polls: seq<Act>, term: string)
    requires |polls| >= |l.pending| && forall k :: 0 <= k < |polls| ==> polls[k].Poll?
    requires Run(l, polls, term).timeouts == l.timeouts
    ensures Run(l, polls, term).pending == [] && Run(l, polls, term).out == Said(l, term)
    decreases |polls|
  {
    if polls == [] {
      Regroup(l.out, [], []);
    } else {
      var l' := Do(l, polls[0], term);
      TimeoutsGrow(l', polls[1..], term);
      DoGrow(l, polls[0], term);
      DoKeeps(l, polls[0], term);
      CallIsPrefix(l.buf, l.pending, term, polls[0].late);
      CallsDrain(l', polls[1..], term);
    }
  }

  // ------------------------------------------------------ what the messages are

  predicate NoNul(s: string) { NUL !in s }

  lemma {:induction false} WholeString(s: string)
    ensures UpToNul(s) == s <==> NoNul(s)
  {
    if s != [] && s[0] != NUL {
      WholeString(s[1..]);
      assert s == [s[0]] + s[1..];
      assert NoNul(s) <==> NoNul(s[1..]);
    }
  }

  lemma {:induction false} UpToNulSnoc(s: string, c: char)
    ensures UpToNul(s + [c]) == if NoNul(s) && c != NUL then s + [c] else UpToNul(s)
  {
    if s == [] {
      assert [c][1..] == [];
    } else {
      assert (s + [c])[1..] == s[1..] + [c];
      UpToNulSnoc(s[1..], c);
      assert NoNul(s) <==> s[0] != NUL && NoNul(s[1..]);
      assert [s[0]] + (s[1..] + [c]) == s + [c];
    }
  }

  // A buffer between calls: not full, and no terminator in it.
  ghost predicate Waiting(buf: string, term: string) {
    |buf| < 64 && !Found(UpToNul(buf), term)
  }

  // The characters an event stands for: the message and the terminator, which occurs
  // nowhere before the end; or a full buffer without one.
  ghost predicate Explains(event: Event, chunk: string, term: string) {
    match event
    case Message(text) =>
      && chunk == text + term
      && chunk != []
      && |chunk| < 64
      && NoNul(chunk)
      && !Found(chunk[..|chunk| - 1], term)
    case Overflow =>
      |chunk| == 64 && !Found(UpToNul(chunk[..|chunk| - 1]), term)
  }

  lemma TakeExplains(buf: string, c: char, term: string)
    requires Waiting(buf, term)
    ensures var (buf', events) := Take(buf, c, term);
            if events == [] then buf' == buf + [c] && Waiting(buf', term)
            else |events| == 1 && buf' == [] && Explains(events[0], buf + [c], term)
  {
    var now := buf + [c];
    UpToNulSnoc(buf, c);
    WholeString(buf);
    assert now[..|now| - 1] == buf;
    if |now| < BUFFER_LENGTH && Found(UpToNul(now), term) { FoundExplains(buf, c, term); }
  }

  lemma FoundExplains(buf: string, c: char, term: string)
    requires Waiting(buf, term) && |buf + [c]| < BUFFER_LENGTH && Found(UpToNul(buf + [c]), term)
    ensures var (buf', events) := Take(buf, c, term);
            |events| == 1 && buf' == [] && Explains(events[0], buf + [c], term)
  {
    var now := buf + [c];
    UpToNulSnoc(buf, c);
    WholeString(buf);
    assert now[..|now| - 1] == buf;
    TerminatorLast(buf, c, term);
    var text := now[..|now| - |term|];
    WholeString(text);
    assert now == text + term;
  }

  lemma TerminatorLast(buf: string, c: char, term: string)
    requires Found(buf + [c], term) && !Found(buf, term)
    ensures |term| <= |buf| + 1 && (buf + [c])[|buf| + 1 - |term|..] == term
  {
    var now := buf + [c];
    var i :| 0 <= i <= |now| - |term| && OccursAt(now, term, i);
    if i < |now| - |term| {
      assert buf[i..i + |term|] == now[i..i + |term|];
      assert OccursAt(buf, term, i);
    }
    assert now[i..i + |term|] == now[i..];
  }

  // The input, cut where events are reported.
  function Chunks(buf: string, input: string, term: string): seq<string>
    decreases |input|
  {
    if input == [] then []
    else if Take(buf, input[0], term).1 == [] then Chunks(buf + [input[0]], input[1..], term)
    else [buf + [input[0]]] + Chunks([], input[1..], term)
  }

  function Flat(chunks: seq<string>): string {
    if chunks == [] then [] else chunks[0] + Flat(chunks[1..])
  }

  ghost predicate AllExplained(events: seq<Event>, chunks: seq<string>, term: string) {
    |events| == |chunks| && forall k :: 0 <= k < |events| ==> Explains(events[k], chunks[k], term)
  }

  // Every character read belongs to one event, in order, or still waits: the input is cut
  // into messages with their terminators and full buffers, and nothing else.
  lemma {:induction false} InputAccounted(buf: string, input: string, term: string)
    requires Waiting(buf, term) && term != []
    ensures AllExplained(Frames(buf, input, term), Chunks(buf, input, term), term)
    ensures Flat(Chunks(buf, input, term)) + Rest(buf, input, term) == buf + input
    ensures Waiting(Rest(buf, input, term), term)
    decreases |input|
  {
    if input == [] {
      assert buf + input == [] + buf;
    } else {
      var now := buf + [input[0]];
      TakeExplains(buf, input[0], term);
      assert now + input[1..] == buf + input;
      if Take(buf, input[0], term).1 == [] {
        InputAccounted(now, input[1..], term);
        assert [] + Frames(now, input[1..], term) == Frames(now, input[1..], term);
      } else {
        InputAccounted([], input[1..], term);
        Accumulate(now, Chunks([], input[1..], term), Rest([], input[1..], term));
        assert [] + input[1..] == input[1..];
      }
    }
  }

  lemma Accumulate(chunk: string, chunks: seq<string>, rest: string)
    ensures Flat([chunk] + chunks) + rest == chunk + (Flat(chunks) + rest)
  {
    assert ([chunk] + chunks)[1..] == chunks;
  }

  // The other way round: a message that contains neither NUL nor a terminator and fits
  // the buffer with its terminator is delivered as it was sent.
  ghost predicate Sendable(m: string, term: string) {
    && term != []
    && |m + term| < 64
    && NoNul(m + term)
    && forall i :: 0 <= i < |m| ==> !OccursAt(m + term, term, i)
  }

  lemma MessageDelivered(m: string, rest: string, term: string)
    requires Sendable(m, term)
    ensures Frames([], m + term + rest, term) == [Message(m)] + Frames([], rest, term)
  {
    assert (m + term)[..0] == [];
    Deliver(m, term, 0, rest);
    assert (m + term)[0..] == m + term;
  }

  lemma {:induction false} Deliver(m: string, term: string, k: nat, rest: string)
    requires Sendable(m, term) && k < |m + term|
    ensures Frames((m + term)[..k], (m + term)[k..] + rest, term) == [Message(m)] + Frames([], rest, term)
    decreases |m + term| - k
  {
    var all := m + term;
    var more := all[k + 1..] + rest;
    assert all[k..] + rest == [all[k]] + more;
    FramesStep(all[..k], all[k], more, term);
    if k + 1 < |all| {
      TakeInside(m, term, k);
      Deliver(m, term, k + 1, rest);
    } else {
      TakeLast(m, term);
      assert more == rest;
    }
  }

  lemma FramesStep(buf: string, c: char, rest: string, term: string)
    ensures var (buf', events) := Take(buf, c, term);
            Frames(buf, [c] + rest, term) ==
            if events == [] then Frames(buf', rest, term) else events + Frames(buf', rest, term)
  {
    assert ([c] + rest)[1..] == rest;
    var (buf', events) := Take(buf, c, term);
    assert [] + Frames(buf', rest, term) == Frames(buf', rest, term);
  }

  lemma TakeInside(m: string, term: string, k: nat)
    requires Sendable(m, term) && k + 1 < |m + term|
    ensures Take((m + term)[..k], (m + term)[k], term) == ((m + term)[..k + 1], [])
  {
    var all := m + term;
    assert all[..k] + [all[k]] == all[..k + 1];
    WholeString(all[..k + 1]);
    NotYet(m, term, k + 1);
  }

  lemma TakeLast(m: string, term: string)
    requires Sendable(m, term)
    ensures var all := m + term; Take(all[..|all| - 1], all[|all| - 1], term) == ([], [Message(m)])
  {
    var all := m + term;
    assert all[..|all| - 1] + [all[|all| - 1]] == all;
    WholeString(all);
    assert OccursAt(all, term, |m|);
    assert all[..|m|] == m;
    WholeString(m);
  }

  lemma NotYet(m: string, term: string, k: nat)
    requires Sendable(m, term) && k < |m + term|
    ensures !Found((m + term)[..k], term)
  {
    var all := m + term;
    forall i | 0 <= i <= k - |term|
      ensures !OccursAt(all[..k], term, i)
    {
      assert !OccursAt(all, term, i);
      assert all[..k][i..i + |term|] == all[i..i + |term|];
    }
  }

  function Sent(ms: seq<string>, term: string): string {
    if ms == [] then [] else ms[0] + term + Sent(ms[1..], term)
  }

  function Messages(ms: seq<string>): seq<Event> {
    if ms == [] then [] else [Message(ms[0])] + Messages(ms[1..])
  }

  // Round trip: a client's messages, sent in chunks of any kind and read by calls made at
  // any times, all arrive and nothing else does.
  lemma SessionDelivered(ms: seq<string>, term: string, acts: seq<Act>)
    requires forall k :: 0 <= k < |ms| ==> Sendable(ms[k], term)
    requires Arrived(acts) == Sent(ms, term)
    requires var l := Run(Link([], [], [], 0), acts, term); l.timeouts == 0 && l.pending == []
    ensures Run(Link([], [], [], 0), acts, term).out == Messages(ms)
  {
    var l := Run(Link([], [], [], 0), acts, term);
    ChunkingIrrelevant(Link([], [], [], 0), acts, term);
    AllDelivered(ms, term);
    assert l.out + [] == l.out;
    assert [] + [] + Frames([], Sent(ms, term), term) == Frames([], Sent(ms, term), term);
  }

  lemma {:induction false} AllDelivered(ms: seq<string>, term: string)
    requires forall k :: 0 <= k < |ms| ==> Sendable(ms[k], term)
    ensures Frames([], Sent(ms, term), term) == Messages(ms)
    decreases |ms|
  {
    if ms != [] {
      MessageDelivered(ms[0], Sent(ms[1..], term), term);
      AllDelivered(ms[1..], term);
    }
  }

  // ------------------------------------------------------------------- the object

  // What the parser reads from.
  class Stream {
    var pending: string

    method Read() returns (c: char)
      requires pending != []
      modifies this
      ensures c == old(pending[0]) && pending == old(pending[1..])
    {
      c := pending[0];
      pending := pending[1..];
    }
  }

  class ScpiParser {
    const msg_buffer: array<char>
    var message_length: nat

    ghost predicate Valid()
      reads this
    {
      msg_buffer.Length == BUFFER_LENGTH && message_length < BUFFER_LENGTH
    }

    ghost function Contents(): string
      reads this, msg_buffer
      requires Valid()
    {
      msg_buffer[..message_length]
    }

    constructor ()
      ensures Valid() && fresh(msg_buffer) && Contents() == []
    {
      msg_buffer := new char[BUFFER_LENGTH];
      message_length := 0;
    }

    // One character read: nothing, an overflow or a message to report.
    method Accept(c: char, term: string) returns (events: seq<Event>)
      requires Valid()
      modifies this, msg_buffer
      ensures Valid() && (Contents(), events) == Take(old(Contents()), c, term)
    {
      ghost var now := Contents() + [c];
      msg_buffer[message_length] := c;
      message_length := message_length + 1;
      assert msg_buffer[..message_length] == now;
      if message_length >= BUFFER_LENGTH {
        message_length := 0;
        return [Overflow];
      }
      msg_buffer[message_length] := NUL;
      assert msg_buffer[..message_length] == now;
      if Found(UpToNul(msg_buffer[..message_length]), term) {
        UpToNulLength(now);
        var end := message_length - |term|;
        events := [Message(UpToNul(msg_buffer[..end]))];
        assert now[..end] == msg_buffer[..end];
        msg_buffer[end] := NUL;
        message_length := 0;
        return;
      }
      return [];
    }

    method GetMessage(interface: Stream, term: string, late: bool) returns (outcome: Outcome)
      requires Valid()
      modifies this, msg_buffer, interface
      ensures Valid()
      ensures Called(Contents(), interface.pending, outcome)
              == Call(old(Contents()), old(interface.pending), term, late)
    {
      while interface.pending != []
        invariant Valid()
        invariant Call(Contents(), interface.pending, term, late) ==
                  Call(old(Contents()), old(interface.pending), term, late)
        decreases |interface.pending|
      {
        var c := interface.Read();
        var events := Accept(c, term);
        if events != [] {
          return Got(events[0]);
        }
      }
      if message_length == 0 {
        return Nothing;
      }
      if late {
        message_length := 0;
        return Timeout;
      }
      return Nothing;
    }
  }
}
