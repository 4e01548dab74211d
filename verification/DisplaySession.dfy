// Whole sessions with the display: any list of commands, copies and cuts, with the
// coprocessor reading at any time.
module DisplaySession {
  import opened DisplayStream
  import opened DisplayFifo
  import opened DisplayFields
  import opened DisplayCommands

  // Plain is a word sent by cI outside any cmd_*, as the display list does.
  datatype Item =
    | Cmd(c: Command)
    | Plain(w: U32)
    | Copies(src: seq<Byte>)
    | CopiesRam(src: seq<Byte>)
    | Flushes
    | Finishes
    | Stops

  // cmdbyte, byte by byte.
  function ByteOps(bytes: seq<Byte>): seq<Op> {
    if bytes == [] then [] else [OpEmit(bytes[..1])] + ByteOps(bytes[1..])
  }

  // A 32-bit field goes out as a word; the others byte by byte.
  function FieldOps(x: Field): seq<Op> {
    match x
    case I(w) => [OpEmit(Word(w))]
    case H(h) => ByteOps(Half(h))
    case S(s) => ByteOps(Text(s))
  }

  function FieldsOps(xs: seq<Field>): seq<Op> {
    if xs == [] then [] else FieldOps(xs[0]) + FieldsOps(xs[1..])
  }

  function ItemOps(x: Item): seq<Op> {
    match x
    case Cmd(c) => FieldsOps(Fields(c))
    case Plain(w) => [OpEmit(Word(w))]
    case Copies(src) => ByteOps(src + Padding(|src|))
    case CopiesRam(src) => [OpEmit(src[..|src| % 0x10000])] + ByteOps(Padding(|src|))
    case Flushes => [OpFlush]
    case Finishes => [OpFinish]
    case Stops => [OpStop]
  }

  function SessionOps(items: seq<Item>): seq<Op> {
    if items == [] then [] else ItemOps(items[0]) + SessionOps(items[1..])
  }

  // The bytes a session means.
  function ItemBytes(x: Item): seq<Byte> {
    match x
    case Cmd(c) => Encode(Fields(c))
    case Plain(w) => Word(w)
    case Copies(src) => src + Padding(|src|)
    case CopiesRam(src) => src[..|src| % 0x10000] + Padding(|src|)
    case _ => []
  }

  function SessionBytes(items: seq<Item>): seq<Byte> {
    if items == [] then [] else ItemBytes(items[0]) + SessionBytes(items[1..])
  }

  // The producer's operations among ops; the coprocessor may read between any two.
  function Producer(ops: seq<Op>): seq<Op>
    decreases |ops|
  {
    if ops == [] then [] else (if ops[0].OpDrain? then [] else [ops[0]]) + Producer(ops[1..])
  }

  // ----------------------------------------------------------------------- lemmas

  lemma {:induction false} EmittedAppend(a: seq<Op>, b: seq<Op>)
    ensures Emitted(a + b) == Emitted(a) + Emitted(b)
    decreases |a|
  {
    if a == [] {
      assert a + b == b && [] + Emitted(b) == Emitted(b);
    } else {
      assert (a + b)[1..] == a[1..] + b;
      EmittedAppend(a[1..], b);
    }
  }

  lemma {:induction false} CutsAppend(n: nat, a: seq<Op>, b: seq<Op>)
    ensures CutsOnWords(n, a + b) <==> CutsOnWords(n, a) && CutsOnWords(n + |Emitted(a)|, b)
    decreases |a|
  {
    if a == [] {
      assert a + b == b;
    } else {
      assert (a + b)[1..] == a[1..] + b;
      CutsAppend(n + if a[0].OpEmit? then |a[0].bytes| else 0, a[1..], b);
    }
  }

  lemma {:induction false} BytesEmitted(bytes: seq<Byte>, n: nat)
    ensures Emitted(ByteOps(bytes)) == bytes && CutsOnWords(n, ByteOps(bytes))
    decreases |bytes|
  {
    if bytes != [] {
      BytesEmitted(bytes[1..], n + 1);
      assert ByteOps(bytes)[1..] == ByteOps(bytes[1..]);
      assert bytes[..1] + bytes[1..] == bytes;
    }
  }

  lemma WordEmitted(bytes: seq<Byte>, n: nat)
    ensures Emitted([OpEmit(bytes)]) == bytes && CutsOnWords(n, [OpEmit(bytes)])
  {
    var ops := [OpEmit(bytes)];
    assert ops[1..] == [] && bytes + [] == bytes;
  }

  lemma FieldEmitted(x: Field, n: nat)
    ensures Emitted(FieldOps(x)) == FieldBytes(x) && CutsOnWords(n, FieldOps(x))
  {
    match x
    case I(w) => WordEmitted(Word(w), n);
    case H(h) => BytesEmitted(Half(h), n);
    case S(s) => BytesEmitted(Text(s), n);
  }

  lemma {:induction false} FieldsEmitted(xs: seq<Field>, n: nat)
    ensures Emitted(FieldsOps(xs)) == Encode(xs) && CutsOnWords(n, FieldsOps(xs))
    decreases |xs|
  {
    if xs != [] {
      var ops := FieldOps(xs[0]);
      FieldEmitted(xs[0], n);
      FieldsEmitted(xs[1..], n + |Emitted(ops)|);
      EmittedAppend(ops, FieldsOps(xs[1..]));
      CutsAppend(n, ops, FieldsOps(xs[1..]));
    }
  }

  // Every item is whole words, and its cuts come on a word if it starts on one.
  lemma ItemWhole(x: Item, n: nat)
    requires n % 4 == 0
    ensures Emitted(ItemOps(x)) == ItemBytes(x) && |ItemBytes(x)| % 4 == 0 && CutsOnWords(n, ItemOps(x))
  {
    match x
    case Cmd(c) =>
      FieldsEmitted(Fields(c), n);
      EveryCommandWhole(c);
    case Plain(w) => WordEmitted(Word(w), n);
    case Copies(src) =>
      BytesEmitted(src + Padding(|src|), n);
      CopiesWhole(src);
    case CopiesRam(src) =>
      var part := src[..|src| % 0x10000];
      WordEmitted(part, n);
      BytesEmitted(Padding(|src|), n + |part|);
      EmittedAppend([OpEmit(part)], ByteOps(Padding(|src|)));
      CutsAppend(n, [OpEmit(part)], ByteOps(Padding(|src|)));
      CopiesWhole(src);
    case Flushes => NoneEmitted(OpFlush, n);
    case Finishes => NoneEmitted(OpFinish, n);
    case Stops => NoneEmitted(OpStop, n);
  }

  lemma NoneEmitted(op: Op, n: nat)
    requires !op.OpEmit? && n % 4 == 0
    ensures Emitted([op]) == [] && CutsOnWords(n, [op])
  {
    assert [op][1..] == [];
  }

  lemma {:induction false} SessionWhole(items: seq<Item>, n: nat)
    requires n % 4 == 0
    ensures Emitted(SessionOps(items)) == SessionBytes(items) && CutsOnWords(n, SessionOps(items))
    decreases |items|
  {
    if items != [] {
      var m := ItemEnd(items[0], n);
      SessionWhole(items[1..], m);
      Joined(ItemOps(items[0]), SessionOps(items[1..]), n, m);
    }
  }

  lemma ItemEnd(x: Item, n: nat) returns (m: nat)
    requires n % 4 == 0
    ensures m == n + |Emitted(ItemOps(x))| && m % 4 == 0
    ensures Emitted(ItemOps(x)) == ItemBytes(x) && CutsOnWords(n, ItemOps(x))
  {
    ItemWhole(x, n);
    m := Further(n, |ItemBytes(x)|);
  }

  lemma Further(n: nat, k: nat) returns (m: nat)
    requires n % 4 == 0 && k % 4 == 0
    ensures m == n + k && m % 4 == 0
  {
    m := n + k;
  }

  lemma Joined(a: seq<Op>, b: seq<Op>, n: nat, m: nat)
    requires m == n + |Emitted(a)| && CutsOnWords(n, a) && CutsOnWords(m, b)
    ensures Emitted(a + b) == Emitted(a) + Emitted(b) && CutsOnWords(n, a + b)
  {
    EmittedAppend(a, b);
    CutsAppend(n, a, b);
  }

  // Reads by the coprocessor change nothing of this.
  lemma {:induction false} ReadsAside(ops: seq<Op>, n: nat)
    ensures Emitted(ops) == Emitted(Producer(ops))
    ensures CutsOnWords(n, ops) <==> CutsOnWords(n, Producer(ops))
    decreases |ops|
  {
    if ops != [] {
      var op, rest := ops[0], Producer(ops[1..]);
      ReadsAside(ops[1..], n + if op.OpEmit? then |op.bytes| else 0);
      if op.OpDrain? {
        assert [] + rest == rest && [] + Emitted(ops[1..]) == Emitted(ops[1..]);
      } else {
        assert ([op] + rest)[1..] == rest;
      }
    }
  }

  // Main result: for every session of commands, copies, words and cuts, and however the
  // coprocessor reads in between, it has read a prefix of exactly the bytes the session
  // means, no byte is dropped, and at most 4092 are unread; a session that goes through
  // has put all of them into the stream.
  lemma SessionRead(items: seq<Item>, ops: seq<Op>, plan: seq<nat>)
    requires Producer(ops) == SessionOps(items)
    ensures var w := Run(BEGIN, ops, plan);
            && Seen(w.f) <= w.f.log <= SessionBytes(items) && w.f.kept == w.f.log
            && w.f.Unread() <= 4092 && w.f.free <= 4092 - w.f.Unread()
            && (w.ok ==> w.f.log == SessionBytes(items))
  {
    SessionWhole(items, 0);
    ReadsAside(ops, 0);
    StreamAlways(ops, plan);
  }
}
