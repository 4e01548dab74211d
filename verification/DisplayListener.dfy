// The other end of the display command stream: a coprocessor that reads it word by word and
// understands words of the display list, commands with their arguments, and data to store.
module DisplayListener {
  import opened Options
  import opened DisplayStream
  import opened DisplayFifo
  import opened DisplayFields
  import opened DisplayCommands
  import opened DisplaySession

  datatype Action =
    | Show(w: U32)                          // a word of the display list
    | Obey(c: Command)
    | Store(ptr: U32, data: seq<Byte>)      // CMD_MEMWRITE and the bytes behind it
    | Fault(code: Byte)                     // an opcode that is none

  // One action and the bytes behind it, or not enough bytes yet.
  datatype Heard = More | Heard(a: Action, rest: seq<Byte>)

  const MEMWRITE: Byte := 0x1a

  function Hear(b: seq<Byte>): (h: Heard)
    ensures h.Heard? ==> |h.rest| < |b|
  {
    if |b| < 4 then More
    else if ReadWord(b) < OPCODES then Heard(Show(ReadWord(b)), b[4..])
    else HearCommand(ReadWord(b) - OPCODES, b[4..])
  }

  function HearCommand(code: Byte, b: seq<Byte>): (h: Heard)
    ensures h.Heard? ==> |h.rest| <= |b|
  {
    match ReadFields(Shape(code), b)
    case Short => More
    case Got(xs, rest) =>
      if code == MEMWRITE then HearData(WordAt(xs, 0), WordAt(xs, 1), rest)
      else Heard(match Rebuilt(code, xs) case Some(c) => Obey(c) case None => Fault(code), rest)
  }

  function HearData(ptr: U32, n: nat, b: seq<Byte>): (h: Heard)
    ensures h.Heard? ==> |h.rest| <= |b|
  {
    if |b| < RoundedUp(n) then More else Heard(Store(ptr, b[..n]), b[RoundedUp(n)..])
  }

  function HearAll(b: seq<Byte>): seq<Action>
    decreases |b|
  {
    match Hear(b)
    case More => []
    case Heard(a, rest) => [a] + HearAll(rest)
  }

  // ------------------------------------------------------------- what a session means

  // The bytes a memory write announces come with the item behind it.
  predicate Data(x: Item, n: nat) {
    (x.Copies? || x.CopiesRam?) && |x.src| == n && (x.CopiesRam? ==> n < 0x1_0000)
  }

  predicate Stores(items: seq<Item>) { items != [] && items[0].Cmd? && items[0].c.Memwrite? }

  // Strings without a zero in them, words of the display list that are no opcodes, and data
  // exactly where it was announced.
  predicate Sensible(items: seq<Item>)
    decreases |items|
  {
    if items == [] then true
    else if Stores(items) then |items| > 1 && Data(items[1], Amount(items[0].c)) && Sensible(items[2..])
    else
      && (match items[0] case Cmd(c) => Clean(c) case Plain(w) => w < OPCODES case Copies(_) => false
                         case CopiesRam(_) => false case _ => true)
      && Sensible(items[1..])
  }

  function Target(c: Command): U32 { match c case Memwrite(ptr, _) => ptr case _ => 0 }

  function Amount(c: Command): U32 { match c case Memwrite(_, num) => num case _ => 0 }

  function Said(x: Item): seq<Action> {
    match x
    case Cmd(c) =>
      if Places(c) then [Show(TranslateX(XOf(c)).w), Obey(WithX(c, LeftX(XOf(c))))]
      else (match c case Regwrite(ptr, val) => [Store(ptr, Word(val))] case _ => [Obey(c)])
    case Plain(w) => [Show(w)]
    case _ => []
  }

  function Meant(items: seq<Item>): seq<Action>
    requires Sensible(items)
    decreases |items|
  {
    if items == [] then []
    else if Stores(items) then [Store(Target(items[0].c), items[1].src)] + Meant(items[2..])
    else Said(items[0]) + Meant(items[1..])
  }

  // ------------------------------------------------------------------- understanding

  lemma HearWord(b: seq<Byte>, w: U32, tail: seq<Byte>)
    requires |b| >= 4 && w == ReadWord(b) && tail == b[4..]
    ensures Hear(b) == if w < OPCODES then Heard(Show(w), tail) else HearCommand(w - OPCODES, tail)
  {
  }

  lemma WordMore(b: seq<Byte>, more: seq<Byte>)
    requires |b| >= 4
    ensures ReadWord(b + more) == ReadWord(b) && (b + more)[4..] == b[4..] + more
  {
  }

  lemma WordHeard(w: U32, rest: seq<Byte>)
    ensures Hear(Word(w) + rest) == if w < OPCODES then Heard(Show(w), rest) else HearCommand(w - OPCODES, rest)
  {
    WordRead(w);
    WordMore(Word(w), rest);
    HearWord(Word(w) + rest, w, rest);
  }

  // The fields of a command, whatever comes behind, are heard as the command.
  lemma SaysHeard(xs: seq<Field>, c: Command, rest: seq<Byte>)
    requires Says(xs, c) && !c.Memwrite?
    ensures Hear(Encode(xs) + rest) == Heard(Obey(c), rest)
  {
    var code, args := xs[0].w - OPCODES, xs[1..];
    EncodeFirst(xs, rest);
    WordHeard(xs[0].w, Encode(args) + rest);
    FieldsRead(Shape(code), args, rest);
    CommandHeard(code, args, c, Encode(args) + rest, rest);
  }

  lemma CommandHeard(code: Byte, xs: seq<Field>, c: Command, b: seq<Byte>, rest: seq<Byte>)
    requires Rebuilt(code, xs) == Some(c) && !c.Memwrite? && ReadFields(Shape(code), b) == Got(xs, rest)
    ensures HearCommand(code, b) == Heard(Obey(c), rest)
  {
    NoMemwrite(code, xs, c);
  }

  lemma NoMemwrite(code: Byte, xs: seq<Field>, c: Command)
    requires Rebuilt(code, xs) == Some(c) && !c.Memwrite?
    ensures code != MEMWRITE
  {
  }

  lemma DataHeard(ptr: U32, data: seq<Byte>, rest: seq<Byte>)
    ensures HearData(ptr, |data|, data + Padding(|data|) + rest) == Heard(Store(ptr, data), rest)
  {
    PaddingFills(|data|);
    var b := data + Padding(|data|) + rest;
    assert b[..|data|] == data && b[RoundedUp(|data|)..] == rest;
  }

  lemma MemwriteRead(code: Byte, xs: seq<Field>, ptr: U32, num: U32)
    requires Rebuilt(code, xs) == Some(Memwrite(ptr, num))
    ensures code == MEMWRITE && WordAt(xs, 0) == ptr && WordAt(xs, 1) == num
  {
  }

  lemma MemwriteHeard(code: Byte, xs: seq<Field>, ptr: U32, num: U32, b: seq<Byte>, rest: seq<Byte>)
    requires Rebuilt(code, xs) == Some(Memwrite(ptr, num)) && ReadFields(Shape(code), b) == Got(xs, rest)
    ensures HearCommand(code, b) == HearData(ptr, num, rest)
  {
    MemwriteRead(code, xs, ptr, num);
  }

  lemma StoreHeard(xs: seq<Field>, ptr: U32, data: seq<Byte>, rest: seq<Byte>)
    requires |data| < 0x1_0000_0000 && Says(xs, Memwrite(ptr, |data|))
    ensures Hear(Encode(xs) + (data + Padding(|data|) + rest)) == Heard(Store(ptr, data), rest)
  {
    var more, code := data + Padding(|data|) + rest, xs[0].w - OPCODES;
    EncodeFirst(xs, more);
    WordHeard(xs[0].w, Encode(xs[1..]) + more);
    FieldsRead(Shape(code), xs[1..], more);
    MemwriteHeard(code, xs[1..], ptr, |data|, Encode(xs[1..]) + more, more);
    DataHeard(ptr, data, rest);
  }

  lemma HearNext(b: seq<Byte>, a: Action, rest: seq<Byte>)
    requires Hear(b) == Heard(a, rest)
    ensures HearAll(b) == [a] + HearAll(rest)
  {
  }

  // What one item writes is heard as what it means.
  lemma SayHeard(c: Command, rest: seq<Byte>)
    requires Clean(c) && !c.Memwrite?
    ensures HearAll(Encode(Fields(c)) + rest) == Said(Cmd(c)) + HearAll(rest)
  {
    var xs := Fields(c);
    if Places(c) {
      PlacedSays(c);
      PlaceHeard(xs, TranslateX(XOf(c)).w, WithX(c, LeftX(XOf(c))), rest);
    } else if c.Regwrite? {
      match c { case Regwrite(ptr, val) => RegisterHeard(c, ptr, val, rest); }
    } else {
      SaysHeard(xs, c, rest);
      HearNext(Encode(xs) + rest, Obey(c), rest);
    }
  }

  lemma PlaceHeard(xs: seq<Field>, w: U32, d: Command, rest: seq<Byte>)
    requires xs != [] && xs[0] == I(w) && w < OPCODES && Says(xs[1..], d) && !d.Memwrite?
    ensures HearAll(Encode(xs) + rest) == [Show(w), Obey(d)] + HearAll(rest)
  {
    var tail := Encode(xs[1..]) + rest;
    EncodeFirst(xs, rest);
    WordHeard(w, tail);
    HearNext(Encode(xs) + rest, Show(w), tail);
    SaysHeard(xs[1..], d, rest);
    HearNext(tail, Obey(d), rest);
    assert [Show(w)] + ([Obey(d)] + HearAll(rest)) == [Show(w), Obey(d)] + HearAll(rest);
  }

  // A register write is a memory write of one word that brings its own data.
  lemma RegisterHeard(c: Command, ptr: U32, val: U32, rest: seq<Byte>)
    requires c == Regwrite(ptr, val)
    ensures HearAll(Encode(Fields(c)) + rest) == [Store(ptr, Word(val))] + HearAll(rest)
  {
    RegwriteBytes(c, ptr, val, rest);
    StoreHeard(MemwriteFields(ptr, 4), ptr, Word(val), rest);
    HearNext(Encode(Fields(c)) + rest, Store(ptr, Word(val)), rest);
  }

  lemma RegwriteBytes(c: Command, ptr: U32, val: U32, rest: seq<Byte>)
    requires c == Regwrite(ptr, val)
    ensures Encode(Fields(c)) + rest == Encode(MemwriteFields(ptr, 4)) + (Word(val) + Padding(4) + rest)
  {
    var xs := MemwriteFields(ptr, 4);
    assert Fields(c) == xs + [I(val)];
    EncodeAppend(xs, [I(val)]);
    OneWord(val);
    Regroup(Encode(xs), Word(val), Padding(4), rest);
  }

  lemma OneWord(val: U32)
    ensures Encode([I(val)]) == Word(val) && Padding(4) == []
  {
  }

  lemma Regroup(a: seq<Byte>, b: seq<Byte>, none: seq<Byte>, rest: seq<Byte>)
    requires none == []
    ensures a + b + rest == a + (b + none + rest)
  {
  }

  lemma {:induction false} EncodeAppend(xs: seq<Field>, ys: seq<Field>)
    ensures Encode(xs + ys) == Encode(xs) + Encode(ys)
    decreases |xs|
  {
    if xs == [] {
      assert xs + ys == ys;
    } else {
      assert (xs + ys)[1..] == xs[1..] + ys;
      EncodeAppend(xs[1..], ys);
    }
  }

  lemma ItemHeard(x: Item, rest: seq<Byte>)
    requires !Stores([x]) && Sensible([x])
    ensures HearAll(ItemBytes(x) + rest) == Said(x) + HearAll(rest)
  {
    if x.Cmd? {
      SayHeard(x.c, rest);
    } else if x.Plain? {
      WordHeard(x.w, rest);
      HearNext(Word(x.w) + rest, Show(x.w), rest);
    } else {
      assert ItemBytes(x) + rest == rest && Said(x) + HearAll(rest) == HearAll(rest);
    }
  }

  lemma DataItemHeard(c: Command, x: Item, rest: seq<Byte>)
    requires c.Memwrite? && Data(x, Amount(c))
    ensures HearAll(ItemBytes(Cmd(c)) + (ItemBytes(x) + rest)) == [Store(Target(c), x.src)] + HearAll(rest)
  {
    var ptr, data := Target(c), x.src;
    WholeData(x);
    StoreHeard(Fields(c), ptr, data, rest);
    HearNext(ItemBytes(Cmd(c)) + (ItemBytes(x) + rest), Store(ptr, data), rest);
  }

  lemma WholeData(x: Item)
    requires (x.Copies? || x.CopiesRam?) && Data(x, |x.src|)
    ensures ItemBytes(x) == x.src + Padding(|x.src|)
  {
    if x.CopiesRam? { assert x.src[..|x.src| % 0x1_0000] == x.src; }
  }

  // Main result: the bytes a session writes are understood as what it means, command by
  // command, argument by argument.
  lemma {:induction false} SessionHeard(items: seq<Item>)
    requires Sensible(items)
    ensures HearAll(SessionBytes(items)) == Meant(items)
    decreases |items|
  {
    if Stores(items) {
      SessionHeard(items[2..]);
      TwoItems(items);
      DataItemHeard(items[0].c, items[1], SessionBytes(items[2..]));
    } else if items != [] {
      SessionHeard(items[1..]);
      ItemHeard(items[0], SessionBytes(items[1..]));
    }
  }

  lemma TwoItems(items: seq<Item>)
    requires |items| > 1
    ensures SessionBytes(items) == ItemBytes(items[0]) + (ItemBytes(items[1]) + SessionBytes(items[2..]))
  {
    assert items[1..][1..] == items[2..];
  }

  // --------------------------------------------------------------- part of a session

  lemma {:induction false} UntilZeroMore(b: seq<Byte>, more: seq<Byte>)
    requires UntilZero(b) < |b|
    ensures UntilZero(b + more) == UntilZero(b)
    decreases |b|
  {
    if b[0] != 0 {
      assert (b + more)[1..] == b[1..] + more;
      UntilZeroMore(b[1..], more);
    }
  }

  lemma FieldMore(k: Kind, b: seq<Byte>, more: seq<Byte>)
    requires ReadField(k, b).Got?
    ensures ReadField(k, b + more) == Got(ReadField(k, b).x, ReadField(k, b).rest + more)
  {
    if k == KI {
      Front(b, more, 4);
    } else if k == KH {
      Front(b, more, 2);
    } else {
      UntilZeroMore(b, more);
      Front(b, more, UntilZero(b));
      Front(b, more, RoundedUp(UntilZero(b) + 1));
    }
  }

  lemma Front(b: seq<Byte>, more: seq<Byte>, n: nat)
    requires n <= |b|
    ensures (b + more)[..n] == b[..n] && (b + more)[n..] == b[n..] + more
  {
  }

  lemma {:induction false} FieldsMore(kinds: seq<Kind>, b: seq<Byte>, more: seq<Byte>)
    requires ReadFields(kinds, b).Got?
    ensures ReadFields(kinds, b + more) == Got(ReadFields(kinds, b).x, ReadFields(kinds, b).rest + more)
    decreases |kinds|
  {
    if kinds != [] {
      FieldMore(kinds[0], b, more);
      FieldsMore(kinds[1..], ReadField(kinds[0], b).rest, more);
    }
  }

  lemma DataMore(ptr: U32, n: nat, b: seq<Byte>, more: seq<Byte>)
    requires HearData(ptr, n, b).Heard?
    ensures HearData(ptr, n, b + more) == Heard(HearData(ptr, n, b).a, HearData(ptr, n, b).rest + more)
  {
    Front(b, more, n);
    Front(b, more, RoundedUp(n));
  }

  // An action once heard is heard the same when more bytes have come.
  lemma HearMore(b: seq<Byte>, more: seq<Byte>)
    requires Hear(b).Heard?
    ensures Hear(b + more) == Heard(Hear(b).a, Hear(b).rest + more)
  {
    WordMore(b, more);
    HearWord(b, ReadWord(b), b[4..]);
    HearWord(b + more, ReadWord(b), b[4..] + more);
    if ReadWord(b) >= OPCODES { CommandMore(ReadWord(b) - OPCODES, b[4..], more); }
  }

  lemma CommandMore(code: Byte, b: seq<Byte>, more: seq<Byte>)
    requires HearCommand(code, b).Heard?
    ensures HearCommand(code, b + more) == Heard(HearCommand(code, b).a, HearCommand(code, b).rest + more)
  {
    FieldsMore(Shape(code), b, more);
    if code == MEMWRITE {
      var r := ReadFields(Shape(code), b);
      DataMore(WordAt(r.x, 0), WordAt(r.x, 1), r.rest, more);
    }
  }

  lemma {:induction false} HearAllMore(b: seq<Byte>, more: seq<Byte>)
    ensures HearAll(b) <= HearAll(b + more)
    decreases |b|
  {
    if Hear(b).Heard? {
      HearMore(b, more);
      HearAllMore(Hear(b).rest, more);
    }
  }

  // However the coprocessor reads while a session is written, it has understood the first
  // part of what the session means, and all of it when it has read everything.
  lemma SessionUnderstood(items: seq<Item>, ops: seq<Op>, plan: seq<nat>)
    requires Sensible(items) && Producer(ops) == SessionOps(items)
    ensures var w := Run(BEGIN, ops, plan);
            && HearAll(Seen(w.f)) <= Meant(items)
            && (w.ok && Seen(w.f) == w.f.log ==> HearAll(Seen(w.f)) == Meant(items))
  {
    SessionRead(items, ops, plan);
    SessionHeard(items);
    PartHeard(Seen(Run(BEGIN, ops, plan).f), SessionBytes(items));
  }

  lemma PartHeard(part: seq<Byte>, all: seq<Byte>)
    requires part <= all
    ensures HearAll(part) <= HearAll(all)
  {
    assert part + all[|part|..] == all;
    HearAllMore(part, all[|part|..]);
  }

  // ---------------------------------------------------------------------- placement

  // The 17 bits of a translation are signed, in sixteenths of a pixel.
  function Sixteenths(w: U32): int {
    var bits := w % 0x2_0000;
    if bits < 0x1_0000 then bits else bits - 0x2_0000
  }

  // Translation and x together are the x asked for, unless it is below -4096: then the
  // translation has wrapped.
  lemma PlacedExactly(c: Command)
    requires Places(c)
    ensures var said := Said(Cmd(c));
            && |said| == 2 && said[0].Show? && said[0].w / 0x100_0000 == 43
            && said[1].Obey? && Places(said[1].c) && 0 <= XOf(said[1].c) && WithX(said[1].c, XOf(c)) == c
            && (Sixteenths(said[0].w) + 16 * XOf(said[1].c) == 16 * XOf(c) <==> XOf(c) >= -4096)
  {
  }
}
