// The fields of the display commands: the bytes they are written as, and how a coprocessor
// that reads those word by word gets the fields, the command and its arguments back.
module DisplayFields {
  import opened Options
  import opened DisplayStream
  import opened DisplayFifo

  type U32 = x: int | 0 <= x < 0x1_0000_0000

  type I16 = x: int | -0x8000 <= x < 0x8000
  type I32 = x: int | -0x8000_0000 <= x < 0x8000_0000

  // The union in cmd32: least significant byte first.
  function Word(x: U32): seq<Byte> {
    [x % 256, x / 256 % 256, x / 65536 % 256, x / 16777216]
  }

  function Half(x: U16): seq<Byte> { [x % 256, x / 256] }

  // The zeros align(n) writes for a byte counter n.
  function Padding(n: nat): seq<Byte> { Zeros(Gap(n)) }

  function Gap(n: nat): nat { (4 - n % 4) % 4 }

  function Zeros(k: nat): seq<Byte> { seq(k, _ => 0) }

  // cs(s), s being the characters before the terminating zero.
  function Text(s: seq<Byte>): seq<Byte> { s + [0] + Padding(|s| + 1) }

  datatype Field = I(w: U32) | H(h: U16) | S(s: seq<Byte>)

  function FieldBytes(x: Field): seq<Byte> {
    match x
    case I(w) => Word(w)
    case H(h) => Half(h)
    case S(s) => Text(s)
  }

  function Encode(xs: seq<Field>): seq<Byte> {
    if xs == [] then [] else FieldBytes(xs[0]) + Encode(xs[1..])
  }

  const OPCODES := 0xffff_ff00

  // cFFFFFF, ch and ci: an opcode word, and the unsigned forms of signed arguments.
  function Opcode(code: Byte): Field { I(OPCODES + code) }

  function Ch(v: I16): Field { H(if v < 0 then v + 0x1_0000 else v) }

  function Ci(v: I32): Field { I(if v < 0 then v + 0x1_0000_0000 else v) }

  // above512pixelMagic: the x that is left, after a translation that makes up for the rest.
  function LeftX(x: I16): I16 { if x < 0 then 0 else if x >= 512 then x - 512 else x }

  function TranslateX(x: I16): Field {
    var shift := if x < 0 then x * 16 else if x >= 512 then 512 * 16 else 0;
    I(43 * 0x100_0000 + shift % 0x2_0000)
  }

  // The cmd_* members with their arguments.
  datatype Command =
    | CmdAppend(U32, U32)
    | Bgcolor(U32)
    | Button(I16, I16, U16, U16, Byte, U16, seq<Byte>)
    | Calibrate
    | Clock(I16, I16, I16, U16, U16, U16, U16, U16)
    | Coldstart
    | Dial(I16, I16, I16, U16, U16)
    | Dlstart
    | Fgcolor(U32)
    | Gauge(I16, I16, I16, U16, U16, U16, U16, U16)
    | Getmatrix
    | Getprops
    | Getptr
    | Gradcolor(U32)
    | Gradient(I16, I16, U32, I16, I16, U32)
    | Inflate(U32)
    | Interrupt(U32)
    | Keys(I16, I16, I16, I16, Byte, U16, seq<Byte>)
    | Loadidentity
    | Loadimage(U32, I32)
    | Memcpy(U32, U32, U32)
    | Memset(U32, Byte, U32)
    | Memcrc(U32, U32)
    | Memwrite(U32, U32)
    | Regwrite(U32, U32)
    | Number(I16, I16, Byte, U16, U32)
    | Progress(I16, I16, I16, I16, U16, U16, U16)
    | Regread(U32)
    | Rotate(I32)
    | Scale(I32, I32)
    | Screensaver
    | Scrollbar(I16, I16, I16, I16, U16, U16, U16, U16)
    | Setfont(Byte, U32)
    | Setmatrix
    | Sketch(I16, I16, U16, U16, U32, U16)
    | Slider(I16, I16, U16, U16, U16, U16, U16)
    | Snapshot(U32)
    | Spinner(I16, I16, Byte, Byte)
    | CmdStop
    | CmdSwap
    | CmdText(I16, I16, Byte, U16, seq<Byte>)
    | Toggle(I16, I16, I16, Byte, U16, U16, seq<Byte>)
    | Track(I16, I16, U16, U16, Byte)
    | Translate(I32, I32)
    | Playvideo(I32)
    | Romfont(U32, U32)
    | Mediafifo(U32, U32)
    | Setbase(U32)
    | Videoframe(U32, U32)
    | Snapshot2(U32, U32, I16, I16, I16, I16)
    | Setfont2(U32, U32, U32)
    | Setbitmap(U32, U16, U16, U16)
    | Setrotate(U32)
    | Videostart
    | CmdSync

  // ----------------------------------------------------------------- reading fields

  function ReadWord(b: seq<Byte>): U32
    requires |b| >= 4
  {
    b[0] as int + 256 * b[1] as int + 65536 * b[2] as int + 16777216 * b[3] as int
  }

  function ReadHalf(b: seq<Byte>): U16
    requires |b| >= 2
  {
    b[0] as int + 256 * b[1] as int
  }

  // The bytes before the first zero.
  function UntilZero(b: seq<Byte>): (n: nat)
    ensures n <= |b|
  {
    if b == [] || b[0] == 0 then 0 else 1 + UntilZero(b[1..])
  }

  // The next multiple of four.
  function RoundedUp(n: nat): nat { (n + 3) / 4 * 4 }

  datatype Kind = KI | KH | KS

  function KindOf(x: Field): Kind {
    match x
    case I(_) => KI
    case H(_) => KH
    case S(_) => KS
  }

  // What was read and the bytes behind it, or not enough bytes yet.
  datatype Reading<T> = Short | Got(x: T, rest: seq<Byte>)

  function ReadField(k: Kind, b: seq<Byte>): (r: Reading<Field>)
    ensures r.Got? ==> |r.rest| < |b|
  {
    match k
    case KI => if |b| < 4 then Short else Got(I(ReadWord(b)), b[4..])
    case KH => if |b| < 2 then Short else Got(H(ReadHalf(b)), b[2..])
    case KS =>
      var n := UntilZero(b);
      if |b| < RoundedUp(n + 1) then Short else Got(S(b[..n]), b[RoundedUp(n + 1)..])
  }

  function ReadFields(kinds: seq<Kind>, b: seq<Byte>): (r: Reading<seq<Field>>)
    ensures r.Got? ==> |r.rest| <= |b|
    decreases |kinds|
  {
    if kinds == [] then Got([], b)
    else
      match ReadField(kinds[0], b)
      case Short => Short
      case Got(x, rest) =>
        match ReadFields(kinds[1..], rest)
        case Short => Short
        case Got(xs, rest) => Got([x] + xs, rest)
  }

  // C strings hold no zero.
  predicate NoZero(s: seq<Byte>) { forall k :: 0 <= k < |s| ==> s[k] != 0 }

  predicate Fits(kinds: seq<Kind>, xs: seq<Field>) {
    && |kinds| == |xs|
    && forall k :: 0 <= k < |xs| ==> KindOf(xs[k]) == kinds[k] && (xs[k].S? ==> NoZero(xs[k].s))
  }

  // Least significant byte first.
  lemma WordRead(x: U32)
    ensures |Word(x)| == 4 && ReadWord(Word(x)) == x
  {
    assert x / 65536 == x / 256 / 256 && x / 16777216 == x / 65536 / 256;
  }

  lemma HalfRead(x: U16)
    ensures |Half(x)| == 2 && ReadHalf(Half(x)) == x
  {
  }

  // The padding is zeros up to the next word.
  lemma PaddingFills(n: nat)
    ensures n + |Padding(n)| == RoundedUp(n) && forall k :: 0 <= k < |Padding(n)| ==> Padding(n)[k] == 0
  {
  }

  lemma {:induction false} UntilZeroText(s: seq<Byte>, rest: seq<Byte>)
    requires NoZero(s)
    ensures UntilZero(s + [0] + rest) == |s|
    decreases |s|
  {
    if s != [] {
      assert (s + [0] + rest)[1..] == s[1..] + [0] + rest;
      UntilZeroText(s[1..], rest);
    }
  }

  lemma FieldRead(x: Field, rest: seq<Byte>)
    requires x.S? ==> NoZero(x.s)
    ensures ReadField(KindOf(x), FieldBytes(x) + rest) == Got(x, rest)
  {
    match x
    case I(w) => WordFieldRead(w, rest);
    case H(h) => HalfFieldRead(h, rest);
    case S(s) => TextRead(s, rest);
  }

  lemma WordFieldRead(w: U32, rest: seq<Byte>)
    ensures ReadField(KI, Word(w) + rest) == Got(I(w), rest)
  {
    WordRead(w);
    assert (Word(w) + rest)[..4] == Word(w) && (Word(w) + rest)[4..] == rest;
  }

  lemma HalfFieldRead(h: U16, rest: seq<Byte>)
    ensures ReadField(KH, Half(h) + rest) == Got(H(h), rest)
  {
    HalfRead(h);
    assert (Half(h) + rest)[..2] == Half(h) && (Half(h) + rest)[2..] == rest;
  }

  lemma TextRead(s: seq<Byte>, rest: seq<Byte>)
    requires NoZero(s)
    ensures ReadField(KS, Text(s) + rest) == Got(S(s), rest)
  {
    var b, padding := Text(s) + rest, Padding(|s| + 1);
    PaddingFills(|s| + 1);
    assert b == s + [0] + (padding + rest);
    UntilZeroText(s, padding + rest);
    TextSplit(s, padding, rest, b);
  }

  lemma TextSplit(s: seq<Byte>, padding: seq<Byte>, rest: seq<Byte>, b: seq<Byte>)
    requires b == s + [0] + (padding + rest)
    ensures b[..|s|] == s && b[|s| + 1 + |padding|..] == rest
  {
  }

  // Fields of known kinds are read back from their bytes, whatever comes behind.
  lemma {:induction false} FieldsRead(kinds: seq<Kind>, xs: seq<Field>, rest: seq<Byte>)
    requires Fits(kinds, xs)
    ensures ReadFields(kinds, Encode(xs) + rest) == Got(xs, rest)
    decreases |xs|
  {
    if xs != [] {
      FieldRead(xs[0], Encode(xs[1..]) + rest);
      FieldsRead(kinds[1..], xs[1..], rest);
      EncodeFirst(xs, rest);
      NextRead(kinds, Encode(xs) + rest, xs[0], Encode(xs[1..]) + rest, xs[1..], rest);
      assert [xs[0]] + xs[1..] == xs;
    } else {
      assert Encode(xs) + rest == rest;
    }
  }

  lemma NextRead(kinds: seq<Kind>, b: seq<Byte>, x: Field, more: seq<Byte>, xs: seq<Field>, rest: seq<Byte>)
    requires kinds != [] && ReadField(kinds[0], b) == Got(x, more) && ReadFields(kinds[1..], more) == Got(xs, rest)
    ensures ReadFields(kinds, b) == Got([x] + xs, rest)
  {
  }

  lemma EncodeFirst(xs: seq<Field>, rest: seq<Byte>)
    requires xs != []
    ensures Encode(xs) + rest == FieldBytes(xs[0]) + (Encode(xs[1..]) + rest)
  {
  }

  // --------------------------------------------------------------- what they stand for

  function SignedHalf(h: U16): I16 { if h < 0x8000 then h else h - 0x1_0000 }

  function SignedWord(w: U32): I32 { if w < 0x8000_0000 then w else w - 0x1_0000_0000 }

  // The argument in the i-th place, as a 32-bit, 16-bit or 8-bit number, or as a text.
  function WordAt(xs: seq<Field>, i: nat): U32 { if i < |xs| && xs[i].I? then xs[i].w else 0 }

  function HalfIn(xs: seq<Field>, i: nat): U16 { if i < |xs| && xs[i].H? then xs[i].h else 0 }

  function TextAt(xs: seq<Field>, i: nat): seq<Byte> { if i < |xs| && xs[i].S? then xs[i].s else [] }

  function ShortAt(xs: seq<Field>, i: nat): I16 { SignedHalf(HalfIn(xs, i)) }

  function LongAt(xs: seq<Field>, i: nat): I32 { SignedWord(WordAt(xs, i)) }

  function ByteAt(xs: seq<Field>, i: nat): Byte { (HalfIn(xs, i) + WordAt(xs, i)) % 256 }

  const W1 := [KI]
  const W2 := [KI, KI]
  const W3 := [KI, KI, KI]
  const W6 := [KI, KI, KI, KI, KI, KI]
  const H4 := [KH, KH, KH, KH]
  const H6 := [KH, KH, KH, KH, KH, KH]
  const H8 := [KH, KH, KH, KH, KH, KH, KH, KH]

  // The fields behind an opcode of the coprocessor's.
  function Shape(code: Byte): seq<Kind> {
    if code < 0x18 then ShapeOfWidget(code)
    else if code < 0x2c then ShapeOfMemory(code)
    else ShapeOfOther(code)
  }

  function ShapeOfWidget(code: Byte): seq<Kind> {
    match code
    case 0x02 => W1
    case 0x09 => W1
    case 0x0a => W1
    case 0x0b => [KH, KH, KI, KH, KH, KI]
    case 0x0c => H4 + [KS]
    case 0x0d => H6 + [KS]
    case 0x0e => H6 + [KS]
    case 0x0f => H8
    case 0x10 => H8
    case 0x11 => H8
    case 0x12 => H6 + [KS]
    case 0x13 => H8
    case 0x14 => H8
    case 0x15 => W1
    case 0x16 => H4
    case _ => []
  }

  function ShapeOfMemory(code: Byte): seq<Kind> {
    match code
    case 0x18 => W3
    case 0x19 => W2
    case 0x1a => W2
    case 0x1b => W3
    case 0x1d => W3
    case 0x1e => W2
    case 0x1f => W1
    case 0x22 => W1
    case 0x23 => W1
    case 0x24 => W2
    case 0x25 => W3
    case 0x27 => W2
    case 0x28 => W2
    case 0x29 => W1
    case 0x2b => W2
    case _ => []
  }

  function ShapeOfOther(code: Byte): seq<Kind> {
    match code
    case 0x2c => H6
    case 0x2d => H6
    case 0x2e => H4 + [KI]
    case 0x30 => H4 + [KI, KI]
    case 0x33 => W6
    case 0x34 => W1
    case 0x36 => W1
    case 0x37 => W2 + H4
    case 0x38 => W1
    case 0x39 => W2
    case 0x3a => W1
    case 0x3b => W3
    case 0x3f => W2
    case 0x41 => W2
    case 0x43 => W1 + H4
    case _ => []
  }

  // The command they ask for, if the opcode is one. Fields that only make room are skipped.
  function Rebuilt(code: Byte, xs: seq<Field>): Option<Command> {
    if code < 0x18 then RebuiltWidget(code, xs)
    else if code < 0x2c then RebuiltMemory(code, xs)
    else RebuiltOther(code, xs)
  }

  function RebuiltWidget(code: Byte, xs: seq<Field>): Option<Command> {
    var h := (i: nat) => HalfIn(xs, i);
    var n := (i: nat) => ShortAt(xs, i);
    match code
    case 0x00 => Some(Dlstart)
    case 0x01 => Some(CmdSwap)
    case 0x02 => Some(Interrupt(WordAt(xs, 0)))
    case 0x09 => Some(Bgcolor(WordAt(xs, 0)))
    case 0x0a => Some(Fgcolor(WordAt(xs, 0)))
    case 0x0b => Some(Gradient(n(0), n(1), WordAt(xs, 2), n(3), n(4), WordAt(xs, 5)))
    case 0x0c => Some(CmdText(n(0), n(1), ByteAt(xs, 2), h(3), TextAt(xs, 4)))
    case 0x0d => Some(Button(n(0), n(1), h(2), h(3), ByteAt(xs, 4), h(5), TextAt(xs, 6)))
    case 0x0e => Some(Keys(n(0), n(1), n(2), n(3), ByteAt(xs, 4), h(5), TextAt(xs, 6)))
    case 0x0f => Some(Progress(n(0), n(1), n(2), n(3), h(4), h(5), h(6)))
    case 0x10 => Some(Slider(n(0), n(1), h(2), h(3), h(4), h(5), h(6)))
    case 0x11 => Some(Scrollbar(n(0), n(1), n(2), n(3), h(4), h(5), h(6), h(7)))
    case 0x12 => Some(Toggle(n(0), n(1), n(2), ByteAt(xs, 3), h(4), h(5), TextAt(xs, 6)))
    case 0x13 => Some(Gauge(n(0), n(1), n(2), h(3), h(4), h(5), h(6), h(7)))
    case 0x14 => Some(Clock(n(0), n(1), n(2), h(3), h(4), h(5), h(6), h(7)))
    case 0x15 => Some(Calibrate)
    case 0x16 => Some(Spinner(n(0), n(1), ByteAt(xs, 2), ByteAt(xs, 3)))
    case 0x17 => Some(CmdStop)
    case _ => None
  }

  function RebuiltMemory(code: Byte, xs: seq<Field>): Option<Command> {
    match code
    case 0x18 => Some(Memcrc(WordAt(xs, 0), WordAt(xs, 1)))
    case 0x19 => Some(Regread(WordAt(xs, 0)))
    case 0x1a => Some(Memwrite(WordAt(xs, 0), WordAt(xs, 1)))
    case 0x1b => Some(Memset(WordAt(xs, 0), ByteAt(xs, 1), WordAt(xs, 2)))
    case 0x1d => Some(Memcpy(WordAt(xs, 0), WordAt(xs, 1), WordAt(xs, 2)))
    case 0x1e => Some(CmdAppend(WordAt(xs, 0), WordAt(xs, 1)))
    case 0x1f => Some(Snapshot(WordAt(xs, 0)))
    case 0x22 => Some(Inflate(WordAt(xs, 0)))
    case 0x23 => Some(Getptr)
    case 0x24 => Some(Loadimage(WordAt(xs, 0), LongAt(xs, 1)))
    case 0x25 => Some(Getprops)
    case 0x26 => Some(Loadidentity)
    case 0x27 => Some(Translate(LongAt(xs, 0), LongAt(xs, 1)))
    case 0x28 => Some(Scale(LongAt(xs, 0), LongAt(xs, 1)))
    case 0x29 => Some(Rotate(LongAt(xs, 0)))
    case 0x2a => Some(Setmatrix)
    case 0x2b => Some(Setfont(ByteAt(xs, 0), WordAt(xs, 1)))
    case _ => None
  }

  function RebuiltOther(code: Byte, xs: seq<Field>): Option<Command> {
    var h := (i: nat) => HalfIn(xs, i);
    var n := (i: nat) => ShortAt(xs, i);
    match code
    case 0x2c => Some(Track(n(0), n(1), h(2), h(3), ByteAt(xs, 4)))
    case 0x2d => Some(Dial(n(0), n(1), n(2), h(3), h(4)))
    case 0x2e => Some(Number(n(0), n(1), ByteAt(xs, 2), h(3), WordAt(xs, 4)))
    case 0x2f => Some(Screensaver)
    case 0x30 => Some(Sketch(n(0), n(1), h(2), h(3), WordAt(xs, 4), WordAt(xs, 5) % 0x1_0000))
    case 0x32 => Some(Coldstart)
    case 0x33 => Some(Getmatrix)
    case 0x34 => Some(Gradcolor(WordAt(xs, 0)))
    case 0x36 => Some(Setrotate(WordAt(xs, 0)))
    case 0x37 => Some(Snapshot2(WordAt(xs, 0), WordAt(xs, 1), n(2), n(3), n(4), n(5)))
    case 0x38 => Some(Setbase(WordAt(xs, 0)))
    case 0x39 => Some(Mediafifo(WordAt(xs, 0), WordAt(xs, 1)))
    case 0x3a => Some(Playvideo(LongAt(xs, 0)))
    case 0x3b => Some(Setfont2(WordAt(xs, 0), WordAt(xs, 1), WordAt(xs, 2)))
    case 0x3f => Some(Romfont(WordAt(xs, 0), WordAt(xs, 1)))
    case 0x40 => Some(Videostart)
    case 0x41 => Some(Videoframe(WordAt(xs, 0), WordAt(xs, 1)))
    case 0x42 => Some(CmdSync)
    case 0x43 => Some(Setbitmap(WordAt(xs, 0), HalfIn(xs, 1), HalfIn(xs, 2), HalfIn(xs, 3)))
    case _ => None
  }

  // An opcode word, and the fields behind it that make up c.
  predicate Says(xs: seq<Field>, c: Command) {
    && xs != [] && xs[0].I? && xs[0].w >= OPCODES
    && var code := xs[0].w - OPCODES;
       Fits(Shape(code), xs[1..]) && Rebuilt(code, xs[1..]) == Some(c)
  }

  predicate Clean(c: Command) {
    match c
    case Button(_, _, _, _, _, _, s) => NoZero(s)
    case Keys(_, _, _, _, _, _, s) => NoZero(s)
    case CmdText(_, _, _, _, s) => NoZero(s)
    case Toggle(_, _, _, _, _, _, s) => NoZero(s)
    case _ => true
  }

  // The commands that go through above512pixelMagic.
  predicate Places(c: Command) { c.Button? || c.Number? || c.CmdText? }

  function XOf(c: Command): I16
    requires Places(c)
  {
    match c
    case Button(x, _, _, _, _, _, _) => x
    case Number(x, _, _, _, _) => x
    case CmdText(x, _, _, _, _) => x
  }

  function WithX(c: Command, x: I16): Command
    requires Places(c)
  {
    match c
    case Button(_, y, w, h, font, options, s) => Button(x, y, w, h, font, options, s)
    case Number(_, y, font, options, n) => Number(x, y, font, options, n)
    case CmdText(_, y, font, options, s) => CmdText(x, y, font, options, s)
  }
}
