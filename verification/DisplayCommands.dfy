// The emitters of the display driver: what bytes each writes into the stream, and that
// every command is a whole number of 32-bit words.
module DisplayCommands {
  import opened DisplayStream
  import opened DisplayFifo
  import opened DisplayFields
  import opened Modular

  lemma GapStep(m: nat)
    requires m % 4 != 0 && m < 256
    ensures Gap((m + 1) % 256) == Gap(m) - 1
  {
  }

  // Only the counter's last two bits matter.
  lemma PaddingByte(n: nat)
    ensures Gap(n % 256) == Gap(n) && Gap(n % 4) == Gap(n)
  {
    SameLast(n, n % 256, 64 * (n / 256));
    SameLast(n, n % 4, n / 4);
  }

  lemma SameLast(a: nat, b: nat, k: nat)
    requires a == b + 4 * k
    ensures Gap(a) == Gap(b)
  {
    SameMod(a, b, 4, k);
  }

  function Halves(xs: seq<Field>): nat {
    if xs == [] then 0 else (if xs[0].H? then 1 else 0) + Halves(xs[1..])
  }

  lemma FieldWhole(x: Field) returns (k: nat)
    ensures |FieldBytes(x)| == 4 * k + if x.H? then 2 else 0
  {
    k := match x case I(_) => 1 case H(_) => 0 case S(s) => |s| / 4 + 1;
  }

  // k whole words and two bytes more for every 16-bit field.
  lemma {:induction false} EncodeLength(xs: seq<Field>) returns (k: nat)
    ensures |Encode(xs)| == 4 * k + 2 * Halves(xs)
  {
    k := 0;
    if xs != [] {
      var a := FieldWhole(xs[0]);
      var b := EncodeLength(xs[1..]);
      k := a + b;
    }
  }

  // A command is whole words exactly when it has an even number of 16-bit fields.
  lemma EncodeWhole(xs: seq<Field>)
    ensures |Encode(xs)| % 4 == 0 <==> Halves(xs) % 2 == 0
  {
    var k := EncodeLength(xs);
    WholeIsEven(|Encode(xs)|, k, Halves(xs));
  }

  lemma WholeIsEven(n: nat, k: nat, h: nat)
    requires n == 4 * k + 2 * h
    ensures n % 4 == 0 <==> h % 2 == 0
  {
  }

  // ------------------------------------------------------------------- commands

  function HalfAt(xs: seq<Field>, i: nat): nat { if i < |xs| && xs[i].H? then 1 else 0 }

  // The 16-bit fields among at most nine, counted one by one.
  lemma HalvesOfNine(xs: seq<Field>)
    requires |xs| <= 9
    ensures Halves(xs) == HalfAt(xs, 0) + HalfAt(xs, 1) + HalfAt(xs, 2) + HalfAt(xs, 3) + HalfAt(xs, 4)
                          + HalfAt(xs, 5) + HalfAt(xs, 6) + HalfAt(xs, 7) + HalfAt(xs, 8)
  {
    Ends(xs);
    FromStart(xs, 0, From(xs, 9));
  }

  lemma FromStart(xs: seq<Field>, i: nat, end: seq<Field>)
    requires i == 0 && end == From(xs, 9)
    ensures Halves(From(xs, i)) == HalfAt(xs, 0) + HalfAt(xs, 1) + HalfAt(xs, 2) + HalfAt(xs, 3) + HalfAt(xs, 4)
                                   + HalfAt(xs, 5) + HalfAt(xs, 6) + HalfAt(xs, 7) + HalfAt(xs, 8) + Halves(end)
  {
    NineHalves(xs, i);
  }

  lemma NineHalves(xs: seq<Field>, i: nat)
    ensures Halves(From(xs, i)) == HalfAt(xs, i) + HalfAt(xs, i + 1) + HalfAt(xs, i + 2) + HalfAt(xs, i + 3)
                                   + HalfAt(xs, i + 4) + HalfAt(xs, i + 5) + HalfAt(xs, i + 6) + HalfAt(xs, i + 7)
                                   + HalfAt(xs, i + 8) + Halves(From(xs, i + 9))
  {
    ThreeHalves(xs, i);
    SixHalves(xs, i + 3);
  }

  lemma SixHalves(xs: seq<Field>, i: nat)
    ensures Halves(From(xs, i)) == HalfAt(xs, i) + HalfAt(xs, i + 1) + HalfAt(xs, i + 2) + HalfAt(xs, i + 3)
                                   + HalfAt(xs, i + 4) + HalfAt(xs, i + 5) + Halves(From(xs, i + 6))
  {
    ThreeHalves(xs, i);
    ThreeHalves(xs, i + 3);
  }

  lemma Ends(xs: seq<Field>)
    requires |xs| <= 9
    ensures From(xs, 0) == xs && Halves(From(xs, 9)) == 0
  {
  }

  lemma ThreeHalves(xs: seq<Field>, i: nat)
    ensures Halves(From(xs, i)) == HalfAt(xs, i) + HalfAt(xs, i + 1) + HalfAt(xs, i + 2) + Halves(From(xs, i + 3))
  {
    HalvesFrom(xs, i);
    HalvesFrom(xs, i + 1);
    HalvesFrom(xs, i + 2);
  }

  function From(xs: seq<Field>, i: nat): seq<Field> { if i <= |xs| then xs[i..] else [] }

  lemma HalvesFrom(xs: seq<Field>, i: nat)
    ensures Halves(From(xs, i)) == HalfAt(xs, i) + Halves(From(xs, i + 1))
  {
    if i < |xs| { assert xs[i..][1..] == xs[i + 1..]; }
  }

  // An even number of 16-bit fields.
  predicate Even(xs: seq<Field>) { Halves(xs) % 2 == 0 }

  function Counted(xs: seq<Field>): (r: seq<Field>)
    requires |xs| <= 9
    ensures r == xs
    ensures Halves(r) == HalfAt(xs, 0) + HalfAt(xs, 1) + HalfAt(xs, 2) + HalfAt(xs, 3) + HalfAt(xs, 4)
                         + HalfAt(xs, 5) + HalfAt(xs, 6) + HalfAt(xs, 7) + HalfAt(xs, 8)
  {
    HalvesOfNine(xs);
    xs
  }

  // Behind the translation that above512pixelMagic sends.
  function Placed(x: I16, ys: seq<Field>): (xs: seq<Field>)
    requires Even(ys)
    ensures Even(xs) && xs != [] && xs[0] == TranslateX(x) && xs[1..] == ys
  {
    [TranslateX(x)] + ys
  }

  // What each cmd_* writes, call by call: I by cFFFFFF, cI or ci, H by ch or cH, S by cs.
  function AppendFields(ptr: U32, num: U32): (xs: seq<Field>)
    ensures Even(xs)
    ensures Says(xs, CmdAppend(ptr, num))
  {
    Counted([Opcode(0x1e), I(ptr), I(num)])
  }

  function BgcolorFields(c: U32): (xs: seq<Field>)
    ensures Even(xs)
    ensures Says(xs, Bgcolor(c))
  {
    Counted([Opcode(0x09), I(c)])
  }

  function ButtonFields(x: I16, y: I16, w: U16, h: U16, font: Byte, options: U16,
      s: seq<Byte>): (xs: seq<Field>)
    ensures Even(xs)
    ensures xs != [] && xs[0] == TranslateX(x)
    ensures NoZero(s) ==> Says(xs[1..], Button(LeftX(x), y, w, h, font, options, s))
  {
    Placed(x, Counted([Opcode(0x0d), Ch(LeftX(x)), Ch(y), H(w), H(h), H(font), H(options), S(s)]))
  }

  function CalibrateFields(): (xs: seq<Field>)
    ensures Even(xs)
    ensures Says(xs, Calibrate)
  {
    Counted([Opcode(0x15), Opcode(0xff)])
  }

  function ClockFields(x: I16, y: I16, r: I16, options: U16, h: U16, m: U16,
      s: U16, ms: U16): (xs: seq<Field>)
    ensures Even(xs)
    ensures Says(xs, Clock(x, y, r, options, h, m, s, ms))
  {
    Counted([Opcode(0x14), Ch(x), Ch(y), Ch(r), H(options), H(h), H(m), H(s), H(ms)])
  }

  function ColdstartFields(): (xs: seq<Field>)
    ensures Even(xs)
    ensures Says(xs, Coldstart)
  {
    Counted([Opcode(0x32)])
  }

  function DialFields(x: I16, y: I16, r: I16, options: U16, val: U16): (xs: seq<Field>)
    ensures Even(xs)
    ensures Says(xs, Dial(x, y, r, options, val))
  {
    Counted([Opcode(0x2d), Ch(x), Ch(y), Ch(r), H(options), H(val), H(0)])
  }

  function DlstartFields(): (xs: seq<Field>)
    ensures Even(xs)
    ensures Says(xs, Dlstart)
  {
    Counted([Opcode(0x00)])
  }

  function FgcolorFields(c: U32): (xs: seq<Field>)
    ensures Even(xs)
    ensures Says(xs, Fgcolor(c))
  {
    Counted([Opcode(0x0a), I(c)])
  }

  function GaugeFields(x: I16, y: I16, r: I16, options: U16, major: U16,
      minor: U16, val: U16, range: U16): (xs: seq<Field>)
    ensures Even(xs)
    ensures Says(xs, Gauge(x, y, r, options, major, minor, val, range))
  {
    Counted([Opcode(0x13), Ch(x), Ch(y), Ch(r), H(options), H(major), H(minor), H(val), H(range)])
  }

  function GetmatrixFields(): (xs: seq<Field>)
    ensures Even(xs)
    ensures Says(xs, Getmatrix)
  {
    Counted([Opcode(0x33), I(0), I(0), I(0), I(0), I(0), I(0)])
  }

  function GetpropsFields(): (xs: seq<Field>)
    ensures Even(xs)
    ensures Says(xs, Getprops)
  {
    Counted([Opcode(0x25), I(0), I(0), I(0)])
  }

  function GetptrFields(): (xs: seq<Field>)
    ensures Even(xs)
    ensures Says(xs, Getptr)
  {
    Counted([Opcode(0x23), I(0)])
  }

  function GradcolorFields(c: U32): (xs: seq<Field>)
    ensures Even(xs)
    ensures Says(xs, Gradcolor(c))
  {
    Counted([Opcode(0x34), I(c)])
  }

  function GradientFields(x0: I16, y0: I16, rgb0: U32, x1: I16, y1: I16, rgb1: U32): (xs: seq<Field>)
    ensures Even(xs)
    ensures Says(xs, Gradient(x0, y0, rgb0, x1, y1, rgb1))
  {
    Counted([Opcode(0x0b), Ch(x0), Ch(y0), I(rgb0), Ch(x1), Ch(y1), I(rgb1)])
  }

  function InflateFields(ptr: U32): (xs: seq<Field>)
    ensures Even(xs)
    ensures Says(xs, Inflate(ptr))
  {
    Counted([Opcode(0x22), I(ptr)])
  }

  function InterruptFields(ms: U32): (xs: seq<Field>)
    ensures Even(xs)
    ensures Says(xs, Interrupt(ms))
  {
    Counted([Opcode(0x02), I(ms)])
  }

  function KeysFields(x: I16, y: I16, w: I16, h: I16, font: Byte, options: U16,
      s: seq<Byte>): (xs: seq<Field>)
    ensures Even(xs)
    ensures NoZero(s) ==> Says(xs, Keys(x, y, w, h, font, options, s))
  {
    Counted([Opcode(0x0e), Ch(x), Ch(y), Ch(w), Ch(h), H(font), H(options), S(s)])
  }

  function LoadidentityFields(): (xs: seq<Field>)
    ensures Even(xs)
    ensures Says(xs, Loadidentity)
  {
    Counted([Opcode(0x26)])
  }

  function LoadimageFields(ptr: U32, options: I32): (xs: seq<Field>)
    ensures Even(xs)
    ensures Says(xs, Loadimage(ptr, options))
  {
    Counted([Opcode(0x24), I(ptr), Ci(options)])
  }

  function MemcpyFields(dest: U32, src: U32, num: U32): (xs: seq<Field>)
    ensures Even(xs)
    ensures Says(xs, Memcpy(dest, src, num))
  {
    Counted([Opcode(0x1d), I(dest), I(src), I(num)])
  }

  function MemsetFields(ptr: U32, value: Byte, num: U32): (xs: seq<Field>)
    ensures Even(xs)
    ensures Says(xs, Memset(ptr, value, num))
  {
    Counted([Opcode(0x1b), I(ptr), I(value), I(num)])
  }

  function MemcrcFields(ptr: U32, num: U32): (xs: seq<Field>)
    ensures Even(xs)
    ensures Says(xs, Memcrc(ptr, num))
  {
    Counted([Opcode(0x18), I(ptr), I(num), I(0xffff_ffff)])
  }

  function MemwriteFields(ptr: U32, num: U32): (xs: seq<Field>)
    ensures Even(xs)
    ensures Says(xs, Memwrite(ptr, num))
  {
    Counted([Opcode(0x1a), I(ptr), I(num)])
  }

  function RegwriteFields(ptr: U32, val: U32): (xs: seq<Field>)
    ensures Even(xs)
    ensures xs == MemwriteFields(ptr, 4) + [I(val)]
  {
    Counted([Opcode(0x1a), I(ptr), I(4), I(val)])
  }

  function NumberFields(x: I16, y: I16, font: Byte, options: U16, n: U32): (xs: seq<Field>)
    ensures Even(xs)
    ensures xs != [] && xs[0] == TranslateX(x) && Says(xs[1..], Number(LeftX(x), y, font, options, n))
  {
    Placed(x, Counted([Opcode(0x2e), Ch(LeftX(x)), Ch(y), H(font), H(options), I(n)]))
  }

  function ProgressFields(x: I16, y: I16, w: I16, h: I16, options: U16, val: U16,
      range: U16): (xs: seq<Field>)
    ensures Even(xs)
    ensures Says(xs, Progress(x, y, w, h, options, val, range))
  {
    Counted([Opcode(0x0f), Ch(x), Ch(y), Ch(w), Ch(h), H(options), H(val), H(range), H(0)])
  }

  function RegreadFields(ptr: U32): (xs: seq<Field>)
    ensures Even(xs)
    ensures Says(xs, Regread(ptr))
  {
    Counted([Opcode(0x19), I(ptr), I(0)])
  }

  function RotateFields(a: I32): (xs: seq<Field>)
    ensures Even(xs)
    ensures Says(xs, Rotate(a))
  {
    Counted([Opcode(0x29), Ci(a)])
  }

  function ScaleFields(sx: I32, sy: I32): (xs: seq<Field>)
    ensures Even(xs)
    ensures Says(xs, Scale(sx, sy))
  {
    Counted([Opcode(0x28), Ci(sx), Ci(sy)])
  }

  function ScreensaverFields(): (xs: seq<Field>)
    ensures Even(xs)
    ensures Says(xs, Screensaver)
  {
    Counted([Opcode(0x2f)])
  }

  function ScrollbarFields(x: I16, y: I16, w: I16, h: I16, options: U16, val: U16,
      size: U16, range: U16): (xs: seq<Field>)
    ensures Even(xs)
    ensures Says(xs, Scrollbar(x, y, w, h, options, val, size, range))
  {
    Counted([Opcode(0x11), Ch(x), Ch(y), Ch(w), Ch(h), H(options), H(val), H(size), H(range)])
  }

  function SetfontFields(font: Byte, ptr: U32): (xs: seq<Field>)
    ensures Even(xs)
    ensures Says(xs, Setfont(font, ptr))
  {
    Counted([Opcode(0x2b), I(font), I(ptr)])
  }

  function SetmatrixFields(): (xs: seq<Field>)
    ensures Even(xs)
    ensures Says(xs, Setmatrix)
  {
    Counted([Opcode(0x2a)])
  }

  function SketchFields(x: I16, y: I16, w: U16, h: U16, ptr: U32, format: U16): (xs: seq<Field>)
    ensures Even(xs)
    ensures Says(xs, Sketch(x, y, w, h, ptr, format))
  {
    Counted([Opcode(0x30), Ch(x), Ch(y), H(w), H(h), I(ptr), I(format)])
  }

  function SliderFields(x: I16, y: I16, w: U16, h: U16, options: U16, val: U16, range: U16): (xs: seq<Field>)
    ensures Even(xs)
    ensures Says(xs, Slider(x, y, w, h, options, val, range))
  {
    Counted([Opcode(0x10), Ch(x), Ch(y), H(w), H(h), H(options), H(val), H(range), H(0)])
  }

  function SnapshotFields(ptr: U32): (xs: seq<Field>)
    ensures Even(xs)
    ensures Says(xs, Snapshot(ptr))
  {
    Counted([Opcode(0x1f), I(ptr)])
  }

  function SpinnerFields(x: I16, y: I16, style: Byte, scale: Byte): (xs: seq<Field>)
    ensures Even(xs)
    ensures Says(xs, Spinner(x, y, style, scale))
  {
    Counted([Opcode(0x16), Ch(x), Ch(y), H(style), H(scale)])
  }

  function StopFields(): (xs: seq<Field>)
    ensures Even(xs)
    ensures Says(xs, CmdStop)
  {
    Counted([Opcode(0x17)])
  }

  function SwapFields(): (xs: seq<Field>)
    ensures Even(xs)
    ensures Says(xs, CmdSwap)
  {
    Counted([Opcode(0x01)])
  }

  function TextFields(x: I16, y: I16, font: Byte, options: U16, s: seq<Byte>): (xs: seq<Field>)
    ensures Even(xs)
    ensures xs != [] && xs[0] == TranslateX(x) && (NoZero(s) ==> Says(xs[1..], CmdText(LeftX(x), y, font, options, s)))
  {
    Placed(x, Counted([Opcode(0x0c), Ch(LeftX(x)), Ch(y), H(font), H(options), S(s)]))
  }

  function ToggleFields(x: I16, y: I16, w: I16, font: Byte, options: U16,
      state: U16, s: seq<Byte>): (xs: seq<Field>)
    ensures Even(xs)
    ensures NoZero(s) ==> Says(xs, Toggle(x, y, w, font, options, state, s))
  {
    Counted([Opcode(0x12), Ch(x), Ch(y), Ch(w), H(font), H(options), H(state), S(s)])
  }

  function TrackFields(x: I16, y: I16, w: U16, h: U16, tag: Byte): (xs: seq<Field>)
    ensures Even(xs)
    ensures Says(xs, Track(x, y, w, h, tag))
  {
    Counted([Opcode(0x2c), Ch(x), Ch(y), H(w), H(h), H(tag), H(0)])
  }

  function TranslateFields(tx: I32, ty: I32): (xs: seq<Field>)
    ensures Even(xs)
    ensures Says(xs, Translate(tx, ty))
  {
    Counted([Opcode(0x27), Ci(tx), Ci(ty)])
  }

  function PlayvideoFields(options: I32): (xs: seq<Field>)
    ensures Even(xs)
    ensures Says(xs, Playvideo(options))
  {
    Counted([Opcode(0x3a), Ci(options)])
  }

  function RomfontFields(font: U32, romslot: U32): (xs: seq<Field>)
    ensures Even(xs)
    ensures Says(xs, Romfont(font, romslot))
  {
    Counted([Opcode(0x3f), I(font), I(romslot)])
  }

  function MediafifoFields(ptr: U32, size: U32): (xs: seq<Field>)
    ensures Even(xs)
    ensures Says(xs, Mediafifo(ptr, size))
  {
    Counted([Opcode(0x39), I(ptr), I(size)])
  }

  function SetbaseFields(b: U32): (xs: seq<Field>)
    ensures Even(xs)
    ensures Says(xs, Setbase(b))
  {
    Counted([Opcode(0x38), I(b)])
  }

  function VideoframeFields(dst: U32, ptr: U32): (xs: seq<Field>)
    ensures Even(xs)
    ensures Says(xs, Videoframe(dst, ptr))
  {
    Counted([Opcode(0x41), I(dst), I(ptr)])
  }

  function Snapshot2Fields(fmt: U32, ptr: U32, x: I16, y: I16, w: I16, h: I16): (xs: seq<Field>)
    ensures Even(xs)
    ensures Says(xs, Snapshot2(fmt, ptr, x, y, w, h))
  {
    Counted([Opcode(0x37), I(fmt), I(ptr), Ch(x), Ch(y), Ch(w), Ch(h)])
  }

  function Setfont2Fields(font: U32, ptr: U32, firstchar: U32): (xs: seq<Field>)
    ensures Even(xs)
    ensures Says(xs, Setfont2(font, ptr, firstchar))
  {
    Counted([Opcode(0x3b), I(font), I(ptr), I(firstchar)])
  }

  function SetbitmapFields(source: U32, fmt: U16, w: U16, h: U16): (xs: seq<Field>)
    ensures Even(xs)
    ensures Says(xs, Setbitmap(source, fmt, w, h))
  {
    Counted([Opcode(0x43), I(source), H(fmt), H(w), H(h), H(0)])
  }

  function SetrotateFields(r: U32): (xs: seq<Field>)
    ensures Even(xs)
    ensures Says(xs, Setrotate(r))
  {
    Counted([Opcode(0x36), I(r)])
  }

  function VideostartFields(): (xs: seq<Field>)
    ensures Even(xs)
    ensures Says(xs, Videostart)
  {
    Counted([Opcode(0x40)])
  }

  function SyncFields(): (xs: seq<Field>)
    ensures Even(xs)
    ensures Says(xs, CmdSync)
  {
    Counted([Opcode(0x42)])
  }

  // The commands with a text that are not placed, and the others that draw a widget or
  // refer to one.
  predicate Labelled(c: Command) { c.Keys? || c.Toggle? }

  predicate Widget(c: Command) {
    || c.Clock? || c.Dial? || c.Gauge? || c.Gradient? || c.Progress? || c.Scrollbar?
    || c.Sketch? || c.Slider? || c.Spinner? || c.Track?
  }

  function PlacedFields(c: Command): (xs: seq<Field>)
    requires Places(c)
    ensures Even(xs)
  {
    match c
    case Button(x, y, w, h, font, options, s) => ButtonFields(x, y, w, h, font, options, s)
    case Number(x, y, font, options, n) => NumberFields(x, y, font, options, n)
    case CmdText(x, y, font, options, s) => TextFields(x, y, font, options, s)
  }

  function LabelledFields(c: Command): (xs: seq<Field>)
    requires Labelled(c)
    ensures Even(xs)
    ensures Clean(c) ==> Says(xs, c)
  {
    match c
    case Keys(x, y, w, h, font, options, s) => KeysFields(x, y, w, h, font, options, s)
    case Toggle(x, y, w, font, options, state, s) => ToggleFields(x, y, w, font, options, state, s)
  }

  function WidgetFields(c: Command): (xs: seq<Field>)
    requires Widget(c)
    ensures Even(xs) && Says(xs, c)
  {
    match c
    case Clock(x, y, r, options, h, m, s, ms) => ClockFields(x, y, r, options, h, m, s, ms)
    case Dial(x, y, r, options, val) => DialFields(x, y, r, options, val)
    case Gauge(x, y, r, options, major, minor, val, range) => GaugeFields(x, y, r, options, major, minor, val, range)
    case Gradient(x0, y0, rgb0, x1, y1, rgb1) => GradientFields(x0, y0, rgb0, x1, y1, rgb1)
    case Progress(x, y, w, h, options, val, range) => ProgressFields(x, y, w, h, options, val, range)
    case Scrollbar(x, y, w, h, options, val, size, range) => ScrollbarFields(x, y, w, h, options, val, size, range)
    case Sketch(x, y, w, h, ptr, format) => SketchFields(x, y, w, h, ptr, format)
    case Slider(x, y, w, h, options, val, range) => SliderFields(x, y, w, h, options, val, range)
    case Spinner(x, y, style, scale) => SpinnerFields(x, y, style, scale)
    case Track(x, y, w, h, tag) => TrackFields(x, y, w, h, tag)
  }

  function OtherFields(c: Command): (xs: seq<Field>)
    requires !Places(c) && !Labelled(c) && !Widget(c)
    ensures Even(xs)
    ensures !c.Regwrite? ==> Says(xs, c)
  {
    match c
    case CmdAppend(ptr, num) => AppendFields(ptr, num)
    case Bgcolor(c) => BgcolorFields(c)
    case Calibrate => CalibrateFields()
    case Coldstart => ColdstartFields()
    case Dlstart => DlstartFields()
    case Fgcolor(c) => FgcolorFields(c)
    case Getmatrix => GetmatrixFields()
    case Getprops => GetpropsFields()
    case Getptr => GetptrFields()
    case Gradcolor(c) => GradcolorFields(c)
    case Inflate(ptr) => InflateFields(ptr)
    case Interrupt(ms) => InterruptFields(ms)
    case Loadidentity => LoadidentityFields()
    case Loadimage(ptr, options) => LoadimageFields(ptr, options)
    case Memcpy(dest, src, num) => MemcpyFields(dest, src, num)
    case Memset(ptr, value, num) => MemsetFields(ptr, value, num)
    case Memcrc(ptr, num) => MemcrcFields(ptr, num)
    case Memwrite(ptr, num) => MemwriteFields(ptr, num)
    case Regwrite(ptr, val) => RegwriteFields(ptr, val)
    case Regread(ptr) => RegreadFields(ptr)
    case Rotate(a) => RotateFields(a)
    case Scale(sx, sy) => ScaleFields(sx, sy)
    case Screensaver => ScreensaverFields()
    case Setfont(font, ptr) => SetfontFields(font, ptr)
    case Setmatrix => SetmatrixFields()
    case Snapshot(ptr) => SnapshotFields(ptr)
    case CmdStop => StopFields()
    case CmdSwap => SwapFields()
    case Translate(tx, ty) => TranslateFields(tx, ty)
    case Playvideo(options) => PlayvideoFields(options)
    case Romfont(font, romslot) => RomfontFields(font, romslot)
    case Mediafifo(ptr, size) => MediafifoFields(ptr, size)
    case Setbase(b) => SetbaseFields(b)
    case Videoframe(dst, ptr) => VideoframeFields(dst, ptr)
    case Snapshot2(fmt, ptr, x, y, w, h) => Snapshot2Fields(fmt, ptr, x, y, w, h)
    case Setfont2(font, ptr, firstchar) => Setfont2Fields(font, ptr, firstchar)
    case Setbitmap(source, fmt, w, h) => SetbitmapFields(source, fmt, w, h)
    case Setrotate(r) => SetrotateFields(r)
    case Videostart => VideostartFields()
    case CmdSync => SyncFields()
  }

  function Fields(c: Command): (xs: seq<Field>)
    ensures Even(xs)
    ensures Clean(c) && !Places(c) && !c.Regwrite? ==> Says(xs, c)
  {
    if Places(c) then PlacedFields(c)
    else if Labelled(c) then LabelledFields(c)
    else if Widget(c) then WidgetFields(c)
    else OtherFields(c)
  }

  // Every cmd_* emits whole words, whatever its arguments.
  lemma EveryCommandWhole(c: Command)
    ensures |Encode(Fields(c))| % 4 == 0
  {
    EncodeWhole(Fields(c));
  }

  // The three that are placed send a translation and say the rest of their x.
  lemma PlacedSays(c: Command)
    requires Clean(c) && Places(c)
    ensures var xs := Fields(c);
            xs != [] && xs[0] == TranslateX(XOf(c)) && Says(xs[1..], WithX(c, LeftX(XOf(c))))
  {
  }

  // An emit either appends its bytes or leaves the producer polling with nothing added.
  lemma EmitAppends(f: Fifo, bytes: seq<Byte>, plan: seq<nat>)
    requires Inv(f)
    ensures var w := Emit(f, bytes, plan);
            && Inv(w.f)
            && w.f.log == (if w.ok then f.log + bytes else f.log)
            && w.f.kept == (if w.ok then f.kept + bytes else f.kept)
  {
    DoKeeps(f, OpEmit(bytes), plan);
  }

  // ok is false when the coprocessor's plan ran out while the transport was polling;
  // the emitter is then stuck and nothing after that point is written.
  class GDClass {
    const tr: GDTransport

    constructor (tr: GDTransport)
      ensures this.tr == tr
    {
      this.tr := tr;
    }

    ghost predicate Ready()
      reads tr, tr.chip, tr.chip.ram
    {
      tr.Streaming()
    }

    ghost predicate Grew(before: Fifo, bytes: seq<Byte>, ok: bool)
      reads tr, tr.chip, tr.chip.ram
    {
      && Ready()
      && (ok ==> tr.f.log == before.log + bytes && tr.f.kept == before.kept + bytes)
    }

    // Two emissions in a row.
    lemma Then(before: Fifo, mid: Fifo, a: seq<Byte>, b: seq<Byte>, ok: bool)
      requires mid.log == before.log + a && mid.kept == before.kept + a && Grew(mid, b, ok)
      ensures Grew(before, a + b, ok)
    {
      assert before.log + a + b == before.log + (a + b);
      assert before.kept + a + b == before.kept + (a + b);
    }

    method CmdByte(b: Byte) returns (ok: bool)
      requires Ready()
      modifies tr, tr.chip, tr.chip.ram
      ensures Grew(old(tr.f), [b], ok)
    {
      EmitAppends(tr.f, [b], tr.chip.plan);
      ok := tr.Write([b]);
    }

    method CI(v: U32) returns (ok: bool)
      requires Ready()
      modifies tr, tr.chip, tr.chip.ram
      ensures Grew(old(tr.f), Word(v), ok) && ReadWord(Word(v)) == v
    {
      WordRead(v);
      EmitAppends(tr.f, Word(v), tr.chip.plan);
      ok := tr.Write(Word(v));
    }

    method CH(v: U16) returns (ok: bool)
      requires Ready()
      modifies tr, tr.chip, tr.chip.ram
      ensures Grew(old(tr.f), Half(v), ok) && ReadHalf(Half(v)) == v
    {
      HalfRead(v);
      var low: Byte, high: Byte := v % 256, v / 256 % 256;
      ok := CmdByte(low);
      if ok {
        ghost var mid := tr.f;
        ok := CmdByte(high);
        Then(old(tr.f), mid, [low], [high], ok);
        assert [low] + [high] == Half(v);
      }
    }

    // align(n): n is a byte and wraps.
    method Align(n: Byte) returns (ok: bool)
      requires Ready()
      modifies tr, tr.chip, tr.chip.ram
      ensures Grew(old(tr.f), Padding(n), ok)
    {
      ok := true;
      var m: Byte := n;
      ghost var k := 0;
      while ok && m % 4 != 0
        invariant Grew(old(tr.f), Zeros(k), ok)
        invariant k + Gap(m) == Gap(n)
        decreases ok, Gap(m)
      {
        ghost var mid := tr.f;
        GapStep(m);
        ok := CmdByte(0);
        Then(old(tr.f), mid, Zeros(k), [0], ok);
        assert Zeros(k) + [0] == Zeros(k + 1);
        k := k + 1;
        m := (m as int + 1) % 256;
      }
    }

    // A counting loop over cmdbyte, as in cs and copy.
    method CmdBytes(s: seq<Byte>) returns (ok: bool)
      requires Ready()
      modifies tr, tr.chip, tr.chip.ram
      ensures Grew(old(tr.f), s, ok)
    {
      ok := true;
      var count := 0;
      while ok && count < |s|
        invariant 0 <= count <= |s| && Grew(old(tr.f), s[..count], ok)
        decreases ok, |s| - count
      {
        ghost var mid := tr.f;
        ok := CmdByte(s[count]);
        Then(old(tr.f), mid, s[..count], [s[count]], ok);
        assert s[..count] + [s[count]] == s[..count + 1];
        count := count + 1;
      }
      assert ok ==> s[..count] == s;
    }

    // cs(s): the characters, the terminating zero, and zeros up to the next word.
    method Cs(s: seq<Byte>) returns (ok: bool)
      requires Ready()
      modifies tr, tr.chip, tr.chip.ram
      ensures Grew(old(tr.f), Text(s), ok)
    {
      ok := CmdBytes(s);
      if !ok { return; }
      ghost var f1 := tr.f;
      ok := CmdByte(0);
      Then(old(tr.f), f1, s, [0], ok);
      if !ok { return; }
      ghost var f2 := tr.f;
      PaddingByte(|s| + 1);
      ok := Align((|s| + 1) % 256);
      Then(old(tr.f), f2, s + [0], Padding(|s| + 1), ok);
    }

    // copy(src, count): byte by byte.
    method Copy(src: seq<Byte>) returns (ok: bool)
      requires Ready()
      modifies tr, tr.chip, tr.chip.ram
      ensures Grew(old(tr.f), src + Padding(|src|), ok)
    {
      var a := |src| % 4;
      ok := CmdBytes(src);
      if !ok { return; }
      ghost var mid := tr.f;
      PaddingByte(|src|);
      ok := Align(a);
      Then(old(tr.f), mid, src, Padding(|src|), ok);
    }

    // copyram(src, count): in one piece; the count is cut to 16 bits.
    method CopyRam(src: seq<Byte>) returns (ok: bool)
      requires Ready()
      modifies tr, tr.chip, tr.chip.ram
      ensures Grew(old(tr.f), src[..|src| % 0x10000] + Padding(|src|), ok)
    {
      var a := |src| % 4;
      var part := src[..|src| % 0x10000];
      EmitAppends(tr.f, part, tr.chip.plan);
      ok := tr.Write(part);
      if !ok { return; }
      ghost var mid := tr.f;
      PaddingByte(|src|);
      ok := Align(a);
      Then(old(tr.f), mid, part, Padding(|src|), ok);
    }

    // A cmd_*, call by call: whole words of it.
    method Cmd(c: Command) returns (ok: bool)
      requires Ready()
      modifies tr, tr.chip, tr.chip.ram
      ensures Grew(old(tr.f), Encode(Fields(c)), ok) && |Encode(Fields(c))| % 4 == 0
    {
      EveryCommandWhole(c);
      ok := SendFields(Fields(c));
    }

    method SendFields(xs: seq<Field>) returns (ok: bool)
      requires Ready()
      modifies tr, tr.chip, tr.chip.ram
      ensures Grew(old(tr.f), Encode(xs), ok)
      decreases |xs|
    {
      if xs == [] {
        assert tr.f.log + [] == tr.f.log && tr.f.kept + [] == tr.f.kept;
        return true;
      }
      match xs[0] {
        case I(w) => ok := CI(w);
        case H(h) => ok := CH(h);
        case S(s) => ok := Cs(s);
      }
      if !ok { return; }
      ghost var mid := tr.f;
      ok := SendFields(xs[1..]);
      Then(old(tr.f), mid, FieldBytes(xs[0]), Encode(xs[1..]), ok);
    }
  }

  // What copy and copyram write is whole words too.
  lemma CopiesWhole(src: seq<Byte>)
    ensures |src + Padding(|src|)| % 4 == 0
    ensures |src[..|src| % 0x10000] + Padding(|src|)| % 4 == 0
  {
  }
}
