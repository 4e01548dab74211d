// The LTC2758 digital-to-analogue converter: quantising a voltage, packing it into bytes,
// and the double-buffered registers that receive them.
module Ltc2758 {
  import opened Reals

  const FULL := 262143

  // ------------------------------------------------------------------ quantisation

  function Ceil(x: real): int { if x == x.Floor as real then x.Floor else x.Floor + 1 }

  // Halves go down.
  function Round(x: real): int { if x > x.Floor as real + 0.5 then Ceil(x) else x.Floor }

  function Limit(n: int): (c: nat)
    ensures c <= FULL
  {
    if n < 0 then 0 else if n > FULL then FULL else n
  }

  function FloatCode(voltage: real, low: real, high: real): real
    requires low < high
  {
    262143.0 * (voltage - low) / (high - low)
  }

  function VoltageToCode(voltage: real, low: real, high: real): (code: nat)
    requires low < high
    ensures code <= FULL
  {
    Limit(Round(FloatCode(voltage, low, high)))
  }

  function CodeToVoltage(code: nat, low: real, high: real): real {
    (code as real / 262143.0) * (high - low) + low
  }

  lemma RoundNear(x: real, n: int)
    ensures Abs(Round(x) as real - x) <= 0.5
    ensures Abs(Round(x) as real - x) <= Abs(n as real - x)
  {
    var part := x - x.Floor as real;
    assert Round(x) as real - x == if part > 0.5 then 1.0 - part else -part;
    if n <= x.Floor {
      assert n as real <= x.Floor as real;
    } else {
      assert n as real >= x.Floor as real + 1.0;
    }
  }

  lemma LimitNear(x: real, c: nat)
    requires c <= FULL
    ensures Abs(Limit(Round(x)) as real - x) <= Abs(c as real - x)
    ensures 0.0 <= x <= 262143.0 ==> Abs(Limit(Round(x)) as real - x) <= 0.5
  {
    RoundNear(x, c);
  }

  // The width of one code.
  function Lsb(low: real, high: real): real { (high - low) / 262143.0 }

  // Errors in volts are errors in codes, scaled.
  lemma ErrorScales(voltage: real, c: nat, low: real, high: real)
    requires low < high
    ensures CodeToVoltage(c, low, high) - voltage == (c as real - FloatCode(voltage, low, high)) * Lsb(low, high)
  {
    var w, x := high - low, voltage - low;
    QuotientTimes(262143.0 * x, w);
    assert FloatCode(voltage, low, high) * w == 262143.0 * x;
  }

  lemma ErrorIn(voltage: real, c: nat, low: real, high: real, x: real, k: real) returns (d: real)
    requires low < high && x == FloatCode(voltage, low, high) && k == Lsb(low, high)
    ensures d == CodeToVoltage(c, low, high) - voltage && d == (c as real - x) * k
  {
    ErrorScales(voltage, c, low, high);
    d := CodeToVoltage(c, low, high) - voltage;
  }

  // The smaller error in codes is the smaller error in volts.
  lemma Compare(e: real, f: real, k: real, d: real, g: real)
    requires k > 0.0 && d == e * k && g == f * k && Abs(e) <= Abs(f)
    ensures Abs(d) <= Abs(g)
  {
    AbsScales(e, k);
    AbsScales(f, k);
    Product(Abs(f) - Abs(e), k);
    Spread(k, Abs(f), Abs(e));
  }

  lemma AbsScales(e: real, k: real)
    requires k > 0.0
    ensures Abs(e * k) == Abs(e) * k
  {
    if e < 0.0 { Product(-e, k); } else { Product(e, k); }
  }

  // No code is nearer to the voltage than the one chosen, in range or out of it.
  lemma NearestCode(voltage: real, c: nat, low: real, high: real)
    requires low < high && c <= FULL
    ensures var code := VoltageToCode(voltage, low, high);
            Abs(CodeToVoltage(code, low, high) - voltage) <= Abs(CodeToVoltage(c, low, high) - voltage)
  {
    var code, x, k := VoltageToCode(voltage, low, high), FloatCode(voltage, low, high), Lsb(low, high);
    LimitNear(x, c);
    Nearer(voltage, code, c, low, high, x, k);
  }

  lemma Nearer(voltage: real, code: nat, c: nat, low: real, high: real, x: real, k: real)
    requires low < high && x == FloatCode(voltage, low, high) && k == Lsb(low, high)
    requires Abs(code as real - x) <= Abs(c as real - x)
    ensures Abs(CodeToVoltage(code, low, high) - voltage) <= Abs(CodeToVoltage(c, low, high) - voltage)
  {
    var d := ErrorIn(voltage, code, low, high, x, k);
    var e := ErrorIn(voltage, c, low, high, x, k);
    Compare(code as real - x, c as real - x, k, d, e);
  }

  // In range it is at most half a code away.
  lemma HalfLsb(voltage: real, low: real, high: real)
    requires low < high && low <= voltage <= high
    ensures Abs(CodeToVoltage(VoltageToCode(voltage, low, high), low, high) - voltage) <= Lsb(low, high) / 2.0
  {
    var code, x, k := VoltageToCode(voltage, low, high), FloatCode(voltage, low, high), Lsb(low, high);
    InRange(voltage, low, high);
    LimitNear(x, 0);
    var d := ErrorIn(voltage, code, low, high, x, k);
    Compare(code as real - x, 0.5, k, d, k / 2.0);
  }

  lemma InRange(voltage: real, low: real, high: real)
    requires low < high && low <= voltage <= high
    ensures 0.0 <= FloatCode(voltage, low, high) <= 262143.0
  {
    var x, y := 262143.0 * (voltage - low), high - low;
    Between(x / y, x, y, 262143.0);
  }

  lemma Between(q: real, x: real, y: real, top: real)
    requires y > 0.0 && q == x / y && 0.0 <= x <= top * y
    ensures 0.0 <= q <= top
  {
    QuotientTimes(x, y);
    assert q * y == x;
    Cancel(0.0, q, y);
    Cancel(q, top, y);
  }

  // A higher voltage never gets a lower code.
  lemma CodesRise(v: real, w: real, low: real, high: real)
    requires low < high && v <= w
    ensures VoltageToCode(v, low, high) <= VoltageToCode(w, low, high)
  {
    QuotientRises(262143.0 * (v - low), 262143.0 * (w - low), high - low);
    RoundRises(FloatCode(v, low, high), FloatCode(w, low, high));
  }

  lemma RoundRises(x: real, y: real)
    requires x <= y
    ensures Round(x) <= Round(y)
  {
  }

  // Every code is the code of its own voltage.
  lemma CodeRoundTrip(c: nat, low: real, high: real)
    requires low < high && c <= FULL
    ensures VoltageToCode(CodeToVoltage(c, low, high), low, high) == c
  {
    var voltage := CodeToVoltage(c, low, high);
    ErrorScales(voltage, c, low, high);
    NoError(c as real - FloatCode(voltage, low, high), Lsb(low, high));
    RoundWhole(c);
  }

  lemma NoError(x: real, k: real)
    requires x * k == 0.0 && k > 0.0
    ensures x == 0.0
  {
  }

  lemma RoundWhole(c: nat)
    ensures Round(c as real) == c
  {
  }

  // -------------------------------------------------------------- bytes on the wire

  const WRITE_SPAN_DAC := 0x20
  const WRITE_CODE_DAC := 0x30
  const UPDATE_DAC := 0x40
  const WRITE_SPAN_UPDATE_DAC := 0x60
  const WRITE_CODE_UPDATE_DAC := 0x70

  const DAC_A := 0x00
  const DAC_B := 0x02
  const DAC_ALL := 0x0E

  // The four bytes sent for a command; the command and the address do not overlap.
  function Frame(command: nat, address: nat, data: nat): (bytes: seq<nat>)
    ensures |bytes| == 4
  {
    [command + address, data / 1024 % 256, data / 4 % 256, data * 64 % 256]
  }

  // What the device makes of them: an 18-bit code, or a span in four bits of the third.
  function CodeIn(bytes: seq<nat>): nat
    requires |bytes| == 4
  {
    bytes[1] * 1024 + bytes[2] * 4 + bytes[3] / 64
  }

  function SpanIn(bytes: seq<nat>): nat
    requires |bytes| == 4
  {
    bytes[2] % 16
  }

  lemma CodeArrives(command: nat, address: nat, code: nat)
    requires code <= FULL
    ensures CodeIn(Frame(command, address, code)) == code
  {
    LastBits(code);
    Pieces(code);
  }

  lemma LastBits(code: nat)
    ensures code * 64 % 256 / 64 == code % 4
  {
    assert code * 64 == 256 * (code / 4) + 64 * (code % 4);
  }

  lemma Pieces(code: nat)
    requires code <= FULL
    ensures code / 1024 < 256 && code == code / 1024 * 1024 + code / 4 % 256 * 4 + code % 4
  {
    assert code / 4 / 256 == code / 1024;
  }

  lemma SpanArrives(command: nat, address: nat, span: nat)
    requires span < 16
    ensures SpanIn(Frame(command, address, span * 4)) == span
  {
  }

  // ------------------------------------------------------------------- the device

  datatype Setting = Setting(span: nat, code: nat)

  // One channel: what is written waits in the buffer until an update shows both parts.
  datatype Channel = Channel(buffer: Setting, shown: Setting)

  datatype Chip = Chip(a: Channel, b: Channel)

  function Obey(ch: Channel, command: nat, bytes: seq<nat>): Channel
    requires |bytes| == 4
  {
    var buffer :=
      if command == WRITE_SPAN_DAC || command == WRITE_SPAN_UPDATE_DAC then ch.buffer.(span := SpanIn(bytes))
      else if command == WRITE_CODE_DAC || command == WRITE_CODE_UPDATE_DAC then ch.buffer.(code := CodeIn(bytes))
      else ch.buffer;
    if command == UPDATE_DAC || command == WRITE_SPAN_UPDATE_DAC || command == WRITE_CODE_UPDATE_DAC
    then Channel(buffer, buffer)
    else Channel(buffer, ch.shown)
  }

  function Receive(chip: Chip, bytes: seq<nat>): Chip
    requires |bytes| == 4
  {
    var address := bytes[0] % 16;
    var command := bytes[0] - address;
    Chip(if address == DAC_A || address == DAC_ALL then Obey(chip.a, command, bytes) else chip.a,
         if address == DAC_B || address == DAC_ALL then Obey(chip.b, command, bytes) else chip.b)
  }

  // The class the driver's write talks to.
  class Device {
    var chip: Chip

    constructor (c: Chip)
      ensures chip == c
    {
      chip := c;
    }

    // Four transfers, most significant byte first.
    method Write(command: nat, address: nat, data: nat)
      modifies this
      ensures chip == Receive(old(chip), Frame(command, address, data))
    {
      var b0 := command + address;
      var b1 := data / 1024 % 256;
      var b2 := data / 4 % 256;
      var b3 := data * 64 % 256;
      chip := Receive(chip, [b0, b1, b2, b3]);
    }
  }

  // ------------------------------------------------------------------ committing

  // The two frames of a commit: the span, then the code with an update.
  function Commit(s: Setting): (frames: seq<seq<nat>>)
    ensures |frames| == 2 && |frames[0]| == 4 && |frames[1]| == 4
  {
    [Frame(WRITE_SPAN_DAC, DAC_A, s.span * 4), Frame(WRITE_CODE_UPDATE_DAC, DAC_A, s.code)]
  }

  // The first bytes on the wire, and the whole of the frame that initialises both channels.
  lemma CommitBytes(s: Setting)
    ensures Commit(s)[0][0] == 0x20 && Commit(s)[1][0] == 0x70
    ensures Frame(WRITE_SPAN_DAC, DAC_ALL, 3) == [0x2E, 0x00, 0x00, 0xC0]
  {
  }

  predicate Sendable(s: Setting) { s.span < 16 && s.code <= FULL }

  function Committed(chip: Chip, s: Setting): Chip {
    Receive(Receive(chip, Commit(s)[0]), Commit(s)[1])
  }

  // The first frame of a commit shows nothing; the second shows all of it.
  lemma CommitShows(chip: Chip, s: Setting)
    requires Sendable(s)
    ensures Receive(chip, Commit(s)[0]) == chip.(a := Channel(Setting(s.span, chip.a.buffer.code), chip.a.shown))
    ensures Committed(chip, s) == chip.(a := Channel(s, s))
  {
    SpanArrives(WRITE_SPAN_DAC, DAC_A, s.span);
    CodeArrives(WRITE_CODE_UPDATE_DAC, DAC_A, s.code);
  }

  // The other commands, by number: span, code and update sent apart show nothing before the
  // update; a span may bring the update too; address 2 is the second channel.
  lemma SentApart(chip: Chip, s: Setting)
    requires Sendable(s)
    ensures var c := Receive(Receive(chip, Frame(0x20, 0, s.span * 4)), Frame(0x30, 0, s.code));
            c == chip.(a := Channel(s, chip.a.shown)) && Receive(c, Frame(0x40, 0, 0)) == chip.(a := Channel(s, s))
    ensures Receive(Receive(chip, Frame(0x30, 2, s.code)), Frame(0x60, 2, s.span * 4)) == chip.(b := Channel(s, s))
  {
    SpanArrives(0x20, 0, s.span);
    CodeArrives(0x30, 0, s.code);
    SpanArrives(0x60, 2, s.span);
    CodeArrives(0x30, 2, s.code);
  }

  function Frames(settings: seq<Setting>): (frames: seq<seq<nat>>)
    ensures |frames| == 2 * |settings| && forall k :: 0 <= k < |frames| ==> |frames[k]| == 4
  {
    if settings == [] then [] else Commit(settings[0]) + Frames(settings[1..])
  }

  function Fed(chip: Chip, frames: seq<seq<nat>>): Chip
    requires forall k :: 0 <= k < |frames| ==> |frames[k]| == 4
    decreases |frames|
  {
    if frames == [] then chip else Fed(Receive(chip, frames[0]), frames[1..])
  }

  // After any number of frames of any run of commits, what is shown is the last setting
  // committed as a whole: never a code under a span it was not sent with.
  lemma {:induction false} ShownIsCommitted(chip: Chip, settings: seq<Setting>, n: nat)
    requires n <= 2 * |settings| && forall k :: 0 <= k < |settings| ==> Sendable(settings[k])
    ensures Fed(chip, Frames(settings)[..n]).a.shown == if n < 2 then chip.a.shown else settings[n / 2 - 1]
    decreases n
  {
    var frames := Frames(settings)[..n];
    if n == 0 {
      assert frames == [];
    } else {
      var s := settings[0];
      CommitShows(chip, s);
      var chip' := Receive(chip, Commit(s)[0]);
      assert frames[0] == Commit(s)[0];
      if n == 1 {
        assert frames[1..] == [];
      } else {
        assert frames[1..][0] == Commit(s)[1];
        assert frames[1..][1..] == Frames(settings[1..])[..n - 2];
        ShownIsCommitted(Committed(chip, s), settings[1..], n - 2);
      }
    }
  }
}
