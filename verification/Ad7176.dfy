// AD7176 register transfers: the bytes written and read over SPI, the two checksums,
// and which damaged replies are turned away.
module Ad7176 {
  import opened Division
  import opened Crc8
  import opened Modular

  // A byte is its eight bits; Num is its value and Byte the way back.
  function Num(b: Reg): (n: nat)
    ensures n < 256
  {
    (if b.b7 then 128 else 0) + (if b.b6 then 64 else 0) + (if b.b5 then 32 else 0) + (if b.b4 then 16 else 0) +
    (if b.b3 then 8 else 0) + (if b.b2 then 4 else 0) + (if b.b1 then 2 else 0) + (if b.b0 then 1 else 0)
  }

  function Byte(n: nat): Reg
    requires n < 256
  {
    var n6 := if n >= 128 then n - 128 else n;
    var n5 := if n6 >= 64 then n6 - 64 else n6;
    var n4 := if n5 >= 32 then n5 - 32 else n5;
    var n3 := if n4 >= 16 then n4 - 16 else n4;
    var n2 := if n3 >= 8 then n3 - 8 else n3;
    var n1 := if n2 >= 4 then n2 - 4 else n2;
    Reg(n >= 128, n6 >= 64, n5 >= 32, n4 >= 16, n3 >= 8, n2 >= 4, n1 >= 2, n1 == 1 || n1 == 3)
  }

  lemma ByteNum(n: nat)
    requires n < 256
    ensures Num(Byte(n)) == n
  {
  }

  // ------------------------------------------------------------------- checksums

  function FrameBits(frame: seq<Reg>): seq<bool> {
    if frame == [] then [] else Bits(frame[0]) + FrameBits(frame[1..])
  }

  lemma {:induction false} FrameBitsAppend(a: seq<Reg>, b: seq<Reg>)
    ensures FrameBits(a + b) == FrameBits(a) + FrameBits(b)
    decreases |a|
  {
    if a == [] {
      assert a + b == b;
    } else {
      assert (a + b)[1..] == a[1..] + b;
      FrameBitsAppend(a[1..], b);
    }
  }

  function FrameCrc(frame: seq<Reg>): Reg { Crc(FrameBits(frame)) }

  function FrameXor(frame: seq<Reg>): Reg
  {
    if frame == [] then ZERO else Add(FrameXor(frame[..|frame| - 1]), frame[|frame| - 1])
  }

  lemma FrameCrcSnoc(frame: seq<Reg>, b: Reg)
    ensures FrameCrc(frame + [b]) == Feed(FrameCrc(frame), Bits(b))
  {
    FrameBitsAppend(frame, [b]);
    assert FrameBits([b]) == Bits(b);
    FeedAppend(ZERO, FrameBits(frame), Bits(b));
  }

  // The example in the data sheet of the converter: the checksum of 0x654321 is 0x86.
  lemma FrameCrcExample(frame: seq<Reg>)
    requires |frame| == 3 && Num(frame[0]) == 0x65 && Num(frame[1]) == 0x43 && Num(frame[2]) == 0x21
    ensures Num(FrameCrc(frame)) == 0x86
  {
    ExampleBytes(frame[0], frame[1], frame[2]);
    FrameCrcSnoc([], frame[0]);
    FrameCrcSnoc(frame[..1], frame[1]);
    FrameCrcSnoc(frame[..2], frame[2]);
    assert [] + [frame[0]] == frame[..1] && frame[..1] + [frame[1]] == frame[..2] && frame[..2] + [frame[2]] == frame;
  }

  lemma ExampleBytes(a: Reg, b: Reg, c: Reg)
    requires Num(a) == 0x65 && Num(b) == 0x43 && Num(c) == 0x21
    ensures Num(Feed(Feed(Feed(ZERO, Bits(a)), Bits(b)), Bits(c))) == 0x86
  {
    FeedByte(ZERO, a);
    var r := Feed(ZERO, Bits(a));
    assert r == Byte(0x3c);
    FeedByte(r, b);
    var s := Feed(r, Bits(b));
    assert s == Byte(0x7a);
    FeedByte(s, c);
  }

  lemma FrameXorSnoc(frame: seq<Reg>, b: Reg)
    ensures FrameXor(frame + [b]) == Add(FrameXor(frame), b)
  {
    assert (frame + [b])[..|frame|] == frame;
  }

  // 0x07
  const POLYNOMIAL := Reg(false, false, false, false, false, true, true, true)

  function Shl(r: Reg): Reg { Reg(r.b6, r.b5, r.b4, r.b3, r.b2, r.b1, r.b0, false) }

  lemma FeedPrefix(r: Reg, bits: seq<bool>, i: nat)
    requires i < |bits|
    ensures Feed(r, bits[..i + 1]) == Step(Feed(r, bits[..i]), bits[i])
  {
    assert bits[..i + 1] == bits[..i] + [bits[i]];
    FeedAppend(r, bits[..i], [bits[i]]);
    DivideOne(Step, Feed(r, bits[..i]), bits[i]);
  }

  lemma ShiftIsStep(r: Reg, bit: bool)
    ensures Step(r, bit) == if r.b7 != bit then Add(Shl(r), POLYNOMIAL) else Shl(r)
  {
  }

  // The inner loop: the mask walks over the bits of one byte.
  method CrcByte(start: Reg, b: Reg) returns (crc: Reg)
    ensures crc == Feed(start, Bits(b))
  {
    crc := start;
    var bits := Bits(b);
    var i := 0;
    while i < |bits|
      invariant i <= |bits| && crc == Feed(start, bits[..i])
    {
      ShiftIsStep(crc, bits[i]);
      FeedPrefix(start, bits, i);
      if crc.b7 != bits[i] {
        crc := Shl(crc);
        crc := Add(crc, POLYNOMIAL);
      } else {
        crc := Shl(crc);
      }
      i := i + 1;
    }
    assert bits[..i] == bits;
  }

  method ComputeCRC8(buf: array<Reg>, size: nat) returns (crc: Reg)
    requires size <= buf.Length
    ensures crc == FrameCrc(buf[..size])
  {
    crc := ZERO;
    var k := 0;
    while k < size
      invariant k <= size && crc == FrameCrc(buf[..k])
    {
      crc := CrcByte(crc, buf[k]);
      FrameCrcSnoc(buf[..k], buf[k]);
      assert buf[..k + 1] == buf[..k] + [buf[k]];
      k := k + 1;
    }
  }

  method ComputeXOR8(buf: array<Reg>, size: nat) returns (xorv: Reg)
    requires size <= buf.Length
    ensures xorv == FrameXor(buf[..size])
  {
    xorv := ZERO;
    var k := 0;
    while k < size
      invariant k <= size && xorv == FrameXor(buf[..k])
    {
      xorv := Add(xorv, buf[k]);
      FrameXorSnoc(buf[..k], buf[k]);
      assert buf[..k + 1] == buf[..k] + [buf[k]];
      k := k + 1;
    }
  }

  // ------------------------------------------------------------- register values

  const TWO_31 := 0x8000_0000
  const TWO_32 := 0x1_0000_0000

  // int32_t
  type Int32 = x: int | -0x8000_0000 <= x < 0x8000_0000

  function Wrap(x: int): Int32 { (x + TWO_31) % TWO_32 - TWO_31 }

  function Pow256(n: nat): (p: nat)
    ensures p > 0
  {
    if n == 0 then 1 else 256 * Pow256(n - 1)
  }

  // The bytes a write lays out for a value, most significant first.
  function Laid(value: Int32, n: nat): (bytes: seq<Reg>)
    ensures |bytes| == n
    decreases n
  {
    if n == 0 then [] else Laid(value / 256, n - 1) + [Byte(value % 256)]
  }

  // The first byte holds the highest digit.
  lemma {:induction false} LaidDigits(value: Int32, n: nat, k: nat)
    requires k < n
    ensures Num(Laid(value, n)[k]) == value / Pow256(n - 1 - k) % 256
    decreases n
  {
    ByteNum(value % 256);
    if k == n - 1 {
      assert Pow256(0) == 1;
    } else {
      LaidDigits(value / 256, n - 1, k);
      DigitShift(value, Pow256(n - 2 - k));
    }
  }

  lemma DigitShift(v: int, m: nat)
    requires m > 0
    ensures v / 256 / m == v / (256 * m)
  {
    ModSplit(v, m);
    var a, b := v / 256 / m, v / (256 * m);
    assert v == b * (256 * m) + v % (256 * m) && v / 256 == a * m + v / 256 % m;
    assert (a - b) * (256 * m) == 0;
    if a != b { NoSmallMultiple(a - b, 256 * m); }
  }

  // The value a read rebuilds from its bytes.
  function Rebuilt(bytes: seq<Reg>): Int32
  {
    if bytes == [] then 0
    else Wrap(Wrap(Rebuilt(bytes[..|bytes| - 1]) * 256) + Num(bytes[|bytes| - 1]))
  }

  lemma WrapSame(x: int, k: int)
    ensures Wrap(x + k * TWO_32) == Wrap(x)
  {
  }

  // Wrapping early does not show.
  lemma WrapThrough(x: int, b: int)
    ensures Wrap(Wrap(Wrap(x) * 256) + b) == Wrap(x * 256 + b)
  {
    var k := (x + TWO_31) / TWO_32;
    WrapSame(x * 256, -k * 256);
    var y := x * 256;
    var m := (y + TWO_31) / TWO_32;
    WrapSame(y + b, -m);
  }

  lemma ModSplit(v: int, m: nat)
    requires m > 0
    ensures v % (256 * m) == (v / 256) % m * 256 + v % 256
  {
    var w := v / 256;
    var q := w / m;
    assert v == q * (256 * m) + (w % m * 256 + v % 256);
    ModUnique(v, 256 * m, q, w % m * 256 + v % 256);
  }

  // What n bytes can tell of a value.
  lemma {:induction false} RebuiltLaid(value: Int32, n: nat)
    ensures Rebuilt(Laid(value, n)) == Wrap(value % Pow256(n))
    decreases n
  {
    if n > 0 {
      var bytes := Laid(value, n);
      assert bytes[..n - 1] == Laid(value / 256, n - 1);
      RebuiltLaid(value / 256, n - 1);
      ByteNum(value % 256);
      NextByte(value, Pow256(n - 1), Rebuilt(Laid(value / 256, n - 1)));
    }
  }

  lemma NextByte(value: Int32, m: nat, r: int)
    requires m > 0 && r == Wrap(value / 256 % m)
    ensures Wrap(Wrap(r * 256) + value % 256) == Wrap(value % (256 * m))
  {
    WrapThrough(value / 256 % m, value % 256);
    ModSplit(value, m);
  }

  // A value survives a write and a read of n bytes exactly when they can hold it: four
  // bytes hold all of them, fewer only what is neither negative nor too large.
  lemma RegisterRoundTrip(value: Int32, n: nat)
    ensures Rebuilt(Laid(value, n)) == value <==> n >= 4 || 0 <= value < Pow256(n)
  {
    RebuiltLaid(value, n);
    if n >= 4 {
      HighBytes(value, n);
    } else {
      LowBytes(value, n);
    }
  }

  lemma LowBytes(value: Int32, n: nat)
    requires n < 4
    ensures Wrap(value % Pow256(n)) == value <==> 0 <= value < Pow256(n)
  {
    assert Pow256(1) == 256 && Pow256(2) == 0x1_0000 && Pow256(3) == 0x100_0000;
    var p := Pow256(n);
    assert 1 <= p <= 0x100_0000;
    NarrowWrap(value % p);
    if 0 <= value < p { ModUnique(value, p, 0, value); }
  }

  lemma NarrowWrap(x: int)
    requires 0 <= x < TWO_31
    ensures Wrap(x) == x
  {
  }

  lemma HighBytes(value: Int32, n: nat)
    requires n >= 4
    ensures Wrap(value % Pow256(n)) == value
  {
    var k := WholeTurns(value, n);
    WrapBack(value, k, value % Pow256(n));
  }

  lemma WrapBack(value: Int32, k: int, r: int)
    requires r == value + k * TWO_32
    ensures Wrap(r) == value
  {
    WrapSame(value, k);
  }

  lemma WholeTurns(value: int, n: nat) returns (k: int)
    requires n >= 4
    ensures value % Pow256(n) == value + k * TWO_32
  {
    var m := Pow256(n - 4);
    assert Pow256(n - 3) == 256 * m;
    assert Pow256(n - 2) == 0x1_0000 * m;
    assert Pow256(n - 1) == 0x100_0000 * m;
    var q := value / Pow256(n);
    assert value % Pow256(n) == value - q * Pow256(n);
    RegroupProduct(q, m);
    k := -(q * m);
  }

  lemma RegroupProduct(q: int, m: int)
    ensures q * (TWO_32 * m) == (q * m) * TWO_32
  {
  }

  // ------------------------------------------------------------------------ reads

  datatype Mode = Disable | UseCrc | UseXor

  // COMM_REG_WEN | COMM_REG_RD | addr
  function ReadCommand(addr: Reg): Reg { addr.(b6 := true) }

  // The command byte has bit 6 set, which tells the device to send; the rest is the address.
  lemma ReadCommandNumber(addr: Reg)
    ensures Num(ReadCommand(addr)) == Num(addr) + if Num(addr) % 0x80 < 0x40 then 0x40 else 0
    ensures Num(addr) < 0x40 ==> Num(ReadCommand(addr)) == 0x40 + Num(addr)
  {
    NumSplit(addr);
  }

  lemma NumSplit(b: Reg)
    ensures Num(b) % 0x80 < 0x40 <==> !b.b6
    ensures Num(b) < 0x40 <==> !b.b7 && !b.b6
  {
  }

  const DATA_REGISTER := 0x04

  predicate StatusAppended(dataStatus: nat, addr: Reg) { dataStatus == 1 && Num(addr) == DATA_REGISTER }

  function ReadLen(mode: Mode, dataStatus: nat, addr: Reg, size: nat): nat {
    size + 1 + (if mode != Disable then 1 else 0) + (if StatusAppended(dataStatus, addr) then 1 else 0)
  }

  // The checksum runs over the command byte sent and the bytes received after it.
  predicate Accepted(mode: Mode, addr: Reg, answer: seq<Reg>) {
    match mode
    case Disable => true
    case UseCrc => FrameCrc([ReadCommand(addr)] + answer) == ZERO
    case UseXor => FrameXor([ReadCommand(addr)] + answer) == ZERO
  }

  // COMM_REG_WEN | COMM_REG_WR | addr, the value, and a checksum byte unless checksums are
  // off: the CRC in both checksum modes.
  function WriteFrame(mode: Mode, addr: Reg, size: nat, value: Int32): seq<Reg> {
    var frame := [addr] + Laid(value, size);
    if mode != Disable then frame + [FrameCrc(frame)] else frame
  }

  // The register records the driver keeps.
  class Register {
    var addr: Reg
    var size: nat
    var extra: nat
    var value: Int32
  }

  // The full-duplex transfer overwrites the buffer with what the device sends.
  method Transfer(buffer: array<Reg>, wire: seq<Reg>) returns (n: nat)
    requires |wire| <= buffer.Length
    modifies buffer
    ensures n == |wire|
    ensures buffer[..n] == wire
  {
    n := |wire|;
    var k := 0;
    while k < n
      invariant k <= n && buffer[..k] == wire[..k]
    {
      buffer[k] := wire[k];
      k := k + 1;
    }
  }

  // The message checked: the received bytes with the command put back in front.
  method BuildMessage(addr: Reg, buffer: array<Reg>, n: nat) returns (msgBuf: array<Reg>)
    requires 1 <= n <= 8 && buffer.Length == 8
    ensures fresh(msgBuf) && msgBuf.Length == 8
    ensures msgBuf[..n] == [ReadCommand(addr)] + buffer[1..n]
  {
    msgBuf := new Reg[8](_ => ZERO);
    msgBuf[0] := ReadCommand(addr);
    var i := 1;
    while i < n
      invariant 1 <= i <= n
      invariant msgBuf[..i] == [ReadCommand(addr)] + buffer[1..i]
    {
      msgBuf[i] := buffer[i];
      i := i + 1;
    }
  }

  method BuildValue(buffer: array<Reg>, size: nat) returns (value: Int32)
    requires size < buffer.Length
    ensures value == Rebuilt(buffer[1..size + 1])
  {
    value := 0;
    var i := 1;
    while i < size + 1
      invariant 1 <= i <= size + 1 && value == Rebuilt(buffer[1..i])
    {
      assert buffer[1..i + 1][..i - 1] == buffer[1..i];
      value := Wrap(value * 256);
      value := Wrap(value + Num(buffer[i]));
      i := i + 1;
    }
  }

  method Check(mode: Mode, addr: Reg, buffer: array<Reg>, n: nat) returns (check8: Reg)
    requires 1 <= n <= 8 && buffer.Length == 8
    ensures check8 == ZERO <==> Accepted(mode, addr, buffer[1..n])
  {
    check8 := ZERO;
    if mode == UseCrc {
      var msgBuf := BuildMessage(addr, buffer, n);
      check8 := ComputeCRC8(msgBuf, n);
    }
    if mode == UseXor {
      var msgBuf := BuildMessage(addr, buffer, n);
      check8 := ComputeXOR8(msgBuf, n);
    }
  }

  class Ad7176 {
    var useCRC: Mode
    var dataStatus: nat

    // answer is what the device sends while the command and its filler go out; a byte
    // is received for every byte sent. Returns the byte count, or -1 with the register
    // record as it was.
    method ReadRegister(pReg: Register, answer: seq<Reg>) returns (ret: int, sent: seq<Reg>)
      requires |answer| == ReadLen(useCRC, dataStatus, pReg.addr, pReg.size) <= 8
      modifies pReg
      ensures pReg.addr == old(pReg.addr) && pReg.size == old(pReg.size)
      ensures |sent| == |answer| && forall k :: 1 <= k < |sent| ==> sent[k] == ZERO
      ensures sent[0] == ReadCommand(pReg.addr) && (Num(pReg.addr) < 0x40 ==> Num(sent[0]) == 0x40 + Num(pReg.addr))
      ensures Accepted(useCRC, pReg.addr, answer[1..]) ==>
                && ret == |answer|
                && pReg.value == Rebuilt(answer[1..pReg.size + 1])
                && pReg.extra == if StatusAppended(dataStatus, pReg.addr) then Num(answer[pReg.size + 1])
                                 else old(pReg.extra)
      ensures !Accepted(useCRC, pReg.addr, answer[1..]) ==>
                ret == -1 && pReg.value == old(pReg.value) && pReg.extra == old(pReg.extra)
    {
      var buffer := new Reg[8](_ => ZERO);
      buffer[0] := ReadCommand(pReg.addr);
      ReadCommandNumber(pReg.addr);
      sent := buffer[..|answer|];
      var readLen := Transfer(buffer, answer);
      assert buffer[1..readLen] == buffer[..readLen][1..];
      assert buffer[1..pReg.size + 1] == buffer[..readLen][1..pReg.size + 1];
      var check8 := Check(useCRC, pReg.addr, buffer, readLen);
      if check8 != ZERO {
        ret := -1;
        return;
      }
      if dataStatus == 1 && Num(pReg.addr) == DATA_REGISTER {
        pReg.extra := Num(buffer[pReg.size + 1]);
      }
      pReg.value := BuildValue(buffer, pReg.size);
      ret := readLen;
    }

    // The bytes sent for a write.
    method WriteRegister(addr: Reg, size: nat, value: Int32) returns (sent: seq<Reg>)
      requires size + (if useCRC != Disable then 2 else 1) <= 8
      ensures sent == WriteFrame(useCRC, addr, size, value)
    {
      var wrBuf := new Reg[8](_ => ZERO);
      wrBuf[0] := addr;
      FillDown(wrBuf, size, value);
      ghost var frame := [addr] + Laid(value, size);
      assert wrBuf[..size + 1] == frame;
      if useCRC != Disable {
        var crc8 := ComputeCRC8(wrBuf, size + 1);
        wrBuf[size + 1] := crc8;
        assert wrBuf[..size + 2] == wrBuf[..size + 1] + [crc8];
        sent := wrBuf[..size + 2];
      } else {
        sent := wrBuf[..size + 1];
      }
    }
  }

  // The write loop, from the last byte down.
  method FillDown(wrBuf: array<Reg>, size: nat, value: Int32)
    requires size < wrBuf.Length
    modifies wrBuf
    ensures wrBuf[1..size + 1] == Laid(value, size)
    ensures wrBuf[0] == old(wrBuf[0])
  {
    var regValue := value;
    var i := 0;
    while i < size
      invariant i <= size && wrBuf[0] == old(wrBuf[0])
      invariant Laid(regValue, size - i) + wrBuf[size - i + 1..size + 1] == Laid(value, size)
    {
      wrBuf[size - i] := Byte(regValue % 256);
      assert wrBuf[size - i..size + 1] == [Byte(regValue % 256)] + wrBuf[size - i + 1..size + 1];
      regValue := regValue / 256;
      i := i + 1;
    }
  }

  // --------------------------------------------------------- well-formed replies

  // A frame that ends in a checksum byte checks out exactly when the byte is right.
  lemma CrcFrame(frame: seq<Reg>, c: Reg)
    ensures FrameCrc(frame + [c]) == ZERO <==> c == FrameCrc(frame)
  {
    FrameBitsAppend(frame, [c]);
    assert FrameBits([c]) == Bits(c);
    Residue(FrameBits(frame), c);
  }

  lemma XorFrame(frame: seq<Reg>, c: Reg)
    ensures FrameXor(frame + [c]) == ZERO <==> c == FrameXor(frame)
  {
    FrameXorSnoc(frame, c);
  }

  lemma ReplyChecksum(mode: Mode, addr: Reg, payload: seq<Reg>, c: Reg)
    requires mode != Disable
    ensures var frame := [ReadCommand(addr)] + payload;
            Accepted(mode, addr, payload + [c]) <==> c == if mode == UseCrc then FrameCrc(frame) else FrameXor(frame)
  {
    var frame := [ReadCommand(addr)] + payload;
    assert [ReadCommand(addr)] + (payload + [c]) == frame + [c];
    CrcFrame(frame, c);
    XorFrame(frame, c);
  }

  // The device. A command byte below 0x40 writes the register of that number, one from 0x40
  // to 0x7f reads the register of the number less 0x40; the status comes with data register 4.
  datatype Order = Refused | Stores(register: nat, bytes: seq<Reg>)

  function Obeyed(mode: Mode, size: nat, sent: seq<Reg>): Order {
    if |sent| <= size || Num(sent[0]) >= 0x40 || (mode != Disable && FrameCrc(sent) != ZERO) then Refused
    else Stores(Num(sent[0]), sent[1..size + 1])
  }

  // What it sends while the command byte cmd comes in, holding these bytes in the register
  // asked for: a byte under the command, then the register, the status if it is to be
  // appended, and the checksum over the command it got and what it sent.
  function DeviceAnswer(mode: Mode, dataStatus: nat, cmd: Reg, held: seq<Reg>, junk: Reg, status: Reg): seq<Reg>
    requires 0x40 <= Num(cmd) < 0x80
  {
    var payload := held + if dataStatus == 1 && Num(cmd) == 0x44 then [status] else [];
    [junk] + match mode
             case Disable => payload
             case UseCrc => payload + [FrameCrc([cmd] + payload)]
             case UseXor => payload + [FrameXor([cmd] + payload)]
  }

  // The answer to the command sent is of the length read, is accepted in every mode, and
  // brings the register's bytes and the status byte as they were sent.
  lemma ReadBack(mode: Mode, dataStatus: nat, addr: Reg, cmd: Reg, held: seq<Reg>, junk: Reg, status: Reg)
    requires Num(addr) < 0x40 && cmd == ReadCommand(addr)
    ensures Num(cmd) == 0x40 + Num(addr)
    ensures var answer := DeviceAnswer(mode, dataStatus, cmd, held, junk, status);
            && |answer| == ReadLen(mode, dataStatus, addr, |held|)
            && Accepted(mode, addr, answer[1..])
            && answer[1..|held| + 1] == held
            && (dataStatus == 1 && Num(addr) == 4 ==> answer[|held| + 1] == status)
  {
    ReadCommandNumber(addr);
    var answer := DeviceAnswer(mode, dataStatus, cmd, held, junk, status);
    var payload := held + if StatusAppended(dataStatus, addr) then [status] else [];
    assert answer[1..|held| + 1] == held;
    match mode {
      case Disable =>
      case UseCrc =>
        assert answer[1..] == payload + [FrameCrc([cmd] + payload)];
        ReplyChecksum(mode, addr, payload, FrameCrc([cmd] + payload));
      case UseXor =>
        assert answer[1..] == payload + [FrameXor([cmd] + payload)];
        ReplyChecksum(mode, addr, payload, FrameXor([cmd] + payload));
    }
  }

  // The device takes a write for what it is, in every mode.
  lemma WriteObeyed(mode: Mode, addr: Reg, size: nat, value: Int32)
    requires Num(addr) < 0x40
    ensures Obeyed(mode, size, WriteFrame(mode, addr, size, value)) == Stores(Num(addr), Laid(value, size))
  {
    var frame := [addr] + Laid(value, size);
    CrcFrame(frame, FrameCrc(frame));
    var sent := WriteFrame(mode, addr, size, value);
    assert sent[1..size + 1] == Laid(value, size);
  }

  // Main result: a value written to a register and read from it again comes back, in every
  // mode, exactly when the register can hold it.
  lemma WrittenReadBack(mode: Mode, dataStatus: nat, addr: Reg, size: nat, value: Int32, junk: Reg, status: Reg)
    requires Num(addr) < 0x40
    ensures var order := Obeyed(mode, size, WriteFrame(mode, addr, size, value));
            && order.Stores? && order.register == Num(addr) && |order.bytes| == size
            && 0x40 <= Num(ReadCommand(addr)) < 0x80
            && var answer := DeviceAnswer(mode, dataStatus, ReadCommand(addr), order.bytes, junk, status);
               && |answer| == ReadLen(mode, dataStatus, addr, size)
               && Accepted(mode, addr, answer[1..])
               && (Rebuilt(answer[1..size + 1]) == value <==> size >= 4 || 0 <= value < Pow256(size))
  {
    WriteObeyed(mode, addr, size, value);
    HeldReadBack(mode, dataStatus, addr, ReadCommand(addr), size, value, Laid(value, size), junk, status);
  }

  lemma HeldReadBack(mode: Mode, dataStatus: nat, addr: Reg, cmd: Reg, size: nat, value: Int32, held: seq<Reg>,
                     junk: Reg, status: Reg)
    requires Num(addr) < 0x40 && cmd == ReadCommand(addr) && held == Laid(value, size)
    ensures 0x40 <= Num(cmd) < 0x80
    ensures var answer := DeviceAnswer(mode, dataStatus, cmd, held, junk, status);
            && |answer| == ReadLen(mode, dataStatus, addr, size)
            && Accepted(mode, addr, answer[1..])
            && (Rebuilt(answer[1..size + 1]) == value <==> size >= 4 || 0 <= value < Pow256(size))
  {
    ReadBack(mode, dataStatus, addr, cmd, held, junk, status);
    RegisterRoundTrip(value, size);
  }

  // ------------------------------------------------------------ damaged replies

  // All the wrong bits lie in n neighbouring places, and there is one.
  predicate BurstAt(e: seq<bool>, i: nat, n: nat) {
    && i + n <= |e|
    && (forall k :: 0 <= k < |e| && e[k] ==> i <= k < i + n)
    && exists k :: 0 <= k < |e| && e[k]
  }

  ghost predicate Burst(e: seq<bool>) { exists i: nat, n: nat :: n <= 8 && BurstAt(e, i, n) }

  // The damage this checksum is good against.
  ghost predicate Detectable(e: seq<bool>) {
    Burst(e) || Weight(e) % 2 == 1 || (|e| <= 127 && 1 <= Weight(e) <= 3)
  }

  lemma DetectableSeen(e: seq<bool>)
    requires Detectable(e)
    ensures Crc(e) != ZERO
  {
    if Weight(e) % 2 == 1 {
      OddDetected(e);
    } else if Burst(e) {
      var i: nat, n: nat :| n <= 8 && BurstAt(e, i, n);
      var w := e[i..i + n];
      var k :| 0 <= k < |e| && e[k];
      assert w[k - i];
      assert e == Zeros(i) + w + Zeros(|e| - i - n);
      BurstDetected(i, w, |e| - i - n);
    } else {
      FewDetected(e);
    }
  }

  lemma {:induction false} FrameBitsLength(frame: seq<Reg>)
    ensures |FrameBits(frame)| == 8 * |frame|
  {
    if frame != [] { FrameBitsLength(frame[1..]); }
  }

  // The bits in which two frames of one length differ.
  ghost function Damage(good: seq<Reg>, bad: seq<Reg>): (e: seq<bool>)
    requires |good| == |bad|
    ensures |e| == 8 * |good|
  {
    FrameBitsLength(good);
    FrameBitsLength(bad);
    AddBits(FrameBits(good), FrameBits(bad))
  }

  // Damage to an accepted reply passes exactly when the damage alone has checksum zero.
  lemma DamagePasses(addr: Reg, good: seq<Reg>, bad: seq<Reg>)
    requires |good| == |bad| && Accepted(UseCrc, addr, good)
    ensures Accepted(UseCrc, addr, bad) <==> Crc(Damage(good, bad)) == ZERO
  {
    var cmd := [ReadCommand(addr)];
    var g, b, e := FrameBits(cmd + good), FrameBits(cmd + bad), Damage(good, bad);
    FrameBitsAppend(cmd, good);
    FrameBitsAppend(cmd, bad);
    FrameBitsLength(cmd);
    FrameBitsLength(good);
    FrameBitsLength(bad);
    assert AddBits(g, Zeros(8) + e) == b;
    CrcLinear(g, Zeros(8) + e);
    Window(8, e, 0);
    assert Zeros(8) + e + Zeros(0) == Zeros(8) + e;
  }

  // So a reply hit by a burst of at most eight bits, by an odd number of wrong bits, or
  // by up to three wrong bits in at most fifteen bytes is refused.
  lemma DamageRejected(addr: Reg, good: seq<Reg>, bad: seq<Reg>)
    requires |good| == |bad| && Accepted(UseCrc, addr, good)
    requires Detectable(Damage(good, bad))
    ensures !Accepted(UseCrc, addr, bad)
  {
    DamagePasses(addr, good, bad);
    DetectableSeen(Damage(good, bad));
  }

  // The XOR checksum does not see the order of the bytes.
  lemma XorMissesSwap(addr: Reg, a: seq<Reg>, x: Reg, y: Reg, b: seq<Reg>)
    ensures Accepted(UseXor, addr, a + [x, y] + b) <==> Accepted(UseXor, addr, a + [y, x] + b)
  {
    XorSwap([ReadCommand(addr)] + a, x, y, b);
    assert [ReadCommand(addr)] + (a + [x, y] + b) == ([ReadCommand(addr)] + a) + [x, y] + b;
    assert [ReadCommand(addr)] + (a + [y, x] + b) == ([ReadCommand(addr)] + a) + [y, x] + b;
  }

  lemma XorPair(a: seq<Reg>, x: Reg, y: Reg)
    ensures FrameXor(a + [x, y]) == Add(FrameXor(a), Add(x, y))
  {
    assert a + [x, y] == (a + [x]) + [y];
    FrameXorSnoc(a + [x], y);
    FrameXorSnoc(a, x);
  }

  lemma {:induction false} XorSwap(a: seq<Reg>, x: Reg, y: Reg, b: seq<Reg>)
    ensures FrameXor(a + [x, y] + b) == FrameXor(a + [y, x] + b)
    decreases |b|
  {
    if b == [] {
      XorPair(a, x, y);
      XorPair(a, y, x);
      assert a + [x, y] + b == a + [x, y];
      assert a + [y, x] + b == a + [y, x];
    } else {
      var n := |b| - 1;
      XorSwap(a, x, y, b[..n]);
      FrameXorSnoc(a + [x, y] + b[..n], b[n]);
      FrameXorSnoc(a + [y, x] + b[..n], b[n]);
      assert a + [x, y] + b == (a + [x, y] + b[..n]) + [b[n]];
      assert a + [y, x] + b == (a + [y, x] + b[..n]) + [b[n]];
    }
  }
}
