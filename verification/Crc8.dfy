// The AD7176 checksum: a CRC-8 register fed one bit at a time, most significant bit
// first, and the coding theory that makes it worth having.
module Crc8 {
  import opened Division

  // The eight bits of the CRC register.
  datatype Reg = Reg(b7: bool, b6: bool, b5: bool, b4: bool, b3: bool, b2: bool, b1: bool, b0: bool)

  const ZERO := Reg(false, false, false, false, false, false, false, false)

  // One step with polynomial 0x07: shift left, and add 0x07 when the bit shifted out
  // differs from the message bit.
  function Step(r: Reg, bit: bool): Reg {
    var f := r.b7 != bit;
    Reg(r.b6, r.b5, r.b4, r.b3, r.b2, r.b1 != f, r.b0 != f, f)
  }

  function Feed(r: Reg, bits: seq<bool>): Reg { Divide(Step, r, bits) }

  function Crc(bits: seq<bool>): Reg { Feed(ZERO, bits) }

  function Add(r: Reg, s: Reg): Reg {
    Reg(r.b7 != s.b7, r.b6 != s.b6, r.b5 != s.b5, r.b4 != s.b4,
        r.b3 != s.b3, r.b2 != s.b2, r.b1 != s.b1, r.b0 != s.b0)
  }

  // The register's bits in the order they are sent.
  function Bits(r: Reg): seq<bool> { [r.b7, r.b6, r.b5, r.b4, r.b3, r.b2, r.b1, r.b0] }

  function Weight(bits: seq<bool>): nat {
    if bits == [] then 0 else (if bits[0] then 1 else 0) + Weight(bits[1..])
  }

  function Zeros(n: nat): seq<bool> { seq(n, _ => false) }

  lemma FeedAppend(r: Reg, a: seq<bool>, b: seq<bool>)
    ensures Feed(r, a + b) == Feed(Feed(r, a), b)
  {
    DivideAppend(Step, r, a, b);
  }

  // ------------------------------------------------------------------- linearity

  lemma StepAdditive()
    ensures Additive(Step, Add)
  {
  }

  // The checksum of a damaged frame is the checksum of the frame plus that of the damage.
  lemma CrcLinear(a: seq<bool>, e: seq<bool>)
    requires |a| == |e|
    ensures Crc(AddBits(a, e)) == Add(Crc(a), Crc(e))
  {
    StepAdditive();
    DivideAdditive(Step, Add, ZERO, ZERO, a, e);
  }

  // --------------------------------------------------------------------- residue

  lemma FeedByte(r: Reg, c: Reg)
    ensures Feed(r, Bits(c)) ==
            Step(Step(Step(Step(Step(Step(Step(Step(r, c.b7), c.b6), c.b5), c.b4), c.b3), c.b2), c.b1), c.b0)
  {
    DivideEight(Step, r, c.b7, c.b6, c.b5, c.b4, c.b3, c.b2, c.b1, c.b0);
  }

  // A step that feeds nothing back only shifts.
  lemma StepBack(r: Reg, bit: bool)
    ensures var s := Step(r, bit);
            !s.b0 <==> r == Reg(bit, s.b7, s.b6, s.b5, s.b4, s.b3, s.b2, s.b1)
  {
  }

  // Feeding a register with eight bits clears it exactly when they are its own.
  lemma ByteClears(r: Reg, c: Reg)
    ensures Feed(r, Bits(c)) == ZERO <==> c == r
  {
    FeedByte(r, c);
    var r1 := Step(r, c.b7);
    var r2 := Step(r1, c.b6);
    var r3 := Step(r2, c.b5);
    var r4 := Step(r3, c.b4);
    var r5 := Step(r4, c.b3);
    var r6 := Step(r5, c.b2);
    var r7 := Step(r6, c.b1);
    EightBack(r, r1, r2, r3, r4, r5, r6, r7, Step(r7, c.b0), c);
  }

  lemma EightBack(r: Reg, r1: Reg, r2: Reg, r3: Reg, r4: Reg, r5: Reg, r6: Reg, r7: Reg, r8: Reg, c: Reg)
    requires r1 == Step(r, c.b7) && r2 == Step(r1, c.b6) && r3 == Step(r2, c.b5) && r4 == Step(r3, c.b4)
    requires r5 == Step(r4, c.b3) && r6 == Step(r5, c.b2) && r7 == Step(r6, c.b1) && r8 == Step(r7, c.b0)
    ensures r8 == ZERO <==> c == r
  {
    LastFour(r4, r5, r6, r7, r8, c);
    FirstFour(r, r1, r2, r3, r4, c);
  }

  // Backwards over the last four bits,
  lemma LastFour(r4: Reg, r5: Reg, r6: Reg, r7: Reg, r8: Reg, c: Reg)
    requires r5 == Step(r4, c.b3) && r6 == Step(r5, c.b2) && r7 == Step(r6, c.b1) && r8 == Step(r7, c.b0)
    ensures r8 == ZERO <==> r4 == Reg(c.b3, c.b2, c.b1, c.b0, false, false, false, false)
  {
    StepBack(r7, c.b0);
    StepBack(r6, c.b1);
    StepBack(r5, c.b2);
    StepBack(r4, c.b3);
  }

  // and over the first four.
  lemma FirstFour(r: Reg, r1: Reg, r2: Reg, r3: Reg, r4: Reg, c: Reg)
    requires r1 == Step(r, c.b7) && r2 == Step(r1, c.b6) && r3 == Step(r2, c.b5) && r4 == Step(r3, c.b4)
    ensures r4 == Reg(c.b3, c.b2, c.b1, c.b0, false, false, false, false) <==> r == c
  {
    StepBack(r3, c.b4);
    StepBack(r2, c.b5);
    StepBack(r1, c.b6);
    StepBack(r, c.b7);
  }

  // A message followed by one byte has checksum zero exactly when the byte is the
  // message's own checksum.
  lemma Residue(bits: seq<bool>, c: Reg)
    ensures Crc(bits + Bits(c)) == ZERO <==> c == Crc(bits)
  {
    FeedAppend(ZERO, bits, Bits(c));
    ByteClears(Crc(bits), c);
  }

  // ------------------------------------------------------------- error detection

  lemma StepInjective(r: Reg, s: Reg, bit: bool)
    ensures Step(r, bit) == Step(s, bit) <==> r == s
  {
  }

  // Zero bits never turn a register that is not zero into zero, nor zero into anything.
  lemma {:induction false} FeedZeros(r: Reg, n: nat)
    ensures Feed(r, Zeros(n)) == ZERO <==> r == ZERO
    decreases n
  {
    if n > 0 {
      StepInjective(r, ZERO, false);
      assert Zeros(n)[1..] == Zeros(n - 1);
      FeedZeros(Step(r, false), n - 1);
    }
  }

  // All that an error confined to a window does is decided inside the window.
  lemma Window(i: nat, w: seq<bool>, j: nat)
    ensures Crc(Zeros(i) + w + Zeros(j)) == ZERO <==> Crc(w) == ZERO
  {
    FeedAppend(ZERO, Zeros(i) + w, Zeros(j));
    FeedAppend(ZERO, Zeros(i), w);
    FeedZeros(ZERO, i);
    FeedZeros(Feed(ZERO, Zeros(i) + w), j);
  }

  // Every burst: eight bits or fewer, not all zero, anywhere in a frame of any length.
  lemma BurstDetected(i: nat, w: seq<bool>, j: nat)
    requires |w| <= 8 && exists k :: 0 <= k < |w| && w[k]
    ensures Crc(Zeros(i) + w + Zeros(j)) != ZERO
  {
    Window(i, w, j);
    var v := w + Zeros(8 - |w|);
    Window(0, w, 8 - |w|);
    assert Zeros(0) + w + Zeros(8 - |w|) == v;
    var k :| 0 <= k < |w| && w[k];
    ShortWindow(v, k);
  }

  lemma ShortWindow(v: seq<bool>, k: nat)
    requires |v| == 8 && k < 8 && v[k]
    ensures Crc(v) != ZERO
  {
    var c := Reg(v[0], v[1], v[2], v[3], v[4], v[5], v[6], v[7]);
    assert v == Bits(c);
    ByteClears(ZERO, c);
    BitsOfZero(c, k);
  }

  lemma BitsOfZero(c: Reg, k: nat)
    requires k < 8 && Bits(c)[k]
    ensures c != ZERO
  {
  }

  function Parity(r: Reg): bool {
    r.b7 != (r.b6 != (r.b5 != (r.b4 != (r.b3 != (r.b2 != (r.b1 != r.b0))))))
  }

  lemma ParityStep(r: Reg, bit: bool)
    ensures Parity(Step(r, bit)) == (Parity(r) != bit)
  {
  }

  // The polynomial has an even number of terms, so the register's parity is the
  // message's.
  lemma {:induction false} ParityKept(r: Reg, bits: seq<bool>)
    ensures Parity(Feed(r, bits)) == (Parity(r) != (Weight(bits) % 2 == 1))
    decreases |bits|
  {
    if bits != [] {
      ParityStep(r, bits[0]);
      ParityKept(Step(r, bits[0]), bits[1..]);
    }
  }

  lemma OddDetected(e: seq<bool>)
    requires Weight(e) % 2 == 1
    ensures Crc(e) != ZERO
  {
    ParityKept(ZERO, e);
  }

  // ------------------------------------------------------------- two wrong bits

  // The register after a single one, and the only register a further one clears.
  const SEED := Reg(false, false, false, false, false, true, true, true)
  const TOP := Reg(true, false, false, false, false, false, false, false)

  function Turn(r: Reg, n: nat): Reg
    decreases n
  {
    if n == 0 then r else Turn(Step(r, false), n - 1)
  }

  // From r to end in n steps, meeting TOP at none of them before the last.
  predicate Runs(r: Reg, n: nat, end: Reg)
    decreases n
  {
    if n == 0 then r == end else r != TOP && Runs(Step(r, false), n - 1, end)
  }

  lemma {:induction false} RunsOn(r: Reg, m: nat, mid: Reg, n: nat, end: Reg)
    requires Runs(r, m, mid) && Runs(mid, n, end)
    ensures Runs(r, m + n, end)
    decreases m
  {
    if m > 0 { RunsOn(Step(r, false), m - 1, mid, n, end); }
  }

  lemma {:induction false} RunsTurn(r: Reg, n: nat, end: Reg, k: nat)
    requires Runs(r, n, end) && k <= n
    ensures if k < n then Turn(r, k) != TOP else Turn(r, n) == end
    decreases n
  {
    if k > 0 { RunsTurn(Step(r, false), n - 1, end, k - 1); }
  }

  lemma {:induction false} TurnSplit(r: Reg, m: nat, n: nat)
    ensures Turn(r, m + n) == Turn(Turn(r, m), n)
    decreases m
  {
    if m > 0 { TurnSplit(Step(r, false), m - 1, n); }
  }

  // The same for six steps, written out.
  predicate RunsSix(r: Reg, end: Reg) {
    var r1 := Step(r, false);
    var r2 := Step(r1, false);
    var r3 := Step(r2, false);
    var r4 := Step(r3, false);
    var r5 := Step(r4, false);
    r != TOP && r1 != TOP && r2 != TOP && r3 != TOP && r4 != TOP && r5 != TOP && Step(r5, false) == end
  }

  lemma SixRuns(r: Reg, end: Reg)
    requires RunsSix(r, end)
    ensures Runs(r, 6, end)
  {
    var r2 := Step(Step(r, false), false);
    var r4 := Step(Step(r2, false), false);
    assert Runs(r4, 2, end);
    assert Runs(r2, 4, end);
  }

  lemma SixOn(r: Reg, m: nat, mid: Reg, end: Reg)
    requires Runs(r, m, mid) && RunsSix(mid, end)
    ensures Runs(r, m + 6, end)
  {
    SixRuns(mid, end);
    RunsOn(r, m, mid, 6, end);
  }

  // The register a third and two thirds of the way round.
  const SEED_42 := Reg(true, false, true, false, false, true, false, false)
  const SEED_84 := Reg(true, true, true, true, false, true, true, true)

  lemma FirstThird()
    ensures Runs(SEED, 42, SEED_42)
  {
    var r6 := Reg(true, true, false, false, false, true, true, true);
    SixOn(SEED, 0, SEED, r6);
    var r12 := Reg(false, true, false, true, false, true, true, true);
    SixOn(SEED, 6, r6, r12);
    var r18 := Reg(true, false, true, false, true, false, true, true);
    SixOn(SEED, 12, r12, r18);
    var r24 := Reg(false, false, false, true, false, true, true, false);
    SixOn(SEED, 18, r18, r24);
    var r30 := Reg(true, false, false, true, true, false, true, true);
    SixOn(SEED, 24, r24, r30);
    var r36 := Reg(false, false, true, true, false, false, true, false);
    SixOn(SEED, 30, r30, r36);
    SixOn(SEED, 36, r36, SEED_42);
  }

  lemma SecondThird()
    ensures Runs(SEED_42, 42, SEED_84)
  {
    var r48 := Reg(true, true, false, true, true, true, true, true);
    SixOn(SEED_42, 0, SEED_42, r48);
    var r54 := Reg(false, true, false, false, false, true, false, true);
    SixOn(SEED_42, 6, r48, r54);
    var r60 := Reg(false, false, true, true, false, true, true, true);
    SixOn(SEED_42, 12, r54, r60);
    var r66 := Reg(true, true, true, false, false, false, true, true);
    SixOn(SEED_42, 18, r60, r66);
    var r72 := Reg(false, true, true, false, true, false, false, false);
    SixOn(SEED_42, 24, r66, r72);
    var r78 := Reg(false, true, false, false, false, true, true, false);
    SixOn(SEED_42, 30, r72, r78);
    SixOn(SEED_42, 36, r78, SEED_84);
  }

  lemma LastThird()
    ensures Runs(SEED_84, 42, TOP)
  {
    var r90 := Reg(false, true, true, true, false, false, true, true);
    SixOn(SEED_84, 0, SEED_84, r90);
    var r96 := Reg(true, false, false, true, false, true, false, false);
    SixOn(SEED_84, 6, r90, r96);
    var r102 := Reg(true, true, true, true, true, false, true, true);
    SixOn(SEED_84, 12, r96, r102);
    var r108 := Reg(false, true, true, true, true, false, true, false);
    SixOn(SEED_84, 18, r102, r108);
    var r114 := Reg(true, true, false, true, true, false, true, false);
    SixOn(SEED_84, 24, r108, r114);
    var r120 := Reg(false, false, false, false, false, false, true, false);
    SixOn(SEED_84, 30, r114, r120);
    SixOn(SEED_84, 36, r120, TOP);
  }

  // SEED meets TOP after 126 steps and not before.
  lemma Orbit()
    ensures Runs(SEED, 126, TOP)
  {
    FirstThird();
    SecondThird();
    LastThird();
    RunsOn(SEED, 42, SEED_42, 42, SEED_84);
    RunsOn(SEED, 84, SEED_84, 42, TOP);
  }

  // SEED's orbit has period 127 and meets TOP at its end only.
  lemma {:induction false} Period(n: nat)
    ensures Turn(SEED, n) == TOP <==> n % 127 == 126
    decreases n
  {
    Orbit();
    if n <= 126 {
      RunsTurn(SEED, 126, TOP, n);
    } else {
      RunsTurn(SEED, 126, TOP, 126);
      TurnSplit(SEED, 126, n - 126);
      Period(n - 127);
      assert n % 127 == (n - 127) % 127;
    }
  }

  lemma {:induction false} TurnFeeds(r: Reg, n: nat)
    ensures Feed(r, Zeros(n)) == Turn(r, n)
    decreases n
  {
    if n > 0 {
      assert Zeros(n)[1..] == Zeros(n - 1);
      TurnFeeds(Step(r, false), n - 1);
    }
  }

  // Two ones n + 1 places apart.
  function Pair(n: nat): seq<bool> { [true] + Zeros(n) + [true] }

  lemma PairFeeds(n: nat)
    ensures Crc(Pair(n)) == Step(Turn(SEED, n), true)
  {
    FeedAppend(ZERO, [true] + Zeros(n), [true]);
    FeedAppend(ZERO, [true], Zeros(n));
    DivideOne(Step, ZERO, true);
    DivideOne(Step, Feed(SEED, Zeros(n)), true);
    TurnFeeds(SEED, n);
  }

  // Two wrong bits go unseen exactly when their distance is a multiple of 127, which
  // no frame of this device is long enough to hold.
  lemma DoubleDetected(i: nat, n: nat, j: nat)
    ensures Crc(Zeros(i) + Pair(n) + Zeros(j)) == ZERO <==> (n + 1) % 127 == 0
  {
    Window(i, Pair(n), j);
    PairFeeds(n);
    StepBack(Turn(SEED, n), true);
    Period(n);
    assert (n + 1) % 127 == 0 <==> n % 127 == 126;
  }

  lemma {:induction false} NoOnes(e: seq<bool>)
    requires Weight(e) == 0
    ensures e == Zeros(|e|)
  {
    if e != [] { NoOnes(e[1..]); }
  }

  lemma {:induction false} FirstOne(e: seq<bool>) returns (i: nat)
    requires Weight(e) > 0
    ensures i < |e| && e == Zeros(i) + [true] + e[i + 1..]
    ensures Weight(e[i + 1..]) == Weight(e) - 1
  {
    if e[0] {
      i := 0;
    } else {
      var k := FirstOne(e[1..]);
      i := k + 1;
      assert e[1..][k + 1..] == e[i + 1..];
    }
  }

  // Up to three wrong bits, anywhere in a frame of at most 127 bits.
  lemma FewDetected(e: seq<bool>)
    requires |e| <= 127 && 1 <= Weight(e) <= 3
    ensures Crc(e) != ZERO
  {
    if Weight(e) == 2 {
      var i, n, j := TwoOnes(e);
      DoubleDetected(i, n, j);
    } else {
      OddDetected(e);
    }
  }

  lemma TwoOnes(e: seq<bool>) returns (i: nat, n: nat, j: nat)
    requires Weight(e) == 2
    ensures e == Zeros(i) + Pair(n) + Zeros(j) && i + n + j + 2 == |e|
  {
    i := FirstOne(e);
    var rest := e[i + 1..];
    n := FirstOne(rest);
    j := |rest| - n - 1;
    NoOnes(rest[n + 1..]);
    PairInside(Zeros(i), Zeros(n), Zeros(j));
  }

  lemma PairInside(a: seq<bool>, b: seq<bool>, c: seq<bool>)
    ensures a + [true] + (b + [true] + c) == a + ([true] + b + [true]) + c
  {
  }
}
