// The display transport in place: a 16-bit write pointer, a cached freespace, and the
// coprocessor that reads a 4 KB ring behind the producer's back.
module DisplayFifo {
  import opened DisplayStream

  type U16 = x: int | 0 <= x < 0x10000

  // x & 0xffc and x & 0xfff on a 16-bit pointer.
  function Mask(x: U16): U16 { x % RING }
  function MaskWord(x: U16): U16 { x % RING - x % 4 }

  lemma RingDistance(a: nat, b: nat)
    requires a <= b < a + RING
    ensures (b % RING - a % RING) % RING == b - a
    ensures a < b ==> a % RING != b % RING
  {
  }

  lemma RingStep(a: nat, b: nat)
    ensures (a % RING + b) % RING == (a + b) % RING
  {
  }

  // The ring holds the bytes of kept from rd on, each at its position modulo its size.
  ghost predicate Holds(ram: seq<Byte>, kept: seq<Byte>, rd: nat) {
    |ram| == RING && forall i :: rd <= i < |kept| ==> ram[i % RING] == kept[i]
  }

  lemma HoldsPut(ram: seq<Byte>, kept: seq<Byte>, rd: nat, b: Byte)
    requires Holds(ram, kept, rd) && rd <= |kept| < rd + RING
    ensures Holds(ram[|kept| % RING := b], kept + [b], rd)
  {
    forall i | rd <= i < |kept|
      ensures i % RING != |kept| % RING
    {
      RingDistance(i, |kept|);
    }
  }

  // n bytes of the ring from position start on.
  ghost function RingSlice(ram: seq<Byte>, start: nat, n: nat): seq<Byte>
    requires |ram| == RING
  {
    if n == 0 then [] else RingSlice(ram, start, n - 1) + [ram[(start + n - 1) % RING]]
  }

  lemma {:induction false} HoldsSlice(ram: seq<Byte>, kept: seq<Byte>, rd: nat, n: nat)
    requires Holds(ram, kept, rd) && rd + n <= |kept|
    ensures RingSlice(ram, rd % RING, n) == kept[rd..rd + n]
  {
    if n > 0 {
      HoldsSlice(ram, kept, rd, n - 1);
      RingStep(rd, n - 1);
    }
  }

  // The pointer rounded down is the pointer of the stream cut.
  lemma CutWord(wp: U16, f: Fifo)
    requires Inv(f) && wp % RING == |f.kept| % RING
    ensures var g := Cut(f);
            && Inv(g) && Seen(g) == Seen(f) && g.pub == |g.kept| <= |f.kept| && g.kept == f.kept[..|g.kept|]
            && MaskWord(wp) < RING && MaskWord(wp) % RING == MaskWord(wp) == |g.kept| % RING
  {
    MaskedWord(wp, |f.kept|);
    CutKeeps(f);
  }

  lemma HoldsPrefix(ram: seq<Byte>, kept: seq<Byte>, rd: nat, n: nat)
    requires Holds(ram, kept, rd) && n <= |kept|
    ensures Holds(ram, kept[..n], rd)
  {
  }

  lemma HoldsLater(ram: seq<Byte>, kept: seq<Byte>, rd: nat, later: nat)
    requires Holds(ram, kept, rd) && rd <= later
    ensures Holds(ram, kept, later)
  {
  }

  lemma OneMore(kept: seq<Byte>, s: seq<Byte>, i: nat)
    requires i < |s|
    ensures kept + s[..i + 1] == kept + s[..i] + [s[i]]
  {
  }

  lemma PutSeen(f: Fifo, s: seq<Byte>)
    requires Inv(f) && |s| <= f.free
    ensures Inv(Put(f, s)) && Seen(Put(f, s)) == Seen(f)
  {
    assert (f.kept + s)[..f.rd] == f.kept[..f.rd];
  }

  lemma SeenGrows(f: Fifo, k: nat, n: nat)
    requires Inv(f) && n == if 4 * k <= f.pub - f.rd then 4 * k else f.pub - f.rd
    ensures Seen(Drain(f, k)) == Seen(f) + f.kept[f.rd..f.rd + n]
  {
    assert f.kept[..f.rd] + f.kept[f.rd..f.rd + n] == f.kept[..f.rd + n];
  }

  lemma RingShift(a: nat, b: nat, n: nat)
    requires a % RING == b % RING
    ensures (a + n) % RING == (b + n) % RING
  {
    RingStep(a, n);
    RingStep(b, n);
  }

  lemma MaskedWord(wp: U16, a: nat)
    requires wp % RING == a % RING
    ensures Mask(wp) % RING == a % RING && MaskWord(Mask(wp)) == (a - a % 4) % RING
    ensures MaskWord(wp) == (a - a % 4) % RING < RING
  {
    RingQuarter(wp);
    RingQuarter(a);
  }

  lemma RingQuarter(a: nat)
    ensures (a % RING) % 4 == a % 4 && (a - a % 4) % RING == a % RING - a % 4
  {
  }

  // What the producer sees of the FT8xx: two registers and the ring. Streamed addresses
  // wrap inside the ring. plan is how far it gets before each poll; plans are arbitrary.
  class Coprocessor {
    const ram: array<Byte>
    var readReg: nat
    var writeReg: nat
    var addr: nat
    var plan: seq<nat>
    ghost var seen: seq<Byte>  // what it has read, byte by byte, out of the ring

    constructor (plan: seq<nat>)
      ensures fresh(ram) && ram.Length == RING
      ensures readReg == writeReg == addr == 0 && this.plan == plan && seen == []
    {
      ram := new Byte[RING](_ => 0);
      readReg, writeReg, addr, this.plan, seen := 0, 0, 0, plan, [];
    }
  }

  // The producer, with the stream it has produced as ghost state.
  class GDTransport {
    const chip: Coprocessor
    var wp: U16
    var freespace: U16
    ghost var f: Fifo

    constructor (chip: Coprocessor)
      requires chip.ram.Length == RING && chip.seen == []
      requires chip.readReg == chip.writeReg == chip.addr == 0
      ensures Valid() && this.chip == chip && f == BEGIN
    {
      this.chip := chip;
      wp := 0;
      freespace := RING - 4;
      f := BEGIN;
    }

    ghost predicate Valid()
      reads this, chip, chip.ram
    {
      && chip.ram.Length == RING
      && Inv(f) && freespace == f.free && wp + freespace < 2 * RING
      && wp % RING == |f.kept| % RING
      && chip.readReg == f.rd % RING && chip.writeReg == f.pub % RING
      && chip.seen == Seen(f)
      && Holds(chip.ram[..], f.kept, f.rd)
    }

    ghost predicate Streaming()
      reads this, chip, chip.ram
    {
      Valid() && chip.addr == wp % RING
    }

    // The coprocessor reads k words, or what there is. It may do so at any time.
    method Advance(k: nat)
      requires Valid()
      modifies this`f, chip`readReg, chip`seen
      ensures Valid() && f == Drain(old(f), k)
    {
      var n := Ready(k);
      DrainKeeps(f, k);
      HoldsSlice(chip.ram[..], f.kept, f.rd, n);
      RingStep(f.rd, n);
      HoldsLater(chip.ram[..], f.kept, f.rd, f.rd + n);
      SeenGrows(f, k, n);
      Fetch(n);
      f := Drain(f, k);
    }

    // How many bytes it finds when it looks at the two registers.
    method Ready(k: nat) returns (n: nat)
      requires Valid()
      ensures n == if 4 * k <= f.pub - f.rd then 4 * k else f.pub - f.rd
    {
      RingDistance(f.rd, f.pub);
      var pending := (chip.writeReg - chip.readReg) % RING;
      n := if 4 * k <= pending then 4 * k else pending;
    }

    // The coprocessor's side: n bytes out of the ring.
    method Fetch(n: nat)
      requires chip.ram.Length == RING && chip.readReg < RING
      modifies chip`readReg, chip`seen
      ensures chip.seen == old(chip.seen) + RingSlice(chip.ram[..], old(chip.readReg), n)
      ensures chip.readReg == (old(chip.readReg) + n) % RING
    {
      for j := 0 to n
        modifies chip`readReg, chip`seen
        invariant chip.readReg == (old(chip.readReg) + j) % RING
        invariant chip.seen == old(chip.seen) + RingSlice(chip.ram[..], old(chip.readReg), j)
      {
        RingStep(old(chip.readReg) + j, 1);
        chip.seen := chip.seen + [chip.ram[chip.readReg]];
        chip.readReg := (chip.readReg + 1) % RING;
      }
    }

    // SPI.transfer while streaming: one byte into the ring.
    method Transfer(b: Byte)
      requires chip.ram.Length == RING && chip.addr < RING
      modifies chip`addr, chip.ram
      ensures chip.ram[..] == old(chip.ram[..])[old(chip.addr) := b]
      ensures chip.addr == (old(chip.addr) + 1) % RING
    {
      chip.ram[chip.addr] := b;
      chip.addr := (chip.addr + 1) % RING;
    }

    // stream(): (re)starts the write transaction at wp.
    method Stream()
      requires Valid()
      modifies chip`addr
      ensures Streaming()
    {
      chip.addr := Mask(wp);
    }

    // One round of the polling loop.
    method PollOnce(n: U16) returns (enough: bool)
      requires Valid() && wp < RING && chip.plan != []
      modifies this`freespace, this`f, chip`readReg, chip`seen, chip`plan
      ensures Valid() && chip.plan == old(chip.plan)[1..]
      ensures f == Refresh(Drain(old(f), old(chip.plan)[0]))
      ensures enough <==> !(f.free < n)
    {
      var k := chip.plan[0];
      chip.plan := chip.plan[1..];
      Advance(k);
      var fullness := Fullness();
      freespace := RING - 4 - fullness;
      f := Refresh(f);
      enough := !(freespace < n);
    }

    // How much the producer still has in the ring, as it sees it now.
    method Fullness() returns (n: U16)
      requires Valid() && wp < RING
      ensures n == f.Unread() <= ROOM && Inv(f.(free := 0))
    {
      RingDistance(f.rd, |f.kept|);
      n := (wp - chip.readReg) % RING;
    }

    // The first lines of getfree(): whole words become visible.
    method PublishWords()
      requires Valid()
      modifies this`wp, this`f, chip`writeReg
      ensures Valid() && wp < RING && f == Publish(old(f))
    {
      MaskedWord(wp, |f.kept|);
      PublishKeeps(f);
      wp := Mask(wp);
      chip.writeReg := MaskWord(wp);
      f := Publish(f);
    }

    // getfree(): publishes whole words, then polls until n bytes fit.
    method GetFree(n: U16) returns (ok: bool)
      requires Valid()
      modifies this`wp, this`freespace, this`f, chip`readReg, chip`writeReg, chip`addr, chip`seen, chip`plan
      ensures Streaming() && (ok ==> n <= freespace)
      ensures DisplayStream.Wait(f, ok, chip.plan) == DisplayStream.GetFree(old(f), n, old(chip.plan))
    {
      PublishWords();
      ok := false;
      ghost var target := Poll(f, n, chip.plan);
      while !ok && chip.plan != []
        invariant Valid() && wp < RING && (ok ==> n <= freespace)
        invariant (if ok then DisplayStream.Wait(f, true, chip.plan) else Poll(f, n, chip.plan)) == target
        decreases |chip.plan|
      {
        ok := PollOnce(n);
      }
      Stream();
    }

    // Bytes one by one into the ring, after wp and freespace have been moved.
    method Send(s: seq<Byte>)
      requires Streaming() && |s| <= freespace
      modifies this`wp, this`freespace, this`f, chip`addr, chip.ram
      ensures Streaming() && f == Put(old(f), s)
    {
      wp := wp + |s|;
      freespace := freespace - |s|;
      RingShift(old(wp), |f.kept|, |s|);
      for i := 0 to |s|
        modifies chip`addr, chip.ram
        invariant chip.addr == (|f.kept| + i) % RING
        invariant Holds(chip.ram[..], f.kept + s[..i], f.rd)
      {
        RingStep(|f.kept| + i, 1);
        HoldsPut(chip.ram[..], f.kept + s[..i], f.rd, s[i]);
        OneMore(f.kept, s, i);
        Transfer(s[i]);
      }
      assert s[..|s|] == s;
      PutSeen(f, s);
      f := Put(f, s);
    }

    // cmdbyte, cmd32 and cmd_n differ only in how many bytes they write.
    method Write(s: seq<Byte>) returns (ok: bool)
      requires Streaming() && |s| < 0x10000
      modifies this`wp, this`freespace, this`f,
               chip`readReg, chip`writeReg, chip`addr, chip`seen, chip`plan, chip.ram
      ensures Streaming()
      ensures DisplayStream.Wait(f, ok, chip.plan) == Emit(old(f), s, old(chip.plan))
    {
      ok := true;
      if freespace < |s| {
        ok := GetFree(|s|);
      }
      if ok {
        Send(s);
      }
    }

    // The first lines of stop() and finish(): wp itself is rounded down to a word.
    method CutWords()
      requires Valid()
      modifies this`wp, this`f, chip`writeReg
      ensures Valid() && wp < RING && f == Cut(old(f))
      ensures chip.writeReg == wp && f.pub == |f.kept|
    {
      CutWord(wp, f);
      ghost var g := Cut(f);
      wp := MaskWord(wp);
      chip.writeReg := wp;
      HoldsPrefix(chip.ram[..], f.kept, f.rd, |g.kept|);
      f := g;
    }

    // finish(): true when the read pointer has met the write pointer.
    method Finish() returns (ok: bool)
      requires Valid()
      modifies this`wp, this`f, chip`readReg, chip`writeReg, chip`addr, chip`seen, chip`plan
      ensures Streaming()
      ensures DisplayStream.Wait(f, ok, chip.plan) == DisplayStream.Finish(old(f), old(chip.plan))
    {
      CutWords();
      ok := false;
      ghost var target := Meet(f, chip.plan);
      while !ok && chip.plan != []
        invariant Valid() && f.pub == |f.kept| && chip.writeReg == wp
        invariant (if ok then DisplayStream.Wait(f, true, chip.plan) else Meet(f, chip.plan)) == target
        decreases |chip.plan|
      {
        ok := PollMet();
      }
      Stream();
    }

    // One round of finish()'s polling loop.
    method PollMet() returns (met: bool)
      requires Valid() && f.pub == |f.kept| && chip.writeReg == wp && chip.plan != []
      modifies this`f, chip`readReg, chip`seen, chip`plan
      ensures Valid() && chip.plan == old(chip.plan)[1..]
      ensures f == Drain(old(f), old(chip.plan)[0]) && (met <==> f.rd == |f.kept|)
    {
      var k := chip.plan[0];
      chip.plan := chip.plan[1..];
      Advance(k);
      RingDistance(f.rd, |f.kept|);
      met := chip.readReg == wp;
    }

    // stop(): ends the transaction without waiting.
    method Stop()
      requires Valid()
      modifies this`wp, this`f, chip`writeReg
      ensures Valid() && f == Cut(old(f))
    {
      CutWords();
    }
  }
}
