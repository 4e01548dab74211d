// The MAC address filter: two 64-bit hash tables of allowed addresses, in four hardware
// registers, with four words that remember which bits have been shared.
module MacFilter {
  import opened Crc32

  type Mac = m: seq<Byte> | |m| == 6 witness [0, 0, 0, 0, 0, 0]

  // A hash bit: which table, and which of its 64 bits.
  datatype Slot = Slot(group: bool, hash: nat)

  function Hash(mac: Mac): (h: nat)
    ensures h < 64
  {
    HashSmall(Remainder(!0, mac) >> 26);
    ((Remainder(!0, mac) >> 26) & 0x3f) as nat
  }

  lemma HashSmall(x: bv32)
    ensures x & 0x3f < 64
  {
  }

  // The group bit of an address.
  predicate Group(mac: Mac) { mac[0] & 0x01 != 0 }

  function SlotOf(mac: Mac): Slot { Slot(Group(mac), Hash(mac)) }

  method HashOf(mac: Mac) returns (crc: nat)
    ensures crc == Hash(mac)
  {
    var word := Crc32.Crc32(0, mac);
    HashSmall(word >> 26);
    crc := ((word >> 26) & 0x3f) as nat;
  }

  // bits: the hash bits that are set, so that the hardware lets frames through.
  // coll: the bits that are never released. allowed: the addresses allowed now.
  datatype Filter = Filter(bits: iset<Slot>, coll: iset<Slot>, allowed: set<Mac>)

  const START := Filter(iset{}, iset{}, {})

  datatype Step = Allow(mac: Mac) | Disallow(mac: Mac) | Reinit

  function Next(f: Filter, s: Step): Filter {
    match s
    case Allow(mac) =>
      var slot := SlotOf(mac);
      Filter(f.bits + iset{slot}, if slot in f.bits then f.coll + iset{slot} else f.coll, f.allowed + {mac})
    case Disallow(mac) =>
      var slot := SlotOf(mac);
      f.(bits := if slot in f.coll then f.bits else f.bits - iset{slot}, allowed := f.allowed - {mac})
    case Reinit =>  // t41_low_level_init clears the registers but not the collision words
      f.(bits := iset{}, allowed := {})
  }

  function Run(f: Filter, steps: seq<Step>): Filter
    decreases |steps|
  {
    if steps == [] then f else Run(Next(f, steps[0]), steps[1..])
  }

  // Every address is disallowed only while it is allowed.
  predicate Disciplined(f: Filter, steps: seq<Step>)
    decreases |steps|
  {
    steps != [] ==>
      (steps[0].Disallow? ==> steps[0].mac in f.allowed) && Disciplined(Next(f, steps[0]), steps[1..])
  }

  ghost predicate LetsAllowedIn(f: Filter) { forall a :: a in f.allowed ==> SlotOf(a) in f.bits }

  // Two allowed addresses with one hash bit have marked it, and a bit that is set but
  // not marked belongs to an allowed address.
  ghost predicate Inv(f: Filter) {
    && LetsAllowedIn(f)
    && (forall a, b :: a in f.allowed && b in f.allowed && a != b && SlotOf(a) == SlotOf(b) ==>
          SlotOf(a) in f.coll)
    && (forall s :: s in f.bits && s !in f.coll ==> exists a :: a in f.allowed && SlotOf(a) == s)
  }

  lemma NextKeeps(f: Filter, s: Step)
    requires Inv(f) && (s.Disallow? ==> s.mac in f.allowed)
    ensures Inv(Next(f, s))
  {
    var g := Next(f, s);
    if s.Disallow? {
      forall t | t in g.bits && t !in g.coll
        ensures exists a :: a in g.allowed && SlotOf(a) == t
      {
        var a :| a in f.allowed && SlotOf(a) == t;
        assert a in g.allowed;
      }
    } else if s.Allow? {
      assert s.mac in g.allowed;
      forall t | t in g.bits && t !in g.coll
        ensures exists a :: a in g.allowed && SlotOf(a) == t
      {
        if t != SlotOf(s.mac) {
          var a :| a in f.allowed && SlotOf(a) == t;
          assert a in g.allowed;
        }
      }
    }
  }

  lemma {:induction false} RunKeeps(f: Filter, steps: seq<Step>)
    requires Inv(f) && Disciplined(f, steps)
    ensures Inv(Run(f, steps))
    decreases |steps|
  {
    if steps != [] {
      NextKeeps(f, steps[0]);
      RunKeeps(Next(f, steps[0]), steps[1..]);
    }
  }

  // Main result: over every disciplined run no allowed address is shut out, and shared
  // bits are marked.
  lemma NoFalseNegatives(steps: seq<Step>)
    requires Disciplined(START, steps)
    ensures var f := Run(START, steps);
            && (forall a :: a in f.allowed ==> SlotOf(a) in f.bits)
            && (forall a, b :: a in f.allowed && b in f.allowed && a != b && SlotOf(a) == SlotOf(b) ==>
                  SlotOf(a) in f.coll)
  {
    RunKeeps(START, steps);
  }

  // The discipline is needed exactly here: disallowing an address that is not allowed
  // shuts out an allowed one when they share a bit that was never marked as shared.
  lemma StrayDisallow(f: Filter, mac: Mac)
    requires Inv(f) && mac !in f.allowed
    ensures LetsAllowedIn(Next(f, Disallow(mac))) <==>
            SlotOf(mac) in f.coll || forall a :: a in f.allowed ==> SlotOf(a) != SlotOf(mac)
  {
    assert Next(f, Disallow(mac)).allowed == f.allowed;
  }

  // The multicast addresses of 224.0.0.251, allowed, and 224.0.0.121, which has the same
  // hash bit: disallowing the second without ever allowing it shuts out the first.
  lemma StrayLeaveShutsOut()
    ensures var joined, left: Mac := [0x01, 0x00, 0x5e, 0x00, 0x00, 0xfb], [0x01, 0x00, 0x5e, 0x00, 0x00, 0x79];
            && SlotOf(joined) == SlotOf(left) == Slot(true, 33)
            && !LetsAllowedIn(Run(START, [Allow(joined), Disallow(left)]))
  {
    var joined, left: Mac := [0x01, 0x00, 0x5e, 0x00, 0x00, 0xfb], [0x01, 0x00, 0x5e, 0x00, 0x00, 0x79];
    SameHash();
    assert joined[5] != left[5];
    ShutOut(joined, left);
  }

  lemma ShutOut(a: Mac, b: Mac)
    requires a != b && SlotOf(a) == SlotOf(b)
    ensures !LetsAllowedIn(Run(START, [Allow(a), Disallow(b)]))
  {
    var steps := [Allow(a), Disallow(b)];
    assert steps[1..] == [Disallow(b)] && [Disallow(b)][1..] == [];
    var f := Next(START, Allow(a));
    var g := Next(f, Disallow(b));
    assert Run(START, steps) == Run(f, [Disallow(b)]) == Run(g, []) == g;
    assert a in g.allowed;
  }

  lemma SameHash()
    ensures Hash([0x01, 0x00, 0x5e, 0x00, 0x00, 0xfb]) == Hash([0x01, 0x00, 0x5e, 0x00, 0x00, 0x79]) == 33
  {
    SixBytes(0x01, 0x00, 0x5e, 0x00, 0x00, 0xfb);
    SixBytes(0x01, 0x00, 0x5e, 0x00, 0x00, 0x79);
    Prefix();
    LastBytes();
  }

  lemma SixBytes(a: Byte, b: Byte, c: Byte, d: Byte, e: Byte, g: Byte)
    ensures Remainder(!0, [a, b, c, d, e, g]) ==
            DivideByte(DivideByte(DivideByte(DivideByte(DivideByte(DivideByte(!0, a), b), c), d), e), g)
  {
    FirstByte(!0, a, [b, c, d, e, g]);
    FirstByte(DivideByte(!0, a), b, [c, d, e, g]);
    var r := DivideByte(DivideByte(!0, a), b);
    FirstByte(r, c, [d, e, g]);
    FirstByte(DivideByte(r, c), d, [e, g]);
    FirstByte(DivideByte(DivideByte(r, c), d), e, [g]);
    FirstByte(DivideByte(DivideByte(DivideByte(r, c), d), e), g, []);
  }

  lemma FirstByte(crc: bv32, b: Byte, rest: seq<Byte>)
    ensures Remainder(crc, [b] + rest) == Remainder(DivideByte(crc, b), rest)
  {
    assert ([b] + rest)[1..] == rest;
  }

  lemma Prefix()
    ensures DivideByte(!0, 0x01) == 0x5afa20e4 && DivideByte(0x5afa20e4, 0x00) == 0xa73ddc41
    ensures DivideByte(0xa73ddc41, 0x5e) == 0x8daf3029
    ensures DivideByte(0x8daf3029, 0x00) == 0x423f375c && DivideByte(0x423f375c, 0x00) == 0x629f22e8
  {
  }

  lemma LastBytes()
    ensures DivideByte(0x629f22e8, 0xfb) == 0x84dcdefc && (0x84dcdefc >> 26) & 0x3f == 33 as bv32
    ensures DivideByte(0x629f22e8, 0x79) == 0x876a3cf0 && (0x876a3cf0 >> 26) & 0x3f == 33 as bv32
  {
  }

  // ------------------------------------------------------------------- registers

  // One register and its collision word.
  datatype Pair = Pair(reg: bv32, coll: bv32)

  // 1 << k
  function Mask(k: nat): bv32 { if k == 0 then 1 else Mask(k - 1) << 1 }

  predicate OneHot(m: bv32) { m != 0 && m & (m - 1) == 0 }

  predicate Has(w: bv32, m: bv32) { w & m != 0 }

  lemma Masks()
    ensures Mask(0) == 1 && Mask(1) == 2 && Mask(2) == 4 && Mask(3) == 8
    ensures Mask(4) == 0x10 && Mask(5) == 0x20 && Mask(6) == 0x40 && Mask(7) == 0x80
    ensures Mask(8) == 0x100 && Mask(9) == 0x200 && Mask(10) == 0x400 && Mask(11) == 0x800
    ensures Mask(12) == 0x1000 && Mask(13) == 0x2000 && Mask(14) == 0x4000 && Mask(15) == 0x8000
    ensures Mask(16) == 0x10000 && Mask(17) == 0x20000 && Mask(18) == 0x40000 && Mask(19) == 0x80000
    ensures Mask(20) == 0x100000 && Mask(21) == 0x200000 && Mask(22) == 0x400000 && Mask(23) == 0x800000
    ensures Mask(24) == 0x1000000 && Mask(25) == 0x2000000 && Mask(26) == 0x4000000 && Mask(27) == 0x8000000
    ensures Mask(28) == 0x10000000 && Mask(29) == 0x20000000 && Mask(30) == 0x40000000 && Mask(31) == 0x80000000
  {
  }

  lemma LowMasks(k: nat)
    requires 0 <= k < 16
    ensures OneHot(Mask(k)) && 1 << k == Mask(k)
    ensures k > 0 ==> Mask(k) >> 1 == Mask(k - 1)
  {
    Masks();
    match k
    case 0 => assert Mask(k) == 1;
    case 1 => assert Mask(k) == 2;
    case 2 => assert Mask(k) == 4;
    case 3 => assert Mask(k) == 8;
    case 4 => assert Mask(k) == 0x10;
    case 5 => assert Mask(k) == 0x20;
    case 6 => assert Mask(k) == 0x40;
    case 7 => assert Mask(k) == 0x80;
    case 8 => assert Mask(k) == 0x100;
    case 9 => assert Mask(k) == 0x200;
    case 10 => assert Mask(k) == 0x400;
    case 11 => assert Mask(k) == 0x800;
    case 12 => assert Mask(k) == 0x1000;
    case 13 => assert Mask(k) == 0x2000;
    case 14 => assert Mask(k) == 0x4000;
    case _ => assert Mask(k) == 0x8000;
  }

  lemma HighMasks(k: nat)
    requires 16 <= k < 32
    ensures OneHot(Mask(k)) && 1 << k == Mask(k)
    ensures k > 0 ==> Mask(k) >> 1 == Mask(k - 1)
  {
    Masks();
    match k
    case 16 => assert Mask(k) == 0x10000;
    case 17 => assert Mask(k) == 0x20000;
    case 18 => assert Mask(k) == 0x40000;
    case 19 => assert Mask(k) == 0x80000;
    case 20 => assert Mask(k) == 0x100000;
    case 21 => assert Mask(k) == 0x200000;
    case 22 => assert Mask(k) == 0x400000;
    case 23 => assert Mask(k) == 0x800000;
    case 24 => assert Mask(k) == 0x1000000;
    case 25 => assert Mask(k) == 0x2000000;
    case 26 => assert Mask(k) == 0x4000000;
    case 27 => assert Mask(k) == 0x8000000;
    case 28 => assert Mask(k) == 0x10000000;
    case 29 => assert Mask(k) == 0x20000000;
    case 30 => assert Mask(k) == 0x40000000;
    case _ => assert Mask(k) == 0x80000000;
  }

  lemma MaskHot(k: nat)
    requires k < 32
    ensures OneHot(Mask(k)) && 1 << k == Mask(k)
    ensures k > 0 ==> Mask(k) >> 1 == Mask(k - 1)
  {
    if k < 16 { LowMasks(k); } else { HighMasks(k); }
  }

  lemma {:induction false} MasksApart(j: nat, k: nat)
    requires j < k < 32
    ensures Mask(j) != Mask(k)
    decreases j
  {
    MaskHot(k);
    MaskHot(j);
    if j == 0 { assert Mask(k) & 1 == 0; } else { MasksApart(j - 1, k - 1); }
  }

  // reg |= value or, where the bit is set already, coll |= value.
  function Allowed(reg: bv32, value: bv32): bv32 { if reg & value != 0 then reg else reg | value }
  function Shared(reg: bv32, coll: bv32, value: bv32): bv32 { if reg & value != 0 then coll | value else coll }

  // reg &= ~value | coll
  function Disallowed(reg: bv32, coll: bv32, value: bv32): bv32 { reg & (!value | coll) }

  function Updated(p: Pair, value: bv32, allow: bool): Pair {
    if allow then Pair(Allowed(p.reg, value), Shared(p.reg, p.coll, value))
    else Pair(Disallowed(p.reg, p.coll, value), p.coll)
  }

  // What they mean for each bit.
  lemma AllowedBits(reg: bv32, value: bv32, n: bv32)
    ensures OneHot(value) && OneHot(n) ==> (Has(Allowed(reg, value), n) <==> n == value || Has(reg, n))
  {
  }

  lemma SharedBits(reg: bv32, coll: bv32, value: bv32, n: bv32)
    ensures OneHot(value) && OneHot(n) ==>
            (Has(Shared(reg, coll, value), n) <==> Has(coll, n) || (n == value && Has(reg, n)))
  {
  }

  lemma DisallowedBits(reg: bv32, coll: bv32, value: bv32, n: bv32)
    ensures OneHot(value) && OneHot(n) ==>
            (Has(Disallowed(reg, coll, value), n) <==> Has(reg, n) && (n != value || Has(coll, n)))
  {
  }

  predicate RegMeans(p: Pair, q: Pair, value: bv32, allow: bool, n: bv32) {
    Has(q.reg, n) <==> if n != value then Has(p.reg, n) else allow || (Has(p.reg, n) && Has(p.coll, n))
  }

  predicate CollMeans(p: Pair, q: Pair, value: bv32, allow: bool, n: bv32) {
    Has(q.coll, n) <==> Has(p.coll, n) || (n == value && allow && Has(p.reg, n))
  }

  lemma UpdatedBits(p: Pair, value: bv32, allow: bool, n: bv32)
    requires OneHot(value) && OneHot(n)
    ensures RegMeans(p, Updated(p, value, allow), value, allow, n)
    ensures CollMeans(p, Updated(p, value, allow), value, allow, n)
  {
    if allow {
      AllowedBits(p.reg, value, n);
      SharedBits(p.reg, p.coll, value, n);
    } else {
      DisallowedBits(p.reg, p.coll, value, n);
    }
  }

  // ENET_GALR with collisionGALR, and so on.
  datatype Registers = Registers(galr: Pair, gaur: Pair, ialr: Pair, iaur: Pair)

  function Of(r: Registers, s: Slot): Pair {
    if s.group then if s.hash < 0x20 then r.galr else r.gaur else if s.hash < 0x20 then r.ialr else r.iaur
  }

  function With(r: Registers, s: Slot, p: Pair): Registers {
    if s.group then if s.hash < 0x20 then r.(galr := p) else r.(gaur := p)
    else if s.hash < 0x20 then r.(ialr := p) else r.(iaur := p)
  }

  function Switched(r: Registers, s: Slot, allow: bool): Registers {
    With(r, s, Updated(Of(r, s), Mask(s.hash % 32), allow))
  }

  predicate IsSet(r: Registers, s: Slot) { Has(Of(r, s).reg, Mask(s.hash % 32)) }

  predicate Collided(r: Registers, s: Slot) { Has(Of(r, s).coll, Mask(s.hash % 32)) }

  lemma SlotMasks(s: Slot, t: Slot)
    requires s.hash < 64 && t.hash < 64
    ensures OneHot(Mask(s.hash % 32)) && OneHot(Mask(t.hash % 32))
    ensures s.group == t.group && (s.hash < 0x20 <==> t.hash < 0x20) && Mask(s.hash % 32) == Mask(t.hash % 32)
            ==> s == t
  {
    var j, k := s.hash % 32, t.hash % 32;
    MaskHot(j);
    MaskHot(k);
    if j < k { MasksApart(j, k); }
    if k < j { MasksApart(k, j); }
  }

  // The right one of four registers is changed, in one bit, and no other bit of any of
  // them.
  predicate BitMeans(r: Registers, r': Registers, t: Slot, allow: bool, s: Slot) {
    && (IsSet(r', s) <==> if s != t then IsSet(r, s) else allow || (IsSet(r, s) && Collided(r, s)))
    && (Collided(r', s) <==> Collided(r, s) || (s == t && allow && IsSet(r, s)))
  }

  lemma WithBits(r: Registers, t: Slot, q: Pair, allow: bool, s: Slot, value: bv32, n: bv32)
    requires t.hash < 64 && s.hash < 64 && value == Mask(t.hash % 32) && n == Mask(s.hash % 32)
    requires RegMeans(Of(r, t), q, value, allow, n) && CollMeans(Of(r, t), q, value, allow, n)
    ensures BitMeans(r, With(r, t, q), t, allow, s)
  {
    SlotMasks(s, t);
    if s.group == t.group && (s.hash < 0x20 <==> t.hash < 0x20) {
      assert Of(With(r, t, q), s) == q && Of(r, s) == Of(r, t);
    } else {
      assert Of(With(r, t, q), s) == Of(r, s);
    }
  }

  lemma SwitchedBits(r: Registers, t: Slot, allow: bool, s: Slot)
    requires t.hash < 64 && s.hash < 64
    ensures BitMeans(r, Switched(r, t, allow), t, allow, s)
  {
    var value, n := Mask(t.hash % 32), Mask(s.hash % 32);
    SlotMasks(s, t);
    UpdatedBits(Of(r, t), value, allow, n);
    WithBits(r, t, Updated(Of(r, t), value, allow), allow, s, value, n);
  }

  ghost function ViewOf(r: Registers, allowed: set<Mac>): Filter {
    Filter((iset s: Slot | s.hash < 64 && IsSet(r, s)), (iset s: Slot | s.hash < 64 && Collided(r, s)), allowed)
  }

  lemma SwitchedView(r: Registers, t: Slot, allow: bool, allowed: set<Mac>)
    requires t.hash < 64
    ensures var f, g := ViewOf(r, allowed), ViewOf(Switched(r, t, allow), allowed);
            && g.bits == (if allow then f.bits + iset{t} else if t in f.coll then f.bits else f.bits - iset{t})
            && g.coll == (if allow && t in f.bits then f.coll + iset{t} else f.coll)
  {
    var r' := Switched(r, t, allow);
    forall s: Slot | s.hash < 64 ensures BitMeans(r, r', t, allow, s) { SwitchedBits(r, t, allow, s); }
    MeansView(r, r', t, allow, allowed);
  }

  lemma MeansView(r: Registers, r': Registers, t: Slot, allow: bool, allowed: set<Mac>)
    requires t.hash < 64 && forall s: Slot :: s.hash < 64 ==> BitMeans(r, r', t, allow, s)
    ensures var f, g := ViewOf(r, allowed), ViewOf(r', allowed);
            && g.bits == (if allow then f.bits + iset{t} else if t in f.coll then f.bits else f.bits - iset{t})
            && g.coll == (if allow && t in f.bits then f.coll + iset{t} else f.coll)
  {
  }

  lemma ZeroView(r: Registers, coll: Registers)
    requires r == Registers(Pair(0, coll.galr.coll), Pair(0, coll.gaur.coll),
                            Pair(0, coll.ialr.coll), Pair(0, coll.iaur.coll))
    ensures ViewOf(r, {}).bits == iset{} && ViewOf(r, {}).coll == ViewOf(coll, {}).coll
  {
    forall s: Slot ensures !IsSet(r, s) { NoBit(Mask(s.hash % 32)); }
  }

  lemma NoBit(m: bv32)
    ensures !Has(0, m)
  {
  }

  class Enet {
    var galr: bv32
    var gaur: bv32
    var ialr: bv32
    var iaur: bv32
    var collisionGALR: bv32
    var collisionGAUR: bv32
    var collisionIALR: bv32
    var collisionIAUR: bv32
    ghost var allowed: set<Mac>

    constructor ()
      ensures View() == START
    {
      galr, gaur, ialr, iaur := 0, 0, 0, 0;
      collisionGALR, collisionGAUR, collisionIALR, collisionIAUR := 0, 0, 0, 0;
      allowed := {};
      new;
      forall s: Slot ensures !IsSet(Words(), s) && !Collided(Words(), s) { NoBit(Mask(s.hash % 32)); }
    }

    ghost function Words(): Registers
      reads this
    {
      Registers(Pair(galr, collisionGALR), Pair(gaur, collisionGAUR),
                Pair(ialr, collisionIALR), Pair(iaur, collisionIAUR))
    }

    ghost function View(): Filter
      reads this
    {
      ViewOf(Words(), allowed)
    }

    // The register with the bit of a hash.
    ghost function Register(group: bool, crc: nat): bv32
      reads this
    {
      if group then if crc < 0x20 then galr else gaur else if crc < 0x20 then ialr else iaur
    }

    static method Update(reg: bv32, coll: bv32, value: bv32, allow: bool) returns (reg': bv32, coll': bv32)
      ensures reg' == if allow then Allowed(reg, value) else Disallowed(reg, coll, value)
      ensures coll' == if allow then Shared(reg, coll, value) else coll
    {
      reg', coll' := reg, coll;
      if allow {
        if reg & value != 0 {
          coll' := coll | value;
        } else {
          reg' := reg | value;
        }
      } else {
        reg' := reg & (!value | coll);
      }
    }

    // 1 << (crc & 0x1f)
    static method Value(crc: nat) returns (value: bv32)
      ensures value == Mask(crc % 32)
    {
      MaskHot(crc % 32);
      value := 1 << (crc % 32);
    }

    // The part of enet_set_mac_address_allowed after the hash has been computed.
    method SetSlot(group: bool, crc: nat, allow: bool)
      requires crc < 64
      modifies this`galr, this`gaur, this`ialr, this`iaur
      modifies this`collisionGALR, this`collisionGAUR, this`collisionIALR, this`collisionIAUR
      ensures Words() == Switched(old(Words()), Slot(group, crc), allow)
    {
      var value := Value(crc);
      if group {
        if crc < 0x20 {
          galr, collisionGALR := Update(galr, collisionGALR, value, allow);
        } else {
          gaur, collisionGAUR := Update(gaur, collisionGAUR, value, allow);
        }
      } else {
        if crc < 0x20 {
          ialr, collisionIALR := Update(ialr, collisionIALR, value, allow);
        } else {
          iaur, collisionIAUR := Update(iaur, collisionIAUR, value, allow);
        }
      }
    }

    // enet_set_mac_address_allowed
    method SetMacAddressAllowed(mac: Mac, allow: bool)
      modifies this
      ensures View() == Next(old(View()), if allow then Allow(mac) else Disallow(mac))
      ensures allow ==> Has(Register(Group(mac), Hash(mac)), Mask(Hash(mac) % 32))
    {
      SwitchedView(Words(), SlotOf(mac), allow, allowed);
      var crc := HashOf(mac);
      SetSlot(Group(mac), crc, allow);
      ghost var view := ViewOf(Words(), allowed);
      assert allow ==> SlotOf(mac) in view.bits;
      allowed := if allow then allowed + {mac} else allowed - {mac};
    }

    // The register part of t41_low_level_init.
    method Init()
      modifies this
      ensures View() == Next(old(View()), Reinit)
    {
      galr, gaur, ialr, iaur := 0, 0, 0, 0;
      allowed := {};
      ZeroView(Words(), old(Words()));
    }
  }
}
