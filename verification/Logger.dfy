// The sample logger: a ring in external memory, its running extremes, and the window of
// averaged blocks read backwards from it.
module Logger {

  // Floats are reals here.
  datatype Sample = Sample(value: real, timestamp: nat)

  const UNDEFINED := 999999999.0

  // What a window slot without data holds.
  const EMPTY := Sample(-999999.99, 0)

  // ------------------------------------------------- where the history is in the ring

  // The cell n back from the next one to be written.
  function Back(address: nat, n: nat, maxSize: nat): int {
    if n <= address then address - n else address - n + maxSize
  }

  ghost predicate Kept(ring: seq<Sample>, h: seq<Sample>, address: nat, n: nat)
    requires address <= |ring| && 1 <= n <= |h| && n <= |ring|
  {
    ring[Back(address, n, |ring|)] == h[|h| - n]
  }

  ghost predicate Holds(ring: seq<Sample>, h: seq<Sample>, address: nat, full: bool) {
    && address <= |ring|
    && (full <==> |h| > |ring|)
    && (address == 0 <==> h == [])
    && (!full ==> address == |h|)
    && forall n :: 1 <= n <= |h| && n <= |ring| ==> Kept(ring, h, address, n)
  }

  // One more sample: the ring starts over when its end is reached.
  lemma HoldsNext(ring: seq<Sample>, h: seq<Sample>, address: nat, full: bool, x: Sample)
    requires Holds(ring, h, address, full) && |ring| > 0
    ensures var at := if address >= |ring| then 0 else address;
            Holds(ring[at := x], h + [x], at + 1, full || address >= |ring|)
  {
    var at := if address >= |ring| then 0 else address;
    var ring', h', next := ring[at := x], h + [x], at + 1;
    forall n | 1 <= n <= |h'| && n <= |ring|
      ensures Kept(ring', h', next, n)
    {
      if n > 1 {
        assert Kept(ring, h, address, n - 1);
        assert Back(next, n, |ring|) == Back(address, n - 1, |ring|);
      }
    }
  }

  // ------------------------------------------------------------- reading backwards

  function StepBack(p: nat, full: bool, maxSize: nat): nat
    requires maxSize > 0
  {
    if p == 0 then if full then maxSize - 1 else 0 else p - 1
  }

  // The cell of the n-th read from p.
  function Walk(p: nat, n: nat, full: bool, maxSize: nat): (q: nat)
    requires maxSize > 0
    ensures n > 0 && p <= maxSize ==> q < maxSize
    ensures q <= p || q < maxSize
  {
    if n == 0 then p else StepBack(Walk(p, n - 1, full, maxSize), full, maxSize)
  }

  lemma {:induction false} WalkAt(p: nat, n: nat, full: bool, maxSize: nat)
    requires 0 < maxSize && p <= maxSize && (full ==> n <= p + maxSize)
    ensures Walk(p, n, full, maxSize) == if n <= p then p - n else if full then p - n + maxSize else 0
  {
    if n > 0 { WalkAt(p, n - 1, full, maxSize); }
  }

  // The sum of the n samples read after the first k.
  function SumBack(ring: seq<Sample>, p: nat, k: nat, n: nat, full: bool): real
    requires p <= |ring| && |ring| > 0
  {
    if n == 0 then 0.0 else SumBack(ring, p, k, n - 1, full) + ring[Walk(p, k + n, full, |ring|)].value
  }

  // Slot i of a window of blocks of b samples read back from p. The block is not all
  // there when the ring is not full and its start comes first.
  function Slot(ring: seq<Sample>, p: nat, i: nat, b: nat, full: bool): Sample
    requires p <= |ring| && |ring| > 0 && b > 0
  {
    var n := i * b;
    if !full && n + b > p then EMPTY
    else Sample(SumBack(ring, p, n, b, full) / b as real, ring[Walk(p, n + b, full, |ring|)].timestamp)
  }

  // The first m slots.
  function Window(ring: seq<Sample>, p: nat, m: nat, b: nat, full: bool): (w: seq<Sample>)
    requires p <= |ring| && |ring| > 0 && b > 0
    ensures |w| == m
    decreases m
  {
    if m == 0 then [] else Window(ring, p, m - 1, b, full) + [Slot(ring, p, m - 1, b, full)]
  }

  // ------------------------------------------------------------- what it stands for

  function Sum(h: seq<Sample>): real {
    if h == [] then 0.0 else h[0].value + Sum(h[1..])
  }

  // Block i of b samples, counted from the newest, or the mark for a block not all there.
  function Block(h: seq<Sample>, i: nat, b: nat): Sample
    requires b > 0
  {
    var n := i * b;
    if n + b > |h| then EMPTY
    else var block := h[|h| - n - b..|h| - n]; Sample(Sum(block) / b as real, block[0].timestamp)
  }

  function Blocks(h: seq<Sample>, m: nat, b: nat): seq<Sample>
    requires b > 0
  {
    seq(m, i requires 0 <= i < m => Block(h, i, b))
  }

  lemma {:induction false} SumBackIsSum(ring: seq<Sample>, h: seq<Sample>, address: nat, full: bool,
                                        back: nat, k: nat, n: nat)
    requires Holds(ring, h, address, full) && |ring| > 0
    requires back <= address && back + k + n <= |h| && (full ==> back + k + n <= |ring|)
    ensures SumBack(ring, address - back, k, n, full) == Sum(h[|h| - back - k - n..|h| - back - k])
    decreases n
  {
    if n > 0 {
      SumBackIsSum(ring, h, address, full, back, k, n - 1);
      ReadIs(ring, h, address, full, back, k + n);
      var block := h[|h| - back - k - n..|h| - back - k];
      assert block[1..] == h[|h| - back - k - (n - 1)..|h| - back - k];
    }
  }

  // The n-th read from back samples ago is the n-th newest sample of that time.
  lemma ReadIs(ring: seq<Sample>, h: seq<Sample>, address: nat, full: bool, back: nat, n: nat)
    requires Holds(ring, h, address, full) && |ring| > 0
    requires 1 <= n && back <= address && back + n <= |h| && (full ==> back + n <= |ring|)
    ensures ring[Walk(address - back, n, full, |ring|)] == h[|h| - back - n]
  {
    WalkAt(address - back, n, full, |ring|);
    assert Kept(ring, h, address, back + n);
  }

  lemma BlockAt(h: seq<Sample>, i: nat, b: nat, n: nat)
    requires b > 0 && n == i * b
    ensures Block(h, i, b) ==
            if n + b > |h| then EMPTY
            else var block := h[|h| - n - b..|h| - n]; Sample(Sum(block) / b as real, block[0].timestamp)
  {
  }

  lemma PrefixSlice(h: seq<Sample>, m: nat, lo: nat, hi: nat)
    requires lo <= hi <= m <= |h|
    ensures h[..m][lo..hi] == h[lo..hi]
  {
  }

  lemma SlotIsBlock(ring: seq<Sample>, h: seq<Sample>, address: nat, full: bool, back: nat, i: nat, b: nat, n: nat)
    requires Holds(ring, h, address, full) && |ring| > 0 && b > 0 && n == i * b
    requires back <= address && (full ==> back + n + b <= |ring|)
    ensures back <= |h| && Slot(ring, address - back, i, b, full) == Block(h[..|h| - back], i, b)
  {
    var seen := h[..|h| - back];
    SlotAt(ring, address - back, i, b, full, n);
    BlockAt(seen, i, b, n);
    if n + b <= |seen| {
      SumBackIsSum(ring, h, address, full, back, n, b);
      ReadIs(ring, h, address, full, back, n + b);
      PrefixSlice(h, |seen|, |seen| - n - b, |seen| - n);
    }
  }

  // The window scrolled back by some samples shows the blocks of the history without
  // them, as long as it does not reach further back than the ring does.
  lemma {:induction false} WindowIsHistory(ring: seq<Sample>, h: seq<Sample>, address: nat, full: bool,
                                           back: nat, m: nat, b: nat)
    requires Holds(ring, h, address, full) && |ring| > 0 && b > 0
    requires back <= address && (full ==> back + m * b <= |ring|)
    ensures back <= |h|
    ensures Window(ring, address - back, m, b, full) == Blocks(h[..|h| - back], m, b)
    decreases m
  {
    if m > 0 {
      var n := Before(m, b);
      WindowIsHistory(ring, h, address, full, back, m - 1, b);
      SlotIsBlock(ring, h, address, full, back, m - 1, b, n);
      OneMoreBlock(h[..|h| - back], m, b);
    }
  }

  lemma Before(m: nat, b: nat) returns (n: nat)
    requires m > 0
    ensures n == (m - 1) * b && m * b == n + b
  {
    n := (m - 1) * b;
  }

  // A block that is not all there is marked.
  lemma MarkedEmpty(h: seq<Sample>, i: nat, b: nat)
    requires b > 0 && (i + 1) * b > |h|
    ensures Block(h, i, b) == Sample(-999999.99, 0)
  {
    BlockAt(h, i, b, i * b);
    assert (i + 1) * b == i * b + b;
  }

  lemma OneMoreBlock(h: seq<Sample>, m: nat, b: nat)
    requires m > 0 && b > 0
    ensures Blocks(h, m, b) == Blocks(h, m - 1, b) + [Block(h, m - 1, b)]
  {
  }

  // Beyond that a full ring gives the newest samples again.
  lemma {:induction false} WindowRepeats(p: nat, n: nat, maxSize: nat)
    requires 0 < maxSize && p <= maxSize && n > 0
    ensures Walk(p, n + maxSize, true, maxSize) == Walk(p, n, true, maxSize)
  {
    if n == 1 {
      WalkAt(p, 1, true, maxSize);
      WalkAt(p, maxSize, true, maxSize);
    } else {
      WindowRepeats(p, n - 1, maxSize);
    }
  }

  // ------------------------------------------------------------- running extremes

  // The extremes after each sample, as the code keeps them; both start undefined.
  datatype Extremes = Extremes(minimum: real, maximum: real)

  function Widen(e: Extremes, samples: nat, v: real): Extremes {
    if (e.minimum == UNDEFINED || e.maximum == UNDEFINED) && samples > 10 then Extremes(v, v)
    else if v < e.minimum then e.(minimum := v)
    else if v > e.maximum then e.(maximum := v)
    else e
  }

  function Min(a: nat, b: nat): nat { if a < b then a else b }

  function ExtremesOf(h: seq<Sample>, maxSize: nat): Extremes {
    if h == [] then Extremes(UNDEFINED, UNDEFINED)
    else
      var n := |h| - 1;
      Widen(ExtremesOf(h[..n], maxSize), Min(|h|, maxSize), h[n].value)
  }

  ghost predicate Below(h: seq<Sample>) { forall k :: 0 <= k < |h| ==> h[k].value < 999999999.0 }

  predicate IsExtreme(e: Extremes, vs: seq<Sample>) {
    && (forall k :: 0 <= k < |vs| ==> e.minimum <= vs[k].value <= e.maximum)
    && (exists k :: 0 <= k < |vs| && vs[k].value == e.minimum)
    && (exists k :: 0 <= k < |vs| && vs[k].value == e.maximum)
  }

  // Up to ten samples the maximum is undefined; from the eleventh on the extremes are
  // those of the samples from the eleventh on, overwritten ones included.
  lemma {:induction false} ExtremesFromEleventh(h: seq<Sample>, maxSize: nat)
    requires maxSize > 10 && Below(h)
    ensures ExtremesOf(h, maxSize).maximum == 999999999.0 <==> |h| <= 10
    ensures |h| > 10 ==> IsExtreme(ExtremesOf(h, maxSize), h[10..])
    decreases |h|
  {
    if h != [] {
      var n := |h| - 1;
      var e := ExtremesOf(h[..n], maxSize);
      ExtremesFromEleventh(h[..n], maxSize);
      var samples := Min(|h|, maxSize);
      if n > 10 {
        EndOf(h, n, 10);
        LaterExtreme(e, samples, h[10..n], h[n]);
      } else if n == 10 {
        EndOf(h, n, 10);
        FirstExtreme(e, samples, h[n]);
      } else {
        NoExtreme(e, samples, h[n]);
      }
    }
  }

  lemma NoExtreme(e: Extremes, samples: nat, x: Sample)
    requires samples <= 10 && e.maximum == UNDEFINED && x.value < UNDEFINED
    ensures Widen(e, samples, x.value).maximum == UNDEFINED
  {
  }

  lemma FirstExtreme(e: Extremes, samples: nat, x: Sample)
    requires samples > 10 && e.maximum == UNDEFINED && x.value < UNDEFINED
    ensures var d := Widen(e, samples, x.value); IsExtreme(d, [] + [x]) && d.maximum < UNDEFINED
  {
    assert ([] + [x])[0] == x;
  }

  lemma LaterExtreme(e: Extremes, samples: nat, vs: seq<Sample>, x: Sample)
    requires samples > 10 && IsExtreme(e, vs) && Below(vs + [x])
    ensures var d := Widen(e, samples, x.value); IsExtreme(d, vs + [x]) && d.maximum < UNDEFINED
  {
    ExtremeSnoc(e, vs, x);
    assert (vs + [x])[|vs|] == x;
  }

  lemma EndOf(h: seq<Sample>, n: nat, k: nat)
    requires k <= n && |h| == n + 1
    ensures h[..n][k..] == h[k..n] && h[k..n] + [h[n]] == h[k..]
  {
  }

  lemma ExtremeSnoc(e: Extremes, vs: seq<Sample>, x: Sample)
    requires IsExtreme(e, vs) && Below(vs + [x])
    ensures e.minimum <= e.maximum < UNDEFINED
    ensures IsExtreme(Widen(e, 11, x.value), vs + [x])
  {
    var all := vs + [x];
    var lo :| 0 <= lo < |vs| && vs[lo].value == e.minimum;
    var hi :| 0 <= hi < |vs| && vs[hi].value == e.maximum;
    assert all[lo] == vs[lo] && all[hi] == vs[hi] && all[|vs|] == x;
  }

  // ------------------------------------------------------------------- the object

  class Logger {
    var memory: array<Sample>
    var full: bool
    var samples: nat
    var address: nat
    var scrollAddress: nat
    var minimum: real
    var maximum: real
    ghost var history: seq<Sample>

    ghost predicate Valid()
      reads this, memory
    {
      && memory.Length > 0
      && Holds(memory[..], history, address, full)
      && samples == Min(|history|, memory.Length)
      && Extremes(minimum, maximum) == ExtremesOf(history, memory.Length)
    }

    method Clear()
      requires memory.Length > 0
      modifies this
      ensures Valid() && history == [] && memory == old(memory) && scrollAddress == 0
    {
      minimum, maximum := UNDEFINED, UNDEFINED;
      samples, address, scrollAddress := 0, 0, 0;
      full := false;
      history := [];
    }

    method RegisterValue(x: Sample)
      requires Valid()
      modifies this, memory
      ensures Valid() && memory == old(memory)
      ensures history == old(history) + [x]
      ensures scrollAddress == old(scrollAddress)
    {
      Store(x);
      if (minimum == UNDEFINED || maximum == UNDEFINED) && samples > 10 {
        minimum, maximum := x.value, x.value;
      } else if x.value < minimum {
        minimum := x.value;
      } else if x.value > maximum {
        maximum := x.value;
      }
      assert history[..|history| - 1] == old(history);
    }

    method Store(x: Sample)
      requires Valid()
      modifies this`address, this`full, this`samples, this`history, memory
      ensures history == old(history) + [x]
      ensures Holds(memory[..], history, address, full)
      ensures samples == Min(|history|, memory.Length)
    {
      HoldsNext(memory[..], history, address, full, x);
      if address >= memory.Length {
        address := 0;
        full := true;
      }
      if !full {
        samples := samples + 1;
      }
      memory[address] := x;
      assert memory[..] == old(memory[..])[address := x];
      address := address + 1;
      history := history + [x];
    }

    // One block: its sum, where it ends, and whether the beginning was overrun.
    method ReadBlock(start: nat, samplesPr: nat) returns (mean: real, last: nat, ranOut: bool)
      requires memory.Length > 0 && start <= memory.Length
      ensures mean == SumBack(memory[..], start, 0, samplesPr, full)
      ensures last == Walk(start, samplesPr, full, memory.Length)
      ensures ranOut <==> !full && samplesPr > start
    {
      mean := 0.0;
      last := start;
      ranOut := false;
      var s := 0;
      while s < samplesPr
        invariant s <= samplesPr && last == Walk(start, s, full, memory.Length)
        invariant mean == SumBack(memory[..], start, 0, s, full)
        invariant !full ==> last == if s <= start then start - s else 0
        invariant ranOut <==> !full && s > start
      {
        if last == 0 && full {
          last := memory.Length - 1;
        } else if last == 0 && !full {
          ranOut := true;
        } else {
          last := last - 1;
        }
        mean := mean + memory[last].value;
        s := s + 1;
      }
    }

    method GetLastSamples(buffer: array<Sample>, bufferSize: nat, samplesPr: nat)
      requires memory.Length > 0 && scrollAddress <= memory.Length
      requires buffer != memory && bufferSize <= buffer.Length && samplesPr > 0
      modifies buffer
      ensures buffer[..bufferSize] == Window(memory[..], scrollAddress, bufferSize, samplesPr, full)
      ensures buffer[bufferSize..] == old(buffer[bufferSize..])
    {
      ghost var ring := memory[..];
      var last := scrollAddress;
      var fillEmpty := false;
      var i := 0;
      ghost var n := 0;
      while i < bufferSize
        invariant i <= bufferSize && n == i * samplesPr
        invariant last == Walk(scrollAddress, n, full, |ring|) && last <= |ring|
        invariant fillEmpty <==> !full && n > scrollAddress
        invariant buffer[..i] == Window(ring, scrollAddress, i, samplesPr, full)
        invariant buffer[bufferSize..] == old(buffer[bufferSize..])
      {
        ghost var was := buffer[..];
        last, fillEmpty := FillSlot(buffer, i, last, samplesPr, fillEmpty, n);
        OneMore(buffer[..], was, i);
        i := i + 1;
        n := n + samplesPr;
      }
    }

    // The body of the outer loop, n samples after its start.
    method FillSlot(buffer: array<Sample>, i: nat, last: nat, samplesPr: nat, empty: bool, ghost n: nat)
      returns (q: nat, fillEmpty: bool)
      requires memory.Length > 0 && scrollAddress <= memory.Length && last <= memory.Length && samplesPr > 0
      requires buffer != memory && i < buffer.Length
      requires n == i * samplesPr && last == Walk(scrollAddress, n, full, memory.Length)
      requires empty <==> !full && n > scrollAddress
      modifies buffer
      ensures buffer[..] == old(buffer[..])[i := Slot(memory[..], scrollAddress, i, samplesPr, full)]
      ensures q == Walk(scrollAddress, n + samplesPr, full, memory.Length) <= memory.Length
      ensures fillEmpty <==> !full && n + samplesPr > scrollAddress
      ensures n + samplesPr == (i + 1) * samplesPr
    {
      SlotAt(memory[..], scrollAddress, i, samplesPr, full, n);
      SplitWalk(memory[..], scrollAddress, n, samplesPr, full);
      fillEmpty := empty;
      if !full { WalkAt(scrollAddress, n, full, memory.Length); }
      var mean, end, ranOut := ReadBlock(last, samplesPr);
      q := end;
      if ranOut {
        buffer[i] := EMPTY;
        fillEmpty := true;
      }
      if !fillEmpty {
        buffer[i] := Sample(mean / samplesPr as real, memory[q].timestamp);
      }
    }
  }

  lemma OneMore(now: seq<Sample>, was: seq<Sample>, i: nat)
    requires i < |was| == |now| && now == was[i := now[i]]
    ensures now[..i + 1] == was[..i] + [now[i]]
    ensures forall k :: i < k <= |now| ==> now[k..] == was[k..]
  {
  }

  lemma SlotAt(ring: seq<Sample>, p: nat, i: nat, b: nat, full: bool, n: nat)
    requires p <= |ring| && |ring| > 0 && b > 0 && n == i * b
    ensures n + b == (i + 1) * b
    ensures Slot(ring, p, i, b, full) ==
            if !full && n + b > p then EMPTY
            else Sample(SumBack(ring, p, n, b, full) / b as real, ring[Walk(p, n + b, full, |ring|)].timestamp)
  {
  }

  // A walk can be made in two parts, and the sum of the second part taken on its own.
  lemma {:induction false} SplitWalk(ring: seq<Sample>, p: nat, k: nat, n: nat, full: bool)
    requires p <= |ring| && |ring| > 0
    ensures Walk(Walk(p, k, full, |ring|), n, full, |ring|) == Walk(p, k + n, full, |ring|)
    ensures Walk(p, k, full, |ring|) <= |ring|
    ensures SumBack(ring, Walk(p, k, full, |ring|), 0, n, full) == SumBack(ring, p, k, n, full)
    decreases n
  {
    if n > 0 { SplitWalk(ring, p, k, n - 1, full); }
  }
}
