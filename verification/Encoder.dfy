// The quadrature decoder: three state tables that follow a mechanical position, and the
// wrapping or saturating counter they drive.
module Encoder {
  import opened Modular

  // ---------------------------------------------------------------- state tables

  const A := 0
  const B_CW := 1
  const D_CW := 2
  const C_CW := 3
  const B_CCW := 4
  const D_CCW := 5
  const C_CCW := 6

  const UP := 0x10
  const DOWN := 0x20
  const ERR := 0x30

  // Phase A in the upper bit, phase B in the lower.
  type Input = x: nat | x < 4
  type State = x: nat | x < 7

  datatype Mode = Quarter | QuarterInv | Half | HalfAlt | Full

  const QTR: seq<seq<nat>> := [
    [A, B_CW, D_CCW, A + ERR],
    [A, B_CW, B_CW + ERR, C_CW],
    [A + UP, D_CW + ERR, D_CW, C_CW],
    [C_CW + ERR, B_CW, D_CW, C_CW],
    [A + DOWN, B_CCW, B_CCW + ERR, C_CCW],
    [A, D_CCW + ERR, D_CCW, C_CCW],
    [C_CCW + ERR, B_CCW, D_CCW, C_CCW]]

  const HALF: seq<seq<nat>> := [
    [A, B_CW, D_CCW, A + ERR],
    [A, B_CW, B_CW + ERR, C_CW + UP],
    [A + UP, D_CW + ERR, D_CW, C_CW],
    [C_CW + ERR, B_CCW, D_CW, C_CW],
    [A + DOWN, B_CCW, B_CCW + ERR, C_CW],
    [A, B_CCW + ERR, D_CCW, C_CW + DOWN],
    [C_CCW + ERR, C_CCW + ERR, C_CCW + ERR, C_CCW + ERR]]

  // The last three rows are not written out and so are all zero.
  const FULL: seq<seq<nat>> := [
    [A, B_CW + UP, D_CW + DOWN, A + ERR],
    [A + DOWN, B_CW, B_CW + ERR, C_CW + UP],
    [A + UP, D_CW + ERR, D_CW, C_CW + DOWN],
    [C_CW + ERR, B_CW + DOWN, D_CW + UP, C_CW],
    [A, A, A, A],
    [A, A, A, A],
    [A, A, A, A]]

  predicate Halving(mode: Mode) { mode == Half || mode == HalfAlt }

  function Entry(mode: Mode, s: State, input: Input): nat {
    match mode
    case Quarter | QuarterInv => QTR[s][input]
    case Half | HalfAlt => HALF[s][input]
    case Full => FULL[s][input]
  }

  function Next(mode: Mode, s: State, input: Input): State { Entry(mode, s, input) % 16 }

  // The count an input calls for.
  function Tick(mode: Mode, s: State, input: Input): int {
    var direction := Entry(mode, s, input) - Entry(mode, s, input) % 16;
    if direction == UP then 1 else if direction == DOWN then -1 else 0
  }

  function After(mode: Mode, s: State, inputs: seq<Input>): State
    decreases |inputs|
  {
    if inputs == [] then s else After(mode, Next(mode, s, inputs[0]), inputs[1..])
  }

  function Ticks(mode: Mode, s: State, inputs: seq<Input>): seq<int>
    decreases |inputs|
  {
    if inputs == [] then []
    else [Tick(mode, s, inputs[0])] + Ticks(mode, Next(mode, s, inputs[0]), inputs[1..])
  }

  function Sum(ds: seq<int>): int {
    if ds == [] then 0 else ds[0] + Sum(ds[1..])
  }

  function Net(mode: Mode, s: State, inputs: seq<Input>): int { Sum(Ticks(mode, s, inputs)) }

  // ------------------------------------------------------ the position it stands for

  // The phases at a position; one quarter period further is one position further.
  function Phase(p: int): Input {
    match p % 4
    case 0 => 0
    case 1 => 1
    case 2 => 3
    case _ => 2
  }

  // A plain observer: a neighbouring phase moves it by one, any other is no evidence of
  // a direction and is ignored.
  function Follow(p: int, input: Input): int {
    if input == Phase(p + 1) then p + 1 else if input == Phase(p - 1) then p - 1 else p
  }

  function Position(p: int, inputs: seq<Input>): int
    decreases |inputs|
  {
    if inputs == [] then p else Position(Follow(p, inputs[0]), inputs[1..])
  }

  // The positions n counts stand for.
  function Scaled(mode: Mode, n: int): int {
    match mode
    case Quarter | QuarterInv => 4 * n
    case Half | HalfAlt => 2 * n
    case Full => n
  }

  // How far a state is from the place where the count was last made.
  function Offset(mode: Mode, s: State): int {
    match mode
    case Quarter | QuarterInv => [0, 1, 3, 2, -3, -1, -2][s]
    case Half | HalfAlt => [0, 1, 1, 0, -1, -1, 0][s]
    case Full => 0
  }

  function PhaseOf(s: State): Input { [0, 1, 2, 3, 1, 2, 3][s] }

  // The states a mode uses.
  predicate Home(mode: Mode, s: State) { s < if mode == Full then 4 else if Halving(mode) then 6 else 7 }

  predicate Synced(mode: Mode, s: State, p: int) { Home(mode, s) && PhaseOf(s) == Phase(p) }

  // The one entry of the tables that answers a double step by changing state.
  predicate Slip(mode: Mode, s: State, input: Input) { Halving(mode) && s == D_CCW && input == 1 }

  // The move an observer at a phase makes on an input, and where it is then.
  function Turn(phase: Input, input: Input): int {
    if input == [1, 3, 0, 2][phase] then 1 else if input == [2, 0, 3, 1][phase] then -1 else 0
  }

  function Turned(phase: Input, input: Input): Input { if Turn(phase, input) == 0 then phase else input }

  lemma FollowTurns(p: int, input: Input)
    ensures Follow(p, input) == p + Turn(Phase(p), input)
    ensures Phase(Follow(p, input)) == Turned(Phase(p), input)
  {
    var r := p % 4;
    assert (p + 1) % 4 == if r == 3 then 0 else r + 1;
    assert (p - 1) % 4 == if r == 0 then 3 else r - 1;
  }

  lemma EntryExact(mode: Mode, s: State, input: Input)
    requires Home(mode, s)
    ensures Home(mode, Next(mode, s, input))
    ensures PhaseOf(Next(mode, s, input)) == Turned(PhaseOf(s), input) <==> !Slip(mode, s, input)
    ensures Scaled(mode, Tick(mode, s, input)) + Offset(mode, Next(mode, s, input)) - Offset(mode, s)
            == Turn(PhaseOf(s), input)
  {
    match mode {
      case Quarter | QuarterInv => QuarterExact(mode, s, input);
      case Half | HalfAlt => HalfExact(mode, s, input);
      case Full => FullExact(s, input);
    }
  }

  lemma QuarterExact(mode: Mode, s: State, input: Input)
    requires mode == Quarter || mode == QuarterInv
    ensures PhaseOf(Next(mode, s, input)) == Turned(PhaseOf(s), input)
    ensures 4 * Tick(mode, s, input) + Offset(mode, Next(mode, s, input)) - Offset(mode, s) == Turn(PhaseOf(s), input)
  {
    if s < 2 {
      QuarterNear(mode, s, input);
    } else if s < 4 {
      QuarterForward(mode, s, input);
    } else if s == 4 {
      QuarterTurning(mode, s, input);
    } else {
      QuarterBackward(mode, s, input);
    }
  }

  lemma QuarterNear(mode: Mode, s: State, input: Input)
    requires (mode == Quarter || mode == QuarterInv) && s < 2
    ensures PhaseOf(Next(mode, s, input)) == Turned(PhaseOf(s), input)
    ensures 4 * Tick(mode, s, input) + Offset(mode, Next(mode, s, input)) - Offset(mode, s) == Turn(PhaseOf(s), input)
  {
  }

  lemma QuarterForward(mode: Mode, s: State, input: Input)
    requires (mode == Quarter || mode == QuarterInv) && 2 <= s < 4
    ensures PhaseOf(Next(mode, s, input)) == Turned(PhaseOf(s), input)
    ensures 4 * Tick(mode, s, input) + Offset(mode, Next(mode, s, input)) - Offset(mode, s) == Turn(PhaseOf(s), input)
  {
  }

  lemma QuarterTurning(mode: Mode, s: State, input: Input)
    requires (mode == Quarter || mode == QuarterInv) && s == 4
    ensures PhaseOf(Next(mode, s, input)) == Turned(PhaseOf(s), input)
    ensures 4 * Tick(mode, s, input) + Offset(mode, Next(mode, s, input)) - Offset(mode, s) == Turn(PhaseOf(s), input)
  {
  }

  lemma QuarterBackward(mode: Mode, s: State, input: Input)
    requires (mode == Quarter || mode == QuarterInv) && s > 4
    ensures PhaseOf(Next(mode, s, input)) == Turned(PhaseOf(s), input)
    ensures 4 * Tick(mode, s, input) + Offset(mode, Next(mode, s, input)) - Offset(mode, s) == Turn(PhaseOf(s), input)
  {
  }

  lemma HalfExact(mode: Mode, s: State, input: Input)
    requires Halving(mode) && s < 6
    ensures Next(mode, s, input) < 6
    ensures PhaseOf(Next(mode, s, input)) == Turned(PhaseOf(s), input) <==> !(s == D_CCW && input == 1)
    ensures 2 * Tick(mode, s, input) + Offset(mode, Next(mode, s, input)) - Offset(mode, s) == Turn(PhaseOf(s), input)
  {
    if s < 3 { HalfLow(mode, s, input); } else { HalfHigh(mode, s, input); }
  }

  lemma HalfLow(mode: Mode, s: State, input: Input)
    requires Halving(mode) && s < 3
    ensures Next(mode, s, input) < 6
    ensures PhaseOf(Next(mode, s, input)) == Turned(PhaseOf(s), input)
    ensures 2 * Tick(mode, s, input) + Offset(mode, Next(mode, s, input)) - Offset(mode, s) == Turn(PhaseOf(s), input)
  {
  }

  lemma HalfHigh(mode: Mode, s: State, input: Input)
    requires Halving(mode) && 3 <= s < 6
    ensures Next(mode, s, input) < 6
    ensures PhaseOf(Next(mode, s, input)) == Turned(PhaseOf(s), input) <==> !(s == D_CCW && input == 1)
    ensures 2 * Tick(mode, s, input) + Offset(mode, Next(mode, s, input)) - Offset(mode, s) == Turn(PhaseOf(s), input)
  {
  }

  lemma FullExact(s: State, input: Input)
    requires s < 4
    ensures Next(Full, s, input) < 4 && PhaseOf(Next(Full, s, input)) == Turned(PhaseOf(s), input)
    ensures Tick(Full, s, input) == Turn(PhaseOf(s), input)
  {
  }

  lemma NextExact(mode: Mode, s: State, p: int, input: Input)
    requires Synced(mode, s, p)
    ensures Synced(mode, Next(mode, s, input), Follow(p, input)) <==> !Slip(mode, s, input)
    ensures Scaled(mode, Tick(mode, s, input)) + Offset(mode, Next(mode, s, input)) - Offset(mode, s)
            == Follow(p, input) - p
  {
    FollowTurns(p, input);
    EntryExact(mode, s, input);
  }

  // ------------------------------------------------------------------ whole runs

  // Some input on the way is the one answered wrongly.
  predicate Slips(mode: Mode, s: State, inputs: seq<Input>)
    decreases |inputs|
  {
    inputs != [] && (Slip(mode, s, inputs[0]) || Slips(mode, Next(mode, s, inputs[0]), inputs[1..]))
  }

  // Whatever the inputs, glitches included, the count and the state together are the
  // observer's position as long as no input slips.
  lemma {:induction false} Exact(mode: Mode, s: State, p: int, inputs: seq<Input>)
    requires Synced(mode, s, p) && !Slips(mode, s, inputs)
    ensures var end := After(mode, s, inputs);
            && Synced(mode, end, Position(p, inputs))
            && Scaled(mode, Net(mode, s, inputs)) + Offset(mode, end) - Offset(mode, s) == Position(p, inputs) - p
    decreases |inputs|
  {
    if inputs != [] {
      NextExact(mode, s, p, inputs[0]);
      var s' := Next(mode, s, inputs[0]);
      Exact(mode, s', Follow(p, inputs[0]), inputs[1..]);
      OneTick(mode, s, inputs, inputs[1..]);
    }
  }

  // The decoder stands where the observer stands, now and after every input.
  predicate Agrees(mode: Mode, s: State, p: int, inputs: seq<Input>)
    decreases |inputs|
  {
    Synced(mode, s, p) && (inputs == [] || Agrees(mode, Next(mode, s, inputs[0]), Follow(p, inputs[0]), inputs[1..]))
  }

  // In quarter and full mode nothing ever slips; in half mode the decoder agrees with the
  // observer all the way exactly when nothing does.
  lemma {:induction false} AgreesUnlessSlips(mode: Mode, s: State, p: int, inputs: seq<Input>)
    requires Synced(mode, s, p)
    ensures Agrees(mode, s, p, inputs) <==> !Slips(mode, s, inputs)
    ensures !Halving(mode) ==> Agrees(mode, s, p, inputs)
    decreases |inputs|
  {
    if inputs != [] {
      NextExact(mode, s, p, inputs[0]);
      if !Slip(mode, s, inputs[0]) {
        AgreesUnlessSlips(mode, Next(mode, s, inputs[0]), Follow(p, inputs[0]), inputs[1..]);
      }
    }
  }

  // A mechanical path: from p on, each place a step away from the one before or the same.
  predicate Path(p: int, places: seq<int>)
    decreases |places|
  {
    places == [] || (p - 1 <= places[0] <= p + 1 && Path(places[0], places[1..]))
  }

  function Phases(places: seq<int>): seq<Input>
    decreases |places|
  {
    if places == [] then [] else [Phase(places[0])] + Phases(places[1..])
  }

  function Last(p: int, places: seq<int>): int { if places == [] then p else places[|places| - 1] }

  lemma FollowStep(p: int, q: int)
    requires p - 1 <= q <= p + 1
    ensures Follow(p, Phase(q)) == q
  {
    FollowTurns(p, Phase(q));
    var r := p % 4;
    assert q == p + 1 ==> q % 4 == if r == 3 then 0 else r + 1;
    assert q == p - 1 ==> q % 4 == if r == 0 then 3 else r - 1;
  }

  // A real turn of the shaft, however it bounces, is counted without error in every mode.
  lemma {:induction false} PathExact(mode: Mode, s: State, p: int, places: seq<int>)
    requires Synced(mode, s, p) && Path(p, places)
    ensures var end := After(mode, s, Phases(places));
            && !Slips(mode, s, Phases(places))
            && Synced(mode, end, Last(p, places))
            && Scaled(mode, Net(mode, s, Phases(places))) + Offset(mode, end) - Offset(mode, s) == Last(p, places) - p
    decreases |places|
  {
    PathFollowed(p, places);
    PathNoSlip(mode, s, p, places);
    Exact(mode, s, p, Phases(places));
  }

  lemma PhasesTail(places: seq<int>)
    requires places != []
    ensures Phases(places) != [] && Phases(places)[0] == Phase(places[0]) && Phases(places)[1..] == Phases(places[1..])
  {
  }

  lemma {:induction false} PathFollowed(p: int, places: seq<int>)
    requires Path(p, places)
    ensures Position(p, Phases(places)) == Last(p, places)
    decreases |places|
  {
    if places != [] {
      FollowStep(p, places[0]);
      PathFollowed(places[0], places[1..]);
      PhasesTail(places);
    }
  }

  lemma {:induction false} PathNoSlip(mode: Mode, s: State, p: int, places: seq<int>)
    requires Synced(mode, s, p) && Path(p, places)
    ensures !Slips(mode, s, Phases(places))
    decreases |places|
  {
    if places != [] {
      FollowStep(p, places[0]);
      NextExact(mode, s, p, Phase(places[0]));
      FollowTurns(p, Phase(places[0]));
      PhasesTail(places);
      PathNoSlip(mode, Next(mode, s, Phase(places[0])), places[0], places[1..]);
    }
  }

  // Double steps make half mode drift without bound: n visits to the phase before the
  // detent, each with a glitch, count -n while the observer ends where it began.
  function Glitches(n: nat): seq<Input> { if n == 0 then [] else [2, 1, 0] + Glitches(n - 1) }

  lemma {:induction false} HalfModeDrifts(n: nat)
    ensures n + Net(Half, A, Glitches(n)) == 0 && Position(0, Glitches(n)) == 0
  {
    if n > 0 {
      HalfModeDrifts(n - 1);
      GlitchTicks(Glitches(n - 1));
    }
  }

  lemma GlitchTicks(rest: seq<Input>)
    ensures Net(Half, A, [2, 1, 0] + rest) == Net(Half, A, rest) - 1
    ensures Position(0, [2, 1, 0] + rest) == Position(0, rest)
  {
    assert ([2, 1, 0] + rest)[1..] == [1, 0] + rest;
    assert ([1, 0] + rest)[1..] == [0] + rest;
    assert ([0] + rest)[1..] == rest;
    GlitchEntries();
    OneTick(Half, A, [2, 1, 0] + rest, [1, 0] + rest);
    OneTick(Half, D_CCW, [1, 0] + rest, [0] + rest);
    OneTick(Half, B_CCW, [0] + rest, rest);
    GlitchMoves();
    OneMove(0, [2, 1, 0] + rest, [1, 0] + rest);
    OneMove(-1, [1, 0] + rest, [0] + rest);
    OneMove(-1, [0] + rest, rest);
  }

  lemma GlitchEntries()
    ensures Next(Half, A, 2) == D_CCW && Tick(Half, A, 2) == 0
    ensures Next(Half, D_CCW, 1) == B_CCW && Tick(Half, D_CCW, 1) == 0
    ensures Next(Half, B_CCW, 0) == A && Tick(Half, B_CCW, 0) == -1
  {
  }

  lemma GlitchMoves()
    ensures Follow(0, 2) == -1 && Follow(-1, 1) == -1 && Follow(-1, 0) == 0
  {
  }

  lemma OneMove(p: int, inputs: seq<Input>, rest: seq<Input>)
    requires inputs != [] && inputs[1..] == rest
    ensures Position(p, inputs) == Position(Follow(p, inputs[0]), rest)
  {
  }

  lemma OneTick(mode: Mode, s: State, inputs: seq<Input>, rest: seq<Input>)
    requires inputs != [] && inputs[1..] == rest
    ensures Net(mode, s, inputs) == Tick(mode, s, inputs[0]) + Net(mode, Next(mode, s, inputs[0]), rest)
  {
    assert Ticks(mode, s, inputs)[1..] == Ticks(mode, Next(mode, s, inputs[0]), rest);
  }

  // A decoder switched to half mode while in C_ccw of quarter mode never counts again.
  lemma {:induction false} HalfModeStuck(inputs: seq<Input>)
    ensures After(Half, C_CCW, inputs) == C_CCW && Net(Half, C_CCW, inputs) == 0
    decreases |inputs|
  {
    if inputs != [] {
      HalfModeStuck(inputs[1..]);
      assert Ticks(Half, C_CCW, inputs)[1..] == Ticks(Half, C_CCW, inputs[1..]);
    }
  }

  // ------------------------------------------------------------------ the counter

  const INT_MIN := -0x8000_0000
  const INT_MAX := 0x7fff_ffff

  datatype Counter = Counter(value: int, minVal: int, maxVal: int, periodic: bool)

  predicate Within(c: Counter) { c.minVal <= c.value <= c.maxVal }

  function Moved(c: Counter, ds: seq<int>): Counter
    decreases |ds|
  {
    if ds == [] then c else Moved(Count(c, ds[0]).0, ds[1..])
  }

  // One tick: the new counter and the change reported to the caller.
  function Count(c: Counter, d: int): (Counter, int) {
    if d == 1 then
      if c.value < c.maxVal then (c.(value := c.value + 1), 1)
      else if c.periodic then (c.(value := c.minVal), 1)
      else (c.(value := c.maxVal), 0)
    else if d == -1 then
      if c.value > c.minVal then (c.(value := c.value - 1), -1)
      else if c.periodic then (c.(value := c.maxVal), -1)
      else (c.(value := c.minVal), 0)
    else (c, 0)
  }

  function Reported(c: Counter, ds: seq<int>): int
    decreases |ds|
  {
    if ds == [] then 0 else Count(c, ds[0]).1 + Reported(Count(c, ds[0]).0, ds[1..])
  }

  predicate Steps(ds: seq<int>) { forall k :: 0 <= k < |ds| ==> -1 <= ds[k] <= 1 }

  // A counter started within its limits stays there, and keeps them.
  lemma {:induction false} StaysWithin(c: Counter, ds: seq<int>)
    requires Within(c)
    ensures var end := Moved(c, ds);
            Within(end) && end.minVal == c.minVal && end.maxVal == c.maxVal && end.periodic == c.periodic
    decreases |ds|
  {
    if ds != [] { StaysWithin(Count(c, ds[0]).0, ds[1..]); }
  }

  // A periodic counter is the count modulo the size of its range, and reports every tick.
  lemma {:induction false} PeriodicValue(c: Counter, ds: seq<int>)
    requires Within(c) && c.periodic && Steps(ds)
    ensures Moved(c, ds).value == c.minVal + (c.value - c.minVal + Sum(ds)) % (c.maxVal - c.minVal + 1)
    ensures Reported(c, ds) == Sum(ds)
    decreases |ds|
  {
    var range := c.maxVal - c.minVal + 1;
    if ds == [] {
      ModUnique(c.value - c.minVal, range, 0, c.value - c.minVal);
    } else {
      var c' := Count(c, ds[0]).0;
      PeriodicValue(c', ds[1..]);
      var x, k := c'.value - c.minVal + Sum(ds[1..]), (c.value + ds[0] - c'.value) / range;
      assert c.value + ds[0] - c'.value == 0 || c.value + ds[0] - c'.value == range
          || c.value + ds[0] - c'.value == -range;
      WholeTurn(x, range);
    }
  }

  // Without limits the counter is the count in 32 bits, wrapping round.
  lemma UnlimitedValue(c: Counter, ds: seq<int>)
    requires c.minVal == INT_MIN && c.maxVal == INT_MAX && Within(c) && c.periodic && Steps(ds)
    ensures Moved(c, ds).value == (c.value + Sum(ds) + 0x8000_0000) % 0x1_0000_0000 - 0x8000_0000
    ensures Reported(c, ds) == Sum(ds)
  {
    PeriodicValue(c, ds);
  }

  lemma WholeTurn(x: int, m: nat)
    requires m > 0
    ensures (x + m) % m == x % m && (x - m) % m == x % m
  {
    SameMod(x + m, x, m, 1);
    SameMod(x - m, x, m, -1);
  }

  function Clamp(x: int, lo: int, hi: int): int { if x < lo then lo else if x > hi then hi else x }

  function Saturated(x: int, lo: int, hi: int, ds: seq<int>): int
    decreases |ds|
  {
    if ds == [] then x else Saturated(Clamp(x + ds[0], lo, hi), lo, hi, ds[1..])
  }

  // A bounded counter is the count cut off at its limits, and what it reports adds up to
  // how far it has moved.
  lemma {:induction false} BoundedValue(c: Counter, ds: seq<int>)
    requires Within(c) && !c.periodic && Steps(ds)
    ensures Moved(c, ds).value == Saturated(c.value, c.minVal, c.maxVal, ds)
    ensures Moved(c, ds).value == c.value + Reported(c, ds)
    decreases |ds|
  {
    if ds != [] { BoundedValue(Count(c, ds[0]).0, ds[1..]); }
  }

  lemma {:induction false} TicksAreSteps(mode: Mode, s: State, inputs: seq<Input>)
    ensures Steps(Ticks(mode, s, inputs))
    decreases |inputs|
  {
    if inputs != [] { TicksAreSteps(mode, Next(mode, s, inputs[0]), inputs[1..]); }
  }

  // Shaft to value: any bouncing path in any mode leaves a periodic counter at its start
  // plus the counts the path is worth, modulo the range.
  lemma ShaftToValue(mode: Mode, s: State, p: int, places: seq<int>, c: Counter)
    requires Synced(mode, s, p) && Path(p, places) && Within(c) && c.periodic
    ensures var n := Net(mode, s, Phases(places));
            && Scaled(mode, n) == Last(p, places) - Offset(mode, After(mode, s, Phases(places))) - (p - Offset(mode, s))
            && Moved(c, Ticks(mode, s, Phases(places))).value
               == c.minVal + (c.value - c.minVal + n) % (c.maxVal - c.minVal + 1)
  {
    PathExact(mode, s, p, places);
    TicksAreSteps(mode, s, Phases(places));
    PeriodicValue(c, Ticks(mode, s, Phases(places)));
  }

  // --------------------------------------------------------------------- raw samples

  // The bits of a sample exchanged for their opposites where those of y are set.
  function Invert(x: Input, y: Input): Input {
    (if x / 2 != y / 2 then 2 else 0) + if x % 2 != y % 2 then 1 else 0
  }

  function InvertOf(mode: Mode): Input {
    match mode
    case Quarter => 3
    case HalfAlt => 1
    case QuarterInv | Half | Full => 0
  }

  // Bit by bit the exclusive or; the same again takes it back.
  lemma InvertBits(x: Input, y: Input)
    ensures Invert(x, y) / 2 == (x / 2 + y / 2) % 2 && Invert(x, y) % 2 == (x % 2 + y % 2) % 2
    ensures Invert(x, 0) == x && Invert(x, 3) == 3 - x && Invert(Invert(x, y), y) == x
  {
  }

  // Where the decoder of a mode sees the shaft when it is at p. Inverting both phases turns
  // by half a period; inverting one of them, as the alternate half mode does, turns round.
  function Inner(mode: Mode, p: int): int {
    match mode
    case Quarter => p + 2
    case HalfAlt => 1 - p
    case QuarterInv | Half | Full => p
  }

  function Sense(mode: Mode): int { if mode == HalfAlt then -1 else 1 }

  lemma InvertPhase(mode: Mode, p: int)
    ensures Invert(Phase(p), InvertOf(mode)) == Phase(Inner(mode, p))
  {
    var r := p % 4;
    assert (p + 2) % 4 == if r < 2 then r + 2 else r - 2;
    assert (1 - p) % 4 == if r < 2 then 1 - r else 5 - r;
  }

  function Inverted(mode: Mode, raw: seq<Input>): seq<Input> {
    if raw == [] then [] else [Invert(raw[0], InvertOf(mode))] + Inverted(mode, raw[1..])
  }

  function Inside(mode: Mode, places: seq<int>): seq<int> {
    if places == [] then [] else [Inner(mode, places[0])] + Inside(mode, places[1..])
  }

  lemma {:induction false} InvertPath(mode: Mode, p: int, places: seq<int>)
    requires Path(p, places)
    ensures Path(Inner(mode, p), Inside(mode, places))
    ensures Inverted(mode, Phases(places)) == Phases(Inside(mode, places))
    ensures Last(Inner(mode, p), Inside(mode, places)) == Inner(mode, Last(p, places))
    decreases |places|
  {
    if places != [] {
      var q := places[0];
      InvertPath(mode, q, places[1..]);
      InvertPhase(mode, q);
      PhasesTail(places);
      PhasesTail(Inside(mode, places));
      LastTail(p, q, places);
      LastTail(Inner(mode, p), Inner(mode, q), Inside(mode, places));
    }
  }

  lemma LastTail(p: int, q: int, places: seq<int>)
    requires places != [] && places[0] == q
    ensures Last(p, places) == Last(q, places[1..])
  {
  }

  // Main result: the raw samples of a real turn, from begin() on and through the inversion
  // of the mode, are counted without error: forward in every mode but the alternate half
  // mode, and backward in that.
  lemma RawPathExact(mode: Mode, p: int, places: seq<int>)
    requires Path(p, places)
    ensures var s, inputs := Invert(Phase(p), InvertOf(mode)), Inverted(mode, Phases(places));
            Scaled(mode, Net(mode, s, inputs)) + Offset(mode, After(mode, s, inputs)) - Offset(mode, s)
            == Sense(mode) * (Last(p, places) - p)
  {
    InvertPhase(mode, p);
    InvertPath(mode, p, places);
    PathExact(mode, Phase(Inner(mode, p)), Inner(mode, p), Inside(mode, places));
  }

  // So two periods of the shaft one way or the other show in the sign of the count.
  lemma RawDirection(mode: Mode, p: int, places: seq<int>)
    requires Path(p, places)
    ensures var n := Net(mode, Invert(Phase(p), InvertOf(mode)), Inverted(mode, Phases(places)));
            && (Last(p, places) - p >= 7 ==> if mode == HalfAlt then n < 0 else n > 0)
            && (Last(p, places) - p <= -7 ==> if mode == HalfAlt then n > 0 else n < 0)
  {
    RawPathExact(mode, p, places);
    var s := Invert(Phase(p), InvertOf(mode));
    OffsetBounds(mode, s);
    OffsetBounds(mode, After(mode, s, Inverted(mode, Phases(places))));
  }

  lemma OffsetBounds(mode: Mode, s: State)
    ensures -3 <= Offset(mode, s) <= 3
  {
  }

  // The raw phases at which the count is the position without a remainder.
  function DetentPhases(mode: Mode): set<Input> {
    match mode
    case Quarter => {3}
    case QuarterInv => {0}
    case Half => {0, 3}
    case HalfAlt => {1, 2}
    case Full => {0, 1, 2, 3}
  }

  lemma DetentsExactly(mode: Mode, s: State, raw: Input)
    requires Home(mode, s) && PhaseOf(s) == Invert(raw, InvertOf(mode))
    ensures Offset(mode, s) == 0 <==> raw in DetentPhases(mode)
  {
  }

  // ------------------------------------------------------------------- the object

  class Encoder {
    var value: int
    var minVal: int
    var maxVal: int
    var valChanged: bool
    var periodic: bool
    var invert: Input
    var mode: Mode
    var curState: State

    ghost function View(): Counter
      reads this
    {
      Counter(value, minVal, maxVal, periodic)
    }

    constructor ()
      ensures View() == Counter(0, INT_MIN, INT_MAX, true) && !valChanged
      ensures mode == Full && invert == 0 && curState == A
    {
      value, minVal, maxVal, valChanged, periodic := 0, INT_MIN, INT_MAX, false, true;
      invert, mode, curState := 0, Full, A;
    }

    method SetCountMode(m: Mode)
      modifies `mode, `invert
      ensures mode == m && invert == InvertOf(m)
    {
      mode := m;
      match m {
        case Quarter => invert := 3;
        case QuarterInv => invert := 0;
        case Half => invert := 0;
        case HalfAlt => invert := 1;
        case Full => invert := 0;
      }
    }

    // Limits that are not in order mean none: the whole range of the type, periodic.
    method SetLimits(min: int, max: int, wrap: bool)
      modifies `minVal, `maxVal, `periodic
      ensures View() == if min < max then Counter(old(value), min, max, wrap)
                        else Counter(old(value), INT_MIN, INT_MAX, true)
    {
      if min < max {
        minVal, maxVal, periodic := min, max, wrap;
      } else {
        minVal, maxVal, periodic := INT_MIN, INT_MAX, true;
      }
    }

    method Begin(phases: Input)
      modifies `curState
      ensures curState == Invert(phases, invert)
      ensures Home(mode, curState) && PhaseOf(curState) == Invert(phases, invert)
    {
      curState := Invert(phases, invert);
    }

    method Update(phases: Input) returns (delta: int)
      modifies `value, `valChanged, `curState
      ensures var input := Invert(phases, invert);
              var d := Tick(mode, old(curState), input);
              && curState == Next(mode, old(curState), input)
              && View() == Count(old(View()), d).0
              && delta == Count(old(View()), d).1
              && valChanged == (old(valChanged) || delta != 0)
    {
      var entry := Entry(mode, curState, Invert(phases, invert));
      curState := entry % 16;
      var direction := entry - entry % 16;
      if direction == UP {
        if value < maxVal {
          value := value + 1;
          valChanged := true;
          return 1;
        }
        if periodic {
          value := minVal;
          valChanged := true;
          return 1;
        }
        value := maxVal;
        return 0;
      }
      if direction == DOWN {
        if value > minVal {
          value := value - 1;
          valChanged := true;
          return -1;
        }
        if periodic {
          value := maxVal;
          valChanged := true;
          return -1;
        }
        value := minVal;
        return 0;
      }
      return 0;
    }
  }
}
