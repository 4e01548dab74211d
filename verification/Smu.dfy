// The source and limit converters of the measure unit: which span and code each set point
// is sent as, and the current range switching that has to resend the limit.
module Smu {
  import opened Ltc2758
  import opened Reals
  import Calibration

  datatype Operation = SourceVoltage | SourceCurrent

  datatype Range = Amp1 | MilliAmp10

  // The correction constants of one quantity.
  datatype Gains = Gains(useTable: bool, table: Calibration.Table, zero: real, zero2: real,
                         pos: real, pos2: real, neg: real, neg2: real)

  // Voltage and current corrections, and the gain of the current limit.
  datatype Cal = Cal(voltage: Gains, current: Gains, limit: real)

  predicate Tables(cal: Cal) {
    Calibration.Points(cal.voltage.table) && Calibration.Points(cal.current.table)
  }

  // ------------------------------------------------------------- set points in volts

  function Corrected(g: Gains, milli: real): real
    requires Calibration.Points(g.table)
  {
    if g.useTable then Calibration.Compensate(g.table, milli) else milli
  }

  // The converter voltage for a source voltage, before the board inverts it.
  function VoltageVolts(cal: Cal, microVolts: int): real
    requires Tables(cal)
  {
    var g := cal.voltage;
    var v := Corrected(g, microVolts as real / 1000.0) / 1000.0 + g.zero;
    v * (if v > 0.0 then if v > 2.3 then g.pos2 else g.pos else if v < -2.3 then g.neg2 else g.neg)
  }

  function CurrentVolts(cal: Cal, range: Range, microAmps: int): real
    requires Tables(cal)
  {
    var g := cal.current;
    var v := Corrected(g, microAmps as real / 1000.0) / 1000.0;
    match range
    case Amp1 =>
      var w := (v * 10.0 / 2.0 + g.zero) * 0.9;
      w * (if w < 0.0 then g.neg else g.pos) * 1.09
    case MilliAmp10 =>
      var w := v * 1000.0 + g.zero2;
      w * (if w < 0.0 then g.neg2 else g.pos2)
  }

  const SHUNT_1A := 0.50
  const MOSFET_SWITCH := 0.005

  // The voltage at which the limiting circuit holds a current.
  function LimitVolts(cal: Cal, range: Range, microAmps: int): real {
    match range
    case MilliAmp10 =>
      var v := microAmps as real / 1000.0;
      if v > 10.0 then 10.0 else v
    case Amp1 =>
      10.0 * (microAmps as real / 1000.0 / 1000.0) * (SHUNT_1A + MOSFET_SWITCH) * cal.limit
  }

  // ----------------------------------------------------------------- spans and codes

  function Low(span: nat): real
    requires span <= 4
  {
    match span
    case 0 => 0.0
    case 1 => 0.0
    case 2 => -5.0
    case 3 => -10.0
    case _ => -2.5
  }

  function High(span: nat): (high: real)
    requires span <= 4
    ensures Low(span) < high
  {
    match span
    case 0 => 5.0
    case 1 => 10.0
    case 2 => 5.0
    case 3 => 10.0
    case _ => 2.5
  }

  function VoltageSpan(volts: real, dynamicRange: bool): nat {
    if dynamicRange && Abs(volts) <= 2.3 then 4 else if dynamicRange && Abs(volts) <= 4.6 then 2 else 3
  }

  function CurrentSpan(volts: real): nat { if Abs(volts) < 2.2 then 4 else 3 }

  function Encoded(span: nat, volts: real): (s: Setting)
    requires span <= 4
    ensures Sendable(s)
  {
    Setting(span, VoltageToCode(volts, Low(span), High(span)))
  }

  // The voltage a setting stands for.
  function Volts(s: Setting): real
    requires s.span <= 4
  {
    CodeToVoltage(s.code, Low(s.span), High(s.span))
  }

  function VoltageSetting(cal: Cal, microVolts: int, dynamicRange: bool): Setting
    requires Tables(cal)
  {
    var v := VoltageVolts(cal, microVolts);
    Encoded(VoltageSpan(v, dynamicRange), -v)
  }

  function CurrentSetting(cal: Cal, range: Range, microAmps: int): Setting
    requires Tables(cal)
  {
    var v := -CurrentVolts(cal, range, microAmps);
    Encoded(CurrentSpan(v), v)
  }

  function CurrentLimitSetting(cal: Cal, range: Range, microAmps: int): Setting {
    Encoded(1, LimitVolts(cal, range, microAmps))
  }

  function VoltageLimitSetting(microVolts: int): Setting { Encoded(1, microVolts as real / 1000.0 / 1000.0) }

  lemma EncodedNear(span: nat, volts: real)
    requires span <= 4 && Low(span) <= volts <= High(span)
    ensures Abs(Volts(Encoded(span, volts)) - volts) <= Lsb(Low(span), High(span)) / 2.0
  {
    HalfLsb(volts, Low(span), High(span));
  }

  // A corrected voltage of at most ten volts comes out inverted, within half a code of
  // the span chosen, whichever that is.
  lemma VoltageReproduced(cal: Cal, microVolts: int, dynamicRange: bool)
    requires Tables(cal) && Abs(VoltageVolts(cal, microVolts)) <= 10.0
    ensures var s := VoltageSetting(cal, microVolts, dynamicRange);
            && s.span == (if dynamicRange && Abs(VoltageVolts(cal, microVolts)) <= 2.3 then 4
                          else if dynamicRange && Abs(VoltageVolts(cal, microVolts)) <= 4.6 then 2 else 3)
            && Abs(Volts(s) + VoltageVolts(cal, microVolts)) <= Lsb(Low(s.span), High(s.span)) / 2.0
    ensures var error := Abs(Volts(VoltageSetting(cal, microVolts, dynamicRange)) + VoltageVolts(cal, microVolts));
            && error <= 10.0 / 262143.0
            && (dynamicRange && Abs(VoltageVolts(cal, microVolts)) <= 4.6 ==> error <= 5.0 / 262143.0)
            && (dynamicRange && Abs(VoltageVolts(cal, microVolts)) <= 2.3 ==> error <= 2.5 / 262143.0)
  {
    var v := VoltageVolts(cal, microVolts);
    EncodedNear(VoltageSpan(v, dynamicRange), -v);
  }

  lemma CurrentReproduced(cal: Cal, range: Range, microAmps: int)
    requires Tables(cal) && Abs(CurrentVolts(cal, range, microAmps)) <= 10.0
    ensures var s := CurrentSetting(cal, range, microAmps);
            && s.span == (if Abs(CurrentVolts(cal, range, microAmps)) < 2.2 then 4 else 3)
            && Abs(Volts(s) + CurrentVolts(cal, range, microAmps)) <= Lsb(Low(s.span), High(s.span)) / 2.0
    ensures var error := Abs(Volts(CurrentSetting(cal, range, microAmps)) + CurrentVolts(cal, range, microAmps));
            && error <= 10.0 / 262143.0
            && (Abs(CurrentVolts(cal, range, microAmps)) < 2.2 ==> error <= 2.5 / 262143.0)
  {
    var v := -CurrentVolts(cal, range, microAmps);
    EncodedNear(CurrentSpan(v), v);
  }

  // A limit that is not negative comes out within half a code, or at ten volts if it is
  // more than the converter can give.
  lemma LimitReproduced(cal: Cal, range: Range, microAmps: int)
    requires LimitVolts(cal, range, microAmps) >= 0.0
    ensures var v, out := LimitVolts(cal, range, microAmps), Volts(CurrentLimitSetting(cal, range, microAmps));
            if v <= 10.0 then Abs(out - v) <= 5.0 / 262143.0 else out == 10.0
  {
    var v := LimitVolts(cal, range, microAmps);
    if v <= 10.0 {
      EncodedNear(1, v);
    } else {
      CodesRise(10.0, v, 0.0, 10.0);
      CodeRoundTrip(FULL, 0.0, 10.0);
    }
  }

  // ------------------------------------------------------- what the numbers stand for

  // The milli-units the table makes of micro-units, as a whole unit.
  function Tabled(g: Gains, micro: int): real
    requires Calibration.Points(g.table)
  {
    if g.useTable then Calibration.Compensate(g.table, micro as real / 1000.0) / 1000.0
    else micro as real / 1000000.0
  }

  // Each gain acts on the voltages of its own sign and size and on no others.
  lemma VoltageMeaning(cal: Cal, microVolts: int)
    requires Tables(cal)
    ensures var g, v := cal.voltage, Tabled(cal.voltage, microVolts) + cal.voltage.zero;
            && (2.3 < v ==> VoltageVolts(cal, microVolts) == v * g.pos2)
            && (0.0 < v <= 2.3 ==> VoltageVolts(cal, microVolts) == v * g.pos)
            && (-2.3 <= v <= 0.0 ==> VoltageVolts(cal, microVolts) == v * g.neg)
            && (v < -2.3 ==> VoltageVolts(cal, microVolts) == v * g.neg2)
  {
    Millions(microVolts);
  }

  // The high range takes 4.905 volts for an ampere, the low one a volt for a milliampere.
  lemma CurrentMeaning(cal: Cal, microAmps: int)
    requires Tables(cal)
    ensures var g, high := cal.current, Tabled(cal.current, microAmps) * 4.905 + cal.current.zero * 0.981;
            CurrentVolts(cal, Amp1, microAmps) == high * if high < 0.0 then g.neg else g.pos
    ensures var g, low := cal.current, Tabled(cal.current, microAmps) * 1000.0 + cal.current.zero2;
            CurrentVolts(cal, MilliAmp10, microAmps) == low * if low < 0.0 then g.neg2 else g.pos2
  {
    Millions(microAmps);
    var g, v := cal.current, Corrected(cal.current, microAmps as real / 1000.0) / 1000.0;
    HighScale(v, g.zero, if (v * 10.0 / 2.0 + g.zero) * 0.9 < 0.0 then g.neg else g.pos);
  }

  lemma Millions(n: int)
    ensures n as real / 1000.0 / 1000.0 == n as real / 1000000.0
  {
  }

  lemma HighScale(v: real, zero: real, gain: real)
    ensures (v * 10.0 / 2.0 + zero) * 0.9 * gain * 1.09 == (v * 4.905 + zero * 0.981) * gain
  {
    var w := (v * 10.0 / 2.0 + zero) * 0.9;
    assert w * 1.09 == v * 4.905 + zero * 0.981;
    assert w * gain * 1.09 == w * 1.09 * gain;
  }

  // No table, no offsets, no gains.
  predicate Unity(g: Gains) {
    && !g.useTable && g.zero == 0.0 && g.zero2 == 0.0
    && g.pos == 1.0 && g.pos2 == 1.0 && g.neg == 1.0 && g.neg2 == 1.0
  }

  // Then a source voltage up to ten volts comes out as it was asked for, inverted, within
  // half a code of the span.
  lemma VoltageAsAsked(cal: Cal, microVolts: int, dynamicRange: bool)
    requires Tables(cal) && Unity(cal.voltage) && -10000000 <= microVolts <= 10000000
    ensures var s := VoltageSetting(cal, microVolts, dynamicRange);
            Abs(Volts(s) + microVolts as real / 1000000.0) <= Lsb(Low(s.span), High(s.span)) / 2.0 <= 10.0 / 262143.0
  {
    var v := UnityVolts(cal, microVolts);
    VoltageReproduced(cal, microVolts, dynamicRange);
    SpanWidth(VoltageSpan(v, dynamicRange));
  }

  lemma ShownAsAsked(cal: Cal, microVolts: int, dynamicRange: bool, s: Setting)
    requires Tables(cal) && s == VoltageSetting(cal, microVolts, dynamicRange)
    ensures s.span <= 4
    ensures Unity(cal.voltage) && -10000000 <= microVolts <= 10000000 ==>
              Abs(Volts(s) + microVolts as real / 1000000.0) <= 10.0 / 262143.0
  {
    if Unity(cal.voltage) && -10000000 <= microVolts <= 10000000 { VoltageAsAsked(cal, microVolts, dynamicRange); }
  }

  lemma UnityVolts(cal: Cal, microVolts: int) returns (v: real)
    requires Tables(cal) && Unity(cal.voltage)
    ensures v == VoltageVolts(cal, microVolts) && v == microVolts as real / 1000000.0
    ensures -10000000 <= microVolts <= 10000000 ==> Abs(v) <= 10.0
  {
    v := microVolts as real / 1000000.0;
    VoltageMeaning(cal, microVolts);
  }

  lemma SpanWidth(span: nat)
    requires span in {2, 3, 4}
    ensures Lsb(Low(span), High(span)) / 2.0 <= 10.0 / 262143.0
  {
  }

  // With a table as well, it is off by no more than the worst calibration error besides.
  lemma VoltageWithTable(cal: Cal, microVolts: int, worst: real)
    requires Tables(cal) && Unity(cal.voltage.(useTable := false)) && cal.voltage.useTable
    requires Calibration.Increasing(cal.voltage.table) && worst >= 0.0
    requires forall i :: 0 <= i < |cal.voltage.table.aim| ==>
               Abs(cal.voltage.table.aim[i] - cal.voltage.table.meas[i]) <= worst
    ensures Abs(VoltageVolts(cal, microVolts) - microVolts as real / 1000000.0) <= worst / 1000.0
  {
    VoltageMeaning(cal, microVolts);
    Calibration.NeverFar(cal.voltage.table, microVolts as real / 1000.0, worst);
    Millions(microVolts);
  }

  // A source current up to two amperes, or ten milliamperes, likewise.
  lemma CurrentAsAsked(cal: Cal, range: Range, microAmps: int)
    requires Tables(cal) && Unity(cal.current)
    requires if range == Amp1 then -2000000 <= microAmps <= 2000000 else -10000 <= microAmps <= 10000
    ensures var s, volts := CurrentSetting(cal, range, microAmps),
                            if range == Amp1 then microAmps as real * 0.000004905 else microAmps as real / 1000.0;
            Abs(Volts(s) + volts) <= Lsb(Low(s.span), High(s.span)) / 2.0 <= 10.0 / 262143.0
  {
    CurrentMeaning(cal, microAmps);
    CurrentReproduced(cal, range, microAmps);
  }

  // A limit: 5.05 volts for an ampere or a volt for a milliampere, up to ten volts.
  lemma LimitAsAsked(cal: Cal, range: Range, microAmps: int)
    requires cal.limit == 1.0 && microAmps >= 0
    ensures var volts := if range == Amp1 then microAmps as real * 0.00000505 else microAmps as real / 1000.0;
            var out := Volts(CurrentLimitSetting(cal, range, microAmps));
            if volts <= 10.0 then Abs(out - volts) <= 5.0 / 262143.0 else Abs(out - 10.0) <= 5.0 / 262143.0
  {
    LimitReproduced(cal, range, microAmps);
  }

  // A voltage limit comes out within half a code, cut to zero to ten volts.
  lemma VoltageLimitAsAsked(microVolts: int)
    ensures var volts, out := microVolts as real / 1000000.0, Volts(VoltageLimitSetting(microVolts));
            if volts < 0.0 then out == 0.0 else if volts > 10.0 then out == 10.0
            else Abs(out - volts) <= 5.0 / 262143.0
  {
    Millions(microVolts);
    var volts := microVolts as real / 1000000.0;
    if volts < 0.0 {
      CodesRise(volts, 0.0, 0.0, 10.0);
      CodeRoundTrip(0, 0.0, 10.0);
    } else if volts <= 10.0 {
      EncodedNear(1, volts);
    } else {
      CodesRise(10.0, volts, 0.0, 10.0);
      CodeRoundTrip(FULL, 0.0, 10.0);
    }
  }

  // --------------------------------------------------------------------- the unit

  // Source converter, limit converter, and the position of the shunt relay.
  datatype Unit = Unit(operation: Operation, setValue: int, setLimit: int, range: Range, relay: Range,
                       source: Chip, limit: Chip)

  datatype Op =
    | SetVoltage(microVolts: int, dynamicRange: bool)
    | SetCurrent(microAmps: int)
    | LimitCurrent(limitAmps: int)
    | LimitVoltage(limitVolts: int)
    | SwitchRange(range: Range, operation: Operation)
    | AutoRange(milliAmps: real, switchAt: real)

  function CommitLimit(cal: Cal, u: Unit, microAmps: int): Unit {
    u.(setLimit := microAmps, limit := Committed(u.limit, CurrentLimitSetting(cal, u.range, microAmps)))
  }

  function CommitCurrent(cal: Cal, u: Unit, microAmps: int): Unit
    requires Tables(cal)
  {
    u.(operation := SourceCurrent, setValue := microAmps,
       source := Committed(u.source, CurrentSetting(cal, u.range, microAmps)))
  }

  // What a range switch sends: in voltage mode the stored limit, in current mode the
  // stored set point, for the new range.
  function Resend(cal: Cal, u: Unit, operation: Operation): Unit
    requires Tables(cal)
  {
    if operation == SourceVoltage then CommitLimit(cal, u, u.setLimit) else CommitCurrent(cal, u, u.setValue)
  }

  // In the middle of a switch: to the high range the relay goes first, to the low range
  // the converter does.
  function MidSwitch(cal: Cal, u: Unit, range: Range, operation: Operation): Unit
    requires Tables(cal)
  {
    var v := u.(range := range);
    if range == Amp1 then v.(relay := Amp1) else Resend(cal, v, operation)
  }

  function Switched(cal: Cal, u: Unit, range: Range, operation: Operation): Unit
    requires Tables(cal)
  {
    var v := MidSwitch(cal, u, range, operation);
    if range == Amp1 then Resend(cal, v, operation) else v.(relay := MilliAmp10)
  }

  const HYSTERESIS := 0.5

  // Each half of the automatic switch, and both.
  function AutoDown(cal: Cal, u: Unit, milliAmps: real, switchAt: real): Unit
    requires Tables(cal)
  {
    if u.range == Amp1 && Abs(milliAmps) < switchAt - HYSTERESIS then
      var v := Switched(cal, u, MilliAmp10, u.operation);
      if v.operation == SourceVoltage then CommitLimit(cal, v, v.setLimit) else v
    else u
  }

  function AutoUp(cal: Cal, u: Unit, milliAmps: real, switchAt: real): Unit
    requires Tables(cal)
  {
    if u.range == MilliAmp10 && Abs(milliAmps) > switchAt then
      var v := Switched(cal, u, Amp1, u.operation);
      if v.operation == SourceVoltage then CommitLimit(cal, v, v.setLimit) else v
    else u
  }

  function Do(cal: Cal, u: Unit, op: Op): Unit
    requires Tables(cal)
  {
    match op
    case SetVoltage(uV, dynamic) =>
      u.(operation := SourceVoltage, setValue := uV, source := Committed(u.source, VoltageSetting(cal, uV, dynamic)))
    case SetCurrent(uA) => CommitCurrent(cal, u, uA)
    case LimitCurrent(uA) => CommitLimit(cal, u, uA)
    case LimitVoltage(uV) => u.(setLimit := uV, limit := Committed(u.limit, VoltageLimitSetting(uV)))
    case SwitchRange(range, operation) => Switched(cal, u, range, operation)
    case AutoRange(mA, at) => AutoUp(cal, AutoDown(cal, u, mA, at), mA, at)
  }

  function Run(cal: Cal, u: Unit, ops: seq<Op>): Unit
    requires Tables(cal)
    decreases |ops|
  {
    if ops == [] then u else Run(cal, Do(cal, u, ops[0]), ops[1..])
  }

  // --------------------------------------------------- the limit follows the range

  // The limit converter shows the stored limit for the present range.
  predicate InStep(cal: Cal, u: Unit) {
    u.limit.a.shown == CurrentLimitSetting(cal, u.range, u.setLimit)
  }

  // The operations of voltage mode.
  predicate VoltageMode(op: Op) {
    match op
    case SetVoltage(_, _) => true
    case LimitCurrent(_) => true
    case SwitchRange(_, operation) => operation == SourceVoltage
    case AutoRange(_, _) => true
    case _ => false
  }

  lemma CommitLimitInStep(cal: Cal, u: Unit, microAmps: int)
    ensures InStep(cal, CommitLimit(cal, u, microAmps))
  {
    CommitShows(u.limit, CurrentLimitSetting(cal, u.range, microAmps));
  }

  // Every range switch in voltage mode leaves the limit right for the new range,
  // whatever it was before.
  lemma SwitchedInStep(cal: Cal, u: Unit, range: Range)
    requires Tables(cal)
    ensures var v := Switched(cal, u, range, SourceVoltage);
            && InStep(cal, v) && v.range == v.relay == range && v.setLimit == u.setLimit
            && v.operation == u.operation && v.source == u.source
  {
    CommitLimitInStep(cal, u.(range := range), u.setLimit);
    CommitLimitInStep(cal, u.(range := range, relay := Amp1), u.setLimit);
  }

  lemma AutoInStep(cal: Cal, u: Unit, milliAmps: real, switchAt: real)
    requires Tables(cal) && u.operation == SourceVoltage && InStep(cal, u)
    ensures var v := AutoUp(cal, AutoDown(cal, u, milliAmps, switchAt), milliAmps, switchAt);
            InStep(cal, v) && v.operation == SourceVoltage
  {
    SwitchedInStep(cal, u, MilliAmp10);
    var low := Switched(cal, u, MilliAmp10, SourceVoltage);
    CommitLimitInStep(cal, low, low.setLimit);
    var d := AutoDown(cal, u, milliAmps, switchAt);
    SwitchedInStep(cal, d, Amp1);
    var high := Switched(cal, d, Amp1, SourceVoltage);
    CommitLimitInStep(cal, high, high.setLimit);
  }

  lemma DoInStep(cal: Cal, u: Unit, op: Op)
    requires Tables(cal) && VoltageMode(op) && u.operation == SourceVoltage && InStep(cal, u)
    ensures InStep(cal, Do(cal, u, op)) && Do(cal, u, op).operation == SourceVoltage
  {
    match op
    case SetVoltage(_, _) =>
    case LimitCurrent(uA) => CommitLimitInStep(cal, u, uA);
    case SwitchRange(range, _) => SwitchedInStep(cal, u, range);
    case AutoRange(mA, at) => AutoInStep(cal, u, mA, at);
  }

  // Once voltage mode has been entered and the limit set, it stays right over every run
  // of voltage mode, by hand and automatic switching alike.
  lemma {:induction false} LimitFollowsRange(cal: Cal, u: Unit, ops: seq<Op>)
    requires Tables(cal) && u.operation == SourceVoltage && InStep(cal, u)
    requires forall k :: 0 <= k < |ops| ==> VoltageMode(ops[k])
    ensures InStep(cal, Run(cal, u, ops)) && Run(cal, u, ops).operation == SourceVoltage
    decreases |ops|
  {
    if ops != [] {
      DoInStep(cal, u, ops[0]);
      LimitFollowsRange(cal, Do(cal, u, ops[0]), ops[1..]);
    }
  }

  // During a switch in voltage mode, either way, there is a moment when the limit meant
  // for the low range stands on the shunt of the high range.
  lemma LowLimitOnHighShunt(cal: Cal, u: Unit, range: Range)
    requires Tables(cal) && InStep(cal, u) && u.relay == u.range && u.range != range
    ensures var mid := MidSwitch(cal, u, range, SourceVoltage);
            && mid.relay == Amp1
            && mid.limit.a.shown == CurrentLimitSetting(cal, MilliAmp10, u.setLimit)
  {
    CommitLimitInStep(cal, u.(range := range), u.setLimit);
  }

  // ----------------------------------------------- the source follows the range

  // The source converter shows the stored set point for the present range as a current.
  predicate SourceInStep(cal: Cal, u: Unit)
    requires Tables(cal)
  {
    u.source.a.shown == CurrentSetting(cal, u.range, u.setValue)
  }

  // The operations of current mode.
  predicate CurrentMode(op: Op) {
    match op
    case SetCurrent(_) => true
    case LimitCurrent(_) => true
    case LimitVoltage(_) => true
    case SwitchRange(_, operation) => operation == SourceCurrent
    case AutoRange(_, _) => true
    case SetVoltage(_, _) => false
  }

  lemma CommitCurrentInStep(cal: Cal, u: Unit, microAmps: int)
    requires Tables(cal)
    ensures var v := CommitCurrent(cal, u, microAmps);
            SourceInStep(cal, v) && v.setValue == microAmps && v.operation == SourceCurrent
  {
    CommitShows(u.source, CurrentSetting(cal, u.range, microAmps));
  }

  // Every range switch in current mode leaves the source at the stored set point for the
  // new range, whatever it showed before, and the limit alone.
  lemma SwitchedSource(cal: Cal, u: Unit, range: Range)
    requires Tables(cal)
    ensures var v := Switched(cal, u, range, SourceCurrent);
            && SourceInStep(cal, v) && v.range == v.relay == range && v.setValue == u.setValue
            && v.operation == SourceCurrent && v.setLimit == u.setLimit && v.limit == u.limit
  {
    CommitCurrentInStep(cal, u.(range := range), u.setValue);
    CommitCurrentInStep(cal, u.(range := range, relay := Amp1), u.setValue);
  }

  lemma AutoSource(cal: Cal, u: Unit, milliAmps: real, switchAt: real)
    requires Tables(cal) && u.operation == SourceCurrent && SourceInStep(cal, u)
    ensures var v := AutoUp(cal, AutoDown(cal, u, milliAmps, switchAt), milliAmps, switchAt);
            && SourceInStep(cal, v) && v.setValue == u.setValue && v.operation == SourceCurrent
            && v.setLimit == u.setLimit && v.limit == u.limit
  {
    SwitchedSource(cal, u, MilliAmp10);
    SwitchedSource(cal, AutoDown(cal, u, milliAmps, switchAt), Amp1);
  }

  lemma DoSource(cal: Cal, u: Unit, op: Op)
    requires Tables(cal) && CurrentMode(op) && u.operation == SourceCurrent && SourceInStep(cal, u)
    ensures var v := Do(cal, u, op);
            && SourceInStep(cal, v) && v.operation == SourceCurrent
            && v.setValue == (if op.SetCurrent? then op.microAmps else u.setValue)
            && (op.AutoRange? || op.SwitchRange? ==> v.limit == u.limit)
  {
    match op
    case SetCurrent(uA) => CommitCurrentInStep(cal, u, uA);
    case LimitCurrent(uA) =>
    case LimitVoltage(uV) =>
    case SwitchRange(range, _) => SwitchedSource(cal, u, range);
    case AutoRange(mA, at) => AutoSource(cal, u, mA, at);
  }

  function LastCurrent(n: int, ops: seq<Op>): int
    decreases |ops|
  {
    if ops == [] then n else LastCurrent(if ops[0].SetCurrent? then ops[0].microAmps else n, ops[1..])
  }

  // Over every run of current mode, by hand and automatic switching alike, the source shows
  // the last current set for the present range, however often the range has changed.
  lemma {:induction false} SourceFollowsRange(cal: Cal, u: Unit, ops: seq<Op>)
    requires Tables(cal) && u.operation == SourceCurrent && SourceInStep(cal, u)
    requires forall k :: 0 <= k < |ops| ==> CurrentMode(ops[k])
    ensures var v := Run(cal, u, ops);
            && v.source.a.shown == CurrentSetting(cal, v.range, LastCurrent(u.setValue, ops))
            && v.operation == SourceCurrent
    decreases |ops|
  {
    if ops != [] {
      DoSource(cal, u, ops[0]);
      SourceFollowsRange(cal, Do(cal, u, ops[0]), ops[1..]);
    }
  }

  // In voltage mode the source shows the last voltage set, whatever the range does.
  function LastVoltage(s: Setting, cal: Cal, ops: seq<Op>): Setting
    requires Tables(cal)
    decreases |ops|
  {
    if ops == [] then s
    else LastVoltage(match ops[0] case SetVoltage(uV, dynamic) => VoltageSetting(cal, uV, dynamic) case _ => s,
                     cal, ops[1..])
  }

  lemma DoVoltage(cal: Cal, u: Unit, op: Op)
    requires Tables(cal) && VoltageMode(op) && u.operation == SourceVoltage
    ensures var v := Do(cal, u, op);
            && v.operation == SourceVoltage
            && v.source.a.shown ==
               (match op case SetVoltage(uV, dynamic) => VoltageSetting(cal, uV, dynamic) case _ => u.source.a.shown)
            && v.setValue == (if op.SetVoltage? then op.microVolts else u.setValue)
  {
    match op
    case SetVoltage(uV, dynamic) => CommitShows(u.source, VoltageSetting(cal, uV, dynamic));
    case LimitCurrent(uA) =>
    case SwitchRange(range, _) => SwitchedInStep(cal, u, range);
    case AutoRange(mA, at) =>
      SwitchedInStep(cal, u, MilliAmp10);
      SwitchedInStep(cal, AutoDown(cal, u, mA, at), Amp1);
  }

  lemma {:induction false} SourceStays(cal: Cal, u: Unit, ops: seq<Op>)
    requires Tables(cal) && u.operation == SourceVoltage && forall k :: 0 <= k < |ops| ==> VoltageMode(ops[k])
    ensures Run(cal, u, ops).source.a.shown == LastVoltage(u.source.a.shown, cal, ops)
    decreases |ops|
  {
    if ops != [] {
      DoVoltage(cal, u, ops[0]);
      SourceStays(cal, Do(cal, u, ops[0]), ops[1..]);
    }
  }

  // ------------------------------------------------------ two limits, one variable

  // The number of the last limit set, as a current or as a voltage; n if there is none.
  function LastLimit(n: int, ops: seq<Op>): int
    decreases |ops|
  {
    if ops == [] then n
    else LastLimit(match ops[0] case LimitCurrent(uA) => uA case LimitVoltage(uV) => uV case _ => n, ops[1..])
  }

  // The last current limit alone.
  function LastCurrentLimit(n: int, ops: seq<Op>): int
    decreases |ops|
  {
    if ops == [] then n
    else LastCurrentLimit(if ops[0].LimitCurrent? then ops[0].limitAmps else n, ops[1..])
  }

  // No voltage limit has been set since the last current limit.
  predicate CurrentLast(ops: seq<Op>) {
    ops != [] ==>
    var n := |ops| - 1;
    !ops[n].LimitVoltage? && (ops[n].LimitCurrent? || CurrentLast(ops[..n]))
  }

  lemma SwitchedStores(cal: Cal, u: Unit, range: Range, operation: Operation)
    requires Tables(cal)
    ensures Switched(cal, u, range, operation).setLimit == u.setLimit
  {
  }

  lemma DoStores(cal: Cal, u: Unit, op: Op)
    requires Tables(cal)
    ensures Do(cal, u, op).setLimit ==
            match op case LimitCurrent(uA) => uA case LimitVoltage(uV) => uV case _ => u.setLimit
  {
    match op
    case SwitchRange(range, operation) => SwitchedStores(cal, u, range, operation);
    case AutoRange(mA, at) =>
      SwitchedStores(cal, u, MilliAmp10, u.operation);
      var d := AutoDown(cal, u, mA, at);
      SwitchedStores(cal, d, Amp1, d.operation);
    case _ =>
  }

  lemma {:induction false} RunStores(cal: Cal, u: Unit, ops: seq<Op>)
    requires Tables(cal)
    ensures Run(cal, u, ops).setLimit == LastLimit(u.setLimit, ops)
    decreases |ops|
  {
    if ops != [] {
      DoStores(cal, u, ops[0]);
      RunStores(cal, Do(cal, u, ops[0]), ops[1..]);
    }
  }

  lemma {:induction false} LastAppend(n: int, ops: seq<Op>, op: Op)
    ensures LastLimit(n, ops + [op]) == LastLimit(LastLimit(n, ops), [op])
    ensures LastCurrentLimit(n, ops + [op]) == LastCurrentLimit(LastCurrentLimit(n, ops), [op])
    decreases |ops|
  {
    if ops == [] {
      assert ops + [op] == [op];
    } else {
      assert (ops + [op])[1..] == ops[1..] + [op];
      LastAppend(match ops[0] case LimitCurrent(uA) => uA case LimitVoltage(uV) => uV case _ => n, ops[1..], op);
      LastAppend(if ops[0].LimitCurrent? then ops[0].limitAmps else n, ops[1..], op);
    }
  }

  lemma {:induction false} CurrentLastAgrees(n: int, ops: seq<Op>)
    requires CurrentLast(ops)
    ensures LastLimit(n, ops) == LastCurrentLimit(n, ops)
    decreases |ops|
  {
    if ops != [] {
      var k := |ops| - 1;
      assert ops == ops[..k] + [ops[k]];
      LastAppend(n, ops[..k], ops[k]);
      if !ops[k].LimitCurrent? { CurrentLastAgrees(n, ops[..k]); }
    }
  }

  // Whatever happened before, a switch in voltage mode takes the number of the last limit,
  // of either kind, for microamperes. So what it shows is the last current limit exactly
  // when no voltage limit was set since, or the two numbers happen to be the same as far as
  // the converter can tell.
  lemma VoltageLimitMisread(cal: Cal, u: Unit, ops: seq<Op>, range: Range)
    requires Tables(cal)
    ensures var volts, amps := LastLimit(u.setLimit, ops), LastCurrentLimit(u.setLimit, ops);
            var shown := Do(cal, Run(cal, u, ops), SwitchRange(range, SourceVoltage)).limit.a.shown;
            && shown == CurrentLimitSetting(cal, range, volts)
            && (shown == CurrentLimitSetting(cal, range, amps) <==>
                CurrentLast(ops) || SameLimit(cal, range, volts, amps))
  {
    var volts, amps := LastLimit(u.setLimit, ops), LastCurrentLimit(u.setLimit, ops);
    LimitCodes(cal, range, volts, amps);
    RunStores(cal, u, ops);
    SwitchedInStep(cal, Run(cal, u, ops), range);
    if CurrentLast(ops) { CurrentLastAgrees(u.setLimit, ops); }
  }

  function LimitCode(cal: Cal, range: Range, micro: int): nat {
    VoltageToCode(LimitVolts(cal, range, micro), 0.0, 10.0)
  }

  // The same within 0 to 10 mA, or within the converter's range and one code.
  predicate SameLimit(cal: Cal, range: Range, a: int, b: int) {
    match range
    case MilliAmp10 => Clamp(a) == Clamp(b)
    case Amp1 => HighRound(cal, a) == HighRound(cal, b)
  }

  // The code a number comes to in the high range.
  function HighRound(cal: Cal, micro: int): int { Round(HighPlace(cal, micro)) }

  // Where it lies among the codes, by shunt, switch and gain, before it is rounded.
  function HighPlace(cal: Cal, micro: int): real { Cut(26214.3 * LimitVolts(cal, Amp1, micro)) }

  lemma LimitCodes(cal: Cal, range: Range, a: int, b: int)
    ensures LimitCode(cal, range, a) == LimitCode(cal, range, b) <==> SameLimit(cal, range, a, b)
  {
    if range == Amp1 {
      HighLimitCode(cal, a);
      HighLimitCode(cal, b);
    } else {
      LowLimitCodes(cal, a, b);
    }
  }

  function Cut(x: real): real { if x < 0.0 then 0.0 else if x > 262143.0 then 262143.0 else x }

  // In the high range two numbers stand for the same code exactly when they round to one
  // code, scaled and cut; and then they are less than a code apart.
  lemma HighLimitCodes(cal: Cal, a: int, b: int)
    ensures LimitCode(cal, Amp1, a) == LimitCode(cal, Amp1, b) <==> HighRound(cal, a) == HighRound(cal, b)
    ensures Abs(HighPlace(cal, a) - HighPlace(cal, b)) >= 1.0 ==>
              LimitCode(cal, Amp1, a) != LimitCode(cal, Amp1, b)
  {
    HighLimitCode(cal, a);
    HighLimitCode(cal, b);
    RoundApart(HighPlace(cal, a), HighPlace(cal, b));
  }

  lemma HighLimitCode(cal: Cal, n: int)
    ensures LimitCode(cal, Amp1, n) == HighRound(cal, n)
  {
    CodeAt(LimitVolts(cal, Amp1, n));
  }

  lemma CodeAt(v: real)
    ensures VoltageToCode(v, 0.0, 10.0) == Round(Cut(26214.3 * v))
  {
    TenVoltCode(v);
    LimitCut(26214.3 * v);
  }

  lemma LimitCut(x: real)
    ensures Limit(Round(x)) == Round(Cut(x))
  {
    RoundWhole(0);
    RoundWhole(FULL);
    if x < 0.0 {
      RoundRises(x, 0.0);
    } else if x > 262143.0 {
      RoundRises(262143.0, x);
    } else {
      RoundRises(0.0, x);
      RoundRises(x, 262143.0);
    }
  }

  lemma RoundApart(x: real, y: real)
    ensures Abs(x - y) >= 1.0 ==> Round(x) != Round(y)
  {
  }

  function Clamp(micro: int): int { if micro < 0 then 0 else if micro > 10000 then 10000 else micro }

  // In the low range two numbers stand for the same code exactly when they are the same
  // within 0 to 10 mA.
  lemma LowLimitCodes(cal: Cal, a: int, b: int)
    ensures LimitCode(cal, MilliAmp10, a) == LimitCode(cal, MilliAmp10, b) <==> Clamp(a) == Clamp(b)
  {
    LowLimitCode(cal, a);
    LowLimitCode(cal, b);
    if Clamp(a) < Clamp(b) { LimitCodesRise(Clamp(a), Clamp(b)); }
    if Clamp(b) < Clamp(a) { LimitCodesRise(Clamp(b), Clamp(a)); }
  }

  // Codes a microampere apart in the low range.
  function CodeOfMicro(n: int): int { Round(26.2143 * n as real) }

  lemma LowLimitCode(cal: Cal, n: int)
    ensures LimitCode(cal, MilliAmp10, n) == CodeOfMicro(Clamp(n))
  {
    var v := LimitVolts(cal, MilliAmp10, n);
    TenVoltCode(v);
    RoundWhole(0);
    RoundWhole(FULL);
    assert 26.2143 * 0 as real == 0.0;
    if n < 0 {
      RoundRises(26214.3 * v, 0.0);
    } else {
      assert 26214.3 * v == 26.2143 * Clamp(n) as real;
      RoundRises(0.0, 26214.3 * v);
      RoundRises(26214.3 * v, 262143.0);
    }
  }

  lemma TenVoltCode(v: real)
    ensures FloatCode(v, 0.0, 10.0) == 26214.3 * v
  {
  }

  lemma LimitCodesRise(a: int, b: int)
    requires a < b
    ensures CodeOfMicro(a) < CodeOfMicro(b)
  {
    assert 26.2143 * b as real >= 26.2143 * a as real + 26.0;
  }

  // With a limit of 100 mA and then one of 5 V, a switch to voltage mode in the high range
  // puts the limit at the top of the converter, meaning almost 2 A.
  lemma FiveVoltsReadAsAmps(cal: Cal, u: Unit)
    requires Tables(cal) && cal.limit == 1.0
    ensures var w := Run(cal, u, [LimitCurrent(100000), LimitVoltage(5000000)]);
            var v := Do(cal, w, SwitchRange(Amp1, SourceVoltage));
            v.limit.a.shown == Setting(1, FULL) && CurrentLimitSetting(cal, Amp1, 100000) == Setting(1, 13238)
  {
    TwoLimits(u.setLimit);
    VoltageLimitMisread(cal, u, [LimitCurrent(100000), LimitVoltage(5000000)], Amp1);
    HighLimitVolts(cal);
  }

  lemma TwoLimits(n: int)
    ensures LastLimit(n, [LimitCurrent(100000), LimitVoltage(5000000)]) == 5000000
  {
    assert [LimitCurrent(100000), LimitVoltage(5000000)][1..] == [LimitVoltage(5000000)];
  }

  lemma HighLimitVolts(cal: Cal)
    requires cal.limit == 1.0
    ensures CurrentLimitSetting(cal, Amp1, 5000000) == Setting(1, FULL)
    ensures CurrentLimitSetting(cal, Amp1, 100000) == Setting(1, 13238)
  {
    assert LimitVolts(cal, Amp1, 5000000) == 25.25;
    assert LimitVolts(cal, Amp1, 100000) == 0.505;
  }

  // -------------------------------------------------------------- automatic switching

  // The ranges asked for by the readings outside the band between the thresholds.
  function Asked(readings: seq<real>, switchAt: real): (rs: seq<Range>)
    ensures |rs| <= |readings|
  {
    if readings == [] then []
    else
      var n := |readings| - 1;
      Asked(readings[..n], switchAt) +
      (if Abs(readings[n]) < switchAt - 0.5 then [MilliAmp10]
       else if Abs(readings[n]) > switchAt then [Amp1] else [])
  }

  // How often a sequence of ranges changes, from r on.
  function Changes(r: Range, rs: seq<Range>): nat {
    if rs == [] then 0
    else var n := |rs| - 1; Changes(r, rs[..n]) + if rs[n] != Last(r, rs[..n]) then 1 else 0
  }

  function Last(r: Range, rs: seq<Range>): Range { if rs == [] then r else rs[|rs| - 1] }

  function AutoRun(cal: Cal, u: Unit, readings: seq<real>, switchAt: real): Unit
    requires Tables(cal)
  {
    if readings == [] then u
    else
      var n := |readings| - 1;
      Do(cal, AutoRun(cal, u, readings[..n], switchAt), AutoRange(readings[n], switchAt))
  }

  // How often the range is switched on the way, counting both halves of every step.
  function Switches(cal: Cal, u: Unit, readings: seq<real>, switchAt: real): nat
    requires Tables(cal)
  {
    if readings == [] then 0
    else
      var n := |readings| - 1;
      var v := AutoRun(cal, u, readings[..n], switchAt);
      var d := AutoDown(cal, v, readings[n], switchAt);
      Switches(cal, u, readings[..n], switchAt) + (if d.range != v.range then 1 else 0)
      + (if AutoUp(cal, d, readings[n], switchAt).range != d.range then 1 else 0)
  }

  // Over any readings the range is switched exactly as often as the range asked for
  // changes, and the last one asked for is the present one.
  lemma {:induction false} SwitchesAreCrossings(cal: Cal, u: Unit, readings: seq<real>, switchAt: real)
    requires Tables(cal)
    ensures var asked := Asked(readings, switchAt);
            && Switches(cal, u, readings, switchAt) == Changes(u.range, asked)
            && AutoRun(cal, u, readings, switchAt).range == Last(u.range, asked)
    decreases |readings|
  {
    if readings != [] {
      var n := |readings| - 1;
      SwitchesAreCrossings(cal, u, readings[..n], switchAt);
      LastReading(cal, u, readings, switchAt);
      OneMoreAsked(u.range, Asked(readings[..n], switchAt));
    }
  }

  // The range after a reading.
  function Wanted(r: Range, milliAmps: real, switchAt: real): Range {
    if Abs(milliAmps) < switchAt - HYSTERESIS then MilliAmp10 else if Abs(milliAmps) > switchAt then Amp1 else r
  }

  lemma LastReading(cal: Cal, u: Unit, readings: seq<real>, switchAt: real)
    requires Tables(cal) && readings != []
    ensures var n := |readings| - 1;
            var r := AutoRun(cal, u, readings[..n], switchAt).range;
            && AutoRun(cal, u, readings, switchAt).range == Wanted(r, readings[n], switchAt)
            && Switches(cal, u, readings, switchAt) ==
               Switches(cal, u, readings[..n], switchAt) + if Wanted(r, readings[n], switchAt) != r then 1 else 0
  {
    var n := |readings| - 1;
    AutoMoves(cal, AutoRun(cal, u, readings[..n], switchAt), readings[n], switchAt);
  }

  lemma OneMoreAsked(r: Range, asked: seq<Range>)
    ensures asked + [] == asked
    ensures forall next :: Changes(r, asked + [next]) == Changes(r, asked) + if next != Last(r, asked) then 1 else 0
    ensures forall next :: Last(r, asked + [next]) == next
  {
    forall next
      ensures Changes(r, asked + [next]) == Changes(r, asked) + if next != Last(r, asked) then 1 else 0
    {
      assert (asked + [next])[..|asked|] == asked;
    }
  }

  lemma AutoMoves(cal: Cal, u: Unit, milliAmps: real, switchAt: real)
    requires Tables(cal)
    ensures var d := AutoDown(cal, u, milliAmps, switchAt);
            && d.range == (if Abs(milliAmps) < switchAt - HYSTERESIS then MilliAmp10 else u.range)
            && AutoUp(cal, d, milliAmps, switchAt).range == (if Abs(milliAmps) > switchAt then Amp1 else d.range)
  {
  }

  // So readings whose magnitudes stay within the hysteresis of each other switch at most
  // once, wherever the threshold is.
  lemma SteadyReadings(cal: Cal, u: Unit, readings: seq<real>, switchAt: real)
    requires Tables(cal)
    requires forall i, j :: 0 <= i < |readings| && 0 <= j < |readings| ==>
               Abs(readings[i]) - Abs(readings[j]) <= 0.5
    ensures Switches(cal, u, readings, switchAt) <= 1
  {
    SwitchesAreCrossings(cal, u, readings, switchAt);
    var asked := Asked(readings, switchAt);
    forall i, j | 0 <= i < |asked| && 0 <= j < |asked| ensures asked[i] == asked[j] {
      var k := AskedBy(readings, switchAt, i);
      var m := AskedBy(readings, switchAt, j);
      assert Abs(readings[k]) - Abs(readings[m]) <= HYSTERESIS;
      assert Abs(readings[m]) - Abs(readings[k]) <= HYSTERESIS;
    }
    ChangesOnce(u.range, asked);
  }

  // The reading that asked.
  lemma {:induction false} AskedBy(readings: seq<real>, switchAt: real, i: nat) returns (k: nat)
    requires i < |Asked(readings, switchAt)|
    ensures k < |readings|
    ensures if Asked(readings, switchAt)[i] == MilliAmp10 then Abs(readings[k]) < switchAt - HYSTERESIS
            else Abs(readings[k]) > switchAt
    decreases |readings|
  {
    var n := |readings| - 1;
    if i < |Asked(readings[..n], switchAt)| {
      k := AskedBy(readings[..n], switchAt, i);
    } else {
      k := n;
    }
  }

  lemma {:induction false} ChangesOnce(r: Range, rs: seq<Range>)
    requires forall i, j :: 0 <= i < |rs| && 0 <= j < |rs| ==> rs[i] == rs[j]
    ensures Changes(r, rs) == if rs == [] || rs[0] == r then 0 else 1
    decreases |rs|
  {
    if rs != [] { ChangesOnce(r, rs[..|rs| - 1]); }
  }

  // --------------------------------------------------------------- initialisation

  // The span is sent without the shift the device needs: not the bipolar ten volts meant
  // but span 0, zero to five volts, is what both channels get. Channel B goes on showing
  // what it did.
  lemma InitShows(chip: Chip, code: nat)
    requires code <= FULL
    ensures SpanIn(Frame(WRITE_SPAN_DAC, DAC_ALL, 3)) == 0
    ensures var c := Receive(Receive(chip, Frame(WRITE_SPAN_DAC, DAC_ALL, 3)),
                             Frame(WRITE_CODE_UPDATE_DAC, DAC_A, code));
            c.a.shown == Setting(0, code) && c.b == Channel(chip.b.buffer.(span := 0), chip.b.shown)
  {
    CodeArrives(WRITE_CODE_UPDATE_DAC, DAC_A, code);
  }

  // -------------------------------------------------------------------- the object

  class MeasureUnit {
    var operation: Operation
    var setValue: int
    var setLimit: int
    var range: Range
    var relay: Range
    var dacLow: real
    var dacHigh: real
    const source: Device
    const limit: Device

    ghost predicate Valid() { source != limit }

    ghost function View(): Unit
      reads this, source, limit
    {
      Unit(operation, setValue, setLimit, range, relay, source.chip, limit.chip)
    }

    // The operation is set by the first commit; the converters start in any state.
    constructor (op: Operation, sourceChip: Chip, limitChip: Chip)
      ensures Valid() && fresh(source) && fresh(limit)
      ensures View() == Unit(op, 0, 0, Amp1, Amp1, sourceChip, limitChip)
    {
      operation, setValue, setLimit, range, relay := op, 0, 0, Amp1, Amp1;
      dacLow, dacHigh := 0.0, 0.0;
      source := new Device(sourceChip);
      limit := new Device(limitChip);
    }

    // The source starts at zero volts; had the span arrived, it would be at minus ten.
    method InitDac()
      requires Valid()
      modifies source, limit
      ensures source.chip.a.shown == Setting(0, 0) && limit.chip.a.shown == Setting(0, 0x6666)
      ensures Volts(source.chip.a.shown) == 0.0 && Volts(Setting(3, 0)) == -10.0
      ensures 0.499 < Volts(limit.chip.a.shown) < 0.5
      ensures source.chip.b == Channel(old(source.chip).b.buffer.(span := 0), old(source.chip).b.shown)
      ensures limit.chip.b == Channel(old(limit.chip).b.buffer.(span := 0), old(limit.chip).b.shown)
    {
      source.Write(WRITE_SPAN_DAC, DAC_ALL, 3);
      source.Write(WRITE_CODE_UPDATE_DAC, DAC_A, 0);
      limit.Write(WRITE_SPAN_DAC, DAC_ALL, 3);
      limit.Write(WRITE_CODE_UPDATE_DAC, DAC_A, 0x6666);
      InitShows(old(source.chip), 0);
      InitShows(old(limit.chip), 0x6666);
    }

    static method Send(dac: Device, span: nat, code: nat)
      requires span <= 4 && code <= FULL
      modifies dac
      ensures dac.chip == Committed(old(dac.chip), Setting(span, code))
    {
      dac.Write(WRITE_SPAN_DAC, DAC_A, span * 4);
      dac.Write(WRITE_CODE_UPDATE_DAC, DAC_A, code);
    }

    method SetCommitVoltageSource(cal: Cal, microVolts: int, dynamicRange: bool)
      requires Valid() && Tables(cal)
      modifies this, source
      ensures View() == Do(cal, old(View()), SetVoltage(microVolts, dynamicRange))
      ensures source.chip.a.shown.span <= 4
      ensures Unity(cal.voltage) && -10000000 <= microVolts <= 10000000 ==>
                Abs(Volts(source.chip.a.shown) + microVolts as real / 1000000.0) <= 10.0 / 262143.0
      ensures dacLow == Low(source.chip.a.shown.span) && dacHigh == High(source.chip.a.shown.span)
    {
      operation := SourceVoltage;
      setValue := microVolts;
      var v := VoltageVolts(cal, microVolts);
      var choice := ChooseSpan(v, dynamicRange);
      Send(source, choice, VoltageToCode(-v, dacLow, dacHigh));
      CommitShows(old(source.chip), VoltageSetting(cal, microVolts, dynamicRange));
      ShownAsAsked(cal, microVolts, dynamicRange, source.chip.a.shown);
    }

    method ChooseSpan(v: real, dynamicRange: bool) returns (choice: nat)
      modifies `dacLow, `dacHigh
      ensures choice == VoltageSpan(v, dynamicRange) && dacLow == Low(choice) && dacHigh == High(choice)
    {
      choice := 3;
      dacLow, dacHigh := -10.0, 10.0;
      if dynamicRange {
        if Abs(v) <= 2.3 {
          choice := 4;
          dacLow, dacHigh := -2.5, 2.5;
        } else if Abs(v) <= 4.6 {
          choice := 2;
          dacLow, dacHigh := -5.0, 5.0;
        }
      }
    }

    method SetCommitCurrentSource(cal: Cal, microAmps: int)
      requires Valid() && Tables(cal)
      modifies `operation, `setValue, source
      ensures View() == CommitCurrent(cal, old(View()), microAmps)
    {
      operation := SourceCurrent;
      setValue := microAmps;
      var v := -CurrentVolts(cal, range, microAmps);
      var choice, low, high := 3, -10.0, 10.0;
      if Abs(v) < 2.2 {
        choice, low, high := 4, -2.5, 2.5;
      }
      Send(source, choice, VoltageToCode(v, low, high));
    }

    method SetCommitVoltageLimit(microVolts: int)
      requires Valid()
      modifies `setLimit, limit
      ensures View() == old(View()).(setLimit := microVolts,
                                     limit := Committed(old(limit.chip), VoltageLimitSetting(microVolts)))
    {
      setLimit := microVolts;
      var milli := microVolts as real / 1000.0;
      Send(limit, 1, VoltageToCode(milli / 1000.0, 0.0, 10.0));
    }

    method SetCommitCurrentLimit(cal: Cal, microAmps: int)
      requires Valid()
      modifies `setLimit, limit
      ensures View() == CommitLimit(cal, old(View()), microAmps)
    {
      setLimit := microAmps;
      var v := LimitOutput(cal, range, microAmps);
      Send(limit, 1, VoltageToCode(v, 0.0, 10.0));
    }

    static method LimitOutput(cal: Cal, range: Range, microAmps: int) returns (v: real)
      ensures v == LimitVolts(cal, range, microAmps)
    {
      if range == MilliAmp10 {
        v := microAmps as real / 1000.0;
        if v > 10.0 {
          v := 10.0;
        }
      } else {
        v := microAmps as real / 1000.0 / 1000.0;
        v := 10.0 * v * (SHUNT_1A + MOSFET_SWITCH);
        v := v * cal.limit;
      }
    }

    method SetCurrentRange(cal: Cal, newRange: Range, op: Operation)
      requires Valid() && Tables(cal)
      modifies this, source, limit
      ensures View() == Switched(cal, old(View()), newRange, op)
      ensures dacLow == old(dacLow) && dacHigh == old(dacHigh)
    {
      range := newRange;
      if newRange == Amp1 {
        relay := Amp1;
        Retransmit(cal, op);
      } else {
        Retransmit(cal, op);
        relay := MilliAmp10;
      }
    }

    method Retransmit(cal: Cal, op: Operation)
      requires Valid() && Tables(cal)
      modifies `operation, `setValue, `setLimit, source, limit
      ensures View() == Resend(cal, old(View()), op)
    {
      if op == SourceVoltage {
        SetCommitCurrentLimit(cal, setLimit);
      } else {
        SetCommitCurrentSource(cal, setValue);
      }
    }

    // Called with the latest reading when automatic ranging is on and no calibration runs.
    method HandleAutoCurrentRange(cal: Cal, milliAmps: real, switchAt: real)
      requires Valid() && Tables(cal)
      modifies this, source, limit
      ensures View() == Do(cal, old(View()), AutoRange(milliAmps, switchAt))
    {
      if range == Amp1 && Abs(milliAmps) < switchAt - HYSTERESIS {
        SetCurrentRange(cal, MilliAmp10, operation);
        if operation == SourceVoltage {
          SetCommitCurrentLimit(cal, setLimit);
        }
      }
      assert View() == AutoDown(cal, old(View()), milliAmps, switchAt);
      if range == MilliAmp10 && Abs(milliAmps) > switchAt {
        SetCurrentRange(cal, Amp1, operation);
        if operation == SourceVoltage {
          SetCommitCurrentLimit(cal, setLimit);
        }
      }
    }
  }
}
