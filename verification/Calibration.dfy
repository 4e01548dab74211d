// Nonlinear calibration: a reading is moved by the correction interpolated between the
// two calibration points around it.
module Calibration {
  import opened Reals

  // The values aimed at and the values measured there; floats are reals here.
  datatype Table = Table(aim: seq<real>, meas: seq<real>)

  predicate Points(t: Table) { |t.aim| == |t.meas| }

  // The segment a reading is in: open below, closed above.
  predicate InSegment(t: Table, v: real, i: nat)
    requires i + 1 < |t.aim|
  {
    t.aim[i] < v <= t.aim[i + 1]
  }

  function Moved(t: Table, v: real, i: nat): real
    requires Points(t) && i + 1 < |t.aim| && InSegment(t, v, i)
  {
    var low := t.aim[i] - t.meas[i];
    var high := t.aim[i + 1] - t.meas[i + 1];
    v + (low + (high - low) * ((v - t.aim[i]) / (t.aim[i + 1] - t.aim[i])))
  }

  function CompensateFrom(t: Table, v: real, i: nat): real
    requires Points(t)
    decreases |t.aim| - i
  {
    if i + 1 >= |t.aim| then v
    else if InSegment(t, v, i) then Moved(t, v, i)
    else CompensateFrom(t, v, i + 1)
  }

  function Compensate(t: Table, v: real): real
    requires Points(t)
  {
    CompensateFrom(t, v, 0)
  }

  // The search loop, the same in both directions.
  method DacNonlinearCompensation(t: Table, milliVolt: real) returns (v: real)
    requires Points(t)
    ensures v == Compensate(t, milliVolt)
  {
    v := milliVolt;
    var i := 0;
    while i < |t.aim| - 1
      invariant 0 <= i && v == milliVolt
      invariant CompensateFrom(t, milliVolt, i) == Compensate(t, milliVolt)
    {
      if v > t.aim[i] && v <= t.aim[i + 1] {
        var low := t.aim[i] - t.meas[i];
        var high := t.aim[i + 1] - t.meas[i + 1];
        var range := t.aim[i + 1] - t.aim[i];
        var partWithinRange := (v - t.aim[i]) / range;
        var adjust := low + (high - low) * partWithinRange;
        return v + adjust;
      }
      i := i + 1;
    }
  }

  method AdcNonlinearCompensation(useCalibratedValues: bool, t: Table, milliVolt: real) returns (v: real)
    requires Points(t)
    ensures v == if useCalibratedValues then Compensate(t, milliVolt) else milliVolt
  {
    if !useCalibratedValues {
      return milliVolt;
    }
    v := DacNonlinearCompensation(t, milliVolt);
  }

  // ------------------------------------------------------ the piecewise-linear map

  predicate Increasing(t: Table) {
    Points(t) && forall i, j :: 0 <= i < j < |t.aim| ==> t.aim[i] < t.aim[j]
  }

  // Where a calibration point is sent.
  function Knot(t: Table, i: nat): real
    requires Points(t) && i < |t.aim|
  {
    2.0 * t.aim[i] - t.meas[i]
  }

  predicate Inside(t: Table, v: real) { |t.aim| >= 2 && t.aim[0] < v <= t.aim[|t.aim| - 1] }

  // The straight line from a to b, a part of the way along.
  function Along(a: real, b: real, part: real): real { a + (b - a) * part }

  function Part(t: Table, v: real, i: nat): (p: real)
    requires i + 1 < |t.aim| && InSegment(t, v, i)
    ensures 0.0 < p <= 1.0
  {
    PartIsPart(v - t.aim[i], t.aim[i + 1] - t.aim[i]);
    (v - t.aim[i]) / (t.aim[i + 1] - t.aim[i])
  }

  lemma PartIsPart(x: real, y: real)
    requires 0.0 < x <= y
    ensures 0.0 < x / y <= 1.0
  {
  }

  // A reading inside the table is in exactly one segment.
  lemma {:induction false} Located(t: Table, v: real, n: nat) returns (i: nat)
    requires Increasing(t) && 2 <= n <= |t.aim| && t.aim[0] < v <= t.aim[n - 1]
    ensures i + 1 < n && InSegment(t, v, i)
  {
    if v > t.aim[n - 2] {
      i := n - 2;
    } else {
      i := Located(t, v, n - 1);
    }
  }

  lemma SegmentsInOrder(t: Table, v: real, w: real, i: nat, j: nat)
    requires Increasing(t) && i + 1 < |t.aim| && j + 1 < |t.aim| && InSegment(t, v, i) && InSegment(t, w, j) && v <= w
    ensures i <= j
  {
  }

  lemma {:induction false} FoundFrom(t: Table, v: real, i: nat, k: nat)
    requires Increasing(t) && i + 1 < |t.aim| && InSegment(t, v, i) && k <= i
    ensures CompensateFrom(t, v, k) == Moved(t, v, i)
    decreases i - k
  {
    if k < i {
      if InSegment(t, v, k) { SegmentsInOrder(t, v, v, i, k); }
      FoundFrom(t, v, i, k + 1);
    }
  }

  // Inside the table the map is the polyline through the points (aim, 2 aim - meas).
  lemma Interpolates(t: Table, v: real, i: nat)
    requires Increasing(t) && i + 1 < |t.aim| && InSegment(t, v, i)
    ensures Compensate(t, v) == Along(Knot(t, i), Knot(t, i + 1), Part(t, v, i))
  {
    FoundFrom(t, v, i, 0);
    var range, part := t.aim[i + 1] - t.aim[i], Part(t, v, i);
    QuotientTimes(v - t.aim[i], range);
    var low, high := t.aim[i] - t.meas[i], t.aim[i + 1] - t.meas[i + 1];
    Spread(part, range, high - low);
    assert Knot(t, i + 1) - Knot(t, i) == range + (high - low);
  }

  // At the points themselves, the first one apart, it has their values.
  lemma AtKnot(t: Table, i: nat)
    requires Increasing(t) && 0 < i < |t.aim|
    ensures Compensate(t, t.aim[i]) == Knot(t, i)
  {
    assert InSegment(t, t.aim[i], i - 1);
    Interpolates(t, t.aim[i], i - 1);
    SelfQuotient(t.aim[i] - t.aim[i - 1]);
    assert Part(t, t.aim[i], i - 1) == 1.0;
  }

  // Outside the table, and at its first point, nothing is changed.
  lemma {:induction false} IdentityOutside(t: Table, v: real)
    requires Increasing(t) && !Inside(t, v)
    ensures Compensate(t, v) == v
  {
    IdentityFrom(t, v, 0);
  }

  lemma {:induction false} IdentityFrom(t: Table, v: real, k: nat)
    requires Increasing(t) && !Inside(t, v)
    ensures CompensateFrom(t, v, k) == v
    decreases |t.aim| - k
  {
    if k + 1 < |t.aim| {
      assert t.aim[0] <= t.aim[k] && t.aim[k + 1] <= t.aim[|t.aim| - 1];
      IdentityFrom(t, v, k + 1);
    }
  }

  // ------------------------------------------------------------------------ bound

  lemma AlongBetween(a: real, b: real, part: real)
    requires 0.0 <= part <= 1.0
    ensures a <= b ==> a <= Along(a, b, part) <= b
    ensures b <= a ==> b <= Along(a, b, part) <= a
  {
    if a <= b {
      AlongRises(a, b, 0.0, part);
      AlongRises(a, b, part, 1.0);
    }
    if b <= a {
      AlongRises(b, a, 0.0, 1.0 - part);
      AlongRises(b, a, 1.0 - part, 1.0);
      AlongBack(a, b, part);
    }
  }

  lemma AlongBack(a: real, b: real, part: real)
    ensures Along(b, a, 1.0 - part) == Along(a, b, part)
  {
    Spread(a - b, 1.0, part);
  }

  lemma AlongRises(a: real, b: real, p: real, q: real)
    requires a <= b && p <= q
    ensures Along(a, b, p) <= Along(a, b, q)
  {
    Product(b - a, q - p);
    Spread(b - a, q, p);
  }

  // No reading is moved by more than the worst calibration error.
  lemma NeverFar(t: Table, v: real, worst: real)
    requires Increasing(t) && worst >= 0.0
    requires forall i :: 0 <= i < |t.aim| ==> Abs(t.aim[i] - t.meas[i]) <= worst
    ensures Abs(Compensate(t, v) - v) <= worst
  {
    if Inside(t, v) {
      var i := Located(t, v, |t.aim|);
      FoundFrom(t, v, i, 0);
      MovedAlong(t, v, i);
      AlongWithin(t.aim[i] - t.meas[i], t.aim[i + 1] - t.meas[i + 1], Part(t, v, i), worst);
    } else {
      IdentityOutside(t, v);
    }
  }

  lemma MovedAlong(t: Table, v: real, i: nat)
    requires Points(t) && i + 1 < |t.aim| && InSegment(t, v, i)
    ensures Moved(t, v, i) - v == Along(t.aim[i] - t.meas[i], t.aim[i + 1] - t.meas[i + 1], Part(t, v, i))
  {
  }

  lemma AlongWithin(a: real, b: real, part: real, worst: real)
    requires 0.0 <= part <= 1.0 && Abs(a) <= worst && Abs(b) <= worst
    ensures Abs(Along(a, b, part)) <= worst
  {
    AlongBetween(a, b, part);
  }

  // ----------------------------------------------------------------- monotonicity

  predicate KnotsRise(t: Table)
    requires Points(t)
  {
    forall i :: 0 <= i < |t.aim| - 1 ==> Knot(t, i) <= Knot(t, i + 1)
  }

  lemma {:induction false} KnotsOrdered(t: Table, i: nat, j: nat)
    requires Points(t) && KnotsRise(t) && i <= j < |t.aim|
    ensures Knot(t, i) <= Knot(t, j)
    decreases j - i
  {
    if i < j { KnotsOrdered(t, i, j - 1); }
  }

  lemma PartRises(t: Table, v: real, w: real, i: nat)
    requires i + 1 < |t.aim| && InSegment(t, v, i) && InSegment(t, w, i) && v <= w
    ensures Part(t, v, i) <= Part(t, w, i)
  {
    QuotientRises(v - t.aim[i], w - t.aim[i], t.aim[i + 1] - t.aim[i]);
  }

  lemma OrderKept(t: Table, v: real, w: real)
    requires Increasing(t) && KnotsRise(t) && Inside(t, v) && Inside(t, w) && v <= w
    ensures Compensate(t, v) <= Compensate(t, w)
  {
    var i := Located(t, v, |t.aim|);
    var j := Located(t, w, |t.aim|);
    Interpolates(t, v, i);
    Interpolates(t, w, j);
    if i == j {
      PartRises(t, v, w, i);
      AlongRises(Knot(t, i), Knot(t, i + 1), Part(t, v, i), Part(t, w, i));
    } else {
      SegmentsInOrder(t, v, w, i, j);
      AlongBetween(Knot(t, i), Knot(t, i + 1), Part(t, v, i));
      AlongBetween(Knot(t, j), Knot(t, j + 1), Part(t, w, j));
      KnotsOrdered(t, i + 1, j);
    }
  }

  // The map keeps the order of readings inside the table exactly when the knots rise.
  ghost predicate KeepsOrder(t: Table)
    requires Points(t)
  {
    forall v, w :: Inside(t, v) && Inside(t, w) && v <= w ==> Compensate(t, v) <= Compensate(t, w)
  }

  lemma MonotoneExactlyWhenKnotsRise(t: Table)
    requires Increasing(t)
    ensures KeepsOrder(t) <==> KnotsRise(t)
  {
    if KnotsRise(t) {
      forall v, w | Inside(t, v) && Inside(t, w) && v <= w ensures Compensate(t, v) <= Compensate(t, w) {
        OrderKept(t, v, w);
      }
    }
    if KeepsOrder(t) {
      forall i | 0 <= i < |t.aim| - 1 ensures Knot(t, i) <= Knot(t, i + 1) {
        var mid := (t.aim[i] + t.aim[i + 1]) / 2.0;
        assert t.aim[0] <= t.aim[i] && t.aim[i + 1] <= t.aim[|t.aim| - 1];
        assert Inside(t, mid) && Inside(t, t.aim[i + 1]);
        Halfway(t, i, mid);
        AtKnot(t, i + 1);
      }
    }
  }

  lemma Halfway(t: Table, i: nat, mid: real)
    requires Increasing(t) && i + 1 < |t.aim| && mid == (t.aim[i] + t.aim[i + 1]) / 2.0
    ensures Compensate(t, mid) == (Knot(t, i) + Knot(t, i + 1)) / 2.0
  {
    assert InSegment(t, mid, i);
    Interpolates(t, mid, i);
    var range := t.aim[i + 1] - t.aim[i];
    assert mid - t.aim[i] == range / 2.0;
    HalfPart(range);
  }

  lemma HalfPart(range: real)
    requires range > 0.0
    ensures (range / 2.0) / range == 0.5
  {
  }

  // ------------------------------------------------------------------- continuity

  predicate SlopesBelow(t: Table, steep: real)
    requires Points(t)
  {
    forall i :: 0 <= i < |t.aim| - 1 ==> Abs(Knot(t, i + 1) - Knot(t, i)) <= steep * (t.aim[i + 1] - t.aim[i])
  }

  // Inside the table nearby readings stay nearby: no jump at any breakpoint.
  lemma NoJumpInside(t: Table, v: real, w: real, steep: real)
    requires Increasing(t) && SlopesBelow(t, steep) && Inside(t, v) && Inside(t, w) && v <= w
    ensures Abs(Compensate(t, w) - Compensate(t, v)) <= steep * (w - v)
  {
    var i := Located(t, v, |t.aim|);
    var j := Located(t, w, |t.aim|);
    SegmentsInOrder(t, v, w, i, j);
    if i == j {
      SegmentSlope(t, v, w, i, steep);
    } else {
      UpperSlope(t, v, i, steep);
      LowerSlope(t, w, j, steep);
      AcrossSegments(t, v, w, i, j, steep, Compensate(t, v), Compensate(t, w));
    }
  }

  // From a at v up to the end of its segment, over the knots, and on to b at w.
  lemma AcrossSegments(t: Table, v: real, w: real, i: nat, j: nat, steep: real, a: real, b: real)
    requires Increasing(t) && SlopesBelow(t, steep) && i < j && j + 1 < |t.aim|
    requires Abs(Knot(t, i + 1) - a) <= steep * (t.aim[i + 1] - v)
    requires Abs(b - Knot(t, j)) <= steep * (w - t.aim[j])
    ensures Abs(b - a) <= steep * (w - v)
  {
    KnotSlope(t, i + 1, j, steep);
    TwoPieces(a, Knot(t, i + 1), Knot(t, j), steep, v, t.aim[i + 1], t.aim[j]);
    TwoPieces(a, Knot(t, j), b, steep, v, t.aim[j], w);
  }

  // Slopes along two pieces make one along both.
  lemma TwoPieces(a: real, b: real, c: real, steep: real, x: real, y: real, z: real)
    requires Abs(b - a) <= steep * (y - x) && Abs(c - b) <= steep * (z - y)
    ensures Abs(c - a) <= steep * (z - x)
  {
    Spread(steep, y - x, z - y);
    assert (y - x) + (z - y) == z - x;
  }

  lemma Scaled(d: real, step: real, bound: real)
    requires step >= 0.0 && Abs(d) <= bound
    ensures Abs(d * step) <= bound * step
  {
    Product(bound - d, step);
    Product(bound + d, step);
    Spread(step, bound, d);
  }

  // How far two points of a line are apart, part of the way along.
  lemma LineSlope(a: real, b: real, p: real, q: real, range: real, steep: real, dx: real)
    requires p <= q && Abs(b - a) <= steep * range && (q - p) * range == dx
    ensures Abs(Along(a, b, q) - Along(a, b, p)) <= steep * dx
  {
    Spread(b - a, q, p);
    Scaled(b - a, q - p, steep * range);
    Regroup(steep, range, q - p);
  }

  lemma Regroup(x: real, y: real, z: real)
    ensures (x * y) * z == x * (z * y)
  {
  }

  lemma SegmentSlope(t: Table, v: real, w: real, i: nat, steep: real)
    requires Increasing(t) && SlopesBelow(t, steep) && i + 1 < |t.aim|
    requires InSegment(t, v, i) && InSegment(t, w, i) && v <= w
    ensures Abs(Compensate(t, w) - Compensate(t, v)) <= steep * (w - v)
  {
    Interpolates(t, v, i);
    Interpolates(t, w, i);
    PartRises(t, v, w, i);
    var range, p, q := t.aim[i + 1] - t.aim[i], Part(t, v, i), Part(t, w, i);
    PartsApart(t, v, w, i, range, p, q);
    LineSlope(Knot(t, i), Knot(t, i + 1), p, q, range, steep, w - v);
  }

  lemma PartsApart(t: Table, v: real, w: real, i: nat, range: real, p: real, q: real)
    requires i + 1 < |t.aim| && InSegment(t, v, i) && InSegment(t, w, i)
    requires range == t.aim[i + 1] - t.aim[i] && p == Part(t, v, i) && q == Part(t, w, i)
    ensures (q - p) * range == w - v
  {
    QuotientTimes(v - t.aim[i], range);
    QuotientTimes(w - t.aim[i], range);
    Spread(range, q, p);
  }

  lemma LowerSlope(t: Table, w: real, j: nat, steep: real)
    requires Increasing(t) && SlopesBelow(t, steep) && j + 1 < |t.aim| && InSegment(t, w, j)
    ensures Abs(Compensate(t, w) - Knot(t, j)) <= steep * (w - t.aim[j])
  {
    Interpolates(t, w, j);
    PartStart(t, w, j);
    LineFromStart(Knot(t, j), Knot(t, j + 1), Part(t, w, j), steep, t.aim[j], t.aim[j + 1], w);
  }

  lemma UpperSlope(t: Table, v: real, i: nat, steep: real)
    requires Increasing(t) && SlopesBelow(t, steep) && i + 1 < |t.aim| && InSegment(t, v, i)
    ensures Abs(Knot(t, i + 1) - Compensate(t, v)) <= steep * (t.aim[i + 1] - v)
  {
    SegmentSlope(t, v, t.aim[i + 1], i, steep);
    AtKnot(t, i + 1);
  }

  lemma LineFromStart(a: real, b: real, q: real, steep: real, x: real, y: real, w: real)
    requires 0.0 <= q && Abs(b - a) <= steep * (y - x) && q * (y - x) == w - x
    ensures Abs(Along(a, b, q) - a) <= steep * (w - x)
  {
    assert q - 0.0 == q;
    LineSlope(a, b, 0.0, q, y - x, steep, w - x);
    assert Along(a, b, 0.0) == a;
  }

  lemma PartStart(t: Table, w: real, j: nat)
    requires j + 1 < |t.aim| && InSegment(t, w, j)
    ensures Part(t, w, j) * (t.aim[j + 1] - t.aim[j]) == w - t.aim[j]
  {
    QuotientTimes(w - t.aim[j], t.aim[j + 1] - t.aim[j]);
  }

  lemma {:induction false} KnotSlope(t: Table, i: nat, j: nat, steep: real)
    requires Increasing(t) && SlopesBelow(t, steep) && i <= j < |t.aim|
    ensures Abs(Knot(t, j) - Knot(t, i)) <= steep * (t.aim[j] - t.aim[i])
    decreases j - i
  {
    if i < j {
      KnotSlope(t, i, j - 1, steep);
      SlopeTo(t, j, steep);
      TwoPieces(Knot(t, i), Knot(t, j - 1), Knot(t, j), steep, t.aim[i], t.aim[j - 1], t.aim[j]);
    } else {
      Nothing(steep, t.aim[i]);
    }
  }

  lemma Nothing(steep: real, x: real)
    ensures steep * (x - x) == 0.0
  {
  }

  lemma SlopeTo(t: Table, j: nat, steep: real)
    requires Increasing(t) && SlopesBelow(t, steep) && 0 < j < |t.aim|
    ensures Abs(Knot(t, j) - Knot(t, j - 1)) <= steep * (t.aim[j] - t.aim[j - 1])
  {
    var i := j - 1;
    assert Abs(Knot(t, i + 1) - Knot(t, i)) <= steep * (t.aim[i + 1] - t.aim[i]);
  }

  // At the lower end there is a jump as large as the first calibration error: just above
  // the first point the map starts from its knot, at the point it is the identity.
  lemma JumpAtFirst(t: Table, v: real, steep: real)
    requires Increasing(t) && SlopesBelow(t, steep) && |t.aim| >= 2 && InSegment(t, v, 0)
    ensures Compensate(t, t.aim[0]) == t.aim[0]
    ensures Abs(Compensate(t, v) - Compensate(t, t.aim[0]) - (t.aim[0] - t.meas[0])) <= steep * (v - t.aim[0])
  {
    IdentityOutside(t, t.aim[0]);
    LowerSlope(t, v, 0, steep);
  }
}
