/** Score time: a position as (measure, beat, pulse), derived from a running
    total of whole notes under a meter, and the clock that keeps the total. */
module Times {
  import opened Common
  import opened Durations
  import opened Meters

  /** A score position: 1-based measure and beat, and the fraction of the
      beat already elapsed. Compared component-wise. */
  datatype Time = Time(measure: int, beat: int, pulse: real)

  /** `Clock.time`: the total divided by the length of a measure (beats
      over division, in whole notes) gives the measure; the remainder,
      counted in beats, gives the beat and the pulse. A zero division fails
      when the measure length is formed, a zero beat count when the total
      is divided by it. */
  function TimeAt(total: Duration, m: Meter): (r: Result<Time>)
    ensures r.Err? <==> m.beats == 0 || m.division == 0
    ensures r.Err? ==> r.error == ZeroDivision
  {
    if m.division == 0 then Err(ZeroDivision)
    else
      var split :- DivMod(total, m.beats as real / m.division as real);
      Ok(BeatTime(split.0, split.1, m.division))
  }

  /** The position `q` full measures and `rest` whole notes into the score,
      the rest counted in beats of `1/division`: the measure after `q`, the
      1-based beat holding that count and the fraction of it elapsed. */
  function BeatTime(q: int, rest: Duration, division: int): (t: Time)
    ensures t.measure == q + 1
    ensures 0.0 <= t.pulse < 1.0
    ensures rest * division as real == (t.beat - 1) as real + t.pulse
    ensures rest * division as real >= 0.0 ==> t.beat >= 1
  {
    var inner := DivMod(rest * division as real, 1.0).value;
    Time(q + 1, inner.0 + 1, inner.1)
  }

  /** The whole-note offset of a position from the start of the score. */
  function Offset(t: Time, m: Meter): real
    requires m.division != 0
  {
    (t.measure - 1) as real * (m.beats as real / m.division as real)
      + ((t.beat - 1) as real + t.pulse) / m.division as real
  }

  /** A position is in range for a positive meter when the measure is at
      least the first, the beat is one of the measure's beats and the pulse
      is a proper fraction. */
  predicate InRange(t: Time, m: Meter) {
    t.measure >= 1 && 1 <= t.beat <= m.beats && 0.0 <= t.pulse < 1.0
  }

  /** Under a positive meter a non-negative total has an in-range position. */
  lemma TimeBounds(total: Duration, m: Meter)
    requires total >= 0.0 && m.beats > 0 && m.division > 0
    ensures TimeAt(total, m).Ok? && InRange(TimeAt(total, m).value, m)
  {
    var d := m.division as real;
    var len := m.beats as real / d;
    var split := DivMod(total, len).value;
    var q, r := split.0, split.1;
    QuotientNonNegative(total, len, q, r);
    var scaled := r * d;
    ScaleBelow(r, len, d);
    assert len * d == m.beats as real;
    var inner := DivMod(scaled, 1.0).value;
    BeatInRange(scaled, m.beats, inner.0, inner.1);
    assert BeatTime(q, r, m.division) == Time(q + 1, inner.0 + 1, inner.1);
    assert TimeAt(total, m) == Ok(BeatTime(q, r, m.division));
  }

  /** The whole part of a non-negative count of beats below `beats` is
      one of the measure's beat indices. */
  lemma BeatInRange(scaled: real, beats: int, n: int, p: real)
    requires 0.0 <= scaled < beats as real && scaled == n as real * 1.0 + p && 0.0 <= p < 1.0
    ensures 0 <= n < beats
  {
  }

  /** `total = q*len + r` with `0 <= r < len` and a non-negative total
      leaves `q` non-negative. */
  lemma QuotientNonNegative(total: real, len: real, q: int, r: real)
    requires len > 0.0 && total >= 0.0 && total == q as real * len + r && 0.0 <= r < len
    ensures q >= 0
  {
  }

  lemma ScaleBelow(r: real, len: real, d: real)
    requires d > 0.0 && 0.0 <= r < len
    ensures 0.0 <= r * d < len * d
  {
    ScaleOrder(r, d);
    ScaleOrder(len - r, d);
  }

  /** The position gives the total back: full measures, then full beats,
      then the pulse, each converted to whole notes. */
  lemma TimeReconstructs(total: Duration, m: Meter)
    requires TimeAt(total, m).Ok?
    ensures Offset(TimeAt(total, m).value, m) == total
  {
    var d := m.division as real;
    var len := m.beats as real / d;
    var split := DivMod(total, len).value;
    var inner := DivMod(split.1 * d, 1.0).value;
    assert split.1 * d == inner.0 as real + inner.1;
    assert split.1 == (inner.0 as real + inner.1) / d;
  }

  /** An in-range position is the position of its own offset, so the
      position of a total is the only in-range one that reconstructs it. */
  lemma TimeAtOffset(t: Time, m: Meter)
    requires m.beats > 0 && m.division > 0 && InRange(t, m)
    ensures TimeAt(Offset(t, m), m) == Ok(t)
  {
    var d := m.division as real;
    var len := m.beats as real / d;
    var x := (t.beat - 1) as real + t.pulse;
    var r := x / d;
    var total := Offset(t, m);
    RemainderInMeasure(x, m.beats as real, d);
    assert total == (t.measure - 1) as real * len + r;
    DivModUnique(total, len, t.measure - 1, r);
    DivModUnique(x, 1.0, t.beat - 1, t.pulse);
    assert r * d == x;
    TimeFromSplits(total, m, t.measure - 1, r);
    BeatTimeFrom(t.measure - 1, r, m.division, x, t.beat - 1, t.pulse);
  }

  /** `TimeAt` read off the two divisions it performs. */
  lemma TimeFromSplits(total: Duration, m: Meter, q: int, r: real)
    requires m.division != 0
    requires DivMod(total, m.beats as real / m.division as real) == Ok((q, r))
    ensures TimeAt(total, m) == Ok(BeatTime(q, r, m.division))
  {
  }

  lemma BeatTimeFrom(q: int, rest: Duration, division: int, beats: real, b: int, p: real)
    requires rest * division as real == beats
    requires DivMod(beats, 1.0) == Ok((b, p))
    ensures BeatTime(q, rest, division) == Time(q + 1, b + 1, p)
  {
  }

  /** Between 0 and `beats` beats is less than one measure. */
  lemma RemainderInMeasure(x: real, beats: real, d: real)
    requires d > 0.0 && 0.0 <= x < beats
    ensures 0.0 <= x / d < beats / d
    ensures (x / d) * d == x
  {
    RatioBelow(x / d, beats / d, d);
  }

  lemma RatioBelow(r: real, len: real, d: real)
    requires d > 0.0 && r * d >= 0.0 && r * d < len * d
    ensures 0.0 <= r < len
  {
    if r < 0.0 {
      ScaleOrder(-r, d);
    }
    if r >= len {
      ScaleOrder(r - len, d);
    }
  }

  /** The clock: a meter and the running total of the durations ticked so
      far. */
  class Clock {
    var meter: Meter
    var total: Duration

    /** A clock at the start of the score. */
    constructor (meter: Meter)
      ensures this.meter == meter && total == 0.0
    {
      this.meter := meter;
      total := 0.0;
    }

    /** A clock in common time, the default meter. */
    constructor CommonTime()
      ensures meter == Meter(4, 4) && total == 0.0
    {
      meter := Meter(4, 4);
      total := 0.0;
    }

    /** `Clock.time`: fails exactly on a zero beat count or division, and
        otherwise reads a position whose offset is the running total. */
    function Now(): (r: Result<Time>)
      reads this
      ensures r.Err? <==> meter.beats == 0 || meter.division == 0
      ensures r.Ok? ==> Offset(r.value, meter) == total
    {
      var r := TimeAt(total, meter);
      if r.Ok? then TimeReconstructs(total, meter); r else r
    }

    /** `tick`: advances the total by `d`, keeps the meter, and returns the
      new position. */
    method Tick(d: Duration) returns (t: Result<Time>)
      modifies this
      ensures meter == old(meter) && total == old(total) + d
      ensures t == TimeAt(total, meter)
    {
      total := total + d;
      t := Now();
    }
  }

  /** An in-range position is what the clock reads at its offset. */
  lemma Reads(t: Time, m: Meter, total: Duration)
    requires m.beats > 0 && m.division > 0 && InRange(t, m) && Offset(t, m) == total
    ensures TimeAt(total, m) == Ok(t)
  {
    TimeAtOffset(t, m);
  }

  /** A clock in 4/4 ticked by a whole, a half, a quarter, an eighth, a
      sixteenth and an eighth reads these positions after each tick. */
  method FourFourScenario() returns (times: seq<Result<Time>>)
    ensures times == [Ok(Time(1, 1, 0.0)), Ok(Time(2, 1, 0.0)), Ok(Time(2, 3, 0.0)),
                      Ok(Time(2, 4, 0.0)), Ok(Time(2, 4, 0.5)), Ok(Time(2, 4, 0.75)),
                      Ok(Time(3, 1, 0.25))]
  {
    var m := Meter(4, 4);
    FourFourEarlyReadings();
    FourFourLateReadings();
    var clock := new Clock(m);
    times := [clock.Now()];
    var t := clock.Tick(Whole);
    times := times + [t];
    t := clock.Tick(Half);
    times := times + [t];
    t := clock.Tick(Quarter);
    times := times + [t];
    t := clock.Tick(Eighth);
    times := times + [t];
    t := clock.Tick(Sixteenth);
    times := times + [t];
    t := clock.Tick(Eighth);
    times := times + [t];
  }

  lemma FourFourEarlyReadings()
    ensures TimeAt(0.0, Meter(4, 4)) == Ok(Time(1, 1, 0.0))
    ensures TimeAt(1.0, Meter(4, 4)) == Ok(Time(2, 1, 0.0))
    ensures TimeAt(1.5, Meter(4, 4)) == Ok(Time(2, 3, 0.0))
  {
    Reads(Time(1, 1, 0.0), Meter(4, 4), 0.0);
    Reads(Time(2, 1, 0.0), Meter(4, 4), 1.0);
    Reads(Time(2, 3, 0.0), Meter(4, 4), 1.5);
  }

  lemma FourFourLateReadings()
    ensures TimeAt(1.75, Meter(4, 4)) == Ok(Time(2, 4, 0.0))
    ensures TimeAt(1.875, Meter(4, 4)) == Ok(Time(2, 4, 0.5))
    ensures TimeAt(1.9375, Meter(4, 4)) == Ok(Time(2, 4, 0.75))
    ensures TimeAt(2.0625, Meter(4, 4)) == Ok(Time(3, 1, 0.25))
  {
    Reads(Time(2, 4, 0.0), Meter(4, 4), 1.75);
    Reads(Time(2, 4, 0.5), Meter(4, 4), 1.875);
    Reads(Time(2, 4, 0.75), Meter(4, 4), 1.9375);
    Reads(Time(3, 1, 0.25), Meter(4, 4), 2.0625);
  }

  /** The same for a clock in 6/8 ticked by a dotted whole, a whole, a
      half, a quarter, an eighth, a sixteenth and an eighth. */
  method SixEightScenario() returns (times: seq<Result<Time>>)
    ensures times == [Ok(Time(1, 1, 0.0)), Ok(Time(3, 1, 0.0)), Ok(Time(4, 3, 0.0)),
                      Ok(Time(5, 1, 0.0)), Ok(Time(5, 3, 0.0)), Ok(Time(5, 4, 0.0)),
                      Ok(Time(5, 4, 0.5)), Ok(Time(5, 5, 0.5))]
  {
    var m := Meter(6, 8);
    var clock := new Clock(m);
    Reads(Time(1, 1, 0.0), m, 0.0);
    times := [clock.Now()];
    var t := clock.Tick(Whole + Half);
    Reads(Time(3, 1, 0.0), m, 1.5);
    times := times + [t];
    t := clock.Tick(Whole);
    Reads(Time(4, 3, 0.0), m, 2.5);
    times := times + [t];
    t := clock.Tick(Half);
    Reads(Time(5, 1, 0.0), m, 3.0);
    times := times + [t];
    t := clock.Tick(Quarter);
    Reads(Time(5, 3, 0.0), m, 3.25);
    times := times + [t];
    t := clock.Tick(Eighth);
    Reads(Time(5, 4, 0.0), m, 3.375);
    times := times + [t];
    t := clock.Tick(Sixteenth);
    Reads(Time(5, 4, 0.5), m, 3.4375);
    times := times + [t];
    t := clock.Tick(Eighth);
    Reads(Time(5, 5, 0.5), m, 3.5625);
    times := times + [t];
  }
}
