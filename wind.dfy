/** The wind gauge: once a second `WindRead` takes the anemometer's edge
    count, stores the resulting speed in a ten-minute ring buffer of
    one-second samples, derives the gust (the window's maximum) and the
    average (its rounded mean), and maps the vane's ADC reading to a
    compass direction. */
module Wind {
  import opened CInt

  /** `WIND_SAMPLE_PER`: one sample per second. */
  const SAMPLE_PER: u32 := 1000
  /** `WIND_GUST_PER`, 10 * 60000 / `WIND_SAMPLE_PER`: ten minutes of
      one-second samples. */
  const GUST_PER: nat := 600

  /** `tagCalData`: the vane's ADC readings at north going round, at north
      coming back, and an offset in degrees; all `int`. */
  datatype WindCal = WindCal(dirMin: int, dirMax: int, dirOffs: int)

  /** `WindCal = {70, 660, 0}`. */
  const DEFAULT_CAL := WindCal(70, 660, 0)

  /** The direction formula is defined for this calibration: the fields
      fit an `int`, their difference does too (no signed overflow) and it
      is not zero. */
  predicate DirDefined(cal: WindCal) {
    && InI16(cal.dirMin) && InI16(cal.dirMax) && InI16(cal.dirOffs)
    && InI16(cal.dirMax - cal.dirMin) && cal.dirMax != cal.dirMin
  }

  /** `WindDir`: the ADC reading less `WDir_min` as a 16-bit `unsigned
      int`, scaled to degrees in `long`, divided by the span, offset, and
      reduced with C's `%`. */
  function Direction(adc: u16, cal: WindCal): (d: int)
    requires DirDefined(cal)
    ensures -360 < d < 360
  {
    var span := Wrap16(adc as int - cal.dirMin);
    var scaled := TDiv(span as int * 360, cal.dirMax - cal.dirMin);
    TRem(scaled + cal.dirOffs, 360)
  }

  /** The largest sample, 0 for none. */
  function Max(s: seq<u8>): (m: int)
    ensures 0 <= m < 256
    ensures forall i :: 0 <= i < |s| ==> s[i] as int <= m
    ensures |s| > 0 ==> exists i :: 0 <= i < |s| && s[i] as int == m
    ensures |s| == 0 ==> m == 0
  {
    if |s| == 0 then 0
    else
      var m := Max(s[..|s| - 1]);
      if s[|s| - 1] as int > m then s[|s| - 1] as int else m
  }

  function Sum(s: seq<u8>): (r: int)
    ensures 0 <= r <= 255 * |s|
  {
    if |s| == 0 then 0 else Sum(s[..|s| - 1]) + s[|s| - 1] as int
  }

  /** `sum / WIND_GUST_PER + 0.5`, truncated to `unsigned char`. */
  function RoundedMean(sum: int): int
    requires sum >= 0
  {
    (sum + GUST_PER / 2) / GUST_PER
  }

  /** The last ten minutes of samples, oldest first; before ten minutes
      have passed, the zeros the buffer started with fill the front. */
  function Window(history: seq<u8>): (w: seq<u8>)
    ensures |w| == GUST_PER
  {
    var padded := seq(GUST_PER, _ => 0 as u8) + history;
    padded[|padded| - GUST_PER..]
  }

  /** What one call of `WindRead` reports about the sample it took: the
      edge count, and the length of the period it covers in ms. */
  datatype Gate = Skipped | Sampled(count: u16, period: u32)

  /** `WIND_SAMPLE_PER + (t_now - t_next)` on `unsigned long`: the time
      since the previous gate opened, when `t_next` was set one period
      after it. */
  function Period(now: u32, tNext: u32): u32 {
    Wrap32(SAMPLE_PER as int + Elapsed(now, tNext) as int)
  }

  /** The gate of `WindRead` as written, `!(millis() < t_next)`: a
      comparison of raw counter values. */
  predicate GateAsWritten(now: u32, tNext: u32) {
    now >= tNext
  }

  /** The gate as intended: open once the counter has reached `t_next`,
      judged by the difference `now - t_next` read as a signed `long`, so
      that it holds across a wrap of `millis()`.  The model's `Read` uses
      this gate. */
  predicate Due(now: u32, tNext: u32) {
    Elapsed(now, tNext) < 0x8000_0000
  }

  class WindGauge {
    /** `Wind_Gust`. */
    const slots: array<u8>
    /** `GustNdx`: the slot the next sample goes to. */
    var gustNdx: u16
    /** `t_next`. */
    var tNext: u32
    /** `WindCnt`, counted up by the pin-change interrupt. */
    var windCnt: u16
    var spdMph: u8
    var gustMph: u8
    var avgMph: u8
    var windDir: int
    var cal: WindCal
    /** Every speed stored so far, oldest first. */
    ghost var history: seq<u8>

    /** The ring holds the window: read from `gustNdx` round to just
        before it, the slots are the last ten minutes, oldest first. */
    ghost predicate Valid()
      reads this`gustNdx, this`history, slots
    {
      && slots.Length == GUST_PER
      && gustNdx as int < GUST_PER
      && gustNdx as int == |history| % GUST_PER
      && slots[gustNdx..] + slots[..gustNdx] == Window(history)
    }

    /** Program start: all statics and globals zero, the calibration as
        given. */
    constructor (cal: WindCal)
      ensures Valid() && fresh(slots)
      ensures history == [] && slots[..] == seq(GUST_PER, _ => 0)
      ensures gustNdx == 0 && tNext == 0 && windCnt == 0
      ensures spdMph == 0 && gustMph == 0 && avgMph == 0 && windDir == 0
      ensures this.cal == cal
    {
      slots := new u8[GUST_PER](_ => 0);
      gustNdx, tNext, windCnt := 0, 0, 0;
      spdMph, gustMph, avgMph, windDir := 0, 0, 0, 0;
      this.cal := cal;
      history := [];
      new;
      assert slots[..] == seq(GUST_PER, _ => 0 as u8);
      assert slots[gustNdx..] + slots[..gustNdx] == slots[..];
    }

    /** `Wind_Gust[GustNdx] = WindSpdMPH` and the wrapping advance of
        `GustNdx`: the new sample replaces the oldest one in the window. */
    method Store(spd: u8)
      requires Valid()
      modifies this`gustNdx, this`history, slots
      ensures Valid()
      ensures slots[..] == old(slots[..])[old(gustNdx) as int := spd]
      ensures gustNdx as int == (old(gustNdx) as int + 1) % GUST_PER
      ensures history == old(history) + [spd]
    {
      ghost var before := slots[..];
      slots[gustNdx] := spd;
      RingStore(before, gustNdx as int, spd);
      WindowShift(history, spd);
      gustNdx := (gustNdx + 1) % GUST_PER as u16;
      history := history + [spd];
      assert slots[..][gustNdx..] + slots[..][..gustNdx] == Window(history);
    }

    /** The loop over all 600 slots: their sum and their maximum. */
    method Scan() returns (sum: int, peak: u8)
      requires Valid()
      ensures sum == Sum(slots[..]) && peak as int == Max(slots[..])
    {
      sum, peak := 0, 0;
      for i := 0 to GUST_PER
        invariant sum == Sum(slots[..i])
        invariant peak as int == Max(slots[..i])
      {
        assert slots[..i + 1] == slots[..i] + [slots[i]];
        sum := sum + slots[i] as int;
        if slots[i] > peak {
          peak := slots[i];
        }
      }
      assert slots[..GUST_PER] == slots[..];
    }

    /** The pin-change interrupt: one more edge of the anemometer, counted
        in a 16-bit `unsigned short`. */
    method Pulse()
      modifies this`windCnt
      ensures windCnt == Wrap16(old(windCnt) as int + 1)
    {
      windCnt := Wrap16(windCnt as int + 1);
    }

    /** The body of `WindRead` past its gate: take and clear the edge
        count, measure the period since the previous gate time plus one
        second, and set the next gate one second on. */
    method Open(now: u32) returns (sample: Gate)
      modifies this`windCnt, this`tNext
      ensures sample == Sampled(old(windCnt), Period(now, old(tNext)))
      ensures windCnt == 0 && tNext == Wrap32(now as int + SAMPLE_PER as int)
    {
      var windCount := windCnt;
      windCnt := 0;
      var tSample := Wrap32(SAMPLE_PER as int + Elapsed(now, tNext) as int);
      tNext := Wrap32(now as int + SAMPLE_PER as int);
      sample := Sampled(windCount, tSample);
    }

    /** The gust and the average over the ring, which are those of the
        window. */
    method Summarize()
      requires Valid()
      modifies this`gustMph, this`avgMph
      ensures gustMph as int == Max(slots[..]) && avgMph as int == RoundedMean(Sum(slots[..]))
      ensures gustMph as int == Max(Window(history)) && avgMph as int == RoundedMean(Sum(Window(history)))
    {
      var sum, peak := Scan();
      gustMph := peak;
      MeanFitsByte(slots[..]);
      avgMph := ((sum + GUST_PER / 2) / GUST_PER) as u8;
      WindowStatistics(slots[..], gustNdx as int);
    }

    /** The new sample goes into the ring, and the gust and the average
        are taken over the window it completes. */
    method Record(spd: u8)
      requires Valid()
      modifies this`gustNdx, this`history, this`gustMph, this`avgMph, slots
      ensures Valid()
      ensures slots[..] == old(slots[..])[old(gustNdx) as int := spd]
      ensures gustNdx as int == (old(gustNdx) as int + 1) % GUST_PER
      ensures history == old(history) + [spd]
      ensures gustMph as int == Max(Window(history)) && avgMph as int == RoundedMean(Sum(Window(history)))
    {
      Store(spd);
      Summarize();
    }

    /** One pass of `WindRead` past the gate: sample, store, summarise and
        read the vane. */
    method Sample(now: u32, spd: u8, adc: u16) returns (sample: Gate)
      requires Valid() && DirDefined(cal)
      modifies this, slots
      ensures Valid()
      ensures cal == old(cal)
      ensures sample == Sampled(old(windCnt), Period(now, old(tNext)))
      ensures windCnt == 0 && tNext == Wrap32(now as int + SAMPLE_PER as int)
      ensures spdMph == spd
      ensures slots[..] == old(slots[..])[old(gustNdx) as int := spd]
      ensures gustNdx as int == (old(gustNdx) as int + 1) % GUST_PER
      ensures history == old(history) + [spd]
      ensures gustMph as int == Max(Window(history)) && avgMph as int == RoundedMean(Sum(Window(history)))
      ensures windDir == Direction(adc, cal)
    {
      sample := Open(now);
      spdMph := spd;
      Record(spd);
      windDir := Direction(adc, cal);
    }

    /** `WindRead`, at time `now`, with `spd` the rounded speed computed
        from the count and the period, and `adc` the vane's reading: nothing
        happens before the gate time `t_next`.  The gate is the intended
        one, `Due`; past it the period is at least one second. */
    method Read(now: u32, spd: u8, adc: u16) returns (sample: Gate)
      requires Valid()
      requires Due(now, tNext) ==> DirDefined(cal)
      modifies this, slots
      ensures Valid()
      ensures !old(Due(now, tNext)) ==>
        && sample == Skipped
        && unchanged(this) && unchanged(slots)
      ensures old(Due(now, tNext)) ==>
        && cal == old(cal)
        && sample == Sampled(old(windCnt), Period(now, old(tNext)))
        && sample.period as int == SAMPLE_PER as int + Elapsed(now, old(tNext)) as int
        && windCnt == 0 && tNext == Wrap32(now as int + SAMPLE_PER as int)
        && spdMph == spd
        && slots[..] == old(slots[..])[old(gustNdx) as int := spd]
        && gustNdx as int == (old(gustNdx) as int + 1) % GUST_PER
        && history == old(history) + [spd]
        && gustMph as int == Max(Window(history)) && avgMph as int == RoundedMean(Sum(Window(history)))
        && windDir == Direction(adc, cal)
    {
      if !Due(now, tNext) {
        return Skipped;
      }
      PeriodAtLeastOneSecond(now, tNext);
      sample := Sample(now, spd, adc);
    }
  }

  // ---------------------------------------------------------------- lemmas

  /** The maximum of two pieces together. */
  lemma {:induction false} MaxConcat(a: seq<u8>, b: seq<u8>)
    ensures Max(a + b) == if Max(a) >= Max(b) then Max(a) else Max(b)
    decreases |b|
  {
    if |b| > 0 {
      var b' := b[..|b| - 1];
      assert (a + b)[..|a + b| - 1] == a + b';
      MaxConcat(a, b');
    } else {
      assert a + b == a;
    }
  }

  /** The sum of two pieces together. */
  lemma {:induction false} SumConcat(a: seq<u8>, b: seq<u8>)
    ensures Sum(a + b) == Sum(a) + Sum(b)
    decreases |b|
  {
    if |b| > 0 {
      var b' := b[..|b| - 1];
      assert (a + b)[..|a + b| - 1] == a + b';
      SumConcat(a, b');
    } else {
      assert a + b == a;
    }
  }

  /** Scanning the buffer from slot 0, as the loop does, gives the
      window's maximum and sum: reading the ring from `n` round is a
      rotation of reading it from 0. */
  lemma WindowStatistics(buf: seq<u8>, n: int)
    requires 0 <= n <= |buf|
    ensures Max(buf) == Max(buf[n..] + buf[..n])
    ensures Sum(buf) == Sum(buf[n..] + buf[..n])
  {
    assert buf == buf[..n] + buf[n..];
    MaxConcat(buf[..n], buf[n..]);
    MaxConcat(buf[n..], buf[..n]);
    SumConcat(buf[..n], buf[n..]);
    SumConcat(buf[n..], buf[..n]);
  }

  /** The rounded mean of 600 bytes is a byte. */
  lemma MeanFitsByte(s: seq<u8>)
    requires |s| == GUST_PER
    ensures 0 <= RoundedMean(Sum(s)) < 256
  {
  }

  /** One more sample pushes the oldest out of the window. */
  lemma WindowShift(history: seq<u8>, x: u8)
    ensures Window(history + [x]) == Window(history)[1..] + [x]
  {
    var padded := seq(GUST_PER, _ => 0 as u8) + history;
    assert seq(GUST_PER, _ => 0 as u8) + (history + [x]) == padded + [x];
  }

  /** Storing at the ring's index and advancing it keeps the ring read
      from the index equal to the window, shifted by the new sample. */
  lemma RingStore(buf: seq<u8>, n: int, x: u8)
    requires |buf| == GUST_PER && 0 <= n < GUST_PER
    ensures var b := buf[n := x];
      var m := (n + 1) % GUST_PER;
      b[m..] + b[..m] == (buf[n..] + buf[..n])[1..] + [x]
  {
    var b := buf[n := x];
    if n + 1 < GUST_PER {
      assert b[n + 1..] == buf[n + 1..];
      assert b[..n + 1] == buf[..n] + [x];
      assert (buf[n..] + buf[..n])[1..] == buf[n + 1..] + buf[..n];
    } else {
      assert b[..n] == buf[..n];
      assert b == buf[..n] + [x];
      assert (buf[n..] + buf[..n])[1..] == buf[..n];
    }
  }

  /** The average is the window's mean rounded half up: within half a
      mile per hour of it. */
  lemma RoundedMeanIsNearest(sum: int)
    requires sum >= 0
    ensures var a := RoundedMean(sum);
      (a as real) - 0.5 <= sum as real / GUST_PER as real < (a as real) + 0.5
  {
    var a := RoundedMean(sum);
    assert a * 600 <= sum + 300 < a * 600 + 600;
  }

  /** The average never exceeds the gust. */
  lemma AverageAtMostGust(s: seq<u8>)
    requires |s| == GUST_PER
    ensures RoundedMean(Sum(s)) <= Max(s)
  {
    SumBound(s, Max(s));
    assert Sum(s) + 300 < (Max(s) + 1) * 600;
  }

  /** A bound on every sample bounds the sum by the count times it. */
  lemma {:induction false} SumBound(s: seq<u8>, m: int)
    requires forall i :: 0 <= i < |s| ==> s[i] as int <= m
    ensures Sum(s) <= |s| * m
    decreases |s|
  {
    if |s| > 0 {
      var s' := s[..|s| - 1];
      SumBound(s', m);
      assert |s| * m == |s'| * m + m;
    }
  }

  /** Until ten minutes of samples are in, the window starts with zeros,
      which the average takes in. */
  lemma EarlyWindow(history: seq<u8>)
    requires |history| < GUST_PER
    ensures Window(history) == seq(GUST_PER - |history|, _ => 0 as u8) + history
  {
  }

  /** With the vane reading inside its calibrated range and a non-negative
      offset, the direction is a compass bearing in [0, 360). */
  lemma DirectionInRange(adc: u16, cal: WindCal)
    requires DirDefined(cal)
    requires cal.dirMin <= adc as int <= cal.dirMax && 0 <= cal.dirOffs
    ensures 0 <= Direction(adc, cal) < 360
  {
    var n := cal.dirMax - cal.dirMin;
    var span := Wrap16(adc as int - cal.dirMin);
    assert span as int == adc as int - cal.dirMin;
    NonNegativeDivision(span as int * 360, n);
    var scaled := TDiv(span as int * 360, n);
    assert Direction(adc, cal) == TRem(scaled + cal.dirOffs, 360);
    NonNegativeDivision(scaled + cal.dirOffs, 360);
  }

  /** A vane reading below `WDir_min` is not clamped: the 16-bit unsigned
      subtraction wraps and the result is some bearing far from north. */
  lemma BelowMinWraps(adc: u16, cal: WindCal)
    requires DirDefined(cal)
    requires 0 <= cal.dirMin && adc as int < cal.dirMin
    ensures Wrap16(adc as int - cal.dirMin) as int == TWO16 + adc as int - cal.dirMin
  {
  }

  /** The vane at `WDir_min` reads as the offset, reduced by C's `%`. */
  lemma MinIsOffset(cal: WindCal)
    requires DirDefined(cal) && 0 <= cal.dirMin
    ensures Direction(cal.dirMin as u16, cal) == TRem(cal.dirOffs, 360)
  {
    assert Wrap16(0) == 0;
    NonNegativeDivision(0, Abs(cal.dirMax - cal.dirMin));
    assert TDiv(0, cal.dirMax - cal.dirMin) == 0;
  }

  /** The vane at `WDir_max` reads as a full turn past the offset, which
      C's `%` folds back onto it. */
  lemma MaxIsOffsetPlusTurn(cal: WindCal)
    requires DirDefined(cal) && 0 <= cal.dirMin < cal.dirMax
    ensures Direction(cal.dirMax as u16, cal) == TRem(360 + cal.dirOffs, 360)
  {
    var n := cal.dirMax - cal.dirMin;
    assert Wrap16(n) == n as u16;
    NonNegativeDivision(n * 360, n);
    DivBracket(n * 360, n, 360);
  }

  /** With no offset, both ends of the calibrated range are north. */
  lemma NorthAtBothEnds(cal: WindCal)
    requires DirDefined(cal) && 0 <= cal.dirMin < cal.dirMax && cal.dirOffs == 0
    ensures Direction(cal.dirMin as u16, cal) == 0
    ensures Direction(cal.dirMax as u16, cal) == 0
  {
    MinIsOffset(cal);
    MaxIsOffsetPlusTurn(cal);
    NonNegativeDivision(0, 360);
    NonNegativeDivision(360, 360);
  }

  /** Under the default calibration 365, halfway round, is south. */
  lemma DefaultSouth()
    ensures DirDefined(DEFAULT_CAL) && Direction(365, DEFAULT_CAL) == 180
  {
    assert Wrap16(365 - 70) == 295;
    NonNegativeDivision(106200, 590);
    NonNegativeDivision(180, 360);
  }

  /** Under the default calibration 69, one count below the minimum, wraps
      to 65535 and reads as 27 degrees, not as just west of north. */
  lemma DefaultBelowMin()
    ensures DirDefined(DEFAULT_CAL) && Direction(69, DEFAULT_CAL) == 27
  {
    assert Wrap16(69 - 70) == 65535;
    NonNegativeDivision(23592600, 590);
    NonNegativeDivision(39987, 360);
  }

  /** Past the intended gate the period is one second plus the lateness
      of the call: never shorter than a second. */
  lemma PeriodAtLeastOneSecond(now: u32, tNext: u32)
    requires Due(now, tNext)
    ensures Period(now, tNext) as int == SAMPLE_PER as int + Elapsed(now, tNext) as int
    ensures Period(now, tNext) >= SAMPLE_PER
  {
  }

  /** The gate as written, within the last second before `millis()`
      wraps: a gate opened at `last` sets `t_next` past zero, so every call
      before the wrap, `d` ms later, passes the gate again and stores a
      sample for a period of `d` ms, less than a second (none at all when
      `d` is 0). */
  lemma GateFloodsBeforeWrap(last: u32, d: nat)
    requires TWO32 - SAMPLE_PER as int <= last as int
    requires last as int + d < TWO32
    ensures var gate := Wrap32(last as int + SAMPLE_PER as int);
      var now := (last as int + d) as u32;
      && gate as int == last as int + SAMPLE_PER as int - TWO32
      && GateAsWritten(now, gate)
      && Period(now, gate) as int == d < SAMPLE_PER as int
  {
    var gate := Wrap32(last as int + SAMPLE_PER as int);
    var now := (last as int + d) as u32;
    assert Elapsed(now, gate) as int == d + TWO32 - SAMPLE_PER as int;
  }

  /** The intended gate, wherever the counter stands: once a gate opened
      at `last`, a call `d` ms later stays shut for the next second and
      opens after it, with a period of exactly `d` ms, also across a wrap
      of `millis()`. */
  lemma DueWaitsOneSecond(last: u32, d: nat)
    requires d < SAMPLE_PER as int + 0x8000_0000
    ensures var gate := Wrap32(last as int + SAMPLE_PER as int);
      var now := Wrap32(last as int + d);
      && (d < SAMPLE_PER as int ==> !Due(now, gate))
      && (SAMPLE_PER as int <= d ==> Due(now, gate) && Period(now, gate) as int == d)
  {
    var gate := Wrap32(last as int + SAMPLE_PER as int);
    var now := Wrap32(last as int + d);
    assert Elapsed(now, gate) == Wrap32(d - SAMPLE_PER as int);
  }
}
