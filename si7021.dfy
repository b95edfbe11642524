/** The SI7021 relative-humidity / temperature driver: `SI7021_init`
    probes the device, `SI7021_startMeasure` arms a measurement, and
    `SI7021_Read_Process`, called on every pass of the main loop, does one
    phase of it: trigger a combined humidity and temperature conversion,
    wait for it, read both results and publish them. */
module Si7021 {
  import opened CInt
  import opened I2c

  const ADDR_W: u8 := 0x80            // (0x40 << 1) + I2C_WRITE
  const ADDR_R: u8 := 0x81            // (0x40 << 1) + I2C_READ
  const CONVERT_CMD: u8 := 0xF5       // measure RH (and temperature), no clock stretching
  const READ_PREV_TEMP_CMD: u8 := 0xE0
  const CONVERSION_WAIT: u32 := 30    // ms

  /** `_SI7021_READ_SM`, in the order of its numeric values. */
  datatype State = Start | WaitResults | ReadResults | Error | Stop | Idle | NotFound
  {
    function Ord(): nat {
      match this
      case Start => 0 case WaitResults => 1 case ReadResults => 2 case Error => 3
      case Stop => 4 case Idle => 5 case NotFound => 6
    }
  }

  function FromOrd(n: nat): (s: State)
    requires n <= 6
    ensures s.Ord() == n
  {
    [Start, WaitResults, ReadResults, Error, Stop, Idle, NotFound][n]
  }

  /** `ThisState++`. */
  function Succ(s: State): (r: State)
    requires s.Ord() < 6
    ensures r.Ord() == s.Ord() + 1
  {
    FromOrd(s.Ord() + 1)
  }

  /** `HygReading` (its `DewptC` field is not written by this driver). */
  datatype HygReading = HygReading(tempC: real, relHum: real)

  /** -302.0 degC, 1.0 %: a bus failure during a cycle. */
  const ERROR_READING := HygReading(-302.0, 1.0)
  /** -302.0 degC, 2.0 %: the device never answered. */
  const NOTFOUND_READING := HygReading(-302.0, 2.0)

  /** The datasheet's conversion of a temperature code, in degC. */
  function TempOf(code: u16): real {
    code as real * 175.72 / 65536.0 - 46.85
  }

  /** The datasheet's conversion of a humidity code, in %RH. */
  function HumidityOf(code: u16): real {
    code as real * 125.0 / 65536.0 - 6.0
  }

  /** `ThisState`, the static `t` and the published reading. */
  datatype Vars = Vars(state: State, t: u32, reading: HygReading)

  datatype Sys = Sys(v: Vars, w: Wire)

  /** `SI7021_startMeasure`. */
  function Requested(s: State): State {
    if s == Idle then Start else s
  }

  /** An unacknowledged START: the phase is abandoned for `SM_ERROR`. */
  function Failed(v: Vars, w: Wire, addr: u8): Sys {
    Sys(v.(state := Error), Sent(w, StartCond(addr)))
  }

  /** START in write mode, the conversion command, STOP. */
  function Convert(w: Wire): Wire {
    Stopped(Sent(Sent(w, StartCond(ADDR_W)), WriteByte(CONVERT_CMD)))
  }

  /** START in read mode and the humidity result's two bytes, STOP. */
  function HumidityFetch(w: Wire): Wire {
    Stopped(Received(Received(Sent(w, StartCond(ADDR_R)), ReadByteAck), ReadByteNak))
  }

  /** START in write mode, the read-previous-temperature command, a
      repeated START in read mode, the two bytes, STOP. */
  function TempFetch(w: Wire): Wire {
    var w1 := Sent(Sent(Sent(w, StartCond(ADDR_W)), WriteByte(READ_PREV_TEMP_CMD)), RepStartCond(ADDR_R));
    Stopped(Received(Received(w1, ReadByteAck), ReadByteNak))
  }

  /** `SM_Read_Results`: the humidity first, then the temperature of the
      same conversion; both are published together, or neither. */
  function ResultsRead(v: Vars, w: Wire): Sys {
    if !Acked(w) then Failed(v, w, ADDR_R)
    else
      var rh := RxWord(w);
      var w1 := HumidityFetch(w);
      if !Acked(w1) then Failed(v, w1, ADDR_W)
      else Sys(v.(reading := HygReading(TempOf(RxWord(w1)), HumidityOf(rh)), state := Idle), TempFetch(w1))
  }

  /** `SI7021_Read_Process`: one call, at time `now`. */
  function Step(v: Vars, now: u32, w: Wire): Sys {
    match v.state
    case Start =>
      if !Acked(w) then Failed(v, w, ADDR_W)
      else Sys(v.(t := now, state := Succ(v.state)), Convert(w))
    case WaitResults =>
      Sys(if Elapsed(now, v.t) > CONVERSION_WAIT then v.(state := Succ(v.state)) else v, w)
    case ReadResults => ResultsRead(v, w)
    case Error => Sys(v.(reading := ERROR_READING, state := Succ(v.state)), Stopped(w))
    case Stop => Sys(v, w)       // no case in the switch
    case Idle => Sys(v, w)
    case NotFound => Sys(v.(reading := NOTFOUND_READING), w)
  }

  /** What the main loop does to the driver: arm it, or give it a turn. */
  datatype Call = Measure | Process(now: u32)

  /** The driver and the bus after a sequence of calls. */
  function Run(v: Vars, w: Wire, calls: seq<Call>): Sys
    decreases |calls|
  {
    if |calls| == 0 then Sys(v, w)
    else match calls[0]
      case Measure => Run(v.(state := Requested(v.state)), w, calls[1..])
      case Process(now) => var s := Step(v, now, w); Run(s.v, s.w, calls[1..])
  }

  /** The states the driver is in after each call of a sequence. */
  function Trail(v: Vars, w: Wire, calls: seq<Call>): seq<State>
    decreases |calls|
  {
    if |calls| == 0 then []
    else match calls[0]
      case Measure => [Requested(v.state)] + Trail(v.(state := Requested(v.state)), w, calls[1..])
      case Process(now) => var s := Step(v, now, w); [s.v.state] + Trail(s.v, s.w, calls[1..])
  }

  /** The bus stays free between calls whenever the driver is not in
      `SM_ERROR`. */
  predicate BusFree(v: Vars, w: Wire) {
    v.state != Error ==> Released(w.trace)
  }

  class Hygrometer {
    var state: State
    var t: u32
    var reading: HygReading

    function Snapshot(): Vars
      reads this
    {
      Vars(state, t, reading)
    }

    /** Program start: `ThisState = SM_NOTFOUND`, the reading zero. */
    constructor ()
      ensures Snapshot() == Vars(NotFound, 0, HygReading(0.0, 0.0))
    {
      state, t := NotFound, 0;
      reading := HygReading(0.0, 0.0);
    }

    /** `SI7021_init`: probe the address and release the bus again. */
    method Init(bus: Bus) returns (err: u8)
      modifies this`state, bus
      ensures var w := old(bus.View());
        && err == (if Acked(w) then 0 else 1)
        && state == (if Acked(w) then Idle else NotFound)
        && bus.View() == Stopped(Sent(w, StartCond(ADDR_W)))
    {
      err := bus.Start(ADDR_W);
      if err != 0 {
        state := NotFound;
      } else {
        state := Idle;
      }
      bus.Stop();
    }

    /** `SI7021_startMeasure`: only an idle driver is armed. */
    method StartMeasure()
      modifies this`state
      ensures state == Requested(old(state))
    {
      if state == Idle {
        state := Start;
      }
    }

    /** `SI7021_Read_Process`. */
    method ReadProcess(now: u32, bus: Bus)
      modifies this, bus
      ensures Sys(Snapshot(), bus.View()) == Step(old(Snapshot()), now, old(bus.View()))
    {
      match state
      case Start =>
        var err := bus.Start(ADDR_W);
        if err != 0 {
          state := Error;
          return;
        }
        var _ := bus.Write(CONVERT_CMD);
        bus.Stop();
        t := now;
        state := Succ(state);
      case WaitResults =>
        if Elapsed(now, t) > CONVERSION_WAIT {
          state := Succ(state);
        }
      case ReadResults =>
        var err := bus.Start(ADDR_R);
        if err != 0 {
          state := Error;
          return;
        }
        var rhHi := bus.ReadAck();
        var rhLo := bus.ReadNak();
        bus.Stop();
        err := bus.Start(ADDR_W);
        if err != 0 {
          state := Error;
          return;
        }
        var _ := bus.Write(READ_PREV_TEMP_CMD);
        var _ := bus.RepStart(ADDR_R);
        var tHi := bus.ReadAck();
        var tLo := bus.ReadNak();
        bus.Stop();
        reading := HygReading(TempOf(Word(tHi, tLo)), HumidityOf(Word(rhHi, rhLo)));
        state := Idle;
      case Error =>
        reading := ERROR_READING;
        bus.Stop();
        state := Succ(state);
      case Stop =>
      case Idle =>
      case NotFound =>
        reading := NOTFOUND_READING;
    }
  }

  // ---------------------------------------------------------------- properties

  /** `SI7021_startMeasure` arms an idle driver and ignores every other
      state. */
  lemma RequestOnlyFromIdle(s: State)
    ensures Requested(s) == Start <==> s == Idle || s == Start
    ensures s != Idle ==> Requested(s) == s
  {
  }

  /** Every published measurement lies in the datasheet's output range:
      -46.85 degC up to just below 128.87 degC, -6 %RH up to just below
      119 %RH; the sentinels' -302.0 degC lies outside it, so a reading
      tells a measurement from a failure. */
  lemma MeasurementRange(code: u16)
    ensures -46.85 <= TempOf(code) < 128.87
    ensures -6.0 <= HumidityOf(code) < 119.0
    ensures TempOf(code) != ERROR_READING.tempC && TempOf(code) != NOTFOUND_READING.tempC
  {
  }

  /** Both conversions are strictly increasing in the code, so no two codes
      publish the same value. */
  lemma ConversionsIncreasing(a: u16, b: u16)
    ensures a < b <==> TempOf(a) < TempOf(b)
    ensures a < b <==> HumidityOf(a) < HumidityOf(b)
  {
  }

  /** The waiting state issues nothing on the bus and moves on only once
      more than 30 ms have passed since the trigger, counted modulo 2^32. */
  lemma WaitPhase(v: Vars, now: u32, w: Wire)
    requires v.state == WaitResults
    ensures var s := Step(v, now, w);
      && s.w == w
      && s.v == v.(state := if (now as int - v.t as int) % TWO32 > 30 then ReadResults else WaitResults)
  {
  }

  /** The reading changes only at the end of a successful `SM_Read_Results`
      or to a sentinel: a nack on the second START discards the humidity
      bytes already read. */
  lemma PublicationPoint(v: Vars, now: u32, w: Wire)
    ensures var s := Step(v, now, w);
      && (v.state !in {ReadResults, Error, NotFound} ==> s.v.reading == v.reading)
      && (v.state == ReadResults && s.v.state != Idle ==> s.v == v.(state := Error))
  {
  }

  /** A successful `SM_Read_Results`: humidity from the first two bytes,
      temperature from the next two, both most significant first. */
  lemma ResultsPublished(v: Vars, now: u32, w: Wire)
    requires v.state == ReadResults
    requires |w.acks| >= 2 && w.acks[0] && w.acks[1]
    ensures var s := Step(v, now, w);
      && s.v == v.(state := Idle,
                   reading := HygReading(TempOf(Word(RxByte(w, 2), RxByte(w, 3))),
                                         HumidityOf(Word(RxByte(w, 0), RxByte(w, 1)))))
      && s.w.trace == w.trace + RESULT_EVENTS
  {
    var w1 := HumidityFetch(w);
    HumidityFetchEffect(w);
    TempFetchEffect(w1);
    assert Step(v, now, w) == ResultsRead(v, w);
    assert Acked(w1);
    assert w1.trace + TEMP_EVENTS == w.trace + RESULT_EVENTS;
  }

  /** The humidity read: four bus events, one acknowledge bit and two data
      bytes consumed. */
  lemma HumidityFetchEffect(w: Wire)
    requires |w.acks| >= 1
    ensures HumidityFetch(w).trace == w.trace + HUMIDITY_EVENTS
    ensures HumidityFetch(w).acks == w.acks[1..]
    ensures RxByte(HumidityFetch(w), 0) == RxByte(w, 2) && RxByte(HumidityFetch(w), 1) == RxByte(w, 3)
  {
  }

  /** The temperature read: six bus events. */
  lemma TempFetchEffect(w: Wire)
    ensures TempFetch(w).trace == w.trace + TEMP_EVENTS
  {
  }

  /** Every step only appends to the bus trace and, unless it ends in
      `SM_ERROR`, leaves the bus released. */
  lemma StepKeepsBusFree(v: Vars, now: u32, w: Wire)
    ensures var s := Step(v, now, w);
      && w.trace <= s.w.trace
      && (s.v.state != Error && |s.w.trace| > |w.trace| ==> s.w.trace[|s.w.trace| - 1] == StopCond)
      && (BusFree(v, w) ==> BusFree(s.v, s.w))
  {
  }

  /** The bus is free between calls, over any run, unless the driver is in
      `SM_ERROR`. */
  lemma {:induction false} RunKeepsBusFree(v: Vars, w: Wire, calls: seq<Call>)
    requires BusFree(v, w)
    ensures BusFree(Run(v, w, calls).v, Run(v, w, calls).w)
    ensures w.trace <= Run(v, w, calls).w.trace
    decreases |calls|
  {
    if |calls| > 0 {
      match calls[0]
      case Measure =>
        RunKeepsBusFree(v.(state := Requested(v.state)), w, calls[1..]);
      case Process(now) =>
        StepKeepsBusFree(v, now, w);
        var s := Step(v, now, w);
        RunKeepsBusFree(s.v, s.w, calls[1..]);
    }
  }

  /** `SM_STOP` is never left: nothing the main loop calls changes the
      driver, its reading or the bus. */
  lemma {:induction false} StopForever(v: Vars, w: Wire, calls: seq<Call>)
    requires v.state == Stop
    ensures Run(v, w, calls) == Sys(v, w)
    decreases |calls|
  {
    if |calls| > 0 {
      StopForever(v, w, calls[1..]);
    }
  }

  /** After a failure the driver reports it once and then measures no
      more: from `SM_ERROR`, any run that gives it a turn ends in
      `SM_STOP` with the error sentinel published and one STOP issued;
      `startMeasure` calls before that turn change nothing. */
  lemma {:induction false} ErrorIsFinal(v: Vars, w: Wire, calls: seq<Call>)
    requires v.state == Error
    requires exists i :: 0 <= i < |calls| && calls[i].Process?
    ensures Run(v, w, calls) == Sys(v.(state := Stop, reading := ERROR_READING), Stopped(w))
    decreases |calls|
  {
    match calls[0]
    case Measure =>
      var i :| 0 <= i < |calls| && calls[i].Process?;
      assert calls[1..][i - 1].Process?;
      ErrorIsFinal(v, w, calls[1..]);
    case Process(_) =>
      StopForever(v.(state := Stop, reading := ERROR_READING), Stopped(w), calls[1..]);
  }

  /** A failed first START, in `SM_START` (write address) or in
      `SM_Read_Results` (read address), sends the driver to `SM_ERROR`
      with that START as the last bus event: the bus is left held until
      `SM_ERROR` releases it. */
  lemma NackLeadsToError(v: Vars, now: u32, w: Wire)
    requires v.state == Start || v.state == ReadResults
    requires !Acked(w)
    ensures var s := Step(v, now, w);
      && s.v == v.(state := Error)
      && s.w.trace == w.trace + [StartCond(if v.state == Start then ADDR_W else ADDR_R)]
      && !Released(s.w.trace)
  {
  }

  /** A failed second START of `SM_Read_Results`, after the humidity has
      been read: the driver goes to `SM_ERROR` with the humidity transfer
      and the failed START on the bus, and the humidity read is dropped. */
  lemma SecondStartNack(v: Vars, now: u32, w: Wire)
    requires v.state == ReadResults
    requires Acked(w) && !Acked(HumidityFetch(w))
    ensures var s := Step(v, now, w);
      && s.v == v.(state := Error)
      && s.w.trace == w.trace + HUMIDITY_EVENTS + [StartCond(ADDR_W)]
      && !Released(s.w.trace)
  {
    HumidityFetchEffect(w);
  }

  /** `SM_NOTFOUND` is never left: the driver never touches the bus, and
      after its first turn publishes -302.0 degC / 2.0 %. */
  lemma {:induction false} NotFoundForever(v: Vars, w: Wire, calls: seq<Call>)
    requires v.state == NotFound
    ensures Run(v, w, calls).v.state == NotFound
    ensures Run(v, w, calls).w == w
    ensures (exists i :: 0 <= i < |calls| && calls[i].Process?) ==> Run(v, w, calls).v.reading == NOTFOUND_READING
    ensures (forall i :: 0 <= i < |calls| ==> calls[i].Measure?) ==> Run(v, w, calls).v.reading == v.reading
    decreases |calls|
  {
    if |calls| > 0 {
      var rest := calls[1..];
      assert forall i :: 0 <= i < |rest| ==> rest[i] == calls[i + 1];
      match calls[0]
      case Measure =>
        NotFoundForever(v, w, rest);
      case Process(now) =>
        var s := Step(v, now, w);
        NotFoundForever(s.v, s.w, rest);
        if forall i :: 0 <= i < |rest| ==> rest[i].Measure? {
          assert Run(v, w, calls).v.reading == NOTFOUND_READING;
        }
    }
  }

  /** Prepending a call to a run. */
  lemma RunFirst(v: Vars, w: Wire, now: u32, rest: seq<Call>)
    ensures var s := Step(v, now, w);
      && Run(v, w, [Process(now)] + rest) == Run(s.v, s.w, rest)
      && Trail(v, w, [Process(now)] + rest) == [s.v.state] + Trail(s.v, s.w, rest)
  {
    assert ([Process(now)] + rest)[1..] == rest;
  }

  /** The bus events of a conversion trigger. */
  const CONVERT_EVENTS: seq<Event> := [StartCond(ADDR_W), WriteByte(CONVERT_CMD), StopCond]

  /** The bus events of a successful `SM_Read_Results`. */
  const HUMIDITY_EVENTS: seq<Event> := [StartCond(ADDR_R), ReadByteAck, ReadByteNak, StopCond]
  const TEMP_EVENTS: seq<Event> :=
    [StartCond(ADDR_W), WriteByte(READ_PREV_TEMP_CMD), RepStartCond(ADDR_R), ReadByteAck, ReadByteNak, StopCond]
  const RESULT_EVENTS: seq<Event> := HUMIDITY_EVENTS + TEMP_EVENTS

  /** A fault-free cycle: from `SM_START`, with the device acknowledging
      every byte and the main loop calling late enough, three calls trigger,
      wait, read and publish, and return to `SM_IDLE`. */
  lemma {:induction false} FaultFreeCycle(v: Vars, w: Wire, n0: u32, n1: u32, n2: u32)
    requires v.state == Start
    requires |w.acks| >= 4 && w.acks[0] && w.acks[2] && w.acks[3]
    requires Elapsed(n1, n0) > CONVERSION_WAIT
    ensures var calls := [Process(n0), Process(n1), Process(n2)];
      && Trail(v, w, calls) == [WaitResults, ReadResults, Idle]
      && Run(v, w, calls).v.reading ==
           HygReading(TempOf(Word(RxByte(w, 2), RxByte(w, 3))), HumidityOf(Word(RxByte(w, 0), RxByte(w, 1))))
      && Run(v, w, calls).w.trace == w.trace + CONVERT_EVENTS + RESULT_EVENTS
  {
    var s1 := Step(v, n0, w);
    assert s1 == Sys(v.(t := n0, state := WaitResults), Convert(w));
    assert s1.w.acks == w.acks[2..] && s1.w.rx == w.rx;
    assert s1.w.trace == w.trace + CONVERT_EVENTS;
    var s2 := Step(s1.v, n1, s1.w);
    assert s2 == Sys(s1.v.(state := ReadResults), s1.w);
    ResultsPublished(s2.v, n2, s2.w);
    var s3 := Step(s2.v, n2, s2.w);
    RunFirst(s2.v, s2.w, n2, []);
    RunFirst(s1.v, s1.w, n1, [Process(n2)]);
    RunFirst(v, w, n0, [Process(n1), Process(n2)]);
  }
}
