/** The BMP085 barometric pressure / temperature driver: `BMP085_init`
    reads the calibration table once, `BMP085_startMeasure` arms a
    measurement, and `BMP085_Read_Process`, called on every pass of the main
    loop, does one phase of it and returns.  A cycle is two chained
    conversions, temperature first, then pressure (whose compensation needs
    the temperature's B5). */
module Bmp085 {
  import opened CInt
  import opened I2c
  import opened Bmp085Comp

  const ADDR_W: u8 := 0xEE            // BMP085_I2C_Addr + I2C_WRITE
  const ADDR_R: u8 := 0xEF            // BMP085_I2C_Addr + I2C_READ
  const EEPROM_REG: u8 := 0xAA        // first calibration register
  const CTRL_REG: u8 := 0xF4
  const ADC_REG: u8 := 0xF6
  const CONV_TEMP: u8 := 0x2E
  const CONV_PRESS: u8 := 0xF4        // pressure, 8 internal samples
  const TEMP_WAIT: u32 := 5           // ms
  const PRESS_WAIT: u32 := 40         // ms
  const CAL_WORDS: nat := 11

  /** `_BMP085_READ_SM`, in the order of its numeric values: the code
      advances with `ThisState++`. */
  datatype State =
    | Start | WaitForTemp | ReadTemp | WaitForPress | ReadPress | CalcPress
    | Error | Idle | NotFound
  {
    function Ord(): nat {
      match this
      case Start => 0 case WaitForTemp => 1 case ReadTemp => 2
      case WaitForPress => 3 case ReadPress => 4 case CalcPress => 5
      case Error => 6 case Idle => 7 case NotFound => 8
    }
  }

  function FromOrd(n: nat): (s: State)
    requires n <= 8
    ensures s.Ord() == n
  {
    [Start, WaitForTemp, ReadTemp, WaitForPress, ReadPress, CalcPress, Error, Idle, NotFound][n]
  }

  /** `ThisState++`. */
  function Succ(s: State): (r: State)
    requires s.Ord() < 8
    ensures r.Ord() == s.Ord() + 1
  {
    FromOrd(s.Ord() + 1)
  }

  /** `BaroReading`.  The firmware publishes `TempC = T / 10.0` and
      `BaromhPa = p / 100.0`; the model keeps the integers T (tenths of a
      degree Celsius) and p (pascals) the floats are made from. */
  datatype BaroReading = BaroReading(tempDeci: int, pressPa: int)

  /** -273.0 degC, 0.0 hPa: a bus failure during a cycle. */
  const ERROR_READING := BaroReading(-2730, 0)
  /** -301.0 degC, -1.0 hPa: the device never answered. */
  const NOTFOUND_READING := BaroReading(-3010, -100)

  /** The driver's module-level state: `ThisState`, the statics `t`, `B5`
      and `Up` that live from one call to the next, and the published
      reading.  (`T` and `X1..X3` are static too, but every call that reads
      them has just written them.) */
  datatype Vars = Vars(state: State, t: u32, b5: int, up: int, reading: BaroReading)

  datatype Sys = Sys(v: Vars, w: Wire)

  /** `BMP085_startMeasure`. */
  function Requested(s: State): State {
    if s == Idle then Start else s
  }

  /** An acknowledged START, then a conversion command written to the
      control register, then STOP. */
  function Convert(w: Wire, cmd: u8): Wire {
    Stopped(Sent(Sent(Sent(w, StartCond(ADDR_W)), WriteByte(CTRL_REG)), WriteByte(cmd)))
  }

  /** An acknowledged START, the result register, a repeated START in read
      mode, two bytes (the second not acknowledged), STOP. */
  function FetchWord(w: Wire): Wire {
    var w1 := Sent(Sent(Sent(w, StartCond(ADDR_W)), WriteByte(ADC_REG)), RepStartCond(ADDR_R));
    Stopped(Received(Received(w1, ReadByteAck), ReadByteNak))
  }

  /** The C code of this step has defined behaviour: in `SM_Read_Temp` the
      temperature formula does not divide by zero or overflow for the word
      the device is about to deliver, and in `SM_Calc_Press` the pressure
      formula is defined for the stored B5 and raw count. */
  predicate Computable(c: Coeffs, v: Vars, w: Wire) {
    && (v.state == ReadTemp && Acked(w) ==> TempDefined(c, RxWord(w) as int))
    && (v.state == CalcPress ==> PressDefined(c, v.b5, v.up))
  }

  /** An unacknowledged START: the phase is abandoned for `SM_ERROR`, the
      bus left as it is. */
  function Failed(v: Vars, w: Wire): Sys {
    Sys(v.(state := Error), Sent(w, StartCond(ADDR_W)))
  }

  /** Triggering a conversion (`SM_START`, second half of `SM_Read_Temp`):
      the time is noted and the machine moves on. */
  function Triggered(v: Vars, now: u32, w: Wire, cmd: u8): Sys
    requires v.state.Ord() < 8
  {
    if !Acked(w) then Failed(v, w)
    else Sys(v.(t := now, state := Succ(v.state)), Convert(w, cmd))
  }

  /** The two waiting states: move on once more than `limit` ms have
      passed since the trigger. */
  function Waited(v: Vars, now: u32, limit: u32): Vars
    requires v.state.Ord() < 8
  {
    if Elapsed(now, v.t) > limit then v.(state := Succ(v.state)) else v
  }

  /** `SM_Read_Temp`: fetch the raw temperature, compensate and publish
      it, then trigger the pressure conversion. */
  function TempRead(c: Coeffs, v: Vars, now: u32, w: Wire): Sys
    requires v.state == ReadTemp
    requires Acked(w) ==> TempDefined(c, RxWord(w) as int)
  {
    if !Acked(w) then Failed(v, w)
    else
      var b5 := B5(c, RxWord(w) as int);
      Triggered(v.(b5 := b5, reading := v.reading.(tempDeci := TenthsC(b5))), now, FetchWord(w), CONV_PRESS)
  }

  /** `SM_Read_Press`: fetch the raw pressure. */
  function PressRead(v: Vars, w: Wire): Sys
    requires v.state == ReadPress
  {
    if !Acked(w) then Failed(v, w)
    else Sys(v.(up := RxWord(w) as int, state := Succ(v.state)), FetchWord(w))
  }

  /** `BMP085_Read_Process`: one call, at time `now` (the value `millis()`
      returns during the call). */
  function Step(c: Coeffs, v: Vars, now: u32, w: Wire): Sys
    requires Computable(c, v, w)
  {
    match v.state
    case Start => Triggered(v, now, w, CONV_TEMP)
    case WaitForTemp => Sys(Waited(v, now, TEMP_WAIT), w)
    case ReadTemp => TempRead(c, v, now, w)
    case WaitForPress => Sys(Waited(v, now, PRESS_WAIT), w)
    case ReadPress => PressRead(v, w)
    case CalcPress => Sys(v.(reading := v.reading.(pressPa := Pressure(c, v.b5, v.up)), state := Idle), w)
    case Error => Sys(v.(reading := ERROR_READING, state := Succ(v.state)), Stopped(w))
    case Idle => Sys(v, w)
    case NotFound => Sys(v.(reading := NOTFOUND_READING), w)
  }

  /** What the main loop does to the driver: arm it, or give it a turn. */
  datatype Call = Measure | Process(now: u32)

  /** Every step of the run has defined behaviour. */
  predicate RunDefined(c: Coeffs, v: Vars, w: Wire, calls: seq<Call>)
    decreases |calls|
  {
    if |calls| == 0 then true
    else match calls[0]
      case Measure => RunDefined(c, v.(state := Requested(v.state)), w, calls[1..])
      case Process(now) =>
        Computable(c, v, w) && var s := Step(c, v, now, w); RunDefined(c, s.v, s.w, calls[1..])
  }

  /** The driver and the bus after a sequence of calls. */
  function Run(c: Coeffs, v: Vars, w: Wire, calls: seq<Call>): Sys
    requires RunDefined(c, v, w, calls)
    decreases |calls|
  {
    if |calls| == 0 then Sys(v, w)
    else match calls[0]
      case Measure => Run(c, v.(state := Requested(v.state)), w, calls[1..])
      case Process(now) => var s := Step(c, v, now, w); Run(c, s.v, s.w, calls[1..])
  }

  /** The states the driver is in after each call of a sequence. */
  function Trail(c: Coeffs, v: Vars, w: Wire, calls: seq<Call>): seq<State>
    requires RunDefined(c, v, w, calls)
    decreases |calls|
  {
    if |calls| == 0 then []
    else match calls[0]
      case Measure => [Requested(v.state)] + Trail(c, v.(state := Requested(v.state)), w, calls[1..])
      case Process(now) => var s := Step(c, v, now, w); [s.v.state] + Trail(c, s.v, s.w, calls[1..])
  }

  /** The calibration words the device sends, most significant byte first. */
  function CalWords(w: Wire): (dat: seq<u16>)
    ensures |dat| == CAL_WORDS
    ensures forall i :: 0 <= i < CAL_WORDS ==>
      dat[i] as int / 256 == RxByte(w, 2 * i) as int && dat[i] as int % 256 == RxByte(w, 2 * i + 1) as int
  {
    seq(CAL_WORDS, i requires 0 <= i < CAL_WORDS => Word(RxByte(w, 2 * i), RxByte(w, 2 * i + 1)))
  }

  /** The bus after a complete calibration read: START, the EEPROM
      register, repeated START in read mode, 22 acknowledged bytes, one
      more byte not acknowledged, STOP. */
  function CalTransfer(w: Wire): Wire {
    var w1 := Sent(Sent(Sent(w, StartCond(ADDR_W)), WriteByte(EEPROM_REG)), RepStartCond(ADDR_R));
    Stopped(Received(ReadAcks(w1, 2 * CAL_WORDS), ReadByteNak))
  }

  /** The bus stays free between calls whenever the driver is not in
      `SM_ERROR`. */
  predicate BusFree(v: Vars, w: Wire) {
    v.state != Error ==> Released(w.trace)
  }

  class Barometer {
    var state: State
    var t: u32
    var b5: int
    var up: int
    var reading: BaroReading
    /** `BMP085_Cal.dat`, the union's storage. */
    const dat: array<u16>

    ghost predicate Valid()
      reads this
    {
      dat.Length == CAL_WORDS
    }

    function Cal(): Coeffs
      reads this, dat
      requires Valid()
    {
      CoeffsOf(dat[..])
    }

    function Snapshot(): Vars
      reads this
    {
      Vars(state, t, b5, up, reading)
    }

    /** Program start: `ThisState = SM_NOTFOUND`, everything else zero. */
    constructor ()
      ensures Valid() && fresh(dat)
      ensures Snapshot() == Vars(NotFound, 0, 0, 0, BaroReading(0, 0))
      ensures dat[..] == seq(CAL_WORDS, _ => 0)
    {
      state, t, b5, up := NotFound, 0, 0, 0;
      reading := BaroReading(0, 0);
      dat := new u16[CAL_WORDS](_ => 0);
    }

    /** The loop of `BMP085_init`: eleven words, each read as two
        acknowledged bytes, most significant first. */
    method ReadCalTable(bus: Bus)
      requires Valid()
      modifies dat, bus
      ensures bus.View() == ReadAcks(old(bus.View()), 2 * CAL_WORDS)
      ensures dat[..] == CalWords(old(bus.View()))
    {
      ghost var w := bus.View();
      var i := 0;
      while i <= 10
        invariant 0 <= i <= CAL_WORDS
        invariant bus.View() == ReadAcks(w, 2 * i)
        invariant forall j :: 0 <= j < i ==> dat[j] == Word(RxByte(w, 2 * j), RxByte(w, 2 * j + 1))
      {
        ReadAcksEffect(w, 2 * i);
        ReadAcksEffect(w, 2 * i + 1);
        var hi := bus.ReadAck();
        dat[i] := (hi as int * 256) as u16;
        var lo := bus.ReadAck();
        dat[i] := dat[i] + lo as u16;
        i := i + 1;
      }
    }

    /** `BMP085_init`: probe the address, then read the calibration table. */
    method Init(bus: Bus) returns (err: u8)
      requires Valid()
      modifies this`state, dat, bus
      ensures Valid()
      ensures var w := old(bus.View());
        !Acked(w) ==>
          && err == 1 && state == NotFound && dat[..] == old(dat[..])
          && bus.View() == Stopped(Sent(w, StartCond(ADDR_W)))
      ensures var w := old(bus.View());
        Acked(w) && !Acked(Sent(w, StartCond(ADDR_W))) ==>
          && err == 3 && state == NotFound && dat[..] == old(dat[..])
          && bus.View() == Stopped(Sent(Sent(w, StartCond(ADDR_W)), WriteByte(EEPROM_REG)))
      ensures var w := old(bus.View());
        Acked(w) && Acked(Sent(w, StartCond(ADDR_W))) ==>
          && err == 0 && state == Idle && dat[..] == CalWords(w)
          && bus.View() == CalTransfer(w)
    {
      ghost var w := bus.View();
      err := bus.Start(ADDR_W);
      if err != 0 {
        state := NotFound;
        bus.Stop();
        return;
      }
      state := Idle;
      var nack := bus.Write(EEPROM_REG);
      if nack == 0 {
        var _ := bus.RepStart(ADDR_R);
        ghost var w1 := bus.View();
        assert w1.rx == w.rx;
        ReadCalTable(bus);
        assert CalWords(w1) == CalWords(w);
        var _ := bus.ReadNak();
      } else {
        state := NotFound;
        err := 3;
      }
      bus.Stop();
    }

    /** `BMP085_startMeasure`: only an idle driver is armed. */
    method StartMeasure()
      modifies this`state
      ensures state == Requested(old(state))
    {
      if state == Idle {
        state := Start;
      }
    }

    /** START, and when the device answers, a conversion command; then
        `t = millis()` and `ThisState++`. */
    method Trigger(now: u32, bus: Bus, cmd: u8)
      requires state.Ord() < 8
      modifies this`state, this`t, bus
      ensures Sys(Snapshot(), bus.View()) == Triggered(old(Snapshot()), now, old(bus.View()), cmd)
    {
      var err := bus.Start(ADDR_W);
      if err != 0 {
        state := Error;
        return;
      }
      var _ := bus.Write(CTRL_REG);
      var _ := bus.Write(cmd);
      bus.Stop();
      t := now;
      state := Succ(state);
    }

    /** `BMP085_Read_Process`. */
    method ReadProcess(now: u32, bus: Bus)
      requires Valid() && Computable(Cal(), Snapshot(), bus.View())
      modifies this, bus
      ensures Sys(Snapshot(), bus.View()) == Step(Cal(), old(Snapshot()), now, old(bus.View()))
    {
      match state
      case Start =>
        Trigger(now, bus, CONV_TEMP);
      case WaitForTemp =>
        if Elapsed(now, t) > TEMP_WAIT {
          state := Succ(state);
        }
      case ReadTemp =>
        var err := bus.Start(ADDR_W);
        if err != 0 {
          state := Error;
          return;
        }
        var ut := FetchResult(bus);
        b5 := B5(Cal(), ut as int);
        reading := reading.(tempDeci := TenthsC(b5));
        Trigger(now, bus, CONV_PRESS);
      case WaitForPress =>
        if Elapsed(now, t) > PRESS_WAIT {
          state := Succ(state);
        }
      case ReadPress =>
        var err := bus.Start(ADDR_W);
        if err != 0 {
          state := Error;
          return;
        }
        var raw := FetchResult(bus);
        up := raw as int;
        state := Succ(state);
      case CalcPress =>
        reading := reading.(pressPa := Pressure(Cal(), b5, up));
        state := Idle;
      case Error =>
        reading := ERROR_READING;
        bus.Stop();
        state := Succ(state);
      case Idle =>
      case NotFound =>
        reading := NOTFOUND_READING;
    }
  }

  /** After an acknowledged START: the result register, a repeated START
      in read mode, the two result bytes, STOP. */
  method FetchResult(bus: Bus) returns (word: u16)
    modifies bus
    ensures word == RxWord(old(bus.View()))
    ensures bus.View() ==
      Stopped(Received(Received(Sent(Sent(old(bus.View()), WriteByte(ADC_REG)), RepStartCond(ADDR_R)), ReadByteAck), ReadByteNak))
  {
    var _ := bus.Write(ADC_REG);
    var _ := bus.RepStart(ADDR_R);
    var hi := bus.ReadAck();
    var lo := bus.ReadNak();
    word := Word(hi, lo);
    bus.Stop();
  }

  // ---------------------------------------------------------------- properties

  /** `BMP085_startMeasure` arms an idle driver and ignores every other
      state: a cycle in flight, an error being reported, an absent device. */
  lemma RequestOnlyFromIdle(s: State)
    ensures Requested(s) == Start <==> s == Idle || s == Start
    ensures s != Idle ==> Requested(s) == s
  {
  }

  /** The two waiting states issue nothing on the bus and move on only
      once more than 5 ms (temperature) or 40 ms (pressure) have passed
      since the conversion was triggered, counted modulo 2^32. */
  lemma WaitPhases(c: Coeffs, v: Vars, now: u32, w: Wire)
    requires v.state == WaitForTemp || v.state == WaitForPress
    ensures var s := Step(c, v, now, w);
      && s.w == w
      && var limit := if v.state == WaitForTemp then 5 else 40;
         s.v == v.(state := if (now as int - v.t as int) % TWO32 > limit then Succ(v.state) else v.state)
  {
  }

  /** A device that stops acknowledging its address in `SM_START`,
      `SM_Read_Temp` or `SM_Read_Press` sends the driver to `SM_ERROR`
      with the failed START as the last bus event: no STOP yet. */
  lemma NackLeadsToError(c: Coeffs, v: Vars, now: u32, w: Wire)
    requires v.state == Start || v.state == ReadTemp || v.state == ReadPress
    requires !Acked(w)
    ensures Computable(c, v, w)
    ensures var s := Step(c, v, now, w);
      && s.v == v.(state := Error)
      && s.w.trace == w.trace + [StartCond(ADDR_W)]
      && !Released(s.w.trace)
  {
  }

  /** When the START that would trigger the pressure conversion is not
      acknowledged, the temperature read just before has already been
      published and B5 kept. */
  lemma PressureTriggerNack(c: Coeffs, v: Vars, now: u32, w: Wire)
    requires v.state == ReadTemp && Acked(w) && TempDefined(c, RxWord(w) as int)
    requires !Acked(FetchWord(w))
    ensures var s := Step(c, v, now, w);
      var b5 := B5(c, RxWord(w) as int);
      && s.v.state == Error
      && s.v.b5 == b5
      && s.v.reading == v.reading.(tempDeci := TenthsC(b5))
      && s.w.trace == FetchWord(w).trace + [StartCond(ADDR_W)]
  {
  }

  /** `SM_ERROR` publishes -273.0 degC / 0.0 hPa, releases the bus and
      goes on to `SM_IDLE`. */
  lemma ErrorRecovers(c: Coeffs, v: Vars, now: u32, w: Wire)
    requires v.state == Error
    ensures var s := Step(c, v, now, w);
      s.v == v.(state := Idle, reading := ERROR_READING) && s.w == Stopped(w)
  {
  }

  /** Every step only appends to the bus trace, and a step that does not
      end in `SM_ERROR` leaves the bus released if it touched it; so the
      bus is free between calls unless the driver is in `SM_ERROR`. */
  lemma StepKeepsBusFree(c: Coeffs, v: Vars, now: u32, w: Wire)
    requires Computable(c, v, w)
    ensures var s := Step(c, v, now, w);
      && w.trace <= s.w.trace
      && (s.v.state != Error && |s.w.trace| > |w.trace| ==> s.w.trace[|s.w.trace| - 1] == StopCond)
      && (BusFree(v, w) ==> BusFree(s.v, s.w))
  {
    match v.state
    case Start =>
      assert Step(c, v, now, w) == Triggered(v, now, w, CONV_TEMP);
    case ReadTemp =>
      assert Step(c, v, now, w) == TempRead(c, v, now, w);
    case ReadPress =>
      assert Step(c, v, now, w) == PressRead(v, w);
    case _ =>
  }

  /** The bus is free between calls, over any run, unless the driver is in
      `SM_ERROR`. */
  lemma {:induction false} RunKeepsBusFree(c: Coeffs, v: Vars, w: Wire, calls: seq<Call>)
    requires RunDefined(c, v, w, calls)
    requires BusFree(v, w)
    ensures BusFree(Run(c, v, w, calls).v, Run(c, v, w, calls).w)
    ensures w.trace <= Run(c, v, w, calls).w.trace
    decreases |calls|
  {
    if |calls| > 0 {
      match calls[0]
      case Measure =>
        RunKeepsBusFree(c, v.(state := Requested(v.state)), w, calls[1..]);
      case Process(now) =>
        StepKeepsBusFree(c, v, now, w);
        var s := Step(c, v, now, w);
        RunKeepsBusFree(c, s.v, s.w, calls[1..]);
    }
  }

  /** The pressure is published only by `SM_Calc_Press` (and overwritten
      by the sentinels), the temperature only by `SM_Read_Temp` (and the
      sentinels). */
  lemma PublicationPoints(c: Coeffs, v: Vars, now: u32, w: Wire)
    requires Computable(c, v, w)
    ensures var s := Step(c, v, now, w);
      && (v.state !in {CalcPress, Error, NotFound} ==> s.v.reading.pressPa == v.reading.pressPa)
      && (v.state !in {ReadTemp, Error, NotFound} ==> s.v.reading.tempDeci == v.reading.tempDeci)
  {
  }

  /** `SM_NOTFOUND` is never left: whatever the main loop calls, the
      driver stays there, never touches the bus, and after its first turn
      publishes -301.0 degC / -1.0 hPa. */
  lemma {:induction false} NotFoundForever(c: Coeffs, v: Vars, w: Wire, calls: seq<Call>)
    requires v.state == NotFound
    ensures RunDefined(c, v, w, calls)
    ensures Run(c, v, w, calls).v.state == NotFound
    ensures Run(c, v, w, calls).w == w
    ensures (exists i :: 0 <= i < |calls| && calls[i].Process?) ==> Run(c, v, w, calls).v.reading == NOTFOUND_READING
    ensures (forall i :: 0 <= i < |calls| ==> calls[i].Measure?) ==> Run(c, v, w, calls).v.reading == v.reading
    decreases |calls|
  {
    if |calls| > 0 {
      var rest := calls[1..];
      assert forall i :: 0 <= i < |rest| ==> rest[i] == calls[i + 1];
      match calls[0]
      case Measure =>
        NotFoundForever(c, v, w, rest);
      case Process(now) =>
        var s := Step(c, v, now, w);
        NotFoundForever(c, s.v, s.w, rest);
        if forall i :: 0 <= i < |rest| ==> rest[i].Measure? {
          assert Run(c, v, w, calls).v.reading == NOTFOUND_READING;
        }
    }
  }

  /** The bus events of a conversion command. */
  function ConvertEvents(cmd: u8): seq<Event> {
    [StartCond(ADDR_W), WriteByte(CTRL_REG), WriteByte(cmd), StopCond]
  }

  /** The bus events of a result fetch. */
  const FETCH_EVENTS: seq<Event> :=
    [StartCond(ADDR_W), WriteByte(ADC_REG), RepStartCond(ADDR_R), ReadByteAck, ReadByteNak, StopCond]

  /** A conversion command on a device that acknowledges everything: four
      events, three acknowledge bits, no data. */
  lemma ConvertEffect(w: Wire, cmd: u8)
    requires |w.acks| >= 3
    ensures Convert(w, cmd).acks == w.acks[3..] && Convert(w, cmd).rx == w.rx
    ensures Convert(w, cmd).trace == w.trace + ConvertEvents(cmd)
  {
  }

  /** A result fetch: six events, three acknowledge bits, two data bytes. */
  lemma FetchWordEffect(w: Wire)
    requires |w.acks| >= 3
    ensures FetchWord(w).acks == w.acks[3..]
    ensures forall k: nat :: RxByte(FetchWord(w), k) == RxByte(w, k + 2)
    ensures FetchWord(w).trace == w.trace + FETCH_EVENTS
  {
  }

  /** Prepending a call whose step is defined to a run that is defined. */
  lemma RunFirst(c: Coeffs, v: Vars, w: Wire, now: u32, rest: seq<Call>)
    requires Computable(c, v, w)
    requires var s := Step(c, v, now, w); RunDefined(c, s.v, s.w, rest)
    ensures RunDefined(c, v, w, [Process(now)] + rest)
    ensures var s := Step(c, v, now, w);
      && Run(c, v, w, [Process(now)] + rest) == Run(c, s.v, s.w, rest)
      && Trail(c, v, w, [Process(now)] + rest) == [s.v.state] + Trail(c, s.v, s.w, rest)
  {
    assert ([Process(now)] + rest)[1..] == rest;
  }

  /** Running two sequences of calls one after the other. */
  lemma {:induction false} RunAppend(c: Coeffs, v: Vars, w: Wire, a: seq<Call>, b: seq<Call>)
    requires RunDefined(c, v, w, a)
    requires RunDefined(c, Run(c, v, w, a).v, Run(c, v, w, a).w, b)
    ensures RunDefined(c, v, w, a + b)
    ensures var m := Run(c, v, w, a);
      && Run(c, v, w, a + b) == Run(c, m.v, m.w, b)
      && Trail(c, v, w, a + b) == Trail(c, v, w, a) + Trail(c, m.v, m.w, b)
    decreases |a|
  {
    if |a| > 0 {
      assert (a + b)[0] == a[0] && (a + b)[1..] == a[1..] + b;
      match a[0]
      case Measure =>
        RunAppend(c, v.(state := Requested(v.state)), w, a[1..], b);
      case Process(now) =>
        var s := Step(c, v, now, w);
        RunAppend(c, s.v, s.w, a[1..], b);
    } else {
      assert a + b == b;
    }
  }

  /** `SM_START` with a device that answers. */
  lemma TriggerStep(c: Coeffs, v: Vars, now: u32, w: Wire)
    requires v.state == Start && |w.acks| >= 3 && w.acks[0]
    ensures Step(c, v, now, w) == Sys(v.(t := now, state := WaitForTemp), Convert(w, CONV_TEMP))
  {
  }

  /** `SM_Read_Temp` with a device that answers both STARTs. */
  lemma TempReadStep(c: Coeffs, v: Vars, now: u32, w: Wire)
    requires v.state == ReadTemp && |w.acks| >= 6 && w.acks[0] && w.acks[3]
    requires TempDefined(c, RxWord(w) as int)
    ensures var b5 := B5(c, RxWord(w) as int);
      Step(c, v, now, w) ==
        Sys(v.(state := WaitForPress, t := now, b5 := b5, reading := v.reading.(tempDeci := TenthsC(b5))),
            Convert(FetchWord(w), CONV_PRESS))
  {
    FetchWordEffect(w);
  }

  /** The temperature half of a fault-free cycle: trigger, wait, read and
      publish, trigger the pressure conversion. */
  lemma TemperatureHalf(c: Coeffs, v: Vars, w: Wire, n0: u32, n1: u32, n2: u32)
    requires v.state == Start
    requires |w.acks| >= 9 && w.acks[0] && w.acks[3] && w.acks[6]
    requires Elapsed(n1, n0) > TEMP_WAIT
    requires TempDefined(c, RxWord(w) as int)
    ensures var calls := [Process(n0), Process(n1), Process(n2)];
      var b5 := B5(c, RxWord(w) as int);
      && RunDefined(c, v, w, calls)
      && Trail(c, v, w, calls) == [WaitForTemp, ReadTemp, WaitForPress]
      && Run(c, v, w, calls) ==
           Sys(v.(state := WaitForPress, t := n2, b5 := b5, reading := v.reading.(tempDeci := TenthsC(b5))),
               Convert(FetchWord(Convert(w, CONV_TEMP)), CONV_PRESS))
  {
    TriggerStep(c, v, n0, w);
    var s1 := Step(c, v, n0, w);
    ConvertEffect(w, CONV_TEMP);
    var s2 := Step(c, s1.v, n1, s1.w);
    assert s2 == Sys(s1.v.(state := ReadTemp), s1.w);
    assert RxWord(s2.w) == RxWord(w);
    TempReadStep(c, s2.v, n2, s2.w);
    RunFirst(c, s2.v, s2.w, n2, []);
    RunFirst(c, s1.v, s1.w, n1, [Process(n2)]);
    RunFirst(c, v, w, n0, [Process(n1), Process(n2)]);
  }

  /** What the temperature half leaves on the bus. */
  lemma TemperatureHalfWire(w: Wire)
    requires |w.acks| >= 9
    ensures var m := Convert(FetchWord(Convert(w, CONV_TEMP)), CONV_PRESS);
      && m.trace == w.trace + ConvertEvents(CONV_TEMP) + FETCH_EVENTS + ConvertEvents(CONV_PRESS)
      && m.acks == w.acks[9..]
      && RxWord(m) == Word(RxByte(w, 2), RxByte(w, 3))
  {
    ConvertEffect(w, CONV_TEMP);
    var w1 := Convert(w, CONV_TEMP);
    FetchWordEffect(w1);
    ConvertEffect(FetchWord(w1), CONV_PRESS);
  }

  /** The pressure half of a fault-free cycle: wait, read, compensate and
      publish, return to `SM_IDLE`. */
  lemma PressureHalf(c: Coeffs, v: Vars, w: Wire, n3: u32, n4: u32, n5: u32)
    requires v.state == WaitForPress
    requires |w.acks| >= 3 && w.acks[0]
    requires Elapsed(n3, v.t) > PRESS_WAIT
    requires PressDefined(c, v.b5, RxWord(w) as int)
    ensures var calls := [Process(n3), Process(n4), Process(n5)];
      && RunDefined(c, v, w, calls)
      && Trail(c, v, w, calls) == [ReadPress, CalcPress, Idle]
      && Run(c, v, w, calls).v.reading == v.reading.(pressPa := Pressure(c, v.b5, RxWord(w) as int))
      && Run(c, v, w, calls).w.trace == w.trace + FETCH_EVENTS
  {
    var s4 := Step(c, v, n3, w);
    assert s4 == Sys(v.(state := ReadPress), w);
    var s5 := Step(c, s4.v, n4, s4.w);
    FetchWordEffect(w);
    assert s5 == Sys(v.(state := CalcPress, up := RxWord(w) as int), FetchWord(w));
    var s6 := Step(c, s5.v, n5, s5.w);
    RunFirst(c, s5.v, s5.w, n5, []);
    RunFirst(c, s4.v, s4.w, n4, [Process(n5)]);
    RunFirst(c, v, w, n3, [Process(n4), Process(n5)]);
  }

  /** A fault-free cycle: from `SM_START`, with the device acknowledging
      every byte and the main loop calling late enough in the two waiting
      states, six calls pass through every phase in order and return to
      `SM_IDLE`, having published the compensated temperature and pressure
      of the two words the device sent. */
  lemma {:induction false} FaultFreeCycle(c: Coeffs, v: Vars, w: Wire, n0: u32, n1: u32, n2: u32, n3: u32, n4: u32, n5: u32)
    requires v.state == Start
    requires |w.acks| >= 12 && forall i :: 0 <= i < 12 ==> w.acks[i]
    requires Elapsed(n1, n0) > TEMP_WAIT && Elapsed(n3, n2) > PRESS_WAIT
    requires TempDefined(c, Word(RxByte(w, 0), RxByte(w, 1)) as int)
    requires PressDefined(c, B5(c, Word(RxByte(w, 0), RxByte(w, 1)) as int), Word(RxByte(w, 2), RxByte(w, 3)) as int)
    ensures var calls := [Process(n0), Process(n1), Process(n2)] + [Process(n3), Process(n4), Process(n5)];
      && RunDefined(c, v, w, calls)
      && Trail(c, v, w, calls) == [WaitForTemp, ReadTemp, WaitForPress] + [ReadPress, CalcPress, Idle]
      && Run(c, v, w, calls).v.reading ==
           (var b5 := B5(c, Word(RxByte(w, 0), RxByte(w, 1)) as int);
            BaroReading(TenthsC(b5), Pressure(c, b5, Word(RxByte(w, 2), RxByte(w, 3)) as int)))
      && Run(c, v, w, calls).w.trace == w.trace + ConvertEvents(CONV_TEMP) + FETCH_EVENTS + ConvertEvents(CONV_PRESS) + FETCH_EVENTS
  {
    var first := [Process(n0), Process(n1), Process(n2)];
    var second := [Process(n3), Process(n4), Process(n5)];
    TemperatureHalf(c, v, w, n0, n1, n2);
    TemperatureHalfWire(w);
    var m := Run(c, v, w, first);
    assert m.w.acks[0] == w.acks[9];
    PressureHalf(c, m.v, m.w, n3, n4, n5);
    RunAppend(c, v, w, first, second);
  }
}
