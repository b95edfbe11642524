/** The TMP100 temperature driver: `TMP100_init` probes the device and
    puts it in 12-bit shutdown mode, `TMP100_startMeasure` arms a
    measurement, and `TMP100_Read_Process`, called on every pass of the
    main loop, does one phase of it: a one-shot conversion, a wait, a read
    of the temperature register. */
module Tmp100 {
  import opened CInt
  import opened I2c

  const ADDR_W: u8 := 0x94            // ADD0 high, ADD1 low, + I2C_WRITE
  const ADDR_R: u8 := 0x95            // + I2C_READ
  const TEMP_REG: u8 := 0x00
  const CTRL_REG: u8 := 0x01
  const CONFIG_12BIT: bv8 := 0x60
  const SHUTDOWN_BIT: bv8 := 0x01
  const ONE_SHOT_BIT: bv8 := 0x80
  /** `conf_reg`: 12-bit resolution with shutdown between readings. */
  const CONF: u8 := (CONFIG_12BIT | SHUTDOWN_BIT) as u8
  /** `conf_reg | TMP100_OneShotBit`: the same, and start one conversion. */
  const ONE_SHOT: u8 := (CONF as bv8 | ONE_SHOT_BIT) as u8
  const CONVERSION_WAIT: u32 := 400   // ms

  /** `_TMP100_SM`, in the order of its numeric values. */
  datatype State = Start | WaitResults | ReadResults | Error | Stop | Idle | NotFound
  {
    function Ord(): nat {
      match this
      case Start => 0 case WaitResults => 1 case ReadResults => 2 case Error => 3
      case Stop => 4 case Idle => 5 case NotFound => 6
    }
  }

  function FromOrd(n: nat): (s: State)
    requires n <= 6
    ensures s.Ord() == n
  {
    [Start, WaitResults, ReadResults, Error, Stop, Idle, NotFound][n]
  }

  /** `ThisState++`. */
  function Succ(s: State): (r: State)
    requires s.Ord() < 6
    ensures r.Ord() == s.Ord() + 1
  {
    FromOrd(s.Ord() + 1)
  }

  /** -303.0 degC: a bus failure, or no device. */
  const SENTINEL: real := -303.0

  /** The published temperature of a register word: the word shifted right
      by four as an `unsigned short`, times 0.0625 (exact in binary
      floating point). */
  function TempOf(word: u16): (c: real)
    ensures 0.0 <= c <= 255.9375
    ensures c * 16.0 == (word as int / 16) as real
  {
    (word as int / 16) as real / 16.0
  }

  /** What the device means by a register word: a 12-bit two's-complement
      count of 1/16 degC, left-justified in the 16-bit register. */
  function DeviceTemp(word: u16): real {
    Asr(ToShort(word), 4) as real / 16.0
  }

  /** `ThisState`, the static `t` and `TMP100_TempC`. */
  datatype Vars = Vars(state: State, t: u32, tempC: real)

  datatype Sys = Sys(v: Vars, w: Wire)

  /** `TMP100_startMeasure`. */
  function Requested(s: State): State {
    if s == Idle then Start else s
  }

  /** An unacknowledged START: the phase is abandoned for `SM_ERROR`. */
  function Failed(v: Vars, w: Wire): Sys {
    Sys(v.(state := Error), Sent(w, StartCond(ADDR_W)))
  }

  /** START, a write of `data` to the control register, STOP. */
  function Configure(w: Wire, data: u8): Wire {
    Stopped(Sent(Sent(Sent(w, StartCond(ADDR_W)), WriteByte(CTRL_REG)), WriteByte(data)))
  }

  /** START, the temperature register, a repeated START in read mode, the
      two bytes, STOP. */
  function TempFetch(w: Wire): Wire {
    var w1 := Sent(Sent(Sent(w, StartCond(ADDR_W)), WriteByte(TEMP_REG)), RepStartCond(ADDR_R));
    Stopped(Received(Received(w1, ReadByteAck), ReadByteNak))
  }

  /** `TMP100_Read_Process`: one call, at time `now`. */
  function Step(v: Vars, now: u32, w: Wire): Sys {
    match v.state
    case Start =>
      if !Acked(w) then Failed(v, w)
      else Sys(v.(t := now, state := Succ(v.state)), Configure(w, ONE_SHOT))
    case WaitResults =>
      Sys(if Elapsed(now, v.t) > CONVERSION_WAIT then v.(state := Succ(v.state)) else v, w)
    case ReadResults =>
      if !Acked(w) then Failed(v, w)
      else Sys(v.(tempC := TempOf(RxWord(w)), state := Idle), TempFetch(w))
    case Error => Sys(v.(tempC := SENTINEL, state := Succ(v.state)), Stopped(w))
    case Stop => Sys(v, w)       // no case in the switch
    case Idle => Sys(v, w)
    case NotFound => Sys(v.(tempC := SENTINEL), w)
  }

  /** What the main loop does to the driver: arm it, or give it a turn. */
  datatype Call = Measure | Process(now: u32)

  /** The driver and the bus after a sequence of calls. */
  function Run(v: Vars, w: Wire, calls: seq<Call>): Sys
    decreases |calls|
  {
    if |calls| == 0 then Sys(v, w)
    else match calls[0]
      case Measure => Run(v.(state := Requested(v.state)), w, calls[1..])
      case Process(now) => var s := Step(v, now, w); Run(s.v, s.w, calls[1..])
  }

  /** The states the driver is in after each call of a sequence. */
  function Trail(v: Vars, w: Wire, calls: seq<Call>): seq<State>
    decreases |calls|
  {
    if |calls| == 0 then []
    else match calls[0]
      case Measure => [Requested(v.state)] + Trail(v.(state := Requested(v.state)), w, calls[1..])
      case Process(now) => var s := Step(v, now, w); [s.v.state] + Trail(s.v, s.w, calls[1..])
  }

  /** The bus stays free between calls whenever the driver is not in
      `SM_ERROR`. */
  predicate BusFree(v: Vars, w: Wire) {
    v.state != Error ==> Released(w.trace)
  }

  class Thermometer {
    var state: State
    var t: u32
    var tempC: real

    function Snapshot(): Vars
      reads this
    {
      Vars(state, t, tempC)
    }

    /** Program start: `ThisState = SM_NOTFOUND`, the reading zero. */
    constructor ()
      ensures Snapshot() == Vars(NotFound, 0, 0.0)
    {
      state, t, tempC := NotFound, 0, 0.0;
    }

    /** `TMP100_init`: probe the address; when the device answers, select
        12-bit resolution with shutdown between readings.  The bus is
        released either way. */
    method Init(bus: Bus) returns (err: u8)
      modifies this`state, bus
      ensures var w := old(bus.View());
        && err == (if Acked(w) then 0 else 1)
        && state == (if Acked(w) then Idle else NotFound)
        && bus.View() == (if Acked(w) then Configure(w, CONF) else Stopped(Sent(w, StartCond(ADDR_W))))
    {
      err := bus.Start(ADDR_W);
      if err != 0 {
        state := NotFound;
      } else {
        var _ := bus.Write(CTRL_REG);
        var _ := bus.Write(CONF);
        state := Idle;
      }
      bus.Stop();
    }

    /** `TMP100_startMeasure`: only an idle driver is armed. */
    method StartMeasure()
      modifies this`state
      ensures state == Requested(old(state))
    {
      if state == Idle {
        state := Start;
      }
    }

    /** `TMP100_Read_Process`. */
    method ReadProcess(now: u32, bus: Bus)
      modifies this, bus
      ensures Sys(Snapshot(), bus.View()) == Step(old(Snapshot()), now, old(bus.View()))
    {
      match state
      case Start =>
        var err := bus.Start(ADDR_W);
        if err != 0 {
          state := Error;
          return;
        }
        var _ := bus.Write(CTRL_REG);
        var _ := bus.Write(ONE_SHOT);
        bus.Stop();
        t := now;
        state := Succ(state);
      case WaitResults =>
        if Elapsed(now, t) > CONVERSION_WAIT {
          state := Succ(state);
        }
      case ReadResults =>
        var err := bus.Start(ADDR_W);
        if err != 0 {
          state := Error;
          return;
        }
        var _ := bus.Write(TEMP_REG);
        var _ := bus.RepStart(ADDR_R);
        var hi := bus.ReadAck();
        var lo := bus.ReadNak();
        bus.Stop();
        var raw := Word(hi, lo);
        raw := raw / 16;
        tempC := raw as real * 0.0625;
        state := Idle;
      case Error =>
        tempC := SENTINEL;
        bus.Stop();
        state := Succ(state);
      case Stop =>
      case Idle =>
      case NotFound =>
        tempC := SENTINEL;
    }
  }

  // ---------------------------------------------------------------- properties

  /** `TMP100_startMeasure` arms an idle driver and ignores every other
      state. */
  lemma RequestOnlyFromIdle(s: State)
    ensures Requested(s) == Start <==> s == Idle || s == Start
    ensures s != Idle ==> Requested(s) == s
  {
  }

  /** The configuration byte `TMP100_init` writes does not start a
      conversion, and the one-shot trigger keeps every other bit of it: the
      resolution and the shutdown mode survive each measurement. */
  lemma ConfigBytes()
    ensures CONF == 0x61 && ONE_SHOT == 0xE1
    ensures CONF as bv8 & ONE_SHOT_BIT == 0 && ONE_SHOT as bv8 & ONE_SHOT_BIT != 0
    ensures ONE_SHOT as bv8 & !ONE_SHOT_BIT == CONF as bv8
  {
  }

  /** The published value agrees with the device's reading above 0 degC
      and is 256 degC too high below it: the shift is on an unsigned word,
      so the sign is not extended.  It never equals the sentinel. */
  lemma {:induction false} PublishedVersusDevice(word: u16)
    ensures word < 0x8000 ==> TempOf(word) == DeviceTemp(word)
    ensures word >= 0x8000 ==> TempOf(word) == DeviceTemp(word) + 256.0
    ensures TempOf(word) != SENTINEL
  {
    var s := ToShort(word);
    if word >= 0x8000 {
      assert s == word as int - TWO16;
      var q := word as int / 16;
      assert word as int == 16 * q + word as int % 16;
      assert s == 16 * (q - 4096) + word as int % 16;
      assert Asr(s, 4) == q - 4096 by {
        assert Pow2(4) == 16;
      }
    } else {
      assert Pow2(4) == 16;
    }
  }

  /** The waiting state issues nothing on the bus and moves on only once
      more than 400 ms have passed since the trigger, counted modulo 2^32. */
  lemma WaitPhase(v: Vars, now: u32, w: Wire)
    requires v.state == WaitResults
    ensures var s := Step(v, now, w);
      && s.w == w
      && s.v == v.(state := if (now as int - v.t as int) % TWO32 > 400 then ReadResults else WaitResults)
  {
  }

  /** Every step only appends to the bus trace and, unless it ends in
      `SM_ERROR`, leaves the bus released. */
  lemma StepKeepsBusFree(v: Vars, now: u32, w: Wire)
    ensures var s := Step(v, now, w);
      && w.trace <= s.w.trace
      && (s.v.state != Error && |s.w.trace| > |w.trace| ==> s.w.trace[|s.w.trace| - 1] == StopCond)
      && (BusFree(v, w) ==> BusFree(s.v, s.w))
  {
  }

  /** The bus is free between calls, over any run, unless the driver is in
      `SM_ERROR`. */
  lemma {:induction false} RunKeepsBusFree(v: Vars, w: Wire, calls: seq<Call>)
    requires BusFree(v, w)
    ensures BusFree(Run(v, w, calls).v, Run(v, w, calls).w)
    ensures w.trace <= Run(v, w, calls).w.trace
    decreases |calls|
  {
    if |calls| > 0 {
      match calls[0]
      case Measure =>
        RunKeepsBusFree(v.(state := Requested(v.state)), w, calls[1..]);
      case Process(now) =>
        StepKeepsBusFree(v, now, w);
        var s := Step(v, now, w);
        RunKeepsBusFree(s.v, s.w, calls[1..]);
    }
  }

  /** `SM_STOP` is never left: nothing the main loop calls changes the
      driver, its reading or the bus. */
  lemma {:induction false} StopForever(v: Vars, w: Wire, calls: seq<Call>)
    requires v.state == Stop
    ensures Run(v, w, calls) == Sys(v, w)
    decreases |calls|
  {
    if |calls| > 0 {
      StopForever(v, w, calls[1..]);
    }
  }

  /** After a failure the driver reports it once and then measures no
      more: from `SM_ERROR`, any run that gives it a turn ends in `SM_STOP`
      with -303.0 published and one STOP issued; `startMeasure` calls
      before that turn change nothing. */
  lemma {:induction false} ErrorIsFinal(v: Vars, w: Wire, calls: seq<Call>)
    requires v.state == Error
    requires exists i :: 0 <= i < |calls| && calls[i].Process?
    ensures Run(v, w, calls) == Sys(v.(state := Stop, tempC := SENTINEL), Stopped(w))
    decreases |calls|
  {
    match calls[0]
    case Measure =>
      var i :| 0 <= i < |calls| && calls[i].Process?;
      assert calls[1..][i - 1].Process?;
      ErrorIsFinal(v, w, calls[1..]);
    case Process(_) =>
      StopForever(v.(state := Stop, tempC := SENTINEL), Stopped(w), calls[1..]);
  }

  /** Any failed START, in `SM_START` or in `SM_Read_Results`, sends the
      driver to `SM_ERROR` with the START as the last bus event: the bus is
      left held until `SM_ERROR` releases it. */
  lemma NackLeadsToError(v: Vars, now: u32, w: Wire)
    requires v.state == Start || v.state == ReadResults
    requires !Acked(w)
    ensures var s := Step(v, now, w);
      && s.v == v.(state := Error)
      && s.w.trace == w.trace + [StartCond(ADDR_W)]
      && !Released(s.w.trace)
  {
  }

  /** `SM_NOTFOUND` is never left: the driver never touches the bus, and
      after its first turn publishes -303.0. */
  lemma {:induction false} NotFoundForever(v: Vars, w: Wire, calls: seq<Call>)
    requires v.state == NotFound
    ensures Run(v, w, calls).v.state == NotFound
    ensures Run(v, w, calls).w == w
    ensures (exists i :: 0 <= i < |calls| && calls[i].Process?) ==> Run(v, w, calls).v.tempC == SENTINEL
    ensures (forall i :: 0 <= i < |calls| ==> calls[i].Measure?) ==> Run(v, w, calls).v.tempC == v.tempC
    decreases |calls|
  {
    if |calls| > 0 {
      var rest := calls[1..];
      assert forall i :: 0 <= i < |rest| ==> rest[i] == calls[i + 1];
      match calls[0]
      case Measure =>
        NotFoundForever(v, w, rest);
      case Process(now) =>
        var s := Step(v, now, w);
        NotFoundForever(s.v, s.w, rest);
        if forall i :: 0 <= i < |rest| ==> rest[i].Measure? {
          assert Run(v, w, calls).v.tempC == SENTINEL;
        }
    }
  }

  /** Prepending a call to a run. */
  lemma RunFirst(v: Vars, w: Wire, now: u32, rest: seq<Call>)
    ensures var s := Step(v, now, w);
      && Run(v, w, [Process(now)] + rest) == Run(s.v, s.w, rest)
      && Trail(v, w, [Process(now)] + rest) == [s.v.state] + Trail(s.v, s.w, rest)
  {
    assert ([Process(now)] + rest)[1..] == rest;
  }

  /** The bus events of the one-shot trigger. */
  const TRIGGER_EVENTS: seq<Event> := [StartCond(ADDR_W), WriteByte(CTRL_REG), WriteByte(ONE_SHOT), StopCond]

  /** The bus events of the temperature read. */
  const FETCH_EVENTS: seq<Event> :=
    [StartCond(ADDR_W), WriteByte(TEMP_REG), RepStartCond(ADDR_R), ReadByteAck, ReadByteNak, StopCond]

  /** A fault-free cycle: from `SM_START`, with the device acknowledging
      every byte and the main loop calling late enough, three calls trigger
      a one-shot conversion, wait, read and publish, and return to
      `SM_IDLE`. */
  lemma {:induction false} FaultFreeCycle(v: Vars, w: Wire, n0: u32, n1: u32, n2: u32)
    requires v.state == Start
    requires |w.acks| >= 4 && w.acks[0] && w.acks[3]
    requires Elapsed(n1, n0) > CONVERSION_WAIT
    ensures var calls := [Process(n0), Process(n1), Process(n2)];
      && Trail(v, w, calls) == [WaitResults, ReadResults, Idle]
      && Run(v, w, calls).v.tempC == TempOf(Word(RxByte(w, 0), RxByte(w, 1)))
      && Run(v, w, calls).w.trace == w.trace + TRIGGER_EVENTS + FETCH_EVENTS
  {
    ConfigureEffect(w, ONE_SHOT);
    var s1 := Step(v, n0, w);
    assert s1 == Sys(v.(t := n0, state := WaitResults), Configure(w, ONE_SHOT));
    var s2 := Step(s1.v, n1, s1.w);
    assert s2 == Sys(s1.v.(state := ReadResults), s1.w);
    assert Acked(s2.w);
    TempFetchEffect(s2.w);
    var s3 := Step(s2.v, n2, s2.w);
    assert s3 == Sys(s2.v.(tempC := TempOf(RxWord(s2.w)), state := Idle), TempFetch(s2.w));
    RunFirst(s2.v, s2.w, n2, []);
    RunFirst(s1.v, s1.w, n1, [Process(n2)]);
    RunFirst(v, w, n0, [Process(n1), Process(n2)]);
  }

  /** The configuration write: its four bus events, three acknowledge bits
      consumed, no data read. */
  lemma ConfigureEffect(w: Wire, data: u8)
    requires |w.acks| >= 3
    ensures Configure(w, data).trace
      == w.trace + [StartCond(ADDR_W), WriteByte(CTRL_REG), WriteByte(data), StopCond]
    ensures Configure(w, data).acks == w.acks[3..] && Configure(w, data).rx == w.rx
  {
  }

  /** The temperature read: its six bus events. */
  lemma TempFetchEffect(w: Wire)
    ensures TempFetch(w).trace == w.trace + FETCH_EVENTS
  {
  }
}
