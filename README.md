# AIR_LCDuino sensor drivers and wind gauge, modelled in Dafny

This project models the sensor-reading core of the AIR_LCDuino firmware, an
ATmega328P weather/instrument display:

- three I2C sensor drivers, each a cooperative state machine that the main
  loop arms with `*_startMeasure` and advances one phase per call of
  `*_Read_Process`:
  - the BMP085 barometer, with the fixed-point compensation of section 3.5
    of the Bosch BMP085 datasheet;
  - the SI7021 hygrometer;
  - the TMP100 thermometer;
- `WindRead`, which samples the anemometer once a second into a ten-minute
  ring buffer, derives gust and average, and turns the vane's ADC reading
  into a bearing.

Modules:

- `CInt`: the AVR integer semantics. `int` is 16 bits and `long` is 32 bits.
  It covers unsigned wrap-around, reinterpreting a word as a `short` or an
  `unsigned long` as a `long`, C's truncating `/` and `%`, arithmetic `>>`,
  and `millis()` differences.
- `I2c`: the I2C master primitives as an oracle. A `Bus` object records every
  event on a trace. It draws the slaves' acknowledge bits and data bytes from
  two scripted streams: an exhausted ack stream is a NACK, and an exhausted
  data stream reads 0xFF (no one drives SDA).
- `Bmp085Comp`: the pure compensation formulas.
- `Bmp085`, `Si7021`, `Tmp100`: each driver in two forms:
  - a class whose methods change its fields and the bus as the C functions do;
  - a pure `Step` function over the driver's variables and the bus.

  Each driver's `ReadProcess` is proved equal to `Step`. `Init`,
  `StartMeasure` and the BMP085's `Trigger` carry contracts of their own. The
  multi-call properties are proved over `Run` and `Trail`, which fold `Step`
  over a sequence of main-loop calls.
- `Wind`: a `WindGauge` class with the ring buffer as an array. Its gate is
  the wrap-safe comparison `WindRead` evidently intends (see "## Findings").
  - A ghost history of every stored sample ties the ring to the ten-minute
    window.
  - The gust and the average are proved to be the maximum and the rounded mean
    of that window.

## Model

| member | source | states |
|---|---|---|
| CInt.Word | BMP085_Baro.cpp:142-143 | the word's high byte is the first byte read and its low byte the second |
| CInt.Wrap32 | BMP085_Baro.cpp:215-216 | `unsigned long` arithmetic: values already in range are kept, others reduced modulo 2^32 |
| CInt.Wrap16 | Wind.cpp:196 | 16-bit `unsigned int` arithmetic: values in range are kept, others reduced modulo 2^16 |
| CInt.ToShort | BMP085_Baro.cpp:16-25 | the union's `short` view of a word is the 16-bit value congruent to it modulo 2^16 |
| CInt.ToLong | BMP085_Baro.cpp:218-225 | an `unsigned long` stored into a `long` keeps its bit pattern: in range, and wrapping back gives the original |
| CInt.TruncatedDivision | Wind.cpp:196-199 | C's `/` and `%`: dividend = quotient * divisor + remainder, the remainder smaller than the divisor and zero or of the dividend's sign |
| CInt.NonNegativeDivision | Wind.cpp:196-199 | on a non-negative dividend and a positive divisor C's `/` and `%` are Dafny's, the quotient non-negative and at most the dividend |
| CInt.Asr | BMP085_Baro.cpp:202-231 | `>> k` on a signed `long` brackets the value between r*2^k and (r+1)*2^k (rounds toward minus infinity) |
| CInt.Elapsed | BMP085_Baro.cpp:125 | `millis() - t`: adding the result to `t` gives `now` modulo 2^32 |
| CInt.ElapsedAcrossWrap | BMP085_Baro.cpp:125 | any distance below 2^32 is recovered exactly, also across a wrap of the counter |
| I2c.ReadAcksEffect | BMP085_Baro.cpp:71-75 | n acknowledged reads append n read events, consume no ack bits and move the data stream n bytes on |
| Bmp085Comp.CoeffsOf | BMP085_Baro.cpp:15-25 | AC4..AC6 are the words read; the signed coefficients are their 16-bit two's-complement values |
| Bmp085Comp.TempX1 | BMP085_Baro.cpp:147 | X1 is (UT - AC6) * AC5 / 2^15 rounded toward zero: its magnitude is the truncated quotient of magnitudes, and its sign is the product's |
| Bmp085Comp.TempX2 | BMP085_Baro.cpp:148 | no contract of its own: `MC * 2048 / (X1 + MD)` under C's truncating division, defined only where `TempDefined` excludes a zero divisor; its value at the datasheet point is checked by `DatasheetTemperature` |
| Bmp085Comp.B5 | BMP085_Baro.cpp:149 | no contract of its own: X1 + X2; `TenthsC` states how T rounds it and `DatasheetTemperature` checks it is 2400 at the datasheet point |
| Bmp085Comp.TenthsC | BMP085_Baro.cpp:150 | `T = (B5+8)/16` is B5/16 rounded to nearest for B5 >= -8, and one tenth high at most below that (truncation toward zero) |
| Bmp085Comp.B3 | BMP085_Baro.cpp:201-211 | no contract of its own: the arithmetic shifts of lines 202-211 in `long`; checked only at the datasheet point (422) by `DatasheetPressure` |
| Bmp085Comp.B4 | BMP085_Baro.cpp:212-215 | B4 fits 17 bits: the `unsigned long` product shifted right by 15 is below 2^17 |
| Bmp085Comp.B7 | BMP085_Baro.cpp:216 | B7 is the exact product (UP - B3) * 50000 whenever UP - B3 lies in [0, 85899], where it fits 32 bits; otherwise it wraps |
| Bmp085Comp.Quotient | BMP085_Baro.cpp:218-225 | no contract of its own: the two branches of the `B7 < 0x80000000` test; `QuotientNearExact` ties both to 2*B7/B4 |
| Bmp085Comp.Correction | BMP085_Baro.cpp:227-231 | no contract of its own: the final correction term; checked only at the datasheet point (-39) by `DatasheetPressure` |
| Bmp085Comp.Pressure | BMP085_Baro.cpp:201-231 | no contract of its own and no all-inputs property beyond `QuotientNearExact`: the compensated pressure is checked only at the datasheet point (69964 Pa) by `DatasheetPressure` |
| Bmp085Comp.QuotientNearExact | BMP085_Baro.cpp:218-225 | both branches of the `B7 < 0x80000000` test give 2*B7/B4, exactly on the first and at most one pascal low on the second |
| Bmp085Comp.DatasheetTemperature | BMP085_Baro.cpp:147-150 | the datasheet example (UT = 27898) gives X1 = 4743, X2 = -2343 (the datasheet's floor division gives -2344), B5 = 2400, T = 150 |
| Bmp085Comp.DatasheetPressure | BMP085_Baro.cpp:201-231 | the datasheet example (UP = 23843) is defined and gives B3 = 422, B4 = 33457, B7 = 1171050000, p = 70003 before correction, 69964 Pa after |
| Bmp085.FromOrd | BMP085_Baro.cpp:30-40 | the state with a given number of `_BMP085_READ_SM` |
| Bmp085.Succ | BMP085_Baro.cpp:30-40 | `ThisState++` moves to the state numbered one higher |
| Bmp085.Step | BMP085_Baro.cpp:96-258 | no contract of its own: one pass of the `switch`; `Barometer.ReadProcess` is proved equal to it, and the `Bmp085` lemmas below state its properties |
| Bmp085.CalWords | BMP085_Baro.cpp:70-75 | the eleven calibration words, word i with high byte the data byte 2i and low byte the data byte 2i+1 |
| Bmp085.Barometer.constructor | BMP085_Baro.cpp:44-45 | the driver starts in `SM_NOTFOUND` with a zeroed calibration table |
| Bmp085.Barometer.ReadCalTable | BMP085_Baro.cpp:70-75 | the loop reads 22 acknowledged bytes and stores word i as bytes 2i (high) and 2i+1 (low) |
| Bmp085.Barometer.Init | BMP085_Baro.cpp:47-87 | no ack on the address: error 1, `SM_NOTFOUND`, START+STOP; no ack on the EEPROM register: error 3, `SM_NOTFOUND`; else error 0, `SM_IDLE`, the 11 words stored, bus as read |
| Bmp085.Barometer.StartMeasure | BMP085_Baro.cpp:90-95 | the state becomes `Requested` of the old one |
| Bmp085.Barometer.Trigger | BMP085_Baro.cpp:108-122 | a START that is not acknowledged leads to `SM_ERROR`; otherwise the conversion command is written, `t` is noted and the state advances, as `Triggered` says |
| Bmp085.FetchResult | BMP085_Baro.cpp:139-145 | the returned word is the next two data bytes, high first, and the bus shows register write, repeated START, ACK read, NACK read, STOP |
| Bmp085.Barometer.ReadProcess | BMP085_Baro.cpp:96-258 | the new driver variables and bus are exactly `Step` of the old ones |
| Bmp085.RequestOnlyFromIdle | BMP085_Baro.cpp:90-95 | `startMeasure` yields `SM_START` iff the driver was idle (or already starting); every other state is left alone |
| Bmp085.WaitPhases | BMP085_Baro.cpp:124-173 | the waiting states touch neither the bus nor the reading and advance iff more than 5 (resp. 40) ms passed, modulo 2^32 |
| Bmp085.NackLeadsToError | BMP085_Baro.cpp:106-181 | a NACKed START in `SM_START`, `SM_Read_Temp` or `SM_Read_Press` leads to `SM_ERROR` with only that START added and the bus not released |
| Bmp085.PressureTriggerNack | BMP085_Baro.cpp:152-159 | if the pressure trigger fails, the temperature and B5 computed just before are still published |
| Bmp085.ErrorRecovers | BMP085_Baro.cpp:239-245 | `SM_ERROR` publishes -273.0 degC / 0.0 hPa, issues STOP and goes to `SM_IDLE` |
| Bmp085.StepKeepsBusFree | BMP085_Baro.cpp:106-255 | a step only appends to the trace; if it adds events and does not end in `SM_ERROR`, the last one is STOP |
| Bmp085.RunKeepsBusFree | BMP085_Baro.cpp:106-255 | over any sequence of calls the bus is released between calls unless the driver is in `SM_ERROR` |
| Bmp085.PublicationPoints | BMP085_Baro.cpp:152-233 | pressure changes only in `SM_Calc_Press` (or the sentinels), temperature only in `SM_Read_Temp` (or the sentinels) |
| Bmp085.NotFoundForever | BMP085_Baro.cpp:250-254 | `SM_NOTFOUND` is never left, never touches the bus, and publishes -301.0 degC / -1.0 hPa once it gets a turn |
| Bmp085.TriggerStep | BMP085_Baro.cpp:108-122 | `SM_START` with an answering device goes to `SM_Wait_for_Temp` with `t` noted and the temperature command sent |
| Bmp085.TempReadStep | BMP085_Baro.cpp:129-167 | `SM_Read_Temp` with an answering device publishes T, keeps B5 and triggers the pressure conversion |
| Bmp085.TemperatureHalf | BMP085_Baro.cpp:108-167 | three calls on an answering device take `SM_START` to `SM_Wait_for_Press` with T and B5 of the first word |
| Bmp085.PressureHalf | BMP085_Baro.cpp:169-236 | three calls from `SM_Wait_for_Press` go through read and compute to `SM_IDLE`, publishing the compensated pressure |
| Bmp085.FaultFreeCycle | BMP085_Baro.cpp:106-237 | six calls on a fully acknowledging device visit every phase in order, publish T and p of the two words read, and leave exactly the four expected transfers on the bus |
| Si7021.Succ | SI_7021.cpp:22-30 | `ThisState++` moves to the state numbered one higher |
| Si7021.TempOf | SI_7021.cpp:121 | no contract of its own: the datasheet's temperature formula; its range is in `MeasurementRange` and its monotonicity in `ConversionsIncreasing` |
| Si7021.HumidityOf | SI_7021.cpp:122 | no contract of its own: the datasheet's humidity formula; its range is in `MeasurementRange` and its monotonicity in `ConversionsIncreasing` |
| Si7021.Step | SI_7021.cpp:79-141 | no contract of its own: one pass of the `switch`; `Hygrometer.ReadProcess` is proved equal to it, and the `Si7021` lemmas below state its properties |
| Si7021.Hygrometer.constructor | SI_7021.cpp:31-33 | the driver starts in `SM_NOTFOUND` |
| Si7021.Hygrometer.Init | SI_7021.cpp:36-54 | error code and state follow the address ack (`SM_IDLE` / `SM_NOTFOUND`); the bus sees START then STOP |
| Si7021.Hygrometer.StartMeasure | SI_7021.cpp:57-62 | the state becomes `Requested` of the old one |
| Si7021.Hygrometer.ReadProcess | SI_7021.cpp:64-143 | the new driver variables and bus are exactly `Step` of the old ones |
| Si7021.RequestOnlyFromIdle | SI_7021.cpp:57-62 | `startMeasure` arms only an idle driver |
| Si7021.MeasurementRange | SI_7021.cpp:121-122 | published temperature in [-46.85, 128.87) degC, humidity in [-6, 119) %RH; never the sentinel temperature |
| Si7021.ConversionsIncreasing | SI_7021.cpp:121-122 | both conversions are strictly increasing in the code (iff) |
| Si7021.WaitPhase | SI_7021.cpp:93-96 | the waiting state touches nothing and advances iff more than 30 ms passed, modulo 2^32 |
| Si7021.PublicationPoint | SI_7021.cpp:98-125 | the reading changes only in `SM_Read_Results` or to a sentinel; a failed read leaves it and only sets `SM_ERROR` |
| Si7021.ResultsPublished | SI_7021.cpp:98-125 | a successful read publishes humidity from bytes 0-1 and temperature from bytes 2-3, both MSB first, and returns to `SM_IDLE` |
| Si7021.HumidityFetchEffect | SI_7021.cpp:99-107 | the humidity read adds its four events, uses one ack bit and two data bytes |
| Si7021.TempFetchEffect | SI_7021.cpp:110-119 | the temperature read adds its six events |
| Si7021.StepKeepsBusFree | SI_7021.cpp:79-141 | a step only appends to the trace and, unless it ends in `SM_ERROR`, ends with STOP |
| Si7021.RunKeepsBusFree | SI_7021.cpp:79-141 | the bus is released between calls unless the driver is in `SM_ERROR` |
| Si7021.StopForever | SI_7021.cpp:79-141 | `SM_STOP` has no case in the switch: no call ever changes the driver or the bus again |
| Si7021.ErrorIsFinal | SI_7021.cpp:127-132 | from `SM_ERROR`, any run with at least one `Read_Process` call (`startMeasure` calls anywhere in it) publishes -302.0 / 1.0, issues one STOP and ends in `SM_STOP` |
| Si7021.NackLeadsToError | SI_7021.cpp:81-103 | a NACKed first START, in `SM_START` (write address) or `SM_Read_Results` (read address), leads to `SM_ERROR` with only that START added and the bus not released |
| Si7021.SecondStartNack | SI_7021.cpp:98-114 | a NACKed second START in `SM_Read_Results` leads to `SM_ERROR` with the humidity transfer and that START added, the bus not released and the humidity not published |
| Si7021.NotFoundForever | SI_7021.cpp:137-140 | `SM_NOTFOUND` is never left, never touches the bus, and publishes -302.0 / 2.0 once it gets a turn |
| Si7021.FaultFreeCycle | SI_7021.cpp:81-125 | three calls on an answering device trigger, wait, read and publish, return to `SM_IDLE`, with exactly the expected events |
| Tmp100.Succ | TMP100.cpp:23-31 | `ThisState++` moves to the state numbered one higher |
| Tmp100.TempOf | TMP100.cpp:119-120 | the published value is (word / 16) / 16 degC, between 0 and 255.9375 |
| Tmp100.Step | TMP100.cpp:81-139 | no contract of its own: one pass of the `switch`; `Thermometer.ReadProcess` is proved equal to it, and the `Tmp100` lemmas below state its properties |
| Tmp100.Thermometer.constructor | TMP100.cpp:32-34 | the driver starts in `SM_NOTFOUND` |
| Tmp100.Thermometer.Init | TMP100.cpp:38-61 | error code and state follow the address ack; on ack the control register gets 0x61, and the bus is released either way |
| Tmp100.Thermometer.StartMeasure | TMP100.cpp:64-69 | the state becomes `Requested` of the old one |
| Tmp100.Thermometer.ReadProcess | TMP100.cpp:71-141 | the new driver variables and bus are exactly `Step` of the old ones |
| Tmp100.RequestOnlyFromIdle | TMP100.cpp:64-69 | `startMeasure` arms only an idle driver |
| Tmp100.ConfigBytes | TMP100.cpp:18-35 | `conf_reg`, 0x60 OR 0x01, is 0x61 and does not start a conversion; the trigger, `conf_reg` OR 0x80, is 0xE1 and keeps every other bit of it |
| Tmp100.PublishedVersusDevice | TMP100.cpp:115-120 | the unsigned shift gives the device temperature for words below 0x8000 and 256 degC more above (negative temperatures); never -303.0 |
| Tmp100.WaitPhase | TMP100.cpp:97-103 | the waiting state touches nothing and advances iff more than 400 ms passed, modulo 2^32 |
| Tmp100.StepKeepsBusFree | TMP100.cpp:81-139 | a step only appends to the trace and, unless it ends in `SM_ERROR`, ends with STOP |
| Tmp100.RunKeepsBusFree | TMP100.cpp:81-139 | the bus is released between calls unless the driver is in `SM_ERROR` |
| Tmp100.StopForever | TMP100.cpp:81-139 | `SM_STOP` has no case in the switch: nothing changes any more |
| Tmp100.ErrorIsFinal | TMP100.cpp:126-130 | from `SM_ERROR`, any run with at least one `Read_Process` call (`startMeasure` calls anywhere in it) publishes -303.0, issues one STOP and ends in `SM_STOP` |
| Tmp100.NackLeadsToError | TMP100.cpp:83-110 | a NACKed START in `SM_START` or `SM_Read_Results` leads to `SM_ERROR` with only that START added and the bus not released |
| Tmp100.NotFoundForever | TMP100.cpp:135-138 | `SM_NOTFOUND` is never left, never touches the bus, and publishes -303.0 once it gets a turn |
| Tmp100.ConfigureEffect | TMP100.cpp:90-92 | the one-shot trigger adds its four events and uses three ack bits |
| Tmp100.TempFetchEffect | TMP100.cpp:112-117 | the temperature read adds its six events |
| Tmp100.FaultFreeCycle | TMP100.cpp:83-124 | three calls on an answering device trigger, wait, read and publish, return to `SM_IDLE`, with exactly the expected events |
| Wind.Direction | Wind.cpp:196-199 | the bearing after C's `%` lies strictly between -360 and 360 |
| Wind.Max | Wind.cpp:179-186 | the maximum is a byte, bounds every sample, is one of them, and is 0 for none |
| Wind.Sum | Wind.cpp:179-186 | the sum of n bytes lies in [0, 255n] |
| Wind.RoundedMean | Wind.cpp:188-189 | no contract of its own: the sum over 600 plus one half, truncated; `RoundedMeanIsNearest`, `MeanFitsByte` and `AverageAtMostGust` state what it is |
| Wind.WindGauge.constructor | Wind.cpp:21-25 | statics and globals start at zero, the ring empty (all zeros), the calibration as given |
| Wind.WindGauge.Store | Wind.cpp:173-174 | the sample goes into slot `GustNdx`, the index advances modulo 600, the history grows by it, and the ring still reads as the window |
| Wind.WindGauge.Scan | Wind.cpp:179-186 | the loop's sum and peak are `Sum` and `Max` of all 600 slots |
| Wind.WindGauge.Pulse | Wind.cpp:34-38 | the pin-change interrupt adds one edge to the 16-bit count, wrapping at 2^16 |
| Wind.WindGauge.Open | Wind.cpp:159-165 | the count is taken and cleared, the period is 1000 + (now - t_next) mod 2^32, and the next gate is now + 1000 mod 2^32 |
| Wind.WindGauge.Summarize | Wind.cpp:176-189 | the gust and the average are the maximum and rounded mean of the slots, hence of the ten-minute window |
| Wind.WindGauge.Record | Wind.cpp:173-189 | storing and summarising: the slot update, the index advance and the gust/average over the new window |
| Wind.WindGauge.Sample | Wind.cpp:159-199 | one pass past the gate: sample, store, gust/average over the window, bearing of the vane reading |
| Wind.WindGauge.Read | Wind.cpp:140-203 | with the corrected gate `Due` (see "## Findings"): before `t_next` nothing changes; past it everything `Sample` states, the period is one second plus the lateness of the call, and the ring still holds the window |
| Wind.WindowStatistics | Wind.cpp:176-186 | scanning the ring from slot 0 gives the same maximum and sum as reading it oldest first |
| Wind.MeanFitsByte | Wind.cpp:188-189 | the rounded mean of 600 bytes fits an `unsigned char` |
| Wind.WindowShift | Wind.cpp:173-174 | one more sample drops the oldest from the window and appends the new one |
| Wind.RingStore | Wind.cpp:173-174 | writing at the index and advancing it rotates the window by the new sample |
| Wind.RoundedMeanIsNearest | Wind.cpp:188-189 | the average is within half a unit of the exact mean (rounding half up) |
| Wind.AverageAtMostGust | Wind.cpp:179-189 | the average never exceeds the gust |
| Wind.EarlyWindow | Wind.cpp:176-177 | in the first ten minutes the window is the samples so far preceded by zeros, which the average takes in |
| Wind.DirectionInRange | Wind.cpp:196-199 | with the reading inside [min, max] and a non-negative offset, the bearing is in [0, 360) |
| Wind.BelowMinWraps | Wind.cpp:196 | a reading below `WDir_min` is not clamped: the unsigned subtraction wraps to 2^16 + adc - min |
| Wind.MinIsOffset | Wind.cpp:196-199 | the vane at `WDir_min` reads as the offset, reduced by C's `%` |
| Wind.MaxIsOffsetPlusTurn | Wind.cpp:196-199 | the vane at `WDir_max` reads as the offset plus 360, reduced by C's `%` |
| Wind.NorthAtBothEnds | Wind.cpp:196-199 | with zero offset both ends of the calibrated range read 0 |
| Wind.DefaultSouth | Wind.cpp:16-21 | with the default calibration {70, 660, 0} the reading 365 is 180 degrees |
| Wind.DefaultBelowMin | Wind.cpp:16-21 | with the default calibration the reading 69 wraps and reads 27 degrees |
| Wind.PeriodAtLeastOneSecond | Wind.cpp:163 | past the corrected gate the period is 1000 ms plus `now - t_next` modulo 2^32, so at least one second |
| Wind.GateFloodsBeforeWrap | Wind.cpp:152-164 | the gate as written: after a gate opened at any time within 1000 ms of the wrap of `millis()`, every call before the wrap passes it again, with a period of less than one second |
| Wind.DueWaitsOneSecond | Wind.cpp:152-164 | the corrected gate, at any counter value and across the wrap: shut for calls less than 1000 ms after the last opening, open after that with the period equal to the true elapsed time |

## Findings

| source | as written | input that shows it | evidently intended | confidence | as-written member | corrected member |
|---|---|---|---|---|---|---|
| Wind.cpp:152-164 | the gate `millis() < t_next` compares raw counter values, and `t_next = t_now + 1000` wraps past zero when the gate opens within a second of the wrap of `millis()` | a gate opened at `millis()` = 2^32 - 500 sets `t_next` to 500; a call at 2^32 - 499 passes the gate again and stores a sample for a 1 ms period, and so does every call until the wrap (a call in the same millisecond gives a period of 0, which the speed formula divides by) | one sample per second at every counter value: compare the difference `(long)(millis() - t_next) < 0` | high, not executed | Wind.GateFloodsBeforeWrap | Wind.DueWaitsOneSecond |

## Left out

- The I2C master library (`i2c_init`, `i2c_start` and the rest) is not part of this model. Its calls are an oracle over scripted ack and data streams. A START answers 1 on NACK, and a read of an absent device gives 0xFF.
- Time: `millis()` is a parameter of each step. It is read once per call; the C code reads it once per call as well.
- `delay(11)` in `BMP085_init` and the watchdog calls do nothing the model can observe.
- Floating point:
  - The BMP085 reading is kept as the integers the `float`s are made from: T in tenths of a degree Celsius and p in pascals. The `/10.0` and `/100.0` are not modelled.
  - The SI7021 and TMP100 conversions use exact reals. The TMP100 value n/16 is exact in binary floating point; the SI7021 products are rounded by the hardware's `float`s, and that rounding is not modelled.
  - The wind average is exact integer rounding. A `float` holds every sum of 600 bytes exactly, and the rounded quotient is at least 1/600 from a rounding boundary unless it is a half.
- `Wind.WindGauge.Read` takes `WindSpdMPH` as the input `spd`. The floating-point speed formula of `WindRead` (count, cups constant, period) is not modelled; the period it divides by is reported as `Sample`'s result.
- `analogRead` becomes the input `adc`. The pin-change interrupt is the method `Pulse`, which the caller interleaves between calls of `Read`. Concurrency with the interrupt, and the `PCICR` masking around the read, are not modelled.
- Wind.WindGauge.Read: its gate is the corrected `Due`, not the raw comparison of `Wind.cpp:152`; `GateAsWritten` and `GateFloodsBeforeWrap` keep the behaviour as written (see "## Findings").
- `WindSetup` (pin and interrupt setup, `EEPROM.get`) and `WindDirCal` (interactive calibration on the LCD and encoder, `EEPROM.put`) are not modelled. The calibration is a constructor argument instead.
- `Alt_Setting_adjust` (LCD/encoder loop), Atmos.c (altitude and unit conversions), RPM.cpp and the Geiger configurator are outside the sensor core.
- `HygReading.DewptC` is not written by the SI7021 driver, so it is not modelled.
- Bmp085.Barometer.ReadProcess: requires `Computable`, because the C code divides by `X1 + MD` and `B4` and multiplies in `long`. When the device's words make a divisor zero or a product overflow, the C behaviour is undefined and the model says nothing.
- Wind.WindGauge.Read: requires `DirDefined` of the calibration when the gate opens. `WDir_max == WDir_min` divides by zero, and a difference outside `int` overflows, both undefined in C.
- The index update `GustNdx = ++GustNdx % WIND_GUST_PER` is modelled as (GustNdx + 1) % 600, its meaning under C++11 sequencing rules.
