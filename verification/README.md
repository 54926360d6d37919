# VCEG envelope generator core in Dafny

A model of the firmware of the VCEG ADSR envelope generator (`vceg.c`). It
covers the parts of the firmware that have behaviour worth stating:

- **Curve** (`curve.dfy`): the 256-entry decay table `DecayCurveLookup`,
  `get_curve`'s interpolation over a 16-bit phase, and the "granule" (the
  phase increment per tick) derived from a 10-bit time parameter. The
  firmware computes `get_curve` in single precision. Every intermediate value
  there is an integer below 2^24, or such an integer divided by 256: the
  product `(prev - next) * (255 - fine)` stays below 2^24, and so does
  `256 * next` plus that product. So the float steps are exact. The
  model is therefore the integer function
  `next + (prev - next) * (255 - fine) div 256`.
- **Envelope** (`envelope.dfy`): `update_value`. It moves the gate debounce
  counter, detects a note-on or note-off, and runs the state machine over
  IDLE, ATTACK and RELEASE. RELEASE serves both the decay towards sustain and
  the release towards 0. The gate pin is a boolean parameter (`pinLow`).
- **Firmware** (`firmware.dfy`): the Timer1 overflow interrupt, which writes
  the PWM duty, sets the update bit and runs the `ADC_INTERVAL` countdown. It
  also models one pass of the main loop: the update branch and the
  round-robin ADC sampler, both working through the 8-bit flag set
  `g_sync_flags`. The ADC result is an `Option<int>`, with `None` where
  `adc_read` returns -1.
- `wrappers.dfy` holds `Option` and the firmware's fixed-width integer types.

The firmware wires the channels as 0 → release, 1 → sustain, 2 → decay and
3 → attack. The model uses this wiring.

`MachineValid` is the invariant: the debounce counter lies in 0..100, the
granule in 1..255 and the output in 0..1023. It also covers the ramp fields
of each stage, the parameters, the channel (0..3), the countdown (1..100),
and "ADC started implies ADC invoked". The initial state is that of `setup`.
Every interrupt and every loop pass preserves the invariant.

## Model

| member | source | states |
|---|---|---|
| Curve.DecayCurveLookup | vceg.c:337-370 | the table has 256 entries, indexed 0..255, and every entry fits the 16-bit element type |
| Curve.NextEntry | vceg.c:325 | the `next` entry of segment k (entry k + 1, or 0 past index 255) is non-negative and strictly below entry k |
| Curve.TableDecreasing | vceg.c:337-370 | the table is strictly decreasing: a later entry is always smaller |
| Curve.TableRange | vceg.c:321-325 | every entry lies in 50..65535, and the entry `get_curve` uses as `next` (0 past index 255) is below it |
| Curve.Interpolate | vceg.c:327-331 | the interpolant lies between `next` and `prev`, is the exact weighted value truncated to an integer, and equals `next` at weight 0 |
| Curve.InterpolateStep | vceg.c:327-331 | raising `fine` by one never raises the interpolant and lowers it by at most `(prev - next)/256 + 1` |
| Curve.GetCurve | vceg.c:319-334 | `get_curve(phase)` lies between entries `phase>>8` and the next one, truncates the exact interpolation by `phase&0xFF`, and equals the next entry at `fine = 255` |
| Curve.CurveArithmeticExact | vceg.c:327-331 | the product `(prev - next) * (255 - fine)` and the scaled sum stay below 2^24, so the single-precision steps lose nothing |
| Curve.CurveStep | vceg.c:319-334 | one step in phase never raises the curve, including across a segment boundary |
| Curve.CurveNonIncreasing | vceg.c:319-334 | `get_curve` is non-increasing over all 65536 phases |
| Curve.CurveContinuous | vceg.c:319-334 | one step in phase lowers the curve by at most 1/256 of its segment's drop plus one, also at segment boundaries |
| Curve.Granule | vceg.c:182-185 | for every parameter 0..1023 the granule lies in 1..255: it is the quotient of the table entry by 256 where that is non-zero, and 1 otherwise |
| Curve.GranuleNonIncreasing | vceg.c:182-185 | a slower (larger) parameter never gives a larger granule; parameter 0 gives 255 and 1023 gives 1 |
| Envelope.Debounce | vceg.c:162-167 | the debounce counter moves one step towards 0..1 per tick: down from above 1, up from below 0, and not at all inside 0..1 |
| Envelope.GateEdge | vceg.c:162-210 | edges are looked at only when the moved counter is 0 or 1. A note-on is accepted only at 0 and sets counter 100, target and scale 1200, phase 0, the attack granule and ATTACK. A note-off is accepted only at 1 and clears the counter. At output 0 it goes to IDLE with phase 0; otherwise it enters RELEASE from the current output towards 0 with the release granule |
| Envelope.AttackLevel | vceg.c:215-217 | the attack level (times 2^16) lies between 0 and `65535 * scale` |
| Envelope.AttackArithmeticExact | vceg.c:215-218 | with the attack scale at 1200 = 16 · 75, the attack level is 16 · ((65535 - curve) · 75), and that numerator stays below 2^23, so the single-precision product and threshold comparison are exact |
| Envelope.AttackStep | vceg.c:214-234 | the output never exceeds 1023. At the threshold it clamps to 1023 and starts the decay: target = sustain, target + scale = 1023, phase 0, decay granule, RELEASE. Otherwise the output is the truncated level, below 1023, and the phase advances by the granule |
| Envelope.RampStep | vceg.c:235-247 | the output lies in [target, target + scale] and is the truncated curve share of the scale. The phase advances by exactly the granule while `65535 - phase > granule`, so it never wraps; otherwise it resets to 0 and the state becomes IDLE |
| Envelope.Action | vceg.c:212-247 | an IDLE engine changes neither output nor phase (nothing at all), and no ramp touches the debounce counter |
| Envelope.UpdateValue | vceg.c:160-248 | one update preserves the engine invariant (counter 0..100, granule 1..255, output ≤ 1023, ramp fields per stage) |
| Envelope.GateOnStartsAttack | vceg.c:175-187 | after an accepted note-on the step outputs 0 in ATTACK with target and scale 1200, counter 100 and phase equal to the attack granule |
| Envelope.GateOffContinuesFromOutput | vceg.c:189-208 | a note-off from a non-zero output enters RELEASE with scale = that output and target 0. The first release output is at most one step below it, so the output does not jump |
| Envelope.AttackPhaseNoWrap | vceg.c:230-232 | with the attack aimed at 1200, the attack phase advance never overflows 16 bits, because the threshold is reached first |
| Envelope.Run | vceg.c:160-248 | any number of updates, with any gate input, keep the engine invariant |
| Envelope.DebounceIgnoresGate | vceg.c:162-174 | while the counter is above 2, updates count the counter down by one per tick, and the run ends in the same state for any other gate inputs of the same length |
| Envelope.HeldGateNeverRetriggers | vceg.c:171-187 | while the gate stays asserted after a note-on, the counter never returns to 0, so the attack cannot restart without a release |
| Firmware.Init | vceg.c:131-150 | the power-up state satisfies the invariant, with no flags set, the engine IDLE and output 0 |
| Firmware.Countdown | vceg.c:78-81 | the countdown requests a sample exactly when it was 1, stays in 1..100, and otherwise counts down by one |
| Firmware.Tick | vceg.c:72-82 | the interrupt always sets bit 0. It sets bit 1 exactly when the countdown was 1 (keeping it if already set) and changes no other bit. It copies the output to the duty register and preserves the invariant |
| Firmware.SampleRequestsCount | vceg.c:63-81 | from a countdown c in 1..100, n ticks request `0` samples if n < c and `1 + (n - c) / 100` otherwise |
| Firmware.OneRequestPerInterval | vceg.c:63-81 | every 100·k consecutive ticks request exactly k samples |
| Firmware.Store | vceg.c:291-304 | a result is written to exactly the parameter wired to the current channel; the other three keep their values |
| Firmware.NextChannel | vceg.c:305-307 | the channel advances modulo 4 |
| Firmware.Complete | vceg.c:291-308 | a completed conversion writes exactly the current channel's parameter, advances the channel mod 4, clears bits 1 and 2, keeps every other bit, and leaves engine, countdown and duty alone |
| Firmware.SampleStep | vceg.c:286-315 | with no sample due, nothing changes. A due sample first sets bit 2 only. A not-ready read changes nothing. A completed read writes exactly the current channel's parameter, advances the channel mod 4, and clears bits 1 and 2 while leaving all other bits unchanged |
| Firmware.FourConversionsCycle | vceg.c:291-307 | four completed conversions visit the four channels in order, store each result in its own parameter, and return to the starting channel |
| Firmware.ServeUpdate | vceg.c:281-284 | a due update steps the envelope and clears bit 0 only; otherwise the engine is unchanged |
| Firmware.LoopPass | vceg.c:275-316 | with no flag set nothing changes. After a pass bit 0 is clear and bits 3..7 are untouched. The countdown and duty are not touched, and the invariant is preserved |
| Firmware.Execute | vceg.c:269-317 | any sequence of interrupts and loop passes preserves the invariant |
| Firmware.ReachableStatesValid | vceg.c:269-317 | in every state reachable from power-up: output and duty ≤ 1023, channel 0..3, countdown 1..100, debounce 0..100, granule ≥ 1 |

## Left out

- Envelope.RampStep: the firmware computes `curve / 65536 * scale` in single precision, and for some phases and decay or release scales that product can round. The model uses the exact floor, which may differ from the float result in the last bit. The attack branch has no such gap (`AttackArithmeticExact`).
- Envelope.UpdateValue: requires that a ramp's `target + scale` fit in 16 bits (`RampFits`). The firmware's float-to-`uint16` conversion of a larger value has no defined result. Every reachable state satisfies this requirement.
- Firmware.SampleStep: requires a completed conversion to lie in 0..1023, because the converter delivers 10-bit results.
- Hardware setup (`setup_io`, `setup_timer`, `setup_adc`) is register configuration with no behaviour to state. Only the initial values it leaves (channel 0, duty 0) appear in `Init`.
- `adc_invoke`'s multiplexer and start-conversion register writes are hardware, and the model keeps no multiplexer state. The `adc_read` polling of `ADSC` and `ADC` becomes the `Option<int>` parameter.
- The `PIND` read becomes the boolean `pinLow`.
- Preemption of the main loop by the interrupt is not modelled. The interrupt body and a loop pass are separate atomic steps. This includes the non-atomic read-modify-write of `g_sync_flags` when the loop clears bits (vceg.c:283, 308, 313): an interrupt landing between the read and the write can lose a bit it sets, and the model cannot show that.
- The endless `while (1)` loop, its spin while no flag is set, and `cli`/`sei` in `main` are out of the model. `LoopPass` is one iteration, and with no flag set it changes nothing.
