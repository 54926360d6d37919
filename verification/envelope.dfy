/** The ADSR envelope engine: the per-tick `update_value` step of the
    firmware, with its debounced gate edge detection and the attack and
    decay/release ramps computed from the decay curve. */
module Envelope {
  import opened Wrappers
  import Curve

  /** `ATTACK_THRESHOLD`: the output level that ends the attack ramp. */
  const AttackThreshold := 1023
  /** The attack ramp aims above the threshold so that it crosses it before
      the curve flattens out. */
  const AttackTarget := 1200
  /** The debounce counter is set to this on a note-on. */
  const DebounceHold := 100
  /** 2^16: the curve and the phase are fractions of this. */
  const FullScale := 0x1_0000

  /** `g_state`. A single ramp state serves both the decay towards the
      sustain level and the release towards 0. */
  datatype Stage = Idle | Attack | Release

  /** The four time and level parameters, written by the ADC sampler. */
  datatype Params = Params(attack: UInt16, decay: UInt16, sustain: UInt16, release: UInt16)

  /** Each parameter is a 10-bit conversion result; `param / 4` must index the
      256-entry table and `1023 - sustain` must not underflow. */
  predicate ParamsValid(p: Params)
  {
    p.attack < 1024 && p.decay < 1024 && p.sustain < 1024 && p.release < 1024
  }

  /** The engine's globals: the debounce counter `g_gate`, `g_state`,
      `g_phase`, the output `g_value`, `g_target_level`, `g_decay_scale`
      and `g_phase_granule`. */
  datatype Engine = Engine(
    gate: Int8,
    stage: Stage,
    phase: UInt16,
    value: UInt16,
    targetLevel: UInt16,
    decayScale: UInt16,
    granule: UInt16)

  /** A ramp's output `targetLevel + curve * decayScale` must fit the 16-bit
      output; the firmware relies on this when it truncates to `g_value`. */
  predicate RampFits(e: Engine)
  {
    e.stage == Release ==> e.targetLevel + e.decayScale < FullScale
  }

  /** The states the engine keeps to from power-up on. */
  predicate EngineValid(e: Engine)
  {
    && 0 <= e.gate <= DebounceHold
    && 1 <= e.granule <= 255
    && e.value <= AttackThreshold
    && (e.stage == Attack ==> e.targetLevel == AttackTarget && e.decayScale == AttackTarget)
    && (e.stage == Release ==> e.targetLevel + e.decayScale <= AttackThreshold)
  }

  /** The debounce counter after its per-tick move: down towards 1 from above,
      up towards 0 from below. */
  function Debounce(gate: Int8): (r: Int8)
    ensures 0 <= gate <= 1 ==> r == gate
    ensures gate > 1 ==> 1 <= r == gate - 1
    ensures gate < 0 ==> r == gate + 1 <= 0
  {
    if gate > 1 then gate - 1 else if gate < 0 then gate + 1 else gate
  }

  /** A note-on (gate pin low) is accepted only when the counter has settled at 0. */
  predicate AcceptsGateOn(gate: Int8, pinLow: bool)
  {
    pinLow && Debounce(gate) == 0
  }

  /** A note-off (gate pin high) is accepted only when the counter has run
      down to 1. */
  predicate AcceptsGateOff(gate: Int8, pinLow: bool)
  {
    !pinLow && Debounce(gate) == 1
  }

  /** The gate half of `update_value`: move the debounce counter, then act
      on an accepted edge. `pinLow` is the gate input (active low). */
  function GateEdge(e: Engine, p: Params, pinLow: bool): (r: Engine)
    requires ParamsValid(p)
    ensures Debounce(e.gate) != 0 && Debounce(e.gate) != 1 ==> r == e.(gate := Debounce(e.gate))
    ensures AcceptsGateOn(e.gate, pinLow) ==>
      && r.gate == DebounceHold && r.stage == Attack && r.phase == 0
      && r.targetLevel == AttackTarget && r.decayScale == AttackTarget
      && r.granule == Curve.Granule(p.attack) && r.value == e.value
    ensures AcceptsGateOff(e.gate, pinLow) && e.value == 0 ==>
      r == e.(gate := 0, phase := 0, stage := Idle)
    ensures AcceptsGateOff(e.gate, pinLow) && e.value != 0 ==>
      && r.gate == 0 && r.stage == Release && r.phase == 0
      && r.decayScale == e.value && r.targetLevel == 0
      && r.granule == Curve.Granule(p.release) && r.value == e.value
    ensures !AcceptsGateOn(e.gate, pinLow) && !AcceptsGateOff(e.gate, pinLow) ==>
      r == e.(gate := Debounce(e.gate))
    ensures RampFits(e) ==> RampFits(r)
  {
    var g := Debounce(e.gate);
    if g != 0 && g != 1 then
      e.(gate := g)
    else if pinLow then
      if g == 0 then
        Engine(DebounceHold, Attack, 0, e.value, AttackTarget, AttackTarget, Curve.Granule(p.attack))
      else
        e.(gate := g)
    else if g != 0 then
      if e.value == 0 then
        e.(gate := 0, phase := 0, stage := Idle)
      else
        e.(gate := 0, decayScale := e.value, phase := 0, stage := Release,
           granule := Curve.Granule(p.release), targetLevel := 0)
    else
      e.(gate := g)
  }

  /** The attack level at `phase`, scaled by 2^16: the exact value of
      `(65535 - get_curve(phase)) / 65536 * scale`, times 65536. */
  function AttackLevel(phase: UInt16, scale: UInt16): (level: int)
    ensures 0 <= level <= 0xFFFF * scale
  {
    var rise := 0xFFFF - Curve.GetCurve(phase);
    ScaleBound(rise, 0xFFFF, scale);
    rise * scale
  }

  /** The attack's single-precision steps are exact: with the scale at 1200
      = 16 * 75, `(65535 - curve) / 65536 * 1200` is `(65535 - curve) * 75`
      over 2^12, and that numerator stays below 2^23, within a float's
      significand. */
  lemma AttackArithmeticExact(phase: UInt16)
    ensures 0 <= (0xFFFF - Curve.GetCurve(phase)) * 75 < 0x80_0000
    ensures AttackLevel(phase, AttackTarget) == 16 * ((0xFFFF - Curve.GetCurve(phase)) * 75)
  {
  }

  /** The attack ramp has reached the threshold at the current phase. */
  predicate AttackPeakReached(e: Engine)
  {
    AttackLevel(e.phase, e.decayScale) >= AttackThreshold * FullScale
  }

  /** The attack branch of `update_value`: output the rising level; at the
      threshold clamp it and start the decay towards the sustain level. */
  function AttackStep(e: Engine, p: Params): (r: Engine)
    requires e.stage == Attack && ParamsValid(p)
    ensures r.value <= AttackThreshold && r.gate == e.gate
    ensures AttackPeakReached(e) ==>
      && r.stage == Release && r.value == AttackThreshold && r.phase == 0
      && r.targetLevel == p.sustain && r.targetLevel + r.decayScale == AttackThreshold
      && r.granule == Curve.Granule(p.decay)
    ensures !AttackPeakReached(e) ==>
      && r.stage == Attack && r.value < AttackThreshold
      && FullScale * r.value <= AttackLevel(e.phase, e.decayScale) < FullScale * (r.value + 1)
      && r.phase == (e.phase + e.granule) % FullScale
      && r.targetLevel == e.targetLevel && r.decayScale == e.decayScale && r.granule == e.granule
  {
    var level := AttackLevel(e.phase, e.decayScale);
    if level >= AttackThreshold * FullScale then
      e.(value := AttackThreshold, targetLevel := p.sustain, decayScale := AttackThreshold - p.sustain,
         phase := 0, granule := Curve.Granule(p.decay), stage := Release)
    else
      QuotientBelow(level, AttackThreshold);
      e.(phase := (e.phase + e.granule) % FullScale, value := level / FullScale)
  }

  /** The decay/release branch of `update_value`: output
      `targetLevel + curve(phase) / 65536 * decayScale`, then advance the
      phase, or finish the ramp when the phase has no room left. */
  function RampStep(e: Engine): (r: Engine)
    requires e.stage == Release && RampFits(e)
    ensures e.targetLevel <= r.value <= e.targetLevel + e.decayScale
    ensures FullScale * (r.value - e.targetLevel) <= Curve.GetCurve(e.phase) * e.decayScale
              < FullScale * (r.value - e.targetLevel + 1)
    ensures 0xFFFF - e.phase > e.granule ==> r.stage == Release && r.phase == e.phase + e.granule
    ensures 0xFFFF - e.phase <= e.granule ==> r.stage == Idle && r.phase == 0
    ensures r.gate == e.gate && r.targetLevel == e.targetLevel && r.decayScale == e.decayScale
    ensures r.granule == e.granule
  {
    var c := Curve.GetCurve(e.phase);
    ScaledFraction(c, e.decayScale);
    var level := c * e.decayScale / FullScale + e.targetLevel;
    if 0xFFFF - e.phase <= e.granule then
      e.(value := level, phase := 0, stage := Idle)
    else
      e.(value := level, phase := e.phase + e.granule)
  }

  /** Scaling preserves `0 <= x <= bound`. */
  lemma ScaleBound(x: int, bound: int, s: int)
    requires 0 <= x <= bound && 0 <= s
    ensures 0 <= x * s <= bound * s
  {
    assert bound * s - x * s == (bound - x) * s;
  }

  /** A non-negative `x` below `n * 2^16` has a quotient by 2^16 below `n`. */
  lemma QuotientBelow(x: int, n: int)
    requires 0 <= x < n * FullScale
    ensures 0 <= x / FullScale < n
    ensures FullScale * (x / FullScale) <= x < FullScale * (x / FullScale + 1)
  {
  }

  /** `c * s / 2^16` with `c < 2^16` lies between 0 and `s`. */
  lemma ScaledFraction(c: int, s: int)
    requires 0 <= c < FullScale && 0 <= s
    ensures 0 <= c * s / FullScale <= s
  {
    assert 0 <= c * s <= FullScale * s;
  }

  /** The ramp half of `update_value`. An idle engine changes nothing. */
  function Action(e: Engine, p: Params): (r: Engine)
    requires ParamsValid(p) && RampFits(e)
    ensures e.stage == Idle ==> r == e
    ensures r.gate == e.gate
  {
    match e.stage
    case Idle => e
    case Attack => AttackStep(e, p)
    case Release => RampStep(e)
  }

  /** `update_value`: one envelope step per update tick. */
  function UpdateValue(e: Engine, p: Params, pinLow: bool): (r: Engine)
    requires ParamsValid(p) && RampFits(e)
    ensures RampFits(r)
    ensures EngineValid(e) ==> EngineValid(r)
  {
    var edged := GateEdge(e, p, pinLow);
    var r := Action(edged, p);
    assert EngineValid(e) ==> EngineValid(r) by {
      if EngineValid(e) {
        assert 0 <= edged.gate <= DebounceHold;
        if edged.stage == Release {
          assert edged.targetLevel + edged.decayScale <= AttackThreshold;
        }
      }
    }
    r
  }

  /** A note-on starts the attack from the bottom of the curve: the first
      step outputs 0 and moves the phase on by the attack granule. */
  lemma GateOnStartsAttack(e: Engine, p: Params)
    requires ParamsValid(p) && RampFits(e) && AcceptsGateOn(e.gate, true)
    ensures var r := UpdateValue(e, p, true);
      && r.stage == Attack && r.gate == DebounceHold && r.value == 0
      && r.phase == Curve.Granule(p.attack)
      && r.targetLevel == AttackTarget && r.decayScale == AttackTarget
  {
    var edged := GateEdge(e, p, true);
    assert Curve.GetCurve(0) == 65527;
    assert AttackLevel(0, AttackTarget) == 8 * AttackTarget;
  }

  /** A note-off from a non-zero output continues from that output: the
      release starts at most one step below it, so the output does not jump. */
  lemma GateOffContinuesFromOutput(e: Engine, p: Params)
    requires ParamsValid(p) && EngineValid(e) && AcceptsGateOff(e.gate, false) && e.value != 0
    ensures var r := UpdateValue(e, p, false);
      && r.stage == Release && r.targetLevel == 0 && r.decayScale == e.value
      && e.value - 1 <= r.value <= e.value
  {
    var edged := GateEdge(e, p, false);
    assert Curve.GetCurve(0) == 65527;
    var r := RampStep(edged);
    assert FullScale * r.value <= 65527 * e.value < FullScale * (r.value + 1);
  }

  /** With the attack aimed at 1200, the attack phase never wraps: near the
      end of the table the curve is at most 50, which is past the threshold,
      so the ramp stops before `phase + granule` can overflow 16 bits. */
  lemma AttackPhaseNoWrap(e: Engine)
    requires e.stage == Attack && e.decayScale == AttackTarget && e.granule <= 255
    ensures !AttackPeakReached(e) ==> e.phase + e.granule < FullScale
  {
    if e.phase + e.granule >= FullScale {
      assert e.phase / 256 == 255;
      Curve.TableEnds();
      assert AttackLevel(e.phase, e.decayScale) >= (0xFFFF - 50) * AttackTarget;
    }
  }

  /** The engine after one update per element of `pins`, each the gate input
      of that tick. */
  function Run(e: Engine, p: Params, pins: seq<bool>): (r: Engine)
    requires ParamsValid(p) && EngineValid(e)
    ensures EngineValid(r)
    decreases |pins|
  {
    if |pins| == 0 then e else Run(UpdateValue(e, p, pins[0]), p, pins[1..])
  }

  /** While the debounce counter is above 2, no edge is looked at, whatever
      the gate input does: the counter just counts down by one per tick, and
      the whole run is the same for any other gate inputs `pins'`. */
  lemma {:induction false} DebounceIgnoresGate(e: Engine, p: Params, pins: seq<bool>, pins': seq<bool>)
    requires ParamsValid(p) && EngineValid(e)
    requires |pins| + 2 <= e.gate
    requires |pins'| == |pins|
    ensures Run(e, p, pins).gate == e.gate - |pins|
    ensures Run(e, p, pins) == Run(e, p, pins')
    decreases |pins|
  {
    if |pins| > 0 {
      var e1 := UpdateValue(e, p, pins[0]);
      assert e1.gate == e.gate - 1;
      assert UpdateValue(e, p, pins'[0]) == e1;
      DebounceIgnoresGate(e1, p, pins[1..], pins'[1..]);
    }
  }

  /** While the gate stays asserted after a note-on, the counter never
      returns to 0, so the attack cannot be retriggered without a release. */
  lemma {:induction false} HeldGateNeverRetriggers(e: Engine, p: Params, pins: seq<bool>)
    requires ParamsValid(p) && EngineValid(e) && e.gate >= 1
    requires forall i :: 0 <= i < |pins| ==> pins[i]
    ensures Run(e, p, pins).gate >= 1
    ensures !AcceptsGateOn(Run(e, p, pins).gate, true)
    decreases |pins|
  {
    if |pins| > 0 {
      var e1 := UpdateValue(e, p, pins[0]);
      assert e1.gate >= 1;
      HeldGateNeverRetriggers(e1, p, pins[1..]);
    }
  }
}
