/** The firmware's scheduling: the Timer1 overflow interrupt, which writes the
    PWM duty, requests an envelope update and every `AdcInterval` ticks an ADC
    sample; and one pass of the main loop, which serves those requests through
    a shared 8-bit flag set, updating the envelope and driving the
    round-robin sampler of the four parameter inputs. */
module Firmware {
  import opened Wrappers
  import Envelope

  /** `SYNC_UPDATE_VALUE`: an envelope update is due. */
  const UpdateValueBit: bv8 := 0x01
  /** `SYNC_UPDATE_VALUE_DONE`: the mask that clears `UpdateValueBit`. */
  const UpdateValueDone: bv8 := 0xFE
  /** `SYNC_ADC_INVOKE`: a parameter sample is due. */
  const AdcInvokeBit: bv8 := 0x02
  /** `SYNC_ADC_STARTED`: a conversion has been started. */
  const AdcStartedBit: bv8 := 0x04
  /** `SYNC_ADC_DONE`: the mask that clears both ADC bits. */
  const AdcDone: bv8 := 0xF9

  /** `ADC_INTERVAL`: timer ticks between two sample requests. */
  const AdcInterval := 100
  /** `ADC_NUM_CHANNELS` */
  const AdcChannels := 4

  /** `ADC_CH_*`: the multiplexer channel wired to each parameter. */
  const ChannelRelease := 0
  const ChannelSustain := 1
  const ChannelDecay := 2
  const ChannelAttack := 3

  /** All state shared by the interrupt and the main loop: `g_sync_flags`, the
      envelope engine, the parameters, `g_adc_current_channel`,
      `g_adc_timing_counter`, and the PWM duty register `OCR1A`. */
  datatype Machine = Machine(
    flags: bv8,
    engine: Envelope.Engine,
    params: Envelope.Params,
    channel: UInt8,
    countdown: UInt8,
    duty: UInt16)

  predicate IsSet(flags: bv8, bit: bv8)
  {
    flags & bit != 0
  }

  /** The states the firmware keeps to from power-up on. */
  predicate MachineValid(m: Machine)
  {
    && Envelope.EngineValid(m.engine)
    && Envelope.ParamsValid(m.params)
    && m.channel < AdcChannels
    && 1 <= m.countdown <= AdcInterval
    && m.duty <= Envelope.AttackThreshold
    && (IsSet(m.flags, AdcStartedBit) ==> IsSet(m.flags, AdcInvokeBit))
  }

  /** The state after `setup`: `setup_misc` clears the flags, the engine and
      the parameters and loads the countdown, `setup_adc` selects channel 0,
      and `setup_timer` zeroes the duty. `g_decay_scale` is not set there and
      keeps its static initial value 0. */
  function Init(): (m: Machine)
    ensures MachineValid(m)
    ensures m.flags == 0 && m.engine.stage == Envelope.Idle && m.engine.value == 0
  {
    Machine(
      0,
      Envelope.Engine(0, Envelope.Idle, 0, 0, 0, 0, 1),
      Envelope.Params(0, 0, 0, 0),
      0,
      AdcInterval,
      0)
  }

  /** The sample countdown of the interrupt: `--g_adc_timing_counter` with
      8-bit wrap-around, reloaded with `AdcInterval` when it reaches 0. Returns
      the new counter and whether a sample was requested. */
  function Countdown(counter: UInt8): (r: (UInt8, bool))
    ensures r.1 <==> counter == 1
    ensures 1 <= counter <= AdcInterval ==> 1 <= r.0 <= AdcInterval
    ensures 1 < counter ==> r.0 == counter - 1
  {
    var next := (counter - 1) % 0x100;
    if next == 0 then (AdcInterval, true) else (next, false)
  }

  /** The Timer1 overflow interrupt: write the output to the duty register,
      request an update, and run the sample countdown. */
  function Tick(m: Machine): (r: Machine)
    ensures IsSet(r.flags, UpdateValueBit)
    ensures IsSet(r.flags, AdcInvokeBit) <==> IsSet(m.flags, AdcInvokeBit) || m.countdown == 1
    ensures r.flags & 0xFC == m.flags & 0xFC
    ensures r.duty == m.engine.value
    ensures r.countdown == Countdown(m.countdown).0
    ensures r.engine == m.engine && r.params == m.params && r.channel == m.channel
    ensures MachineValid(m) ==> MachineValid(r)
  {
    var (next, due) := Countdown(m.countdown);
    var flags := m.flags | UpdateValueBit;
    m.(duty := m.engine.value,
       flags := if due then flags | AdcInvokeBit else flags,
       countdown := next)
  }

  /** How many of `n` consecutive ticks, starting from `counter`, request a sample. */
  function SampleRequests(counter: UInt8, n: nat): nat
    decreases n
  {
    if n == 0 then 0
    else
      var (next, due) := Countdown(counter);
      (if due then 1 else 0) + SampleRequests(next, n - 1)
  }

  /** From a counter in 1..100, the first request comes after `counter` ticks
      and then one every `AdcInterval` ticks. */
  lemma {:induction false} SampleRequestsCount(counter: UInt8, n: nat)
    requires 1 <= counter <= AdcInterval
    ensures SampleRequests(counter, n) == if n < counter then 0 else 1 + (n - counter) / AdcInterval
    decreases n
  {
    if n > 0 {
      var (next, due) := Countdown(counter);
      SampleRequestsCount(next, n - 1);
    }
  }

  /** Every run of `AdcInterval * k` ticks requests exactly `k` samples. */
  lemma OneRequestPerInterval(counter: UInt8, k: nat)
    requires 1 <= counter <= AdcInterval
    ensures SampleRequests(counter, AdcInterval * k) == k
  {
    SampleRequestsCount(counter, AdcInterval * k);
    if k > 0 {
      assert (AdcInterval * k - counter) / AdcInterval == k - 1;
    }
  }

  /** The parameter fed by a multiplexer channel. */
  function ParamOf(p: Envelope.Params, channel: int): int
    requires 0 <= channel < AdcChannels
  {
    match channel
    case 3 => p.attack
    case 2 => p.decay
    case 1 => p.sustain
    case _ => p.release
  }

  /** The `switch` of the main loop: store a conversion result in the
      parameter of the channel it came from; other channels store nothing. */
  function Store(p: Envelope.Params, channel: int, v: UInt16): (r: Envelope.Params)
    ensures 0 <= channel < AdcChannels ==>
      && ParamOf(r, channel) == v
      && forall c :: 0 <= c < AdcChannels && c != channel ==> ParamOf(r, c) == ParamOf(p, c)
    ensures !(0 <= channel < AdcChannels) ==> r == p
  {
    if channel == ChannelAttack then p.(attack := v)
    else if channel == ChannelDecay then p.(decay := v)
    else if channel == ChannelSustain then p.(sustain := v)
    else if channel == ChannelRelease then p.(release := v)
    else p
  }

  /** `++g_adc_current_channel` in 8 bits, wrapped to 0 at `AdcChannels`. */
  function NextChannel(channel: UInt8): (r: UInt8)
    ensures channel < AdcChannels ==> r == (channel + 1) % AdcChannels
  {
    var next := (channel + 1) % 0x100;
    if next == AdcChannels then 0 else next
  }

  /** A finished conversion: store it, move to the next channel, and clear
      both ADC bits. */
  function Complete(m: Machine, v: UInt16): (r: Machine)
    ensures m.channel < AdcChannels ==>
      && ParamOf(r.params, m.channel) == v
      && (forall c :: 0 <= c < AdcChannels && c != m.channel ==> ParamOf(r.params, c) == ParamOf(m.params, c))
      && r.channel == (m.channel + 1) % AdcChannels
    ensures !IsSet(r.flags, AdcInvokeBit) && !IsSet(r.flags, AdcStartedBit)
    ensures r.flags & 0xF9 == m.flags & 0xF9
    ensures r.engine == m.engine && r.countdown == m.countdown && r.duty == m.duty
  {
    m.(params := Store(m.params, m.channel, v),
       channel := NextChannel(m.channel),
       flags := m.flags & AdcDone)
  }

  /** The sampling branch of the main loop. `conversion` is what `adc_read`
      gives at this pass: `None` while the conversion is still running, else
      the 10-bit result. Starting a conversion (`adc_invoke`) selects the
      channel on the hardware multiplexer, which this model does not hold. */
  function SampleStep(m: Machine, conversion: Option<int>): (r: Machine)
    requires conversion.Some? ==> 0 <= conversion.value < 1024
    ensures !IsSet(m.flags, AdcInvokeBit) ==> r == m
    ensures IsSet(m.flags, AdcInvokeBit) && !IsSet(m.flags, AdcStartedBit) ==>
      && IsSet(r.flags, AdcStartedBit) && r.flags & 0xFB == m.flags & 0xFB
      && r == m.(flags := r.flags)
    ensures IsSet(m.flags, AdcStartedBit) && conversion.None? ==> r == m
    ensures IsSet(m.flags, AdcInvokeBit) && IsSet(m.flags, AdcStartedBit) && conversion.Some?
              && m.channel < AdcChannels ==>
      && ParamOf(r.params, m.channel) == conversion.value
      && (forall c :: 0 <= c < AdcChannels && c != m.channel ==> ParamOf(r.params, c) == ParamOf(m.params, c))
      && r.channel == (m.channel + 1) % AdcChannels
      && !IsSet(r.flags, AdcInvokeBit) && !IsSet(r.flags, AdcStartedBit)
      && r.flags & 0xF9 == m.flags & 0xF9
      && r.engine == m.engine && r.countdown == m.countdown && r.duty == m.duty
    ensures MachineValid(m) ==> MachineValid(r)
  {
    if !IsSet(m.flags, AdcInvokeBit) then m
    else if IsSet(m.flags, AdcStartedBit) then
      match conversion
      case None => m
      case Some(v) => Complete(m, v)
    else
      m.(flags := m.flags | AdcStartedBit)
  }

  /** Four completed conversions in a row visit every channel once, in
      channel order, store each result in its own parameter, and come back
      to the channel they started from. */
  lemma FourConversionsCycle(m: Machine, v0: UInt16, v1: UInt16, v2: UInt16, v3: UInt16)
    requires m.channel < AdcChannels
    ensures var r := Complete(Complete(Complete(Complete(m, v0), v1), v2), v3);
      && r.channel == m.channel
      && ParamOf(r.params, m.channel) == v0
      && ParamOf(r.params, (m.channel + 1) % AdcChannels) == v1
      && ParamOf(r.params, (m.channel + 2) % AdcChannels) == v2
      && ParamOf(r.params, (m.channel + 3) % AdcChannels) == v3
  {
    var c := m.channel;
    var m1 := Complete(m, v0);
    var m2 := Complete(m1, v1);
    var m3 := Complete(m2, v2);
    var m4 := Complete(m3, v3);
    assert m1.channel == (c + 1) % 4 && m2.channel == (c + 2) % 4;
    assert m3.channel == (c + 3) % 4 && m4.channel == c;
    assert ParamOf(m4.params, c) == ParamOf(m1.params, c) == v0;
    assert ParamOf(m4.params, (c + 1) % 4) == ParamOf(m2.params, (c + 1) % 4) == v1;
    assert ParamOf(m4.params, (c + 2) % 4) == ParamOf(m3.params, (c + 2) % 4) == v2;
  }

  /** The update branch of the main loop: when an update is due, step the
      envelope and clear the update bit. */
  function ServeUpdate(m: Machine, pinLow: bool): (r: Machine)
    requires Envelope.ParamsValid(m.params) && Envelope.RampFits(m.engine)
    ensures !IsSet(r.flags, UpdateValueBit)
    ensures r.flags & 0xFE == m.flags & 0xFE
    ensures IsSet(m.flags, UpdateValueBit) ==> r.engine == Envelope.UpdateValue(m.engine, m.params, pinLow)
    ensures !IsSet(m.flags, UpdateValueBit) ==> r.engine == m.engine
    ensures r == m.(engine := r.engine, flags := r.flags)
    ensures MachineValid(m) ==> MachineValid(r)
  {
    if IsSet(m.flags, UpdateValueBit) then
      m.(engine := Envelope.UpdateValue(m.engine, m.params, pinLow), flags := m.flags & UpdateValueDone)
    else m
  }

  /** One pass of the main loop with at least one flag set (with none set it
      only spins): serve a due update and clear its bit, then serve the
      sampler. `pinLow` is the gate input at this pass. */
  function LoopPass(m: Machine, pinLow: bool, conversion: Option<int>): (r: Machine)
    requires Envelope.ParamsValid(m.params) && Envelope.RampFits(m.engine)
    requires conversion.Some? ==> 0 <= conversion.value < 1024
    ensures m.flags == 0 ==> r == m
    ensures !IsSet(r.flags, UpdateValueBit)
    ensures IsSet(m.flags, UpdateValueBit) ==> r.engine == Envelope.UpdateValue(m.engine, m.params, pinLow)
    ensures !IsSet(m.flags, UpdateValueBit) ==> r.engine == m.engine
    ensures r.flags & 0xF8 == m.flags & 0xF8
    ensures r.countdown == m.countdown && r.duty == m.duty
    ensures MachineValid(m) ==> MachineValid(r)
  {
    if m.flags == 0 then m
    else
      SampleStep(ServeUpdate(m, pinLow), conversion)
  }

  /** What happens next: a timer overflow, or a pass of the main loop with
      the gate input and the conversion result it sees. */
  datatype Event = TimerOverflow | MainLoopPass(pinLow: bool, conversion: Option<int>)

  predicate EventValid(ev: Event)
  {
    ev.MainLoopPass? && ev.conversion.Some? ==> 0 <= ev.conversion.value < 1024
  }

  /** The firmware after a sequence of interrupts and loop passes, each
      taken as one atomic step. */
  function Execute(m: Machine, events: seq<Event>): (r: Machine)
    requires MachineValid(m)
    requires forall i :: 0 <= i < |events| ==> EventValid(events[i])
    ensures MachineValid(r)
    decreases |events|
  {
    if |events| == 0 then m
    else
      assert EventValid(events[0]);
      var next := match events[0]
        case TimerOverflow => Tick(m)
        case MainLoopPass(pinLow, conversion) => LoopPass(m, pinLow, conversion);
      Execute(next, events[1..])
  }

  /** Every state reachable from power-up keeps the invariant; in
      particular the output never exceeds 1023 and the channel stays in 0..3. */
  lemma ReachableStatesValid(events: seq<Event>)
    requires forall i :: 0 <= i < |events| ==> EventValid(events[i])
    ensures var r := Execute(Init(), events);
      && r.engine.value <= Envelope.AttackThreshold && r.duty <= Envelope.AttackThreshold
      && r.channel < AdcChannels && 1 <= r.countdown <= AdcInterval
      && 0 <= r.engine.gate <= Envelope.DebounceHold && r.engine.granule >= 1
  {
  }
}
