/**
 * The STM32F030 PWM output (pwmout_api.c). A pin names a timer output, the
 * timer's base address plus a channel number; pwmout_init decodes that name,
 * keeps a reference to the timer and its channel, and programs the timer for
 * PWM on the channel. The integer period and pulse-width setters write the
 * auto-reload register and the channel's compare register, counting 24 ticks
 * per microsecond.
 */
module PwmF030 {
  import opened Wrappers
  import opened Bits
  import opened Pins
  import opened RegsF030
  import opened NamesF030

  /**
   * PinMap_PWM_Out, with the name the table gives PA_10 as a parameter: every
   * row is alternate function mode 2 with the pin's timer function number.
   */
  function PwmPins(pa10: bv32): seq<PinMap<bv32>>
  {
    [ PinMap(PA(4), TIM_14_1, PinData(2, 4)),
      PinMap(PA(6), TIM_16_1, PinData(2, 5)),
      PinMap(PA(7), TIM_17_1, PinData(2, 5)),
      PinMap(PA(8), TIM_1_1, PinData(2, 2)),
      PinMap(PA(9), TIM_1_2, PinData(2, 2)),
      PinMap(PA(10), pa10, PinData(2, 2)),
      PinMap(PA(11), TIM_1_4, PinData(2, 2)),
      PinMap(PB(1), TIM_3_4, PinData(2, 1)) ]
  }

  /** The table as declared: PA_10 on TIM_1_3. */
  const PWM_PINS: seq<PinMap<bv32>> := PwmPins(TIM_1_3)

  /** The table with PA_10 on channel 3 of TIM1, as its position between PA_9 and PA_11 intends. */
  const CORRECTED_PWM_PINS: seq<PinMap<bv32>> := PwmPins(TimerChannel(TIM1_BASE, 3))

  /** The timer a timer output belongs to: the name with its low nibble cleared. */
  function TimerOf(code: bv32): (base: bv32)
    ensures base & 0xF == 0
  {
    code & !0xF
  }

  /** The channel of a timer output: the name's low nibble, the same nibble Pins.PinIndex takes of a pin. */
  function ChannelOf(code: bv32): (c: bv32)
    ensures c < 16
  {
    code & 0xF
  }

  /** Decoding splits a name into parts that add up to it again. */
  lemma DecodeRecomposes(code: bv32)
    ensures TimerChannel(TimerOf(code), ChannelOf(code)) == code
  {
  }

  /** Decoding TimerChannel(base, c) on an aligned base gives back the base... */
  lemma DecodeTimer(base: bv32, c: bv32)
    requires base & 0xF == 0 && c < 16
    ensures TimerOf(TimerChannel(base, c)) == base
  {
  }

  /** ... and the channel. */
  lemma DecodeChannel(base: bv32, c: bv32)
    requires base & 0xF == 0 && c < 16
    ensures ChannelOf(TimerChannel(base, c)) == c
  {
  }

  /** Every row of the table, as declared and as corrected, decodes to one of the timers and a channel 1..4. */
  lemma TableDecodes(pa10: bv32, i: int)
    requires pa10 == TIM_1_3 || pa10 == TimerChannel(TIM1_BASE, 3)
    requires 0 <= i < |PwmPins(pa10)|
    ensures TimerOf(PwmPins(pa10)[i].peripheral) in TIMER_BASES
    ensures 1 <= ChannelOf(PwmPins(pa10)[i].peripheral) <= 4
  {
  }

  /** No two rows of a table name the same timer output. */
  predicate DistinctOutputs(t: seq<PinMap<bv32>>)
  {
    forall i, j :: 0 <= i < j < |t| ==> t[i].peripheral != t[j].peripheral
  }

  /**
   * As declared, PA_10 decodes to channel 4 of TIM1, the output of PA_11:
   * both pins drive the same channel and channel 3 is unreachable.
   */
  lemma Pa10DrivesChannel4()
    ensures PWM_PINS[5].pin == PA(10) && PWM_PINS[6].pin == PA(11)
    ensures TimerOf(PWM_PINS[5].peripheral) == TIM1_BASE && ChannelOf(PWM_PINS[5].peripheral) == 4
    ensures !DistinctOutputs(PWM_PINS)
  {
    Tim1Channel3Collides();
  }

  /** With PA_10 on TimerChannel(TIM1_BASE, 3), every pin drives its own timer output. */
  lemma CorrectedOutputsDistinct()
    ensures DistinctOutputs(CORRECTED_PWM_PINS)
    ensures ChannelOf(CORRECTED_PWM_PINS[5].peripheral) == 3
  {
    var t := CORRECTED_PWM_PINS;
    forall i, j | 0 <= i < j < |t|
      ensures t[i].peripheral != t[j].peripheral
    {
      TableDecodes(TimerChannel(TIM1_BASE, 3), i);
      TableDecodes(TimerChannel(TIM1_BASE, 3), j);
    }
  }

  /** PSC after pwmout_init: SystemCoreClock / 1000000, the clock in whole MHz. */
  function Prescaler(clk: u32): (p: u16)
    ensures p as int * 1_000_000 <= clk as int < (p as int + 1) * 1_000_000
  {
    (clk as int / 1_000_000) as u16
  }

  /** The auto-reload value pwmout_init programs. */
  const INIT_PERIOD: u16 := 20000

  /** The timebase after pwmout_init: prescaler, period and a cleared counter. */
  function Timebase(t: TimRegs, psc: u16): TimRegs
  {
    t.(PSC := psc, ARR := INIT_PERIOD, CNT := 0)
  }

  /** The capture/compare mode register holding channel ch's output mode. */
  function ModeRegister(t: TimRegs, ch: bv32): bv16
  {
    if ch <= 2 then t.CCMR1 else t.CCMR2
  }

  /** PWM mode 2 with preload: the low half of the register for channels 1 and 3, the high half for 2 and 4. */
  function ModeBits(ch: bv32): bv16
  {
    if ch == 1 || ch == 3 then TIM_CCMR_OC_LOW else TIM_CCMR_OC_HIGH
  }

  /** The switch on the channel: the mode bits are ORed into CCMR1 (channels 1, 2) or CCMR2 (3, 4). */
  function OutputMode(t: TimRegs, ch: bv32): TimRegs
  {
    if ch <= 2 then t.(CCMR1 := t.CCMR1 | ModeBits(ch)) else t.(CCMR2 := t.CCMR2 | ModeBits(ch))
  }

  /** CC1E shifted to channel ch's enable bit, bit 4(ch - 1) of CCER. */
  function EnableBit(ch: bv32): bv16
    requires 1 <= ch <= 4
  {
    TIM_CCER_CC1E << ((ch - 1) * 4)
  }

  /** The event generation pwmout_init triggers: an update and a capture/compare event on ch. */
  function EventBits(ch: bv32): bv16
    requires 1 <= ch <= 4
  {
    TIM_EGR_UG | (TIM_EGR_CC1G << (ch - 1))
  }

  /** The end of pwmout_init: output enabled, main output on, counter running, events generated. */
  function OutputEnabled(t: TimRegs, ch: bv32): TimRegs
    requires 1 <= ch <= 4
  {
    t.(CCER := t.CCER | EnableBit(ch), BDTR := TIM_BDTR_MOE, CR1 := TIM_CR1_CEN, EGR := EventBits(ch))
  }

  /** The timer's registers after pwmout_init on channel ch, with psc the prescaler it computes. */
  function Started(t: TimRegs, psc: u16, ch: bv32): TimRegs
    requires 1 <= ch <= 4
  {
    OutputEnabled(OutputMode(Timebase(t, psc), ch).WithCcr(ch, 0), ch)
  }

  /** Channel ch's mode field holds PWM mode 2 with preload. */
  predicate InPwmMode(t: TimRegs, ch: bv32)
  {
    ModeRegister(t, ch) & ModeBits(ch) == ModeBits(ch)
  }

  /** Channel ch's output is enabled in CCER. */
  predicate OutputOn(t: TimRegs, ch: bv32)
    requires 1 <= ch <= 4
  {
    t.CCER & EnableBit(ch) == EnableBit(ch)
  }

  lemma OrKeepsMask(x: bv16, a: bv16, m: bv16)
    requires x & m == m
    ensures (x | a) & m == m
  {
  }

  lemma OrSetsMask(x: bv16, m: bv16)
    ensures (x | m) & m == m
  {
  }

  lemma OrKeepsOutside(x: bv16, m: bv16)
    ensures (x | m) & !m == x & !m
  {
  }

  /** The steps before the output enable leave CCER alone. */
  lemma StepsKeepCcer(t: TimRegs, psc: u16, ch: bv32)
    requires 1 <= ch <= 4
    ensures OutputMode(Timebase(t, psc), ch).WithCcr(ch, 0).CCER == t.CCER
  {
  }

  /** After pwmout_init the timebase is set, the counter cleared and the channel's compare value 0. */
  lemma StartedTimebase(t: TimRegs, psc: u16, ch: bv32)
    requires 1 <= ch <= 4
    ensures Started(t, psc, ch).PSC == psc
    ensures Started(t, psc, ch).ARR == INIT_PERIOD && Started(t, psc, ch).CNT == 0
    ensures Started(t, psc, ch).Ccr(ch) == 0
    ensures forall m: bv32 {:trigger Started(t, psc, ch).Ccr(m)} :: 1 <= m <= 4 && m != ch ==> Started(t, psc, ch).Ccr(m) == t.Ccr(m)
  {
  }

  /** After pwmout_init channel ch is in PWM mode. */
  lemma StartedInPwmMode(t: TimRegs, psc: u16, ch: bv32)
    requires 1 <= ch <= 4
    ensures InPwmMode(Started(t, psc, ch), ch)
  {
    var t1 := Timebase(t, psc);
    OrSetsMask(ModeRegister(t1, ch), ModeBits(ch));
  }

  /** After pwmout_init channel ch's output is enabled. */
  lemma StartedOutputOn(t: TimRegs, psc: u16, ch: bv32)
    requires 1 <= ch <= 4
    ensures OutputOn(Started(t, psc, ch), ch)
  {
    StepsKeepCcer(t, psc, ch);
    OrSetsMask(t.CCER, EnableBit(ch));
  }

  /** pwmout_init changes no CCER bit except channel ch's enable. */
  lemma StartedKeepsOtherCcer(t: TimRegs, psc: u16, ch: bv32)
    requires 1 <= ch <= 4
    ensures Started(t, psc, ch).CCER & !EnableBit(ch) == t.CCER & !EnableBit(ch)
  {
    StepsKeepCcer(t, psc, ch);
    OrKeepsOutside(t.CCER, EnableBit(ch));
  }

  /** A channel already in PWM mode stays so when pwmout_init programs another channel of the same timer. */
  lemma StartedKeepsMode(t: TimRegs, psc: u16, ch: bv32, other: bv32)
    requires 1 <= ch <= 4 && 1 <= other <= 4
    requires InPwmMode(t, other)
    ensures InPwmMode(Started(t, psc, ch), other)
  {
  }

  /** A channel whose output is enabled stays enabled when pwmout_init programs another channel. */
  lemma StartedKeepsOutput(t: TimRegs, psc: u16, ch: bv32, other: bv32)
    requires 1 <= ch <= 4 && 1 <= other <= 4
    requires OutputOn(t, other)
    ensures OutputOn(Started(t, psc, ch), other)
  {
    StepsKeepCcer(t, psc, ch);
    assert Started(t, psc, ch).CCER == t.CCER | EnableBit(ch);
    OrKeepsMask(t.CCER, EnableBit(ch), EnableBit(other));
  }

  /** pwmout_init always generates the update event... */
  lemma EventBitsUpdate(ch: bv32)
    requires 1 <= ch <= 4
    ensures EventBits(ch) & TIM_EGR_UG == TIM_EGR_UG
  {
  }

  /** ... and channel ch's capture/compare event, bit ch of EGR. */
  lemma EventBitsChannel(ch: bv32)
    requires 1 <= ch <= 4
    ensures (EventBits(ch) >> ch) & 1 == 1
  {
  }

  /** Each channel has its own CCER enable bit. */
  lemma EnableBitsDistinct(ch: bv32, other: bv32)
    requires 1 <= ch <= 4 && 1 <= other <= 4 && ch != other
    ensures EnableBit(ch) & EnableBit(other) == 0
  {
  }

  /**
   * Ticks for a period or pulse of ms milliseconds: the driver stores
   * 24000 * ms into a 32-bit word, of which the 16-bit timer keeps the low
   * half.
   */
  function TicksMs(ms: int): u16
  {
    Wrap16(24000 * ms)
  }

  /** Ticks for us microseconds: the low 16 bits of 24 * us. */
  function TicksUs(us: int): u16
  {
    Wrap16(24 * us)
  }

  /** Both setters count 24 ticks per microsecond: ms milliseconds and 1000 * ms microseconds agree. */
  lemma MillisecondsAreMicroseconds(ms: int)
    ensures TicksMs(ms) == TicksUs(1000 * ms)
  {
    assert 24000 * ms == 24 * (1000 * ms);
  }

  /** Durations below 2^16 / 24 microseconds (2730 us) are stored exactly. */
  lemma TicksUsExact(us: int)
    requires 0 <= us && 24 * us < 0x1_0000
    ensures TicksUs(us) as int == 24 * us
  {
  }

  /**
   * Only periods up to 2 ms fit: the 20 ms that pwmout_period_ms is usually
   * given programs 21248 ticks (about 0.9 ms).
   */
  lemma PeriodMsWraps()
    ensures TicksMs(2) as int == 48000
    ensures TicksMs(3) as int == 72000 - 0x1_0000
    ensures TicksMs(20) == 21248
  {
  }

  /** The APB1ENR clock enable of the timer at base: TIM3 and TIM14 sit on APB1; other bases enable nothing there. */
  function TimerApb1Clock(base: bv32): bv32
  {
    if base == TIM3_BASE then RCC_APB1ENR_TIM3EN
    else if base == TIM14_BASE then RCC_APB1ENR_TIM14EN
    else 0
  }

  /** The APB2ENR clock enable of the timer at base: TIM1, TIM16 and TIM17 sit on APB2. */
  function TimerApb2Clock(base: bv32): bv32
  {
    if base == TIM1_BASE then RCC_APB2ENR_TIM1EN
    else if base == TIM16_BASE then RCC_APB2ENR_TIM16EN
    else if base == TIM17_BASE then RCC_APB2ENR_TIM17EN
    else 0
  }

  /**
   * The AHBENR bit pwmout_init sets for pin, bit 17 + port; pins beyond
   * port 14 (the shift leaves the register) set nothing.
   */
  function GpioClock(pin: PinName): bv32
  {
    if pin.Pin? && PortIndex(pin.id) < 15 then PortClockBit(PortIndex(pin.id)) else 0
  }

  /** AHBENR, APB1ENR and APB2ENR after pwmout_init for the timer at base and pin. */
  function InitAhb(enr: bv32, pin: PinName): bv32
  {
    enr | GpioClock(pin)
  }

  function InitApb1(enr: bv32, base: bv32): bv32
  {
    enr | TimerApb1Clock(base)
  }

  function InitApb2(enr: bv32, base: bv32): bv32
  {
    enr | TimerApb2Clock(base)
  }

  /** A pin of port A gets GPIOAEN, a pin of port B GPIOBEN. */
  lemma GpioClockPorts(n: bv32)
    requires n < 16
    ensures GpioClock(PA(n)) == RCC_AHBENR_GPIOAEN && GpioClock(PB(n)) == RCC_AHBENR_GPIOBEN
  {
  }

  /** Every timer the table names is clocked on exactly one of the two buses. */
  lemma TableTimersClocked(i: int)
    requires 0 <= i < |PWM_PINS|
    ensures (TimerApb1Clock(TimerOf(PWM_PINS[i].peripheral)) == 0) != (TimerApb2Clock(TimerOf(PWM_PINS[i].peripheral)) == 0)
  {
    TableDecodes(TIM_1_3, i);
  }

  /** Every pin of the table has its port clock turned on by pwmout_init. */
  lemma TablePortsClocked(i: int, enr: bv32)
    requires 0 <= i < |PWM_PINS|
    ensures GpioClock(PWM_PINS[i].pin) != 0 && InitAhb(enr, PWM_PINS[i].pin) & GpioClock(PWM_PINS[i].pin) == GpioClock(PWM_PINS[i].pin)
  {
  }

  /** The clock enables of pwmout_init: the timer's enable bit on its bus, then the pin's port. */
  method EnableClocks(rcc: Rcc, base: bv32, pin: PinName)
    modifies rcc
    ensures rcc.AHBENR == InitAhb(old(rcc.AHBENR), pin)
    ensures rcc.APB1ENR == InitApb1(old(rcc.APB1ENR), base)
    ensures rcc.APB2ENR == InitApb2(old(rcc.APB2ENR), base)
  {
    rcc.APB2ENR := rcc.APB2ENR | TimerApb2Clock(base);
    rcc.APB1ENR := rcc.APB1ENR | TimerApb1Clock(base);
    rcc.AHBENR := rcc.AHBENR | GpioClock(pin);
  }

  /** pwmout_t: the timer's register block and the channel number. */
  class PwmOut {
    var timer: Tim?
    var channel: bv32

    constructor ()
      ensures timer == null && channel == 0
    {
      timer := null;
      channel := 0;
    }
  }

  /** Every timer base names a register block. */
  predicate TimersMapped(timers: map<bv32, Tim>)
  {
    forall b :: b in TIMER_BASES ==> b in timers
  }

  /** The register block pwmout_init programs for a lookup result, if any. */
  function TimerBlock(timers: map<bv32, Tim>, code: Option<bv32>): set<Tim>
  {
    if code.Some? && TimerOf(code.value) in timers then {timers[TimerOf(code.value)]} else {}
  }

  method SetTimebase(t: Tim, psc: u16)
    modifies t
    ensures t.Regs() == Timebase(old(t.Regs()), psc)
  {
    t.PSC := psc;
    t.ARR := INIT_PERIOD;
    t.CNT := 0;
  }

  method SetOutputMode(t: Tim, ch: bv32)
    requires 1 <= ch <= 4
    modifies t
    ensures t.Regs() == OutputMode(old(t.Regs()), ch)
  {
    if ch == 1 {
      t.CCMR1 := t.CCMR1 | TIM_CCMR_OC_LOW;
    } else if ch == 2 {
      t.CCMR1 := t.CCMR1 | TIM_CCMR_OC_HIGH;
    } else if ch == 3 {
      t.CCMR2 := t.CCMR2 | TIM_CCMR_OC_LOW;
    } else {
      t.CCMR2 := t.CCMR2 | TIM_CCMR_OC_HIGH;
    }
  }

  method EnableOutput(t: Tim, ch: bv32)
    requires 1 <= ch <= 4
    modifies t
    ensures t.Regs() == OutputEnabled(old(t.Regs()), ch)
  {
    t.CCER := t.CCER | EnableBit(ch);
    t.BDTR := TIM_BDTR_MOE;
    t.CR1 := TIM_CR1_CEN;
    t.EGR := EventBits(ch);
  }

  /** The register programming of pwmout_init: the timer is started in PWM mode on channel ch. */
  method Configure(t: Tim, psc: u16, ch: bv32)
    requires 1 <= ch <= 4
    modifies t
    ensures t.Regs() == Started(old(t.Regs()), psc, ch)
  {
    SetTimebase(t, psc);
    SetOutputMode(t, ch);
    t.SetCcr(ch, 0);
    EnableOutput(t, ch);
  }

  /**
   * pwmout_init: a pin the table does not list fails with "PWM pinout
   * mapping failed"; otherwise the object records the decoded timer and
   * channel, the timer's and the pin's port clocks are enabled and that
   * timer is started in PWM mode on the channel.
   */
  method Init(obj: PwmOut, rcc: Rcc, timers: map<bv32, Tim>, resolve: Resolver<bv32>, pin: PinName, clk: u32)
    returns (st: Status)
    requires FromTable(resolve(pin, PWM_PINS), PWM_PINS) && TimersMapped(timers)
    requires forall b :: b in timers ==> allocated(timers[b])
    modifies obj, rcc, TimerBlock(timers, resolve(pin, PWM_PINS))
    ensures resolve(pin, PWM_PINS).None? ==> st == Failed(PinoutMappingFailed) && unchanged(obj) && unchanged(rcc)
    ensures resolve(pin, PWM_PINS).Some? ==>
      var code := resolve(pin, PWM_PINS).value;
      && st == Ok
      && TimerOf(code) in timers && obj.timer == timers[TimerOf(code)]
      && obj.channel == ChannelOf(code) && 1 <= obj.channel <= 4
      && obj.timer.Regs() == Started(old(timers[TimerOf(code)].Regs()), Prescaler(clk), obj.channel)
    ensures resolve(pin, PWM_PINS).Some? ==> rcc.AHBENR == InitAhb(old(rcc.AHBENR), pin)
    ensures resolve(pin, PWM_PINS).Some? ==> rcc.APB1ENR == InitApb1(old(rcc.APB1ENR), TimerOf(resolve(pin, PWM_PINS).value))
    ensures resolve(pin, PWM_PINS).Some? ==> rcc.APB2ENR == InitApb2(old(rcc.APB2ENR), TimerOf(resolve(pin, PWM_PINS).value))
  {
    var timer := resolve(pin, PWM_PINS);
    if timer.None? {
      return Failed(PinoutMappingFailed);
    }
    var i :| 0 <= i < |PWM_PINS| && PWM_PINS[i].peripheral == timer.value;
    TableDecodes(TIM_1_3, i);
    obj.timer := timers[TimerOf(timer.value)];
    obj.channel := ChannelOf(timer.value);
    EnableClocks(rcc, TimerOf(timer.value), pin);
    Configure(obj.timer, Prescaler(clk), obj.channel);
    st := Ok;
  }

  /** pwmout_period_ms: the auto-reload register keeps 24000 * ms, modulo 2^16. */
  method PeriodMs(obj: PwmOut, ms: int)
    requires obj.timer != null
    modifies obj.timer
    ensures obj.timer.Regs() == old(obj.timer.Regs()).(ARR := TicksMs(ms))
  {
    obj.timer.ARR := TicksMs(ms);
  }

  /** pwmout_period_us: the auto-reload register keeps 24 * us, modulo 2^16. */
  method PeriodUs(obj: PwmOut, us: int)
    requires obj.timer != null
    modifies obj.timer
    ensures obj.timer.Regs() == old(obj.timer.Regs()).(ARR := TicksUs(us))
  {
    obj.timer.ARR := TicksUs(us);
  }

  /** pwmout_pulsewidth_ms: the channel's compare register keeps 24000 * ms, modulo 2^16. */
  method PulsewidthMs(obj: PwmOut, ms: int)
    requires obj.timer != null && 1 <= obj.channel <= 4
    modifies obj.timer
    ensures obj.timer.Regs() == old(obj.timer.Regs()).WithCcr(obj.channel, TicksMs(ms))
  {
    obj.timer.SetCcr(obj.channel, TicksMs(ms));
  }

  /** pwmout_pulsewidth_us: the channel's compare register keeps 24 * us, modulo 2^16. */
  method PulsewidthUs(obj: PwmOut, us: int)
    requires obj.timer != null && 1 <= obj.channel <= 4
    modifies obj.timer
    ensures obj.timer.Regs() == old(obj.timer.Regs()).WithCcr(obj.channel, TicksUs(us))
  {
    obj.timer.SetCcr(obj.channel, TicksUs(us));
  }
}
