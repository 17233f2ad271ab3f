/**
 * The STM32F1xx PWM output (pwmout_api.c). All four outputs are the
 * channels of TIM4 on PB_6..PB_9; pwmout_init remaps I2C1 away from PB_6 and
 * PB_7 when one of those is used, programs the channel's output mode and
 * starts TIM4 with a prescaler of 2 and a reload of 240. The integer period
 * and pulse-width setters count 24 ticks per microsecond into TIM4's 16-bit
 * registers.
 */
module PwmF1 {
  import opened Wrappers
  import opened Bits
  import opened Pins
  import opened RegsF1
  import opened PinmapF1

  /**
   * PWMName: PWM_1..PWM_4 are the TIM4 channel numbers 1..4 (the driver uses
   * pwm - 1 as the channel index).
   */
  const PWM_1: bv32 := 1
  const PWM_2: bv32 := 2
  const PWM_3: bv32 := 3
  const PWM_4: bv32 := 4

  /** PinMap_PWM_Out without its terminator: PB_6..PB_9 as 50 MHz alternate push-pull outputs. */
  function PwmPins(k: PinConstants): seq<PinMap<bv32>>
  {
    [ PinMap(PB(6), PWM_1, PinData(k.modeOutput50MHz, k.confOutputAltPushPull)),
      PinMap(PB(7), PWM_2, PinData(k.modeOutput50MHz, k.confOutputAltPushPull)),
      PinMap(PB(8), PWM_3, PinData(k.modeOutput50MHz, k.confOutputAltPushPull)),
      PinMap(PB(9), PWM_4, PinData(k.modeOutput50MHz, k.confOutputAltPushPull)) ]
  }

  /** Row i of the table is pin PB_(6 + i) driving channel i + 1. */
  lemma TableIsPb6ToPb9(k: PinConstants, i: int)
    requires 0 <= i < |PwmPins(k)|
    ensures PwmPins(k)[i].pin == PB(6 + i as bv32)
    ensures PwmPins(k)[i].peripheral == 1 + i as bv32
    ensures PwmPins(k)[i].data == PinData(k.modeOutput50MHz, k.confOutputAltPushPull)
  {
  }

  /** Every row names a channel 1..4. */
  lemma TableChannels(k: PinConstants, i: int)
    requires 0 <= i < |PwmPins(k)|
    ensures 1 <= PwmPins(k)[i].peripheral <= 4
  {
  }

  /** APB2ENR after pwmout_init: the AFIO clock is ORed in. */
  function InitApb2(enr: bv32): bv32
  {
    enr | RCC_APB2ENR_AFIOEN
  }

  /** APB1ENR after pwmout_init: the TIM4 clock is ORed in. */
  function InitApb1(enr: bv32): bv32
  {
    enr | RCC_APB1ENR_TIM4EN
  }

  /**
   * Every PWM pin is on port B, but pwmout_init leaves the port B clock bit
   * as it found it: the pins work only if something else enabled it.
   */
  lemma InitLeavesPortClock(k: PinConstants, enr: bv32)
    ensures forall i :: 0 <= i < |PwmPins(k)| ==> PwmPins(k)[i].pin.Pin? && PortIndex(PwmPins(k)[i].pin.id) == 1
    ensures InitApb2(enr) & PortClockBit(1) == enr & PortClockBit(1)
  {
  }

  /** The clock enables of pwmout_init. */
  method EnableClocks(rcc: Rcc)
    modifies rcc
    ensures rcc.APB2ENR == InitApb2(old(rcc.APB2ENR))
    ensures rcc.APB1ENR == InitApb1(old(rcc.APB1ENR))
  {
    rcc.APB2ENR := InitApb2(rcc.APB2ENR);
    rcc.APB1ENR := InitApb1(rcc.APB1ENR);
  }

  /** The pins that carry I2C1 unless it is remapped. */
  predicate I2c1Pin(pin: PinName)
  {
    pin == PB(6) || pin == PB(7)
  }

  /** AFIO MAPR after pwmout_init: I2C1_REMAP is ORed in for PB_6 and PB_7. */
  function Remapped(mapr: bv32, pin: PinName): bv32
  {
    if I2c1Pin(pin) then mapr | AFIO_MAPR_I2C1_REMAP else mapr
  }

  /** The remap bit is set afterwards exactly when the pin is PB_6 or PB_7 or it was set before. */
  lemma RemappedIff(mapr: bv32, pin: PinName)
    ensures Remapped(mapr, pin) & AFIO_MAPR_I2C1_REMAP != 0 <==> I2c1Pin(pin) || mapr & AFIO_MAPR_I2C1_REMAP != 0
  {
  }

  /** No other MAPR bit changes. */
  lemma RemappedKeepsOthers(mapr: bv32, pin: PinName)
    ensures Remapped(mapr, pin) & !AFIO_MAPR_I2C1_REMAP == mapr & !AFIO_MAPR_I2C1_REMAP
  {
    if I2c1Pin(pin) {
      assert Remapped(mapr, pin) == mapr | AFIO_MAPR_I2C1_REMAP;
    }
  }

  /** The capture/compare mode register holding channel pwm's configuration. */
  function ModeRegister(t: TimRegs, pwm: bv32): bv16
  {
    if pwm <= 2 then t.CCMR1 else t.CCMR2
  }

  /** The byte of that register that configures channel pwm: the low byte for 1 and 3, the high byte for 2 and 4. */
  function ChannelField(pwm: bv32): bv16
  {
    if pwm == 1 || pwm == 3 then 0x00FF else 0xFF00
  }

  /** PWM mode 1 with preload, in channel pwm's byte. */
  function ModeBits(pwm: bv32): bv16
  {
    if pwm == 1 || pwm == 3 then TIM_CCMR_PWM1_LOW else TIM_CCMR_PWM1_HIGH
  }

  /** Channel pwm is an output in PWM mode 1 with preload: its byte holds exactly those bits. */
  predicate InPwmMode(t: TimRegs, pwm: bv32)
  {
    ModeRegister(t, pwm) & ChannelField(pwm) == ModeBits(pwm)
  }

  /** The switch on pwm, as written: CCMR1 or CCMR2 is assigned the channel's mode bits outright. */
  function ModeAssigned(t: TimRegs, pwm: bv32): TimRegs
  {
    t.(CCMR1 := if pwm <= 2 then ModeBits(pwm) else t.CCMR1,
       CCMR2 := if pwm <= 2 then t.CCMR2 else ModeBits(pwm))
  }

  /** Bit 4(pwm - 1) of CCER: channel pwm's output enable. */
  function EnableBit(pwm: bv32): bv16
    requires 1 <= pwm <= 4
  {
    1 << ((pwm - 1) * 4)
  }

  /** The rest of pwmout_init: output enabled, reload 240, prescaler 2, auto-reload preload and counter on. */
  function Running(t: TimRegs, pwm: bv32): TimRegs
    requires 1 <= pwm <= 4
  {
    t.(CCER := t.CCER | EnableBit(pwm), ARR := 240, PSC := 2, CR1 := t.CR1 | TIM_CR1_ARPE | TIM_CR1_CEN)
  }

  /** TIM4 after pwmout_init on channel pwm. */
  function Started(t: TimRegs, pwm: bv32): TimRegs
    requires 1 <= pwm <= 4
  {
    Running(ModeAssigned(t, pwm), pwm)
  }

  /** After pwmout_init channel pwm is in PWM mode... */
  lemma StartedInPwmMode(t: TimRegs, pwm: bv32)
    requires 1 <= pwm <= 4
    ensures InPwmMode(Started(t, pwm), pwm)
  {
    assert ModeRegister(Started(t, pwm), pwm) == ModeBits(pwm);
  }

  /** ... its output is enabled and every other CCER bit is kept... */
  lemma StartedOutputOn(t: TimRegs, pwm: bv32)
    requires 1 <= pwm <= 4
    ensures Started(t, pwm).CCER & EnableBit(pwm) != 0
  {
  }

  lemma StartedKeepsOtherCcer(t: TimRegs, pwm: bv32)
    requires 1 <= pwm <= 4
    ensures Started(t, pwm).CCER & !EnableBit(pwm) == t.CCER & !EnableBit(pwm)
  {
  }

  /** ... and TIM4 counts with PSC = 2 up to ARR = 240, with CEN and ARPE set. */
  lemma StartedTimebase(t: TimRegs, pwm: bv32)
    requires 1 <= pwm <= 4
    ensures Started(t, pwm).PSC == 2 && Started(t, pwm).ARR == 240
    ensures Started(t, pwm).CCR1 == t.CCR1 && Started(t, pwm).CCR2 == t.CCR2
    ensures Started(t, pwm).CCR3 == t.CCR3 && Started(t, pwm).CCR4 == t.CCR4
  {
  }

  lemma StartedCounting(t: TimRegs, pwm: bv32)
    requires 1 <= pwm <= 4
    ensures Started(t, pwm).CR1 & (TIM_CR1_ARPE | TIM_CR1_CEN) == TIM_CR1_ARPE | TIM_CR1_CEN
  {
  }

  /**
   * As written, initialising the second channel of a mode register takes
   * the first one out of PWM mode: PWM_1 then PWM_2 leaves CCMR1 = 0x6800,
   * whose low byte (channel 1) is zero.
   */
  lemma SecondChannelDropsFirst(t: TimRegs)
    ensures InPwmMode(Started(t, PWM_1), PWM_1)
    ensures !InPwmMode(Started(Started(t, PWM_1), PWM_2), PWM_1)
  {
  }

  /** The channel's mode byte replaced, the other channel's byte in the same register kept. */
  function CorrectedModeAssigned(t: TimRegs, pwm: bv32): TimRegs
  {
    t.(CCMR1 := if pwm <= 2 then (t.CCMR1 & !ChannelField(pwm)) | ModeBits(pwm) else t.CCMR1,
       CCMR2 := if pwm <= 2 then t.CCMR2 else (t.CCMR2 & !ChannelField(pwm)) | ModeBits(pwm))
  }

  /** pwmout_init with the corrected mode write. */
  function CorrectedStarted(t: TimRegs, pwm: bv32): TimRegs
    requires 1 <= pwm <= 4
  {
    Running(CorrectedModeAssigned(t, pwm), pwm)
  }

  /** The corrected initialisation puts its own channel in PWM mode... */
  lemma CorrectedInPwmMode(t: TimRegs, pwm: bv32)
    requires 1 <= pwm <= 4
    ensures InPwmMode(CorrectedStarted(t, pwm), pwm)
  {
  }

  /** ... and every channel that was in PWM mode stays so. */
  lemma CorrectedKeepsMode(t: TimRegs, pwm: bv32, other: bv32)
    requires 1 <= pwm <= 4 && 1 <= other <= 4 && pwm != other
    requires InPwmMode(t, other)
    ensures InPwmMode(CorrectedStarted(t, pwm), other)
  {
  }

  /** Ticks for ms milliseconds: 24000 * ms, of which the 16-bit register keeps the low half. */
  function TicksMs(ms: int): u16
  {
    Wrap16(24000 * ms)
  }

  /** Ticks for us microseconds: 24 * us, modulo 2^16. */
  function TicksUs(us: int): u16
  {
    Wrap16(24 * us)
  }

  /** Both setters count 24 ticks per microsecond. */
  lemma MillisecondsAreMicroseconds(ms: int)
    ensures TicksMs(ms) == TicksUs(1000 * ms)
  {
    assert 24000 * ms == 24 * (1000 * ms);
  }

  /** Only periods up to 2 ms fit: 20 ms, a common servo period, programs 21248 ticks (about 0.9 ms). */
  lemma PeriodMsWraps()
    ensures TicksMs(2) as int == 48000
    ensures TicksMs(3) as int == 72000 - 0x1_0000
    ensures TicksMs(20) == 21248
  {
  }

  /** pwmout_t: the channel. */
  class PwmOut {
    var pwm: bv32

    constructor ()
      ensures pwm == 0
    {
      pwm := 0;
    }
  }

  method AssignMode(tim4: Tim, pwm: bv32)
    requires 1 <= pwm <= 4
    modifies tim4
    ensures tim4.Regs() == ModeAssigned(old(tim4.Regs()), pwm)
  {
    if pwm == PWM_1 {
      tim4.CCMR1 := TIM_CCMR_PWM1_LOW;
    } else if pwm == PWM_2 {
      tim4.CCMR1 := TIM_CCMR_PWM1_HIGH;
    } else if pwm == PWM_3 {
      tim4.CCMR2 := TIM_CCMR_PWM1_LOW;
    } else {
      tim4.CCMR2 := TIM_CCMR_PWM1_HIGH;
    }
  }

  method Run(tim4: Tim, pwm: bv32)
    requires 1 <= pwm <= 4
    modifies tim4
    ensures tim4.Regs() == Running(old(tim4.Regs()), pwm)
  {
    tim4.CCER := tim4.CCER | EnableBit(pwm);
    tim4.ARR := 240;
    tim4.PSC := 2;
    tim4.CR1 := tim4.CR1 | TIM_CR1_ARPE | TIM_CR1_CEN;
  }

  /**
   * pwmout_init: an unlisted pin fails with "PWM pinout mapping failed";
   * otherwise the object records the channel, the AFIO and TIM4 clocks are
   * enabled, MAPR is remapped for PB_6 and PB_7, and TIM4 is started on the
   * channel.
   */
  method Init(obj: PwmOut, rcc: Rcc, tim4: Tim, afio: Afio, k: PinConstants, resolve: Resolver<bv32>, pin: PinName)
    returns (st: Status)
    requires FromTable(resolve(pin, PwmPins(k)), PwmPins(k))
    modifies obj, rcc, tim4, afio
    ensures resolve(pin, PwmPins(k)).None? ==>
      st == Failed(PinoutMappingFailed) && unchanged(obj) && unchanged(rcc) && unchanged(tim4) && unchanged(afio)
    ensures resolve(pin, PwmPins(k)).Some? ==>
      && st == Ok && obj.pwm == resolve(pin, PwmPins(k)).value && 1 <= obj.pwm <= 4
      && afio.MAPR == Remapped(old(afio.MAPR), pin)
      && tim4.Regs() == Started(old(tim4.Regs()), obj.pwm)
    ensures resolve(pin, PwmPins(k)).Some? ==>
      rcc.APB2ENR == InitApb2(old(rcc.APB2ENR)) && rcc.APB1ENR == InitApb1(old(rcc.APB1ENR))
  {
    var pwm := resolve(pin, PwmPins(k));
    if pwm.None? {
      return Failed(PinoutMappingFailed);
    }
    var i :| 0 <= i < |PwmPins(k)| && PwmPins(k)[i].peripheral == pwm.value;
    TableChannels(k, i);
    obj.pwm := pwm.value;
    EnableClocks(rcc);
    if I2c1Pin(pin) {
      afio.MAPR := afio.MAPR | AFIO_MAPR_I2C1_REMAP;
    }
    AssignMode(tim4, obj.pwm);
    Run(tim4, obj.pwm);
    st := Ok;
  }

  /** pwmout_period_ms: ARR takes 24000 * ms, of which it keeps 16 bits. */
  method PeriodMs(tim4: Tim, ms: int)
    modifies tim4
    ensures tim4.Regs() == old(tim4.Regs()).(ARR := TicksMs(ms))
  {
    tim4.ARR := TicksMs(ms);
  }

  /** pwmout_period_us: ARR takes 24 * us, of which it keeps 16 bits. */
  method PeriodUs(tim4: Tim, us: int)
    modifies tim4
    ensures tim4.Regs() == old(tim4.Regs()).(ARR := TicksUs(us))
  {
    tim4.ARR := TicksUs(us);
  }

  /** pwmout_pulsewidth_ms: channel pwm's compare register takes 24000 * ms, modulo 2^16. */
  method PulsewidthMs(obj: PwmOut, tim4: Tim, ms: int)
    requires 1 <= obj.pwm <= 4
    modifies tim4
    ensures tim4.Regs() == old(tim4.Regs()).WithCcr(obj.pwm, TicksMs(ms))
  {
    tim4.SetCcr(obj.pwm, TicksMs(ms));
  }

  /** pwmout_pulsewidth_us: channel pwm's compare register takes 24 * us, modulo 2^16. */
  method PulsewidthUs(obj: PwmOut, tim4: Tim, us: int)
    requires 1 <= obj.pwm <= 4
    modifies tim4
    ensures tim4.Regs() == old(tim4.Regs()).WithCcr(obj.pwm, TicksUs(us))
  {
    tim4.SetCcr(obj.pwm, TicksUs(us));
  }
}
