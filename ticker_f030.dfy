/**
 * The STM32F030 microsecond ticker (us_ticker.c): TIM14 divides the core
 * clock down to 1 MHz and, through its compare output, clocks TIM3, which
 * therefore holds the upper half of the microsecond count. A read takes two
 * samples of TIM14 and one of TIM3 and corrects for a TIM14 wrap between them.
 */
module TickerF030 {
  import opened Bits
  import opened Timebase
  import opened RegsF030

  /**
   * us_ticker_read's value from its samples of the 16-bit counters:
   * lsb_0 + (hi << 16), plus 65536 when the second TIM14 sample lsb_1 is
   * below the first, all in uint32_t arithmetic. hi << 16 fits in 32 bits,
   * so only the sum can wrap.
   */
  function Compose(lsb0: u16, lsb1: u16, hi: u16): u32
  {
    Wrap32(lsb0 as int + hi as int * 0x1_0000 + (if lsb1 < lsb0 then 0x1_0000 else 0))
  }

  /**
   * Without a wrap between the two samples the result is the concatenation
   * hi:lsb_0.
   */
  lemma ComposeWithoutWrap(lsb0: u16, lsb1: u16, hi: u16)
    requires lsb0 <= lsb1
    ensures Compose(lsb0, lsb1, hi) as int == hi as int * 0x1_0000 + lsb0 as int
  {
  }

  /** In that case the low half of the result is lsb_0 and the high half hi. */
  lemma ComposeHalves(lsb0: u16, lsb1: u16, hi: u16)
    requires lsb0 <= lsb1
    ensures Compose(lsb0, lsb1, hi) as int % 0x1_0000 == lsb0 as int
    ensures Compose(lsb0, lsb1, hi) as int / 0x1_0000 == hi as int
  {
    ComposeWithoutWrap(lsb0, lsb1, hi);
  }

  /**
   * After a wrap of TIM14 between the samples, the result exceeds the
   * uncorrected value lsb_0 + (hi << 16) by exactly 65536, modulo 2^32.
   */
  lemma ComposeAfterWrap(lsb0: u16, lsb1: u16, hi: u16)
    requires lsb1 < lsb0
    ensures Compose(lsb0, lsb1, hi) == Wrap32(Compose(lsb0, lsb0, hi) as int + 0x1_0000)
  {
  }

  /**
   * TIM14 after the first block of us_ticker_init: counter cleared,
   * prescaler set, channel 1 in PWM mode 2 with its output enabled and a
   * compare value of 0xFFFF, an update and a compare event generated.
   */
  function PrescalerConfigured(t: TimRegs, psc: u16): TimRegs
  {
    t.(CNT := 0, PSC := psc, CCMR1 := TIM_CCMR1_OC1M, CCER := TIM_CCER_CC1E,
       CCR1 := 0xFFFF, EGR := TIM_EGR_CC1G | TIM_EGR_UG)
  }

  /**
   * TIM3 after the second block: counter cleared, slave mode "external
   * clock mode 1" on trigger input ITR3 (TS = 011, SMS = 111).
   */
  function CounterConfigured(t: TimRegs): TimRegs
  {
    t.(CNT := 0, SMCR := TIM_SMCR_TS_0 | TIM_SMCR_TS_1 | TIM_SMCR_SMS)
  }

  /** A timer with its counter enabled. */
  function Enabled(t: TimRegs): TimRegs
  {
    t.(CR1 := t.CR1 | TIM_CR1_CEN)
  }

  /** TIM14 and TIM3 after us_ticker_init. */
  function PrescalerStarted(t: TimRegs, clk: u32): TimRegs
  {
    Enabled(PrescalerConfigured(t, TickerPrescaler(clk)))
  }

  function CounterStarted(t: TimRegs): TimRegs
  {
    Enabled(CounterConfigured(t))
  }

  /**
   * After us_ticker_init TIM14 runs at clk / (PSC + 1) with PSC the ticker
   * prescaler and its compare output toggling TIM3's trigger, and TIM3
   * counts those events, both from zero.
   */
  lemma StartedCounts(t14: TimRegs, t3: TimRegs, clk: u32)
    ensures PrescalerStarted(t14, clk).PSC == TickerPrescaler(clk)
    ensures PrescalerStarted(t14, clk).CNT == 0 && CounterStarted(t3).CNT == 0
    ensures PrescalerStarted(t14, clk).CR1 & TIM_CR1_CEN != 0 && CounterStarted(t3).CR1 & TIM_CR1_CEN != 0
    ensures PrescalerStarted(t14, clk).CCER & TIM_CCER_CC1E != 0
    ensures CounterStarted(t3).SMCR & TIM_SMCR_SMS == TIM_SMCR_SMS
  {
  }

  method ConfigurePrescaler(t: Tim, psc: u16)
    modifies t
    ensures t.Regs() == PrescalerConfigured(old(t.Regs()), psc)
  {
    t.CNT := 0;
    t.PSC := psc;
    t.CCMR1 := TIM_CCMR1_OC1M;
    t.CCER := TIM_CCER_CC1E;
    t.CCR1 := 0xFFFF;
    t.EGR := TIM_EGR_CC1G | TIM_EGR_UG;
  }

  method ConfigureCounter(t: Tim)
    modifies t
    ensures t.Regs() == CounterConfigured(old(t.Regs()))
  {
    t.CNT := 0;
    t.SMCR := TIM_SMCR_TS_0 | TIM_SMCR_TS_1;
    t.SMCR := t.SMCR | TIM_SMCR_SMS;
  }

  method EnableCounter(t: Tim)
    modifies t
    ensures t.Regs() == Enabled(old(t.Regs()))
  {
    t.CR1 := t.CR1 | TIM_CR1_CEN;
  }

  /** The register writes of us_ticker_init, in the source's order. */
  method StartTimers(tim14: Tim, tim3: Tim, clk: u32)
    requires tim14 != tim3
    modifies tim14, tim3
    ensures tim14.Regs() == PrescalerStarted(old(tim14.Regs()), clk)
    ensures tim3.Regs() == CounterStarted(old(tim3.Regs()))
  {
    ConfigurePrescaler(tim14, TickerPrescaler(clk));
    ConfigureCounter(tim3);
    EnableCounter(tim14);
    EnableCounter(tim3);
  }

  /**
   * The ticker driver: the us_ticker_inited flag and the two timers it
   * programs.
   */
  class UsTicker {
    var inited: bool
    const rcc: Rcc
    const tim14: Tim
    const tim3: Tim

    constructor (rcc: Rcc, tim14: Tim, tim3: Tim)
      requires tim14 != tim3
      ensures !inited && this.rcc == rcc && this.tim14 == tim14 && this.tim3 == tim3 && Valid()
    {
      inited := false;
      this.rcc := rcc;
      this.tim14 := tim14;
      this.tim3 := tim3;
    }

    predicate Valid()
      reads this
    {
      tim14 != tim3
    }

    /**
     * us_ticker_init: the first call sets the flag and starts both timers;
     * every later call changes nothing.
     */
    method Init(clk: u32)
      requires Valid()
      modifies this, rcc, tim14, tim3
      ensures inited
      ensures old(inited) ==> unchanged(rcc) && unchanged(tim14) && unchanged(tim3)
      ensures !old(inited) ==> rcc.APB1ENR == old(rcc.APB1ENR) | RCC_APB1ENR_TIM14EN | RCC_APB1ENR_TIM3EN
      ensures rcc.APB2ENR == old(rcc.APB2ENR) && rcc.AHBENR == old(rcc.AHBENR)
      ensures !old(inited) ==> tim14.Regs() == PrescalerStarted(old(tim14.Regs()), clk)
      ensures !old(inited) ==> tim3.Regs() == CounterStarted(old(tim3.Regs()))
    {
      if inited {
        return;
      }
      inited := true;
      rcc.APB1ENR := rcc.APB1ENR | RCC_APB1ENR_TIM14EN | RCC_APB1ENR_TIM3EN;
      StartTimers(tim14, tim3, clk);
    }

    /**
     * us_ticker_read: initialises first when the flag is clear, then
     * composes the samples lsb_0, lsb_1 (of TIM14.CNT) and hi (of TIM3.CNT).
     */
    method Read(clk: u32, lsb0: u16, lsb1: u16, hi: u16) returns (t: u32)
      requires Valid()
      modifies this, rcc, tim14, tim3
      ensures inited && t == Compose(lsb0, lsb1, hi)
      ensures old(inited) ==> unchanged(rcc) && unchanged(tim14) && unchanged(tim3)
      ensures !old(inited) ==> rcc.APB1ENR == old(rcc.APB1ENR) | RCC_APB1ENR_TIM14EN | RCC_APB1ENR_TIM3EN
      ensures rcc.APB2ENR == old(rcc.APB2ENR) && rcc.AHBENR == old(rcc.AHBENR)
      ensures !old(inited) ==> tim14.Regs() == PrescalerStarted(old(tim14.Regs()), clk)
      ensures !old(inited) ==> tim3.Regs() == CounterStarted(old(tim3.Regs()))
    {
      if !inited {
        Init(clk);
      }
      t := Compose(lsb0, lsb1, hi);
    }

    /** us_ticker_disable_interrupt: clears CC1IE in TIM14's DIER. */
    method DisableInterrupt()
      modifies tim14
      ensures tim14.Regs() == old(tim14.Regs()).(DIER := old(tim14.DIER) & !TIM_DIER_CC1IE)
      ensures tim14.DIER & TIM_DIER_CC1IE == 0
    {
      tim14.DIER := tim14.DIER & !TIM_DIER_CC1IE;
    }

    /** us_ticker_clear_interrupt: clears CC1IF in TIM14's SR. */
    method ClearInterrupt()
      modifies tim14
      ensures tim14.Regs() == old(tim14.Regs()).(SR := old(tim14.SR) & !TIM_SR_CC1IF)
      ensures tim14.SR & TIM_SR_CC1IF == 0
    {
      tim14.SR := tim14.SR & !TIM_SR_CC1IF;
    }
  }
}
