/**
 * The STM32F1xx microsecond ticker (us_ticker.c): TIM2 divides the core
 * clock down to 1 MHz and, through its update event on TRGO, clocks TIM3,
 * which therefore holds the upper half of the microsecond count. A read
 * concatenates one sample of each 16-bit counter.
 */
module TickerF1 {
  import opened Bits
  import opened Timebase
  import opened RegsF1

  /**
   * us_ticker_read's value from a TIM2 sample lo and a TIM3 sample hi:
   * TIM2->CNT + (TIM3->CNT << 16), returned as uint32_t. The 16-bit CNT is
   * promoted to a signed int before the shift, which overflows for
   * hi >= 0x8000; the value taken here is the unsigned concatenation that
   * compilers produce.
   */
  function Compose(lo: u16, hi: u16): u32
  {
    Wrap32(lo as int + hi as int * 0x1_0000)
  }

  /** The result is the concatenation hi:lo, never reduced modulo 2^32. */
  lemma ComposeHalves(lo: u16, hi: u16)
    ensures Compose(lo, hi) as int == hi as int * 0x1_0000 + lo as int
    ensures Compose(lo, hi) as int % 0x1_0000 == lo as int
    ensures Compose(lo, hi) as int / 0x1_0000 == hi as int
  {
  }

  /** Different samples give different results. */
  lemma ComposeInjective(lo: u16, hi: u16, lo': u16, hi': u16)
    ensures Compose(lo, hi) == Compose(lo', hi') <==> lo == lo' && hi == hi'
  {
    ComposeHalves(lo, hi);
    ComposeHalves(lo', hi');
  }

  /**
   * TIM2 after the first block of us_ticker_init: counter cleared, prescaler
   * set, counter enabled, master mode "update" on TRGO (MMS = 010), an update
   * event generated.
   */
  function PrescalerConfigured(t: TimRegs, psc: u16): TimRegs
  {
    t.(CNT := 0, PSC := psc, CR1 := t.CR1 | TIM_CR1_CEN, CR2 := t.CR2 | TIM_CR2_MMS_1, EGR := t.EGR | TIM_EGR_UG)
  }

  /**
   * TIM3 after the second block: counter cleared, slave mode "external
   * clock mode 1" on trigger input ITR1 (TS = 001, SMS = 111).
   */
  function CounterConfigured(t: TimRegs): TimRegs
  {
    t.(CNT := 0, SMCR := TIM_SMCR_TS_0 | TIM_SMCR_SMS)
  }

  /** A timer with its counter enabled. */
  function Enabled(t: TimRegs): TimRegs
  {
    t.(CR1 := t.CR1 | TIM_CR1_CEN)
  }

  /** TIM2 and TIM3 after us_ticker_init. */
  function PrescalerStarted(t: TimRegs, clk: u32): TimRegs
  {
    Enabled(PrescalerConfigured(t, TickerPrescaler(clk)))
  }

  function CounterStarted(t: TimRegs): TimRegs
  {
    Enabled(CounterConfigured(t))
  }

  /**
   * TIM2's CEN bit is set twice; the second write is redundant: the first
   * block alone leaves TIM2 as us_ticker_init does.
   */
  lemma EnabledTwice(t: TimRegs, clk: u32)
    ensures PrescalerStarted(t, clk) == PrescalerConfigured(t, TickerPrescaler(clk))
  {
  }

  /**
   * After us_ticker_init TIM2 runs at clk / (PSC + 1) with PSC the ticker
   * prescaler, and TIM3 counts its updates, both from zero.
   */
  lemma StartedCounts(t2: TimRegs, t3: TimRegs, clk: u32)
    ensures PrescalerStarted(t2, clk).PSC == TickerPrescaler(clk)
    ensures PrescalerStarted(t2, clk).CNT == 0 && CounterStarted(t3).CNT == 0
    ensures PrescalerStarted(t2, clk).CR1 & TIM_CR1_CEN != 0 && CounterStarted(t3).CR1 & TIM_CR1_CEN != 0
    ensures CounterStarted(t3).SMCR & TIM_SMCR_SMS == TIM_SMCR_SMS
  {
  }

  method ConfigurePrescaler(t: Tim, psc: u16)
    modifies t
    ensures t.Regs() == PrescalerConfigured(old(t.Regs()), psc)
  {
    t.CNT, t.PSC := 0, psc;
    t.CR1 := t.CR1 | TIM_CR1_CEN;
    t.CR2 := t.CR2 | TIM_CR2_MMS_1;
    t.EGR := t.EGR | TIM_EGR_UG;
  }

  method ConfigureCounter(t: Tim)
    modifies t
    ensures t.Regs() == CounterConfigured(old(t.Regs()))
  {
    t.CNT := 0;
    t.SMCR := TIM_SMCR_TS_0;
    t.SMCR := t.SMCR | TIM_SMCR_SMS;
  }

  method EnableCounter(t: Tim)
    modifies t
    ensures t.Regs() == Enabled(old(t.Regs()))
  {
    t.CR1 := t.CR1 | TIM_CR1_CEN;
  }

  /** The register writes of us_ticker_init, in the source's order. */
  method StartTimers(tim2: Tim, tim3: Tim, clk: u32)
    requires tim2 != tim3
    modifies tim2, tim3
    ensures tim2.Regs() == PrescalerStarted(old(tim2.Regs()), clk)
    ensures tim3.Regs() == CounterStarted(old(tim3.Regs()))
  {
    ConfigurePrescaler(tim2, TickerPrescaler(clk));
    ConfigureCounter(tim3);
    EnableCounter(tim2);
    EnableCounter(tim3);
  }

  /**
   * The ticker driver: the us_ticker_inited flag and the peripherals it
   * programs.
   */
  class UsTicker {
    var inited: bool
    const rcc: Rcc
    const tim2: Tim
    const tim3: Tim

    constructor (rcc: Rcc, tim2: Tim, tim3: Tim)
      requires tim2 != tim3
      ensures !inited && this.rcc == rcc && this.tim2 == tim2 && this.tim3 == tim3 && Valid()
    {
      inited := false;
      this.rcc := rcc;
      this.tim2 := tim2;
      this.tim3 := tim3;
    }

    predicate Valid()
      reads this
    {
      tim2 != tim3
    }

    /**
     * us_ticker_init: the first call sets the flag, enables both timer
     * clocks and starts the timers; every later call changes nothing.
     */
    method Init(clk: u32)
      requires Valid()
      modifies this, rcc, tim2, tim3
      ensures inited
      ensures old(inited) ==> unchanged(rcc) && unchanged(tim2) && unchanged(tim3)
      ensures !old(inited) ==> rcc.APB1ENR == old(rcc.APB1ENR) | RCC_APB1ENR_TIM2EN | RCC_APB1ENR_TIM3EN
      ensures rcc.APB2ENR == old(rcc.APB2ENR)
      ensures !old(inited) ==> tim2.Regs() == PrescalerStarted(old(tim2.Regs()), clk)
      ensures !old(inited) ==> tim3.Regs() == CounterStarted(old(tim3.Regs()))
    {
      if inited {
        return;
      }
      inited := true;
      rcc.APB1ENR := rcc.APB1ENR | RCC_APB1ENR_TIM2EN | RCC_APB1ENR_TIM3EN;
      StartTimers(tim2, tim3, clk);
    }

    /**
     * us_ticker_read: initialises first when the flag is clear, then
     * composes the samples lo (of TIM2.CNT) and hi (of TIM3.CNT).
     */
    method Read(clk: u32, lo: u16, hi: u16) returns (t: u32)
      requires Valid()
      modifies this, rcc, tim2, tim3
      ensures inited && t == Compose(lo, hi)
      ensures old(inited) ==> unchanged(rcc) && unchanged(tim2) && unchanged(tim3)
      ensures !old(inited) ==> rcc.APB1ENR == old(rcc.APB1ENR) | RCC_APB1ENR_TIM2EN | RCC_APB1ENR_TIM3EN
      ensures rcc.APB2ENR == old(rcc.APB2ENR)
      ensures !old(inited) ==> tim2.Regs() == PrescalerStarted(old(tim2.Regs()), clk)
      ensures !old(inited) ==> tim3.Regs() == CounterStarted(old(tim3.Regs()))
    {
      if !inited {
        Init(clk);
      }
      t := Compose(lo, hi);
    }

    /** us_ticker_disable_interrupt: clears CC1IE in TIM2's DIER. */
    method DisableInterrupt()
      modifies tim2
      ensures tim2.Regs() == old(tim2.Regs()).(DIER := old(tim2.DIER) & !TIM_DIER_CC1IE)
      ensures tim2.DIER & TIM_DIER_CC1IE == 0
    {
      tim2.DIER := tim2.DIER & !TIM_DIER_CC1IE;
    }

    /** us_ticker_clear_interrupt: clears CC1IF in TIM2's SR. */
    method ClearInterrupt()
      modifies tim2
      ensures tim2.Regs() == old(tim2.Regs()).(SR := old(tim2.SR) & !TIM_SR_CC1IF)
      ensures tim2.SR & TIM_SR_CC1IF == 0
    {
      tim2.SR := tim2.SR & !TIM_SR_CC1IF;
    }
  }
}
