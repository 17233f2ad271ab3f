/**
 * The microsecond time base both ticker drivers program: a prescaler of
 * SystemCoreClock / 1000000 - 1, computed in uint32_t and stored in a 16-bit
 * PSC register, so that the prescaler timer counts at (about) 1 MHz.
 */
module Timebase {
  import opened Bits

  const MHZ := 1_000_000

  /** The PSC value us_ticker_init writes for a core clock of clk Hz. */
  function TickerPrescaler(clk: u32): u16
  {
    Wrap16(Wrap32(clk as int / MHZ - 1) as int)
  }

  /**
   * A timer counts at clk / (PSC + 1). For a core clock of at least 1 MHz
   * (and below 65537 MHz, so that the value fits PSC) that rate is at least
   * 1 MHz and below the rate one prescaler step slower would give: exactly
   * 1 MHz when clk is a whole number of MHz.
   */
  lemma TickerPrescalerRate(clk: u32)
    requires MHZ <= clk as int < 0x1_0001 * MHZ
    ensures (TickerPrescaler(clk) as int + 1) * MHZ <= clk as int < (TickerPrescaler(clk) as int + 2) * MHZ
    ensures clk as int % MHZ == 0 ==> (TickerPrescaler(clk) as int + 1) * MHZ == clk as int
  {
  }

  /**
   * Below 1 MHz the subtraction wraps around: PSC becomes 0xFFFF, the slowest
   * prescaler there is.
   */
  lemma TickerPrescalerWraps(clk: u32)
    requires clk as int < MHZ
    ensures TickerPrescaler(clk) == 0xFFFF
  {
  }
}
