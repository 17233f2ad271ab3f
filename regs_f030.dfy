/**
 * Memory-mapped register blocks of the STM32F030 peripherals used by the
 * HAL, with the bit masks the drivers use. Every timer of this family
 * (TIM1, TIM3, TIM14, TIM16, TIM17) is a 16-bit timer: its CNT, ARR and
 * CCRx are declared as 32-bit words whose upper half is reserved, so they
 * keep the low 16 bits of what the drivers store, and PSC and the control
 * registers are 16 bits wide too; SPI registers are 16 bits and ADC
 * registers 32 bits. Registers
 * holding numbers (counter, prescaler, reload, compare) are unsigned
 * integers, the others bit vectors.
 */
module RegsF030 {
  import opened Bits

  /** Reset and clock control: the peripheral clock enable registers. */
  class Rcc {
    var AHBENR: bv32
    var APB1ENR: bv32
    var APB2ENR: bv32

    constructor ()
    {
    }
  }

  const RCC_AHBENR_GPIOAEN: bv32 := 0x0002_0000
  const RCC_AHBENR_GPIOBEN: bv32 := 0x0004_0000
  const RCC_AHBENR_GPIOCEN: bv32 := 0x0008_0000
  const RCC_APB1ENR_TIM3EN: bv32 := 0x0000_0002
  const RCC_APB1ENR_TIM14EN: bv32 := 0x0000_0100
  const RCC_APB1ENR_SPI2EN: bv32 := 0x0000_4000
  const RCC_APB2ENR_ADC1EN: bv32 := 0x0000_0200
  const RCC_APB2ENR_TIM1EN: bv32 := 0x0000_0800
  const RCC_APB2ENR_SPI1EN: bv32 := 0x0000_1000
  const RCC_APB2ENR_TIM16EN: bv32 := 0x0002_0000
  const RCC_APB2ENR_TIM17EN: bv32 := 0x0004_0000

  /** The AHBENR clock enable of GPIO port `port` (A = 0): GPIOAEN is bit 17, the next ports follow. */
  function PortClockBit(port: bv32): bv32
    requires port < 15
  {
    1 << (port + 17)
  }

  /** The registers of a timer, as a value. */
  datatype TimRegs = TimRegs(
    CR1: bv16, SMCR: bv16, DIER: bv16, SR: bv16, EGR: bv16,
    CCMR1: bv16, CCMR2: bv16, CCER: bv16, BDTR: bv16,
    PSC: u16, CNT: u16, ARR: u16, CCR1: u16, CCR2: u16, CCR3: u16, CCR4: u16)
  {
    /** Capture/compare register n (1..4): the drivers index CCR1 as an array. */
    function Ccr(n: bv32): u16
      requires 1 <= n <= 4
    {
      if n == 1 then CCR1 else if n == 2 then CCR2 else if n == 3 then CCR3 else CCR4
    }

    /** The registers with capture/compare register n set to v. */
    function WithCcr(n: bv32, v: u16): (r: TimRegs)
      requires 1 <= n <= 4
      ensures r.Ccr(n) == v
      ensures forall m: bv32 {:trigger r.Ccr(m)} :: 1 <= m <= 4 && m != n ==> r.Ccr(m) == Ccr(m)
    {
      this.(CCR1 := if n == 1 then v else CCR1, CCR2 := if n == 2 then v else CCR2,
            CCR3 := if n == 3 then v else CCR3, CCR4 := if n == 4 then v else CCR4)
    }
  }

  /** A timer (TIM1, TIM3, TIM14, TIM16, TIM17). */
  class Tim {
    var CR1: bv16
    var SMCR: bv16
    var DIER: bv16
    var SR: bv16
    var EGR: bv16
    var CCMR1: bv16
    var CCMR2: bv16
    var CCER: bv16
    var BDTR: bv16
    var PSC: u16
    var CNT: u16
    var ARR: u16
    var CCR1: u16
    var CCR2: u16
    var CCR3: u16
    var CCR4: u16

    constructor ()
    {
    }

    /** The current contents of every register. */
    function Regs(): TimRegs
      reads this
    {
      TimRegs(CR1, SMCR, DIER, SR, EGR, CCMR1, CCMR2, CCER, BDTR, PSC, CNT, ARR, CCR1, CCR2, CCR3, CCR4)
    }

    /** Writes capture/compare register n, leaving every other register as it was. */
    method SetCcr(n: bv32, v: u16)
      requires 1 <= n <= 4
      modifies this
      ensures Regs() == old(Regs()).WithCcr(n, v)
    {
      if n == 1 { CCR1 := v; } else if n == 2 { CCR2 := v; } else if n == 3 { CCR3 := v; } else { CCR4 := v; }
    }
  }

  const TIM_CR1_CEN: bv16 := 0x0001
  const TIM_SMCR_SMS: bv16 := 0x0007
  const TIM_SMCR_TS_0: bv16 := 0x0010
  const TIM_SMCR_TS_1: bv16 := 0x0020
  const TIM_DIER_CC1IE: bv16 := 0x0002
  const TIM_SR_CC1IF: bv16 := 0x0002
  const TIM_EGR_UG: bv16 := 0x0001
  const TIM_EGR_CC1G: bv16 := 0x0002
  const TIM_CCER_CC1E: bv16 := 0x0001
  const TIM_BDTR_MOE: bv16 := 0x8000
  /** OCxM = 111 (PWM mode 2) with the preload enable OCxPE, for the low and high channel of a CCMR. */
  const TIM_CCMR_OC_LOW: bv16 := 0x0078
  const TIM_CCMR_OC_HIGH: bv16 := 0x7800
  /** OC1M = 111 without preload, as the ticker programs TIM14. */
  const TIM_CCMR1_OC1M: bv16 := 0x0070

  /** An SPI controller. */
  class Spi {
    var CR1: bv16
    var CR2: bv16

    constructor ()
    {
    }
  }

  const SPI_CR1_CPHA: bv16 := 0x0001
  const SPI_CR1_CPOL: bv16 := 0x0002
  const SPI_CR1_MSTR: bv16 := 0x0004
  const SPI_CR1_BR: bv16 := 0x0038
  const SPI_CR1_SPE: bv16 := 0x0040
  const SPI_CR1_SSI: bv16 := 0x0100
  const SPI_CR1_SSM: bv16 := 0x0200
  const SPI_CR2_DS: bv16 := 0x0F00
  const SPI_CR2_FRXTH: bv16 := 0x1000

  /** ADC1: control, channel selection and sampling time registers. */
  class Adc {
    var CR: bv32
    var CHSELR: bv32
    var SMPR: bv32

    constructor ()
    {
    }
  }

  const ADC_CR_ADEN: bv32 := 0x0000_0001
  const ADC_CR_ADSTART: bv32 := 0x0000_0004
  const ADC_SMPR_SMP_0_1: bv32 := 0x0000_0003
}
