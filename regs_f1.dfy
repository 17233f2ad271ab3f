/**
 * Memory-mapped register blocks of the STM32F1xx peripherals used by the
 * HAL, with the bit masks the drivers use. Timer, USART and SPI registers are
 * 16 bits wide on this family; GPIO, RCC, AFIO and ADC registers are 32 bits.
 * Registers holding numbers (counter, prescaler, reload, compare, baud
 * divisor) are unsigned integers, the others bit vectors.
 */
module RegsF1 {
  import opened Bits

  /** One GPIO port: the two configuration registers and the output data register. */
  class GpioPort {
    var CRL: bv32
    var CRH: bv32
    var ODR: bv32

    constructor ()
    {
    }
  }

  /** Reset and clock control: the peripheral clock enable registers. */
  class Rcc {
    var APB1ENR: bv32
    var APB2ENR: bv32

    constructor ()
    {
    }
  }

  /** Alternate-function remap control. */
  class Afio {
    var MAPR: bv32

    constructor ()
    {
    }
  }

  const AFIO_MAPR_I2C1_REMAP: bv32 := 0x0000_0002

  const RCC_APB2ENR_AFIOEN: bv32 := 0x0000_0001
  const RCC_APB2ENR_IOPAEN: bv32 := 0x0000_0004
  const RCC_APB2ENR_IOPBEN: bv32 := 0x0000_0008
  const RCC_APB2ENR_IOPCEN: bv32 := 0x0000_0010
  const RCC_APB2ENR_ADC1EN: bv32 := 0x0000_0200
  const RCC_APB2ENR_SPI1EN: bv32 := 0x0000_1000
  const RCC_APB2ENR_USART1EN: bv32 := 0x0000_4000
  const RCC_APB1ENR_TIM2EN: bv32 := 0x0000_0001
  const RCC_APB1ENR_TIM3EN: bv32 := 0x0000_0002
  const RCC_APB1ENR_TIM4EN: bv32 := 0x0000_0004
  const RCC_APB1ENR_SPI2EN: bv32 := 0x0000_4000
  const RCC_APB1ENR_USART2EN: bv32 := 0x0002_0000

  /** The APB2ENR clock enable of GPIO port `port` (A = 0): IOPAEN is bit 2, the next ports follow. */
  function PortClockBit(port: bv32): bv32
    requires port < 30
  {
    1 << (port + 2)
  }

  /** The registers of a timer, as a value. */
  datatype TimRegs = TimRegs(
    CR1: bv16, CR2: bv16, SMCR: bv16, DIER: bv16, SR: bv16, EGR: bv16,
    CCMR1: bv16, CCMR2: bv16, CCER: bv16,
    CNT: u16, PSC: u16, ARR: u16, CCR1: u16, CCR2: u16, CCR3: u16, CCR4: u16)
  {
    /** Capture/compare register n (1..4): the drivers index CCR1 as an array. */
    function Ccr(n: bv32): u16
      requires 1 <= n <= 4
    {
      if n == 1 then CCR1 else if n == 2 then CCR2 else if n == 3 then CCR3 else CCR4
    }

    /** The registers with capture/compare register n set to v. */
    function WithCcr(n: bv32, v: u16): (r: TimRegs)
      requires 1 <= n <= 4
      ensures r.Ccr(n) == v
      ensures forall m: bv32 {:trigger r.Ccr(m)} :: 1 <= m <= 4 && m != n ==> r.Ccr(m) == Ccr(m)
    {
      this.(CCR1 := if n == 1 then v else CCR1, CCR2 := if n == 2 then v else CCR2,
            CCR3 := if n == 3 then v else CCR3, CCR4 := if n == 4 then v else CCR4)
    }
  }

  /** A general-purpose timer (TIM2, TIM3, TIM4). */
  class Tim {
    var CR1: bv16
    var CR2: bv16
    var SMCR: bv16
    var DIER: bv16
    var SR: bv16
    var EGR: bv16
    var CCMR1: bv16
    var CCMR2: bv16
    var CCER: bv16
    var CNT: u16
    var PSC: u16
    var ARR: u16
    var CCR1: u16
    var CCR2: u16
    var CCR3: u16
    var CCR4: u16

    constructor ()
    {
    }

    /** The current contents of every register. */
    function Regs(): TimRegs
      reads this
    {
      TimRegs(CR1, CR2, SMCR, DIER, SR, EGR, CCMR1, CCMR2, CCER, CNT, PSC, ARR, CCR1, CCR2, CCR3, CCR4)
    }

    /** Writes capture/compare register n, leaving every other register as it was. */
    method SetCcr(n: bv32, v: u16)
      requires 1 <= n <= 4
      modifies this
      ensures Regs() == old(Regs()).WithCcr(n, v)
    {
      if n == 1 { CCR1 := v; } else if n == 2 { CCR2 := v; } else if n == 3 { CCR3 := v; } else { CCR4 := v; }
    }
  }

  const TIM_CR1_CEN: bv16 := 0x0001
  const TIM_CR1_ARPE: bv16 := 0x0080
  const TIM_CR2_MMS_1: bv16 := 0x0020
  const TIM_SMCR_SMS: bv16 := 0x0007
  const TIM_SMCR_TS_0: bv16 := 0x0010
  const TIM_DIER_CC1IE: bv16 := 0x0002
  const TIM_SR_CC1IF: bv16 := 0x0002
  const TIM_EGR_UG: bv16 := 0x0001
  /** OCxM = 110 (PWM mode 1) with the preload enable OCxPE, for the low and high channel of a CCMR. */
  const TIM_CCMR_PWM1_LOW: bv16 := 0x0068
  const TIM_CCMR_PWM1_HIGH: bv16 := 0x6800

  /** A USART. */
  class Usart {
    var BRR: u16
    var CR1: bv16
    var CR2: bv16

    constructor ()
    {
    }
  }

  const USART_CR1_SBK: bv16 := 0x0001
  const USART_CR1_RE: bv16 := 0x0004
  const USART_CR1_TE: bv16 := 0x0008
  const USART_CR1_PS: bv16 := 0x0200
  const USART_CR1_PCE: bv16 := 0x0400
  const USART_CR1_M: bv16 := 0x1000
  const USART_CR1_UE: bv16 := 0x2000
  const USART_CR2_STOP: bv16 := 0x3000
  const USART_CR2_STOP_1: bv16 := 0x2000

  /** An SPI controller. */
  class Spi {
    var CR1: bv16

    constructor ()
    {
    }
  }

  const SPI_CR1_CPHA: bv16 := 0x0001
  const SPI_CR1_CPOL: bv16 := 0x0002
  const SPI_CR1_MSTR: bv16 := 0x0004
  const SPI_CR1_BR: bv16 := 0x0038
  const SPI_CR1_SPE: bv16 := 0x0040
  const SPI_CR1_LSBFIRST: bv16 := 0x0080
  const SPI_CR1_SSI: bv16 := 0x0100
  const SPI_CR1_SSM: bv16 := 0x0200
  const SPI_CR1_DFF: bv16 := 0x0800

  /** ADC1: control register 2, the regular sequence register 3 and the data register. */
  class Adc {
    var CR2: bv32
    var SQR3: bv32

    constructor ()
    {
    }
  }

  const ADC_CR2_ADON: bv32 := 0x0000_0001
  const ADC_CR2_EXTSEL: bv32 := 0x000E_0000
  const ADC_CR2_EXTTRIG: bv32 := 0x0010_0000
  const ADC_CR2_SWSTART: bv32 := 0x0040_0000
}
