/**
 * The STM32F030 peripheral names (PeripheralNames.h). Peripherals are named
 * by the base address of their register block (RM0091 memory map); a timer
 * output adds its channel number to the timer's base, and an ADC input is
 * named by its channel number.
 */
module NamesF030 {
  import opened Pins

  const USART1_BASE: bv32 := 0x4001_3800
  const SPI1_BASE: bv32 := 0x4001_3000
  const SPI2_BASE: bv32 := 0x4000_3800
  const TIM1_BASE: bv32 := 0x4001_2C00
  const TIM3_BASE: bv32 := 0x4000_0400
  const TIM14_BASE: bv32 := 0x4000_2000
  const TIM16_BASE: bv32 := 0x4001_4400
  const TIM17_BASE: bv32 := 0x4001_4800

  /** ADCName: ADC0_0 .. ADC0_15, in declaration order. */
  const ADC0: seq<bv32> := [0, 1, 2, 3, 4, 5, 6, 7, 8, 9, 10, 11, 12, 13, 14, 15]

  /** Every ADC name is its channel number. */
  lemma AdcNamesAreChannels(k: int)
    requires 0 <= k < |ADC0|
    ensures |ADC0| == 16 && ADC0[k] as int == k
  {
  }

  /** SPIName and UARTName. */
  datatype SpiName = SPI_1 | SPI_2
  datatype UartName = UART_1

  function SpiBase(n: SpiName): bv32
  {
    match n
    case SPI_1 => SPI1_BASE
    case SPI_2 => SPI2_BASE
  }

  function UartBase(n: UartName): bv32
  {
    USART1_BASE
  }

  /** The timer bases. */
  const TIMER_BASES: seq<bv32> := [TIM1_BASE, TIM3_BASE, TIM14_BASE, TIM16_BASE, TIM17_BASE]

  /** Every timer base is 1 KB aligned, so its low nibble is free for a channel number. */
  lemma TimerBasesAligned(i: int)
    requires 0 <= i < |TIMER_BASES|
    ensures TIMER_BASES[i] & 0x3FF == 0
  {
  }

  /** TimerName: the output of timer base on channel c is base + c. */
  function TimerChannel(base: bv32, c: bv32): bv32
  {
    base + c
  }

  const TIM_1_1: bv32 := TimerChannel(TIM1_BASE, 1)
  const TIM_1_2: bv32 := TimerChannel(TIM1_BASE, 2)
  /** As declared: TIM_1_3 is TIM1_BASE + 4, not + 3. */
  const TIM_1_3: bv32 := TIM1_BASE + 4
  const TIM_1_4: bv32 := TimerChannel(TIM1_BASE, 4)
  const TIM_3_4: bv32 := TimerChannel(TIM3_BASE, 4)
  const TIM_14_1: bv32 := TimerChannel(TIM14_BASE, 1)
  const TIM_16_1: bv32 := TimerChannel(TIM16_BASE, 1)
  const TIM_17_1: bv32 := TimerChannel(TIM17_BASE, 1)

  /** TIM_1_3 and TIM_1_4 are the same value: channel 3 of TIM1 cannot be named. */
  lemma Tim1Channel3Collides()
    ensures TIM_1_3 == TIM_1_4
    ensures TIM_1_3 != TimerChannel(TIM1_BASE, 3)
  {
  }

  /**
   * On an aligned base the encoding base + c keeps distinct channels 0..15
   * distinct, so the intended TIM_1_3 = TimerChannel(TIM1_BASE, 3) differs
   * from TIM_1_4.
   */
  lemma TimerChannelInjective(base: bv32, c: bv32, c': bv32)
    requires base & 0xF == 0 && c < 16 && c' < 16
    ensures TimerChannel(base, c) == TimerChannel(base, c') <==> c == c'
  {
  }

  /** Timer outputs of different aligned bases never coincide. */
  lemma TimerChannelSeparatesTimers(base: bv32, base': bv32, c: bv32, c': bv32)
    requires base & 0xF == 0 && base' & 0xF == 0 && c < 16 && c' < 16
    requires base != base'
    ensures TimerChannel(base, c) != TimerChannel(base', c')
  {
  }

  /** The standard-I/O UART: UART_1 on PA_9 (TX) and PA_10 (RX). */
  const STDIO_UART: UartName := UART_1
  const STDIO_UART_TX: PinName := PA(9)
  const STDIO_UART_RX: PinName := PA(10)
}
