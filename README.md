# STM32F1xx / STM32F030 HAL core, modelled in Dafny

This project models the hardware abstraction layer the mbed SDK ships for
two STM32 families: the STM32F1xx (pin multiplexing, digital I/O, the
microsecond ticker, SPI, serial, PWM and the ADC) and the STM32F030 (the
ticker, SPI, PWM, the ADC and the peripheral names its tables use).

The drivers change memory-mapped registers step by step. They become
imperative Dafny:

- Each peripheral's register block is a class with one field per register,
  in `RegsF1` and `RegsF030`. Registers are `bv16` or `bv32` (numeric ones
  `u16` or `u32`), as wide as on the chip: every timer of both families is
  a 16-bit timer, so its counter, reload and compare registers keep the low
  16 bits of what a driver stores.
- Each HAL object (`gpio_t`, `spi_t`, `serial_t`, `pwmout_t`, `analogin_t`)
  is a class whose methods write those fields.
- Each method is proved against a pure function that gives the new register
  value, for example `SpiF030.FormatCr2` or `PwmF030.Started`. Lemmas then
  state what that value means: which bits are set, which fields hold what,
  and that every other bit is kept.

The pin tables (`PinMap_*`) are sequences of `PinMap` rows.

- `pinmap_peripheral` and `pinmap_merge` are parameters of the drivers. A
  resolver result is required, where a driver needs it, to come from the
  table it was given (`Pins.FromTable`); a merger is not constrained.
  `Pins.FirstMatch`, the peripheral of the first row listing a pin, is a
  reference lookup used only to show what the table order implies.
- A driver that finds no peripheral follows the source: either it reports
  `Failed(PinoutMappingFailed)` (the source calls `error`) or it returns
  `Hangs` (the F1 SPI's `while(1)`).
- Values the hardware supplies are method parameters: counter samples, ADC
  data, the core clock.
- Every register and RCC clock-enable write the init functions make is part
  of each method's postcondition.

The modules and the files they model:

- `Wrappers`, `Bits`, `Pins`: Option, fixed-width truncation, pin names and
  table rows.
- `RegsF1`, `RegsF030`: register blocks and bit constants.
- `PinmapF1`: `pin_function` and `pin_mode` of TARGET_STM32F1XX/pinmap.c.
- `GpioF1`: gpio_api.c.
- `Timebase`, `TickerF1`, `TickerF030`: the two us_ticker.c files.
- `SpiF1`, `SpiF030`: the two spi_api.c files.
- `SerialF1`: serial_api.c.
- `PwmF1`, `PwmF030`: the two pwmout_api.c files.
- `AdcCommon`, `AnalogInF1`, `AnalogInF030`: the two analogin_api.c files.
- `NamesF030`: TARGET_STM32F030/PeripheralNames.h.

## Model

| member | source | states |
|---|---|---|
| Pins.PinIndex | libraries/mbed/targets/hal/TARGET_STM/TARGET_STM32F1XX/pinmap.c:50-52 | a pin's index within its port is `id & 0xF`, always below 16 |
| Pins.PinSplitRoundTrip | libraries/mbed/targets/hal/TARGET_STM/TARGET_STM32F1XX/pinmap.c:28-30 | the port (`id >> 4`) and the index (`id & 0xF`) together give back the pin number |
| PinmapF1.ReferenceConstantsWellFormed | libraries/mbed/targets/hal/TARGET_STM/TARGET_STM32F1XX/pinmap.c:67 | the RM0008 values of the STM_PIN_MODE/CONF constants fit their 2-bit fields, and input mode is 0, which the input test of pin_mode relies on |
| PinmapF1.CrOffset | libraries/mbed/targets/hal/TARGET_STM/TARGET_STM32F1XX/pinmap.c:35-41 | a pin's field starts at bit `4 * (index mod 8)`, at most 28 |
| PinmapF1.WithCr | libraries/mbed/targets/hal/TARGET_STM/TARGET_STM32F1XX/pinmap.c:36-41 | writing the pin's configuration register changes CRL for pins 0..7 and CRH for 8..15, never the other register or ODR |
| PinmapF1.SameOutsideTrans | libraries/mbed/targets/hal/TARGET_STM/TARGET_STM32F1XX/pinmap.c:43-44 | agreement outside a mask chains across successive writes |
| PinmapF1.FieldWriteMode | libraries/mbed/targets/hal/TARGET_STM/TARGET_STM32F1XX/pinmap.c:43-44 | the cleared-then-ORed field reads back the MODE bits written |
| PinmapF1.FieldWriteConf | libraries/mbed/targets/hal/TARGET_STM/TARGET_STM32F1XX/pinmap.c:43-44 | the field reads back the CNF bits written |
| PinmapF1.FieldWriteFrame | libraries/mbed/targets/hal/TARGET_STM/TARGET_STM32F1XX/pinmap.c:43-44 | no bit outside the pin's 4-bit field changes |
| PinmapF1.ConfWriteConf | libraries/mbed/targets/hal/TARGET_STM/TARGET_STM32F1XX/pinmap.c:98-99 | the rewritten CNF bits read back as written |
| PinmapF1.ConfWriteMode | libraries/mbed/targets/hal/TARGET_STM/TARGET_STM32F1XX/pinmap.c:98-99 | rewriting CNF keeps the MODE bits beside it |
| PinmapF1.ConfWriteFrame | libraries/mbed/targets/hal/TARGET_STM/TARGET_STM32F1XX/pinmap.c:98-99 | no bit outside the two CNF bits changes |
| PinmapF1.ConfWriteFieldFrame | libraries/mbed/targets/hal/TARGET_STM/TARGET_STM32F1XX/pinmap.c:98-99 | no other pin's field changes |
| PinmapF1.InputTestMeaning | libraries/mbed/targets/hal/TARGET_STM/TARGET_STM32F1XX/pinmap.c:67 | with input mode 0, comparing the masked, unshifted MODE bits with STM_PIN_MODE_INPUT holds exactly when the pin's MODE is input |
| PinmapF1.PinModeInputBranch | libraries/mbed/targets/hal/TARGET_STM/TARGET_STM32F1XX/pinmap.c:66-82 | when the pin reads as an input, pin_mode is its input branch: the pull drives ODR, then CNF is rewritten |
| PinmapF1.PinModeOutputBranch | libraries/mbed/targets/hal/TARGET_STM/TARGET_STM32F1XX/pinmap.c:83-97 | otherwise pin_mode is its output branch: only CNF is rewritten |
| PinmapF1.PinFunctionEffect | libraries/mbed/targets/hal/TARGET_STM/TARGET_STM32F1XX/pinmap.c:21-45 | after pin_function the field reads back (mode, conf); every other bit of that register, the other register and ODR are kept |
| PinmapF1.PinModeFrame | libraries/mbed/targets/hal/TARGET_STM/TARGET_STM32F1XX/pinmap.c:98-99 | pin_mode changes at most the pin's two CNF bits and leaves the other configuration register alone |
| PinmapF1.PinModeFieldFrame | libraries/mbed/targets/hal/TARGET_STM/TARGET_STM32F1XX/pinmap.c:98-99 | pin_mode leaves every other pin's field alone |
| PinmapF1.PinModeKeepsMode | libraries/mbed/targets/hal/TARGET_STM/TARGET_STM32F1XX/pinmap.c:98-99 | pin_mode keeps the pin's MODE bits |
| PinmapF1.PinModeWritesConf | libraries/mbed/targets/hal/TARGET_STM/TARGET_STM32F1XX/pinmap.c:98-99 | after pin_mode the pin's CNF bits read back the chosen setting |
| PinmapF1.ChosenConfFits | libraries/mbed/targets/hal/TARGET_STM/TARGET_STM32F1XX/pinmap.c:55 | with well-formed constants the `uint8_t conf` chosen fits the 2-bit CNF field |
| PinmapF1.InputChoice | libraries/mbed/targets/hal/TARGET_STM/TARGET_STM32F1XX/pinmap.c:67-82 | for an input pin: PullNone gives floating, PullUp and PullDown pulled, any other mode the current CNF |
| PinmapF1.OutputChoice | libraries/mbed/targets/hal/TARGET_STM/TARGET_STM32F1XX/pinmap.c:83-97 | for an output pin: OpenDrain gives open-drain, PullUp and PullDown push-pull, each in its alternate-function variant when the alternate bit is set, any other mode the current CNF |
| PinmapF1.PullUpSetsBit | libraries/mbed/targets/hal/TARGET_STM/TARGET_STM32F1XX/pinmap.c:74 | PullUp on an input sets the pin's ODR bit |
| PinmapF1.PullDownClearsBit | libraries/mbed/targets/hal/TARGET_STM/TARGET_STM32F1XX/pinmap.c:78 | PullDown on an input clears the pin's ODR bit |
| PinmapF1.PullUpKeepsOtherBits | libraries/mbed/targets/hal/TARGET_STM/TARGET_STM32F1XX/pinmap.c:74 | PullUp touches no other ODR bit |
| PinmapF1.PullDownKeepsOtherBits | libraries/mbed/targets/hal/TARGET_STM/TARGET_STM32F1XX/pinmap.c:78 | PullDown touches no other ODR bit |
| PinmapF1.OdrOnlyForPulledInput | libraries/mbed/targets/hal/TARGET_STM/TARGET_STM32F1XX/pinmap.c:67-97 | ODR changes only for an input pin with PullUp or PullDown |
| PinmapF1.SetFunction | libraries/mbed/targets/hal/TARGET_STM/TARGET_STM32F1XX/pinmap.c:21-45 | pin_function: NC changes nothing; otherwise the pin's bank becomes the pin_function image of its old registers |
| PinmapF1.SetMode | libraries/mbed/targets/hal/TARGET_STM/TARGET_STM32F1XX/pinmap.c:47-100 | pin_mode: NC changes nothing; otherwise the pin's bank becomes the pin_mode image of its old registers |
| PinmapF1.UpdateMode | libraries/mbed/targets/hal/TARGET_STM/TARGET_STM32F1XX/pinmap.c:66-100 | the body of pin_mode on a known bank and index: the new registers are the pin_mode image of the old |
| PinmapF1.UpdateInputMode | libraries/mbed/targets/hal/TARGET_STM/TARGET_STM32F1XX/pinmap.c:67-82 | the input branch: ODR takes the pull, then CNF the input choice |
| PinmapF1.UpdateOutputMode | libraries/mbed/targets/hal/TARGET_STM/TARGET_STM32F1XX/pinmap.c:83-99 | the output branch: only CNF changes, to the output choice |
| PinmapF1.WriteOdr | libraries/mbed/targets/hal/TARGET_STM/TARGET_STM32F1XX/pinmap.c:74 | a store into ODR changes ODR only |
| PinmapF1.WriteCr | libraries/mbed/targets/hal/TARGET_STM/TARGET_STM32F1XX/pinmap.c:59-64 | a store through the CR pointer reaches CRL for pins 0..7 and CRH for 8..15 |
| GpioF1.PinMask | libraries/mbed/targets/hal/TARGET_STM/TARGET_STM32F1XX/gpio_api.c:22 | gpio_set's mask has exactly one bit set, the pin's |
| GpioF1.EnableClock | libraries/mbed/targets/hal/TARGET_STM/TARGET_STM32F1XX/gpio_api.c:20-21 | APB2ENR keeps every set bit and gains the port's IOPxEN bit at position port + 2 |
| GpioF1.BankAddressDistinct | libraries/mbed/targets/hal/TARGET_STM/TARGET_STM32F1XX/gpio_api.c:33 | two pins reach the same register bank exactly when they are on the same port |
| GpioF1.InputDirMode | libraries/mbed/targets/hal/TARGET_STM/TARGET_STM32F1XX/gpio_api.c:49-52 | gpio_dir(PIN_INPUT) leaves the pin's MODE bits at input |
| GpioF1.InputDirConf | libraries/mbed/targets/hal/TARGET_STM/TARGET_STM32F1XX/gpio_api.c:49-52 | gpio_dir(PIN_INPUT) leaves the pin's CNF bits at pull-up/pull-down input |
| GpioF1.InputDirPullsDown | libraries/mbed/targets/hal/TARGET_STM/TARGET_STM32F1XX/gpio_api.c:51 | gpio_dir(PIN_INPUT) clears the pin's ODR bit, selecting the pull-down |
| GpioF1.InputDirKeepsOtherOdr | libraries/mbed/targets/hal/TARGET_STM/TARGET_STM32F1XX/gpio_api.c:49-52 | gpio_dir(PIN_INPUT) keeps every other ODR bit |
| GpioF1.InputDirKeepsOtherPins | libraries/mbed/targets/hal/TARGET_STM/TARGET_STM32F1XX/gpio_api.c:49-52 | gpio_dir(PIN_INPUT) keeps every other pin's field and the other configuration register |
| GpioF1.OutputDirEffect | libraries/mbed/targets/hal/TARGET_STM/TARGET_STM32F1XX/gpio_api.c:53 | gpio_dir(PIN_OUTPUT) makes the pin a 2 MHz push-pull output and changes nothing else in the bank |
| GpioF1.Gpio.constructor | libraries/mbed/targets/hal/TARGET_STM/TARGET_STM32F1XX/gpio_api.c:25-26 | a fresh object holds NC, as gpio_init leaves it for NC |
| GpioF1.GpioSet | libraries/mbed/targets/hal/TARGET_STM/TARGET_STM32F1XX/gpio_api.c:19-23 | returns the pin's mask and turns on the port clock, APB1ENR unchanged |
| GpioF1.GpioInit | libraries/mbed/targets/hal/TARGET_STM/TARGET_STM32F1XX/gpio_api.c:25-41 | NC changes nothing; otherwise the object records pin, mask and bank, the clock is on and the bank holds the gpio_dir image |
| GpioF1.GpioMode | libraries/mbed/targets/hal/TARGET_STM/TARGET_STM32F1XX/gpio_api.c:43-45 | gpio_mode is pin_mode on the object's pin |
| GpioF1.GpioDir | libraries/mbed/targets/hal/TARGET_STM/TARGET_STM32F1XX/gpio_api.c:47-56 | the bank becomes the gpio_dir image: pulled input then PullDown, or 2 MHz push-pull output |
| Timebase.TickerPrescalerRate | libraries/mbed/targets/hal/TARGET_STM/TARGET_STM32F030/us_ticker.c:30-32 | for a core clock from 1 MHz up to the 16-bit limit, PSC = clk / 1000000 - 1 makes the timer tick at a rate of at least 1 MHz and less than one prescaler step faster, exactly 1 MHz for a whole number of MHz |
| Timebase.TickerPrescalerWraps | libraries/mbed/targets/hal/TARGET_STM/TARGET_STM32F1XX/us_ticker.c:30-32 | below 1 MHz the uint32_t subtraction wraps and the 16-bit PSC receives 0xFFFF |
| TickerF030.ComposeWithoutWrap | libraries/mbed/targets/hal/TARGET_STM/TARGET_STM32F030/us_ticker.c:53-55 | with no TIM14 wrap between the two samples, the read is the concatenation hi:lsb_0 |
| TickerF030.ComposeHalves | libraries/mbed/targets/hal/TARGET_STM/TARGET_STM32F030/us_ticker.c:55 | in that case the low half of the result is lsb_0 and the high half is hi |
| TickerF030.ComposeAfterWrap | libraries/mbed/targets/hal/TARGET_STM/TARGET_STM32F030/us_ticker.c:55 | after a wrap (lsb_1 < lsb_0) the result exceeds the uncorrected value by exactly 65536, modulo 2^32 |
| TickerF030.StartedCounts | libraries/mbed/targets/hal/TARGET_STM/TARGET_STM32F030/us_ticker.c:30-43 | after init TIM14 has the ticker prescaler, channel 1 output enabled, both counters cleared and running, and TIM3 in external clock mode 1 |
| TickerF030.ConfigurePrescaler | libraries/mbed/targets/hal/TARGET_STM/TARGET_STM32F030/us_ticker.c:31-36 | the TIM14 block: CNT, PSC, CCMR1, CCER, CCR1 and EGR take their values, nothing else changes |
| TickerF030.ConfigureCounter | libraries/mbed/targets/hal/TARGET_STM/TARGET_STM32F030/us_ticker.c:38-40 | the TIM3 block: CNT cleared and SMCR set to TS = 011, SMS = 111 |
| TickerF030.EnableCounter | libraries/mbed/targets/hal/TARGET_STM/TARGET_STM32F030/us_ticker.c:42-43 | CR1 gains CEN, nothing else changes |
| TickerF030.StartTimers | libraries/mbed/targets/hal/TARGET_STM/TARGET_STM32F030/us_ticker.c:30-43 | the timer writes of us_ticker_init, in order, give the started TIM14 and TIM3 |
| TickerF030.UsTicker.constructor | libraries/mbed/targets/hal/TARGET_STM/TARGET_STM32F030/us_ticker.c:20 | the flag starts clear |
| TickerF030.UsTicker.Init | libraries/mbed/targets/hal/TARGET_STM/TARGET_STM32F030/us_ticker.c:24-47 | the first call sets the flag, enables the TIM14 and TIM3 clocks and starts both timers; a later call changes nothing |
| TickerF030.UsTicker.Read | libraries/mbed/targets/hal/TARGET_STM/TARGET_STM32F030/us_ticker.c:49-56 | initialises when needed, then returns the tear-corrected composition of the samples |
| TickerF030.UsTicker.DisableInterrupt | libraries/mbed/targets/hal/TARGET_STM/TARGET_STM32F030/us_ticker.c:67-69 | CC1IE in TIM14's DIER is clear afterwards, every other register kept |
| TickerF030.UsTicker.ClearInterrupt | libraries/mbed/targets/hal/TARGET_STM/TARGET_STM32F030/us_ticker.c:71-73 | CC1IF in TIM14's SR is clear afterwards, every other register kept |
| TickerF1.ComposeHalves | libraries/mbed/targets/hal/TARGET_STM/TARGET_STM32F1XX/us_ticker.c:52 | TIM2->CNT + (TIM3->CNT << 16) is the concatenation hi:lo: low half lo, high half hi |
| TickerF1.ComposeInjective | libraries/mbed/targets/hal/TARGET_STM/TARGET_STM32F1XX/us_ticker.c:52 | two reads are equal exactly when both samples are equal |
| TickerF1.EnabledTwice | libraries/mbed/targets/hal/TARGET_STM/TARGET_STM32F1XX/us_ticker.c:33-41 | the second CEN write to TIM2 changes nothing |
| TickerF1.StartedCounts | libraries/mbed/targets/hal/TARGET_STM/TARGET_STM32F1XX/us_ticker.c:30-42 | after init TIM2 has the ticker prescaler, both counters are cleared and running, and TIM3 is in external clock mode 1 |
| TickerF1.ConfigurePrescaler | libraries/mbed/targets/hal/TARGET_STM/TARGET_STM32F1XX/us_ticker.c:31-35 | the TIM2 block: CNT, PSC, CR1, CR2 and EGR take their values, nothing else changes |
| TickerF1.ConfigureCounter | libraries/mbed/targets/hal/TARGET_STM/TARGET_STM32F1XX/us_ticker.c:37-39 | the TIM3 block: CNT cleared and SMCR set to TS = 001, SMS = 111 |
| TickerF1.EnableCounter | libraries/mbed/targets/hal/TARGET_STM/TARGET_STM32F1XX/us_ticker.c:41-42 | CR1 gains CEN, nothing else changes |
| TickerF1.StartTimers | libraries/mbed/targets/hal/TARGET_STM/TARGET_STM32F1XX/us_ticker.c:30-42 | the timer writes of us_ticker_init, in order, give the started TIM2 and TIM3 |
| TickerF1.UsTicker.constructor | libraries/mbed/targets/hal/TARGET_STM/TARGET_STM32F1XX/us_ticker.c:20 | the flag starts clear |
| TickerF1.UsTicker.Init | libraries/mbed/targets/hal/TARGET_STM/TARGET_STM32F1XX/us_ticker.c:24-46 | the first call sets the flag, enables the TIM2 and TIM3 clocks and starts both timers; a later call changes nothing |
| TickerF1.UsTicker.Read | libraries/mbed/targets/hal/TARGET_STM/TARGET_STM32F1XX/us_ticker.c:48-53 | initialises when needed, then returns the composition of the samples |
| TickerF1.UsTicker.DisableInterrupt | libraries/mbed/targets/hal/TARGET_STM/TARGET_STM32F1XX/us_ticker.c:64-66 | CC1IE in TIM2's DIER is clear afterwards, every other register kept |
| TickerF1.UsTicker.ClearInterrupt | libraries/mbed/targets/hal/TARGET_STM/TARGET_STM32F1XX/us_ticker.c:68-70 | CC1IF in TIM2's SR is clear afterwards, every other register kept |
| SpiF1.TablesOneToOne | libraries/mbed/targets/hal/TARGET_STM/TARGET_STM32F1XX/spi_api.c:25-41 | each SPI pin appears in one row of its table, port A pins for SPI_1 and port B pins for SPI_2; MISO pins are floating inputs, MOSI and SCLK 50 MHz alternate push-pull outputs |
| SpiF1.SpiObject.constructor | libraries/mbed/targets/hal/TARGET_STM/TARGET_STM32F1XX/spi_api.c:47-53 | a fresh spi_t names no controller |
| SpiF1.FrameBitsMeaning | libraries/mbed/targets/hal/TARGET_STM/TARGET_STM32F1XX/spi_api.c:95-102 | the frame value sets CPHA, CPOL, MSTR and DFF exactly as requested and nothing outside mask 0x807 |
| SpiF1.FormatCr1Effect | libraries/mbed/targets/hal/TARGET_STM/TARGET_STM32F1XX/spi_api.c:88-109 | after an accepted spi_format CPHA is bit 0 of the mode, CPOL bit 1, MSTR is set exactly for a master, DFF exactly for 16-bit frames, SPE is set and every other CR1 bit is kept |
| SpiF1.FrameBitsReplaced | libraries/mbed/targets/hal/TARGET_STM/TARGET_STM32F1XX/spi_api.c:89-108 | disabling, replacing the bits under 0x807 and enabling again leaves exactly the new frame bits, SPE set, and the rest of CR1 as it was |
| SpiF1.Pow2 | libraries/mbed/targets/hal/TARGET_STM/TARGET_STM32F1XX/spi_api.c:120 | the divider 1 << n is at least 1 |
| SpiF1.BaudSearchRange | libraries/mbed/targets/hal/TARGET_STM/TARGET_STM32F1XX/spi_api.c:119-122 | the loop from a start of at most 7 ends between that start and 7; from a start above 7 it does not run |
| SpiF1.BaudSearchStops | libraries/mbed/targets/hal/TARGET_STM/TARGET_STM32F1XX/spi_api.c:120-122 | the loop stops at 7 or at the first rate whose scaled clock PCLK / 2^(br + 2) no longer exceeds hz |
| SpiF1.BaudSearchSkips | libraries/mbed/targets/hal/TARGET_STM/TARGET_STM32F1XX/spi_api.c:120-122 | every rate the loop steps over gives a scaled clock above hz |
| SpiF1.BaudSearchMeaning | libraries/mbed/targets/hal/TARGET_STM/TARGET_STM32F1XX/spi_api.c:119-122 | the three facts above together: the loop's result is in range, stops where the clock is slow enough, and skips only rates that are too fast |
| SpiF1.BaudLoop | libraries/mbed/targets/hal/TARGET_STM/TARGET_STM32F1XX/spi_api.c:119-122 | the while loop computes the same rate as the search, with the range, stopping and skipping properties |
| SpiF1.BaudFieldFits | libraries/mbed/targets/hal/TARGET_STM/TARGET_STM32F1XX/spi_api.c:124-127 | a rate of at most 7 lands in the BR field (bits 3..5) and changes no other CR1 bit but SPE |
| SpiF1.BaudFieldReach | libraries/mbed/targets/hal/TARGET_STM/TARGET_STM32F1XX/spi_api.c:124-127 | a rate of up to 28 reaches only the BR, SPE and LSBFIRST bits of CR1 |
| SpiF1.StaleBaudRateCorruptsCr1 | libraries/mbed/targets/hal/TARGET_STM/TARGET_STM32F1XX/spi_api.c:119-125 | with baud_rate left at a stale 16 the loop does not run, the BR field becomes 0 (the fastest clock) and LSBFIRST is set |
| SpiF1.BaudRateMeaning | libraries/mbed/targets/hal/TARGET_STM/TARGET_STM32F1XX/spi_api.c:116-127 | the intended rate, the loop started from 0, is the least rate up to 7 whose scaled clock does not exceed hz (7 when none does) and it changes only the BR field |
| SpiF1.Disable | libraries/mbed/targets/hal/TARGET_STM/TARGET_STM32F1XX/spi_api.c:130-133 | ssp_disable clears SPE |
| SpiF1.Enable | libraries/mbed/targets/hal/TARGET_STM/TARGET_STM32F1XX/spi_api.c:135-137 | ssp_enable sets SPE |
| SpiF1.Format | libraries/mbed/targets/hal/TARGET_STM/TARGET_STM32F1XX/spi_api.c:88-109 | a format other than 8 or 16 bits in mode 0..3 fails with the controller left disabled; otherwise CR1 takes the value FormatCr1Effect describes |
| SpiF1.Frequency | libraries/mbed/targets/hal/TARGET_STM/TARGET_STM32F1XX/spi_api.c:111-128 | CR1 becomes the value of the baud loop from the stale start, with PCLK halved for SPI_2, and SPE set |
| SpiF1.InitCr1Effect | libraries/mbed/targets/hal/TARGET_STM/TARGET_STM32F1XX/spi_api.c:72-83 | after spi_init the controller is an enabled master in mode 0 with 8-bit frames and software slave management, whatever the stale baud rate was |
| SpiF1.InitClocksSclkPorts | libraries/mbed/targets/hal/TARGET_STM/TARGET_STM32F1XX/spi_api.c:25-31 | every SCLK pin of the controller spi_init chose is on a port whose IOPxEN bit is set in APB2ENR afterwards (port A for SPI_1, port B for SPI_2) |
| SpiF1.InitClocksMosiPorts | libraries/mbed/targets/hal/TARGET_STM/TARGET_STM32F1XX/spi_api.c:60-69 | the same for every MOSI pin |
| SpiF1.InitClocksMisoPorts | libraries/mbed/targets/hal/TARGET_STM/TARGET_STM32F1XX/spi_api.c:60-69 | the same for every MISO pin |
| SpiF1.InitClocksController | libraries/mbed/targets/hal/TARGET_STM/TARGET_STM32F1XX/spi_api.c:62-67 | SPI_1 gets SPI1EN in APB2ENR, SPI_2 gets SPI2EN in APB1ENR |
| SpiF1.EnableClocks | libraries/mbed/targets/hal/TARGET_STM/TARGET_STM32F1XX/spi_api.c:60-69 | APB2ENR gains AFIOEN and the port and SPI1EN bits of the controller, APB1ENR gains SPI2EN for SPI_2; no bit is cleared |
| SpiF1.Configure | libraries/mbed/targets/hal/TARGET_STM/TARGET_STM32F1XX/spi_api.c:72-83 | the register programming of spi_init succeeds and leaves CR1 as InitCr1Effect describes |
| SpiF1.Init | libraries/mbed/targets/hal/TARGET_STM/TARGET_STM32F1XX/spi_api.c:47-84 | the controller is the merge of MOSI/MISO and then SCLK (ssel plays no part); NC spins forever with no register or clock enable changed; otherwise the clocks are enabled as EnableClocks states, CR1 is as InitCr1Effect describes and the other controller is untouched |
| SpiF030.SecondBankListedTwice | libraries/mbed/targets/hal/TARGET_STM/TARGET_STM32F030/spi_api.c:25-55 | PB_12..PB_15 appear twice in their tables, for SPI_2 first and then for SPI_1, and in no earlier row |
| SpiF030.SecondBankFirstMatch | libraries/mbed/targets/hal/TARGET_STM/TARGET_STM32F030/spi_api.c:25-55 | the reference first-match lookup resolves each of PB_12..PB_15 to SPI_2 |
| SpiF030.SpiObject.constructor | libraries/mbed/targets/hal/TARGET_STM/TARGET_STM32F030/spi_api.c:61-69 | a fresh spi_t names no controller and has no frame size yet |
| SpiF030.ModeBitsMeaning | libraries/mbed/targets/hal/TARGET_STM/TARGET_STM32F030/spi_api.c:122-128 | the clock-mode value sets CPHA, CPOL and MSTR exactly as requested and no other bit |
| SpiF030.FormatRejectedOnlyForMode | libraries/mbed/targets/hal/TARGET_STM/TARGET_STM32F030/spi_api.c:116 | the format check as written rejects a call exactly when the mode is outside 0..3; the frame size is never rejected |
| SpiF030.OversizedFrameAccepted | libraries/mbed/targets/hal/TARGET_STM/TARGET_STM32F030/spi_api.c:116-131 | a 40-bit frame passes the check and its DS value spills out of the DS field into bit 13 of CR2 |
| SpiF030.ValidFormatFitsField | libraries/mbed/targets/hal/TARGET_STM/TARGET_STM32F030/spi_api.c:116-131 | with 4..16 bits and mode 0..3 the call is accepted, and the DS value bits - 1 lies wholly inside the DS field |
| SpiF030.FormatCr1Effect | libraries/mbed/targets/hal/TARGET_STM/TARGET_STM32F030/spi_api.c:122-128 | after spi_format CPHA is bit 0 of the mode, CPOL bit 1, MSTR is set exactly for a master, SPE is set, every other CR1 bit is kept |
| SpiF030.LowBitsReplaced | libraries/mbed/targets/hal/TARGET_STM/TARGET_STM32F030/spi_api.c:125-128 | disabling, replacing the three mode bits and enabling again leaves those bits equal to the new ones, SPE set, and the rest of CR1 as it was |
| SpiF030.FormatCr2Effect | libraries/mbed/targets/hal/TARGET_STM/TARGET_STM32F030/spi_api.c:120-131 | after spi_format the DS field holds bits - 1, FRXTH is set for frames of at most 8 bits and otherwise kept, every other CR2 bit is kept |
| SpiF030.SmearPower | libraries/mbed/targets/hal/TARGET_STM/TARGET_STM32F030/spi_api.c:155-161 | for a divisor from 1 to 2^31 the nearest-power-of-two block yields a power of two |
| SpiF030.SmearAbove | libraries/mbed/targets/hal/TARGET_STM/TARGET_STM32F030/spi_api.c:155-161 | that power of two is at least the divisor |
| SpiF030.SmearLeast | libraries/mbed/targets/hal/TARGET_STM/TARGET_STM32F030/spi_api.c:155-161 | and it is the least one: half of it is below the divisor |
| SpiF030.FfsLowestSetBit | libraries/mbed/targets/hal/TARGET_STM/TARGET_STM32F030/spi_api.c:163 | __builtin_ffs of a non-zero word is between 1 and 32, names a set bit, and every lower bit is clear |
| SpiF030.FfsOfPower | libraries/mbed/targets/hal/TARGET_STM/TARGET_STM32F030/spi_api.c:163 | for a power of two, ffs - 1 is its exponent |
| SpiF030.BaudRate | libraries/mbed/targets/hal/TARGET_STM/TARGET_STM32F030/spi_api.c:152-164 | the BR field value never exceeds 7 |
| SpiF030.BaudRateMeaning | libraries/mbed/targets/hal/TARGET_STM/TARGET_STM32F030/spi_api.c:152-164 | BR selects the least power of two 2^BR at least PCLK/hz, clamped at 7 (then the divisor exceeds 64); a divisor of 0 or 1 gives 0 and one above 2^31 gives 7 |
| SpiF030.FrequencyCr1Effect | libraries/mbed/targets/hal/TARGET_STM/TARGET_STM32F030/spi_api.c:166-169 | spi_frequency writes BR into bits 3..5 of CR1, sets SPE and keeps every other bit |
| SpiF030.Disable | libraries/mbed/targets/hal/TARGET_STM/TARGET_STM32F030/spi_api.c:172-175 | spi_disable clears SPE and leaves CR2 alone |
| SpiF030.Enable | libraries/mbed/targets/hal/TARGET_STM/TARGET_STM32F030/spi_api.c:177-179 | spi_enable sets SPE and leaves CR2 alone |
| SpiF030.Format | libraries/mbed/targets/hal/TARGET_STM/TARGET_STM32F030/spi_api.c:113-138 | a rejected format fails with the controller left disabled and the frame size unchanged; otherwise the frame size is recorded and CR1/CR2 take the values FormatCr1Effect and FormatCr2Effect describe |
| SpiF030.Frequency | libraries/mbed/targets/hal/TARGET_STM/TARGET_STM32F030/spi_api.c:140-170 | CR1 becomes the value FrequencyCr1Effect describes, for PCLK = SystemCoreClock / 2 (SPI_1) or / 4 (SPI_2); CR2 is kept |
| SpiF030.InitCr1Effect | libraries/mbed/targets/hal/TARGET_STM/TARGET_STM32F030/spi_api.c:88-107 | after spi_init the controller is a master exactly when no slave select is given, and then uses software slave management; mode 0 is selected and SPE is set |
| SpiF030.InitClocksSclkPorts | libraries/mbed/targets/hal/TARGET_STM/TARGET_STM32F030/spi_api.c:75-84 | every SCLK pin of the controller spi_init chose, PB_13 included whichever controller it maps to, is on a port whose GPIOxEN bit is set in AHBENR afterwards |
| SpiF030.InitClocksMosiPorts | libraries/mbed/targets/hal/TARGET_STM/TARGET_STM32F030/spi_api.c:75-84 | the same for every MOSI pin |
| SpiF030.InitClocksMisoPorts | libraries/mbed/targets/hal/TARGET_STM/TARGET_STM32F030/spi_api.c:75-84 | the same for every MISO pin |
| SpiF030.InitClocksSselPorts | libraries/mbed/targets/hal/TARGET_STM/TARGET_STM32F030/spi_api.c:75-84 | the same for every SSEL pin |
| SpiF030.InitClocksController | libraries/mbed/targets/hal/TARGET_STM/TARGET_STM32F030/spi_api.c:78-81 | SPI_1 gets SPI1EN in APB2ENR, SPI_2 gets SPI2EN in APB1ENR |
| SpiF030.EnableClocks | libraries/mbed/targets/hal/TARGET_STM/TARGET_STM32F030/spi_api.c:75-84 | AHBENR gains GPIOAEN for SPI_1 and GPIOBEN always, APB2ENR gains SPI1EN for SPI_1, APB1ENR SPI2EN for SPI_2; no bit is cleared |
| SpiF030.Configure | libraries/mbed/targets/hal/TARGET_STM/TARGET_STM32F030/spi_api.c:87-107 | the register programming of spi_init succeeds with an 8-bit frame, CR1 as InitCr1Effect describes and the CR2 of an 8-bit format |
| SpiF030.Init | libraries/mbed/targets/hal/TARGET_STM/TARGET_STM32F030/spi_api.c:61-109 | the controller is the merge of the data pair and the control pair; NC fails with no register or clock enable touched; otherwise the clocks are enabled as EnableClocks states, an 8-bit frame, the CR1 of InitCr1Effect and the CR2 of an 8-bit format, and the other controller is untouched |
| SpiF030.WriteAccess | libraries/mbed/targets/hal/TARGET_STM/TARGET_STM32F030/spi_api.c:189-196 | frames wider than 8 bits are written as 16-bit stores, others as single bytes, each holding the value truncated to that width |
| SerialF1.SerialObject.constructor | libraries/mbed/targets/hal/TARGET_STM/TARGET_STM32F1XX/serial_api.c:47-63 | a fresh serial_t names no UART and has interrupt slot 0 |
| SerialF1.SerialGlobals.constructor | libraries/mbed/targets/hal/TARGET_STM/TARGET_STM32F1XX/serial_api.c:41-44 | the driver's statics start out zero: UART_NUM empty interrupt id slots, no handler, stdio not set up |
| SerialF1.Divider | libraries/mbed/targets/hal/TARGET_STM/TARGET_STM32F1XX/serial_api.c:98 | UART_1 divides the core clock by 1, UART_2 by 2 |
| SerialF1.BrrMeaning | libraries/mbed/targets/hal/TARGET_STM/TARGET_STM32F1XX/serial_api.c:97-99 | when it fits in 16 bits, BRR is the floor of SystemCoreClock over baudrate times the divider |
| SerialF1.StopBitsSwapped | libraries/mbed/targets/hal/TARGET_STM/TARGET_STM32F1XX/serial_api.c:102-107 | as written, one stop bit selects the two-stop-bit code and two select the one-stop-bit code; every other CR2 bit is kept |
| SerialF1.OneStopBitKeeps | libraries/mbed/targets/hal/TARGET_STM/TARGET_STM32F1XX/serial_api.c:106-107 | the stop bit step for one stop bit changes only the STOP field |
| SerialF1.TwoStopBitsKeep | libraries/mbed/targets/hal/TARGET_STM/TARGET_STM32F1XX/serial_api.c:106-107 | the stop bit step for two stop bits changes only the STOP field |
| SerialF1.OneStopBitGivesTwo | libraries/mbed/targets/hal/TARGET_STM/TARGET_STM32F1XX/serial_api.c:102-107 | as written, asking for one stop bit sets STOP_1, which selects two stop bits |
| SerialF1.TwoStopBitsGiveOne | libraries/mbed/targets/hal/TARGET_STM/TARGET_STM32F1XX/serial_api.c:102-106 | as written, asking for two stop bits leaves STOP at 00, which selects one stop bit |
| SerialF1.CorrectedStopBitsMeaning | libraries/mbed/targets/hal/TARGET_STM/TARGET_STM32F1XX/serial_api.c:102-107 | the intended step selects exactly the requested number of stop bits and keeps the rest of CR2 |
| SerialF1.CorrectedOneStopBitKeeps | libraries/mbed/targets/hal/TARGET_STM/TARGET_STM32F1XX/serial_api.c:106-107 | the intended step for one stop bit changes only the STOP field |
| SerialF1.CorrectedTwoStopBitsKeep | libraries/mbed/targets/hal/TARGET_STM/TARGET_STM32F1XX/serial_api.c:106-107 | the intended step for two stop bits changes only the STOP field |
| SerialF1.CorrectedOneStopBit | libraries/mbed/targets/hal/TARGET_STM/TARGET_STM32F1XX/serial_api.c:102 | the intended step for one stop bit selects one stop bit |
| SerialF1.CorrectedTwoStopBits | libraries/mbed/targets/hal/TARGET_STM/TARGET_STM32F1XX/serial_api.c:102 | the intended step for two stop bits selects two stop bits |
| SerialF1.FormatCr1Effect | libraries/mbed/targets/hal/TARGET_STM/TARGET_STM32F1XX/serial_api.c:113-120 | after serial_format M is set exactly for 9 data bits, PCE exactly for odd or even parity, PS exactly for odd parity, and every other CR1 bit is kept |
| SerialF1.FormatSetsWordLength | libraries/mbed/targets/hal/TARGET_STM/TARGET_STM32F1XX/serial_api.c:113-114 | M is set exactly for 9 data bits |
| SerialF1.FormatSetsParityEnable | libraries/mbed/targets/hal/TARGET_STM/TARGET_STM32F1XX/serial_api.c:113-124 | PCE is set exactly for odd or even parity |
| SerialF1.FormatSetsParityOdd | libraries/mbed/targets/hal/TARGET_STM/TARGET_STM32F1XX/serial_api.c:113-124 | PS is set exactly for odd parity |
| SerialF1.FormatKeepsOtherBits | libraries/mbed/targets/hal/TARGET_STM/TARGET_STM32F1XX/serial_api.c:113-124 | no CR1 bit outside M, PCE and PS changes |
| SerialF1.Baud | libraries/mbed/targets/hal/TARGET_STM/TARGET_STM32F1XX/serial_api.c:97-99 | serial_baud writes BRR, the 16-bit truncation of SystemCoreClock / baudrate / divider, and no other register |
| SerialF1.Format | libraries/mbed/targets/hal/TARGET_STM/TARGET_STM32F1XX/serial_api.c:101-125 | a stop bit count other than 1 or 2 fails before any write; otherwise STOP is rewritten, a data bit count outside 8..9 then fails with CR1 untouched, and otherwise CR1 gets the word length and parity bits, a forced parity failing after the word length is written |
| SerialF1.InitClocksUart | libraries/mbed/targets/hal/TARGET_STM/TARGET_STM32F1XX/serial_api.c:58-62 | UART_1 gets USART1EN in APB2ENR, UART_2 gets USART2EN in APB1ENR |
| SerialF1.InitLeavesPortClock | libraries/mbed/targets/hal/TARGET_STM/TARGET_STM32F1XX/serial_api.c:29-39 | every TX and RX pin is on port A, yet the clock enables of serial_init (lines 58-62) leave the IOPAEN bit as they found it |
| SerialF1.EnableClocks | libraries/mbed/targets/hal/TARGET_STM/TARGET_STM32F1XX/serial_api.c:58-62 | APB2ENR gains AFIOEN, and USART1EN for UART_1; APB1ENR gains USART2EN for UART_2; no bit is cleared |
| SerialF1.Configure | libraries/mbed/targets/hal/TARGET_STM/TARGET_STM32F1XX/serial_api.c:65-77 | BRR is set for 9600 baud, the STOP field as serial_format writes one stop bit, CR1 is exactly UE, TE and RE |
| SerialF1.Init | libraries/mbed/targets/hal/TARGET_STM/TARGET_STM32F1XX/serial_api.c:47-89 | the UART is the merge of the TX and RX lookups; NC fails with nothing changed; otherwise the clocks are enabled as EnableClocks states, the registers are as Configure states, UART_1 gets slot 0 and the stdio flag is raised for the stdio UART; the other UART is untouched |
| SerialF1.InitKeepsFormat | libraries/mbed/targets/hal/TARGET_STM/TARGET_STM32F1XX/serial_api.c:67-77 | for every earlier CR1, the M, PCE and PS bits of the final UE, TE, RE store equal those serial_format(8, ParityNone) chose, so the overwrite keeps 8 data bits and no parity |
| SerialF1.Free | libraries/mbed/targets/hal/TARGET_STM/TARGET_STM32F1XX/serial_api.c:91-93 | serial_free empties the object's interrupt id slot and no other |
| SerialF1.IrqHandler | libraries/mbed/targets/hal/TARGET_STM/TARGET_STM32F1XX/serial_api.c:147-150 | serial_irq_handler records the handler and stores the id in the object's slot, changing no other slot |
| SerialF1.BreakSet | libraries/mbed/targets/hal/TARGET_STM/TARGET_STM32F1XX/serial_api.c:214-216 | serial_break_set sets SBK in CR1 and touches no other register |
| SerialF1.BreakClear | libraries/mbed/targets/hal/TARGET_STM/TARGET_STM32F1XX/serial_api.c:210-212 | serial_break_clear as written ANDs CR1 with SBK, touching no other register |
| SerialF1.BreakSetEffect | libraries/mbed/targets/hal/TARGET_STM/TARGET_STM32F1XX/serial_api.c:214-216 | setting a break sets SBK and keeps every other CR1 bit |
| SerialF1.BreakClearKeepsOnlySbk | libraries/mbed/targets/hal/TARGET_STM/TARGET_STM32F1XX/serial_api.c:210-216 | as written, clearing a break clears every CR1 bit but SBK, so a break just set goes on and a running UART is switched off |
| SerialF1.CorrectedBreakClearMeaning | libraries/mbed/targets/hal/TARGET_STM/TARGET_STM32F1XX/serial_api.c:210-216 | the intended clear stops the break, keeps every other bit and undoes a break set on a register whose SBK was clear |
| SerialF1.SbkCleared | libraries/mbed/targets/hal/TARGET_STM/TARGET_STM32F1XX/serial_api.c:210-212 | the intended clear leaves SBK clear |
| SerialF1.ClearKeepsOthers | libraries/mbed/targets/hal/TARGET_STM/TARGET_STM32F1XX/serial_api.c:210-212 | the intended clear keeps every other CR1 bit |
| SerialF1.ClearUndoesSet | libraries/mbed/targets/hal/TARGET_STM/TARGET_STM32F1XX/serial_api.c:210-216 | the intended clear undoes a break set on a register whose SBK was clear |
| NamesF030.AdcNamesAreChannels | libraries/mbed/targets/hal/TARGET_STM/TARGET_STM32F030/PeripheralNames.h:29-46 | ADC0_0 .. ADC0_15 are numbered 0 .. 15 in declaration order, so each ADC name is its channel number |
| NamesF030.TimerBasesAligned | libraries/mbed/targets/hal/TARGET_STM/TARGET_STM32F030/PeripheralNames.h:58-84 | every timer base is 1 KB aligned, leaving its low bits free for the channel number the names add |
| NamesF030.Tim1Channel3Collides | libraries/mbed/targets/hal/TARGET_STM/TARGET_STM32F030/PeripheralNames.h:62-63 | as declared, TIM_1_3 equals TIM_1_4 and is not TIM1_BASE + 3 |
| NamesF030.TimerChannelInjective | libraries/mbed/targets/hal/TARGET_STM/TARGET_STM32F030/PeripheralNames.h:58-84 | on an aligned base, base + c keeps distinct channels 0..15 distinct, so the intended TIM_1_3 (base + 3) differs from TIM_1_4 |
| NamesF030.TimerChannelSeparatesTimers | libraries/mbed/targets/hal/TARGET_STM/TARGET_STM32F030/PeripheralNames.h:58-84 | channel names of two different aligned timer bases never coincide |
| PwmF1.TableIsPb6ToPb9 | libraries/mbed/targets/hal/TARGET_STM/TARGET_STM32F1XX/pwmout_api.c:22-28 | row i of the table is PB_(6 + i) driving channel i + 1 as a 50 MHz alternate push-pull output |
| PwmF1.TableChannels | libraries/mbed/targets/hal/TARGET_STM/TARGET_STM32F1XX/pwmout_api.c:22-28 | every row names a channel from 1 to 4 |
| PwmF1.RemappedIff | libraries/mbed/targets/hal/TARGET_STM/TARGET_STM32F1XX/pwmout_api.c:39-41 | after pwmout_init the I2C1 remap bit of MAPR is set exactly when the pin is PB_6 or PB_7 or it was set before |
| PwmF1.RemappedKeepsOthers | libraries/mbed/targets/hal/TARGET_STM/TARGET_STM32F1XX/pwmout_api.c:39-41 | no other MAPR bit changes |
| PwmF1.StartedInPwmMode | libraries/mbed/targets/hal/TARGET_STM/TARGET_STM32F1XX/pwmout_api.c:43-48 | after pwmout_init the channel's byte of CCMR1/CCMR2 holds exactly PWM mode 1 with preload |
| PwmF1.StartedOutputOn | libraries/mbed/targets/hal/TARGET_STM/TARGET_STM32F1XX/pwmout_api.c:49 | after pwmout_init the channel's output enable bit in CCER is set |
| PwmF1.StartedKeepsOtherCcer | libraries/mbed/targets/hal/TARGET_STM/TARGET_STM32F1XX/pwmout_api.c:49 | no other CCER bit changes |
| PwmF1.StartedTimebase | libraries/mbed/targets/hal/TARGET_STM/TARGET_STM32F1XX/pwmout_api.c:50-51 | after pwmout_init TIM4 has PSC 2 and ARR 240, and the compare registers are kept |
| PwmF1.StartedCounting | libraries/mbed/targets/hal/TARGET_STM/TARGET_STM32F1XX/pwmout_api.c:52 | after pwmout_init ARPE and CEN are set in CR1 |
| PwmF1.SecondChannelDropsFirst | libraries/mbed/targets/hal/TARGET_STM/TARGET_STM32F1XX/pwmout_api.c:44-45 | as written, initialising PWM_2 after PWM_1 overwrites CCMR1 and takes PWM_1 out of PWM mode |
| PwmF1.CorrectedInPwmMode | libraries/mbed/targets/hal/TARGET_STM/TARGET_STM32F1XX/pwmout_api.c:43-48 | the corrected mode write puts its own channel in PWM mode |
| PwmF1.CorrectedKeepsMode | libraries/mbed/targets/hal/TARGET_STM/TARGET_STM32F1XX/pwmout_api.c:43-48 | with the corrected mode write every other channel that was in PWM mode stays so |
| PwmF1.MillisecondsAreMicroseconds | libraries/mbed/targets/hal/TARGET_STM/TARGET_STM32F1XX/pwmout_api.c:77-85 | both setters count 24 ticks per microsecond: ms milliseconds and 1000 * ms microseconds store the same value |
| PwmF1.PeriodMsWraps | libraries/mbed/targets/hal/TARGET_STM/TARGET_STM32F1XX/pwmout_api.c:77-80 | the 16-bit ARR holds periods up to 2 ms only: 3 ms wraps, and 20 ms stores 21248 ticks |
| PwmF1.PwmOut.constructor | libraries/mbed/targets/hal/TARGET_STM/TARGET_STM32F1XX/pwmout_api.c:30-36 | a fresh pwmout_t has channel 0 |
| PwmF1.AssignMode | libraries/mbed/targets/hal/TARGET_STM/TARGET_STM32F1XX/pwmout_api.c:43-48 | CCMR1 (channels 1, 2) or CCMR2 (3, 4) is assigned the channel's mode bits outright; nothing else changes |
| PwmF1.Run | libraries/mbed/targets/hal/TARGET_STM/TARGET_STM32F1XX/pwmout_api.c:49-52 | CCER gains the channel's enable bit, ARR becomes 240, PSC 2, and CR1 gains ARPE and CEN |
| PwmF1.InitLeavesPortClock | libraries/mbed/targets/hal/TARGET_STM/TARGET_STM32F1XX/pwmout_api.c:22-28 | every PWM pin is on port B, yet the clock enables of pwmout_init (lines 37-38) leave the IOPBEN bit as they found it |
| PwmF1.EnableClocks | libraries/mbed/targets/hal/TARGET_STM/TARGET_STM32F1XX/pwmout_api.c:37-38 | APB2ENR gains AFIOEN and APB1ENR gains TIM4EN; no bit is cleared |
| PwmF1.Init | libraries/mbed/targets/hal/TARGET_STM/TARGET_STM32F1XX/pwmout_api.c:30-53 | an unlisted pin fails with nothing changed; otherwise the object records the channel, AFIOEN and TIM4EN are enabled, MAPR is remapped for PB_6 and PB_7, and TIM4 reaches the started state the lemmas above describe |
| PwmF1.PeriodMs | libraries/mbed/targets/hal/TARGET_STM/TARGET_STM32F1XX/pwmout_api.c:77-80 | ARR takes 24000 * ms modulo 2^16 and nothing else changes |
| PwmF1.PeriodUs | libraries/mbed/targets/hal/TARGET_STM/TARGET_STM32F1XX/pwmout_api.c:82-85 | ARR takes 24 * us modulo 2^16 and nothing else changes |
| PwmF1.PulsewidthMs | libraries/mbed/targets/hal/TARGET_STM/TARGET_STM32F1XX/pwmout_api.c:94-98 | the channel's compare register takes 24000 * ms modulo 2^16 and nothing else changes |
| PwmF1.PulsewidthUs | libraries/mbed/targets/hal/TARGET_STM/TARGET_STM32F1XX/pwmout_api.c:100-104 | the channel's compare register takes 24 * us modulo 2^16 and nothing else changes |
| PwmF030.TimerOf | libraries/mbed/targets/hal/TARGET_STM/TARGET_STM32F030/pwmout_api.c:44 | the timer of an output name, the name with its low nibble cleared, is aligned |
| PwmF030.ChannelOf | libraries/mbed/targets/hal/TARGET_STM/TARGET_STM32F030/pwmout_api.c:45 | the channel of an output name, its low nibble, is below 16 |
| PwmF030.DecodeRecomposes | libraries/mbed/targets/hal/TARGET_STM/TARGET_STM32F030/pwmout_api.c:44-45 | the timer and channel pwmout_init splits a name into add up to that name again |
| PwmF030.DecodeTimer | libraries/mbed/targets/hal/TARGET_STM/TARGET_STM32F030/pwmout_api.c:44 | splitting base + c on an aligned base gives back the base |
| PwmF030.DecodeChannel | libraries/mbed/targets/hal/TARGET_STM/TARGET_STM32F030/pwmout_api.c:45 | splitting base + c on an aligned base gives back c |
| PwmF030.TableDecodes | libraries/mbed/targets/hal/TARGET_STM/TARGET_STM32F030/pwmout_api.c:23-35 | every row of the table, as declared and as corrected, decodes to one of the five timers and a channel from 1 to 4 |
| PwmF030.Pa10DrivesChannel4 | libraries/mbed/targets/hal/TARGET_STM/TARGET_STM32F030/pwmout_api.c:31-32 | as declared, PA_10 decodes to channel 4 of TIM1, the output PA_11 already drives, so two rows name the same output and channel 3 is unreachable |
| PwmF030.CorrectedOutputsDistinct | libraries/mbed/targets/hal/TARGET_STM/TARGET_STM32F030/pwmout_api.c:29-32 | with PA_10 on TIM1_BASE + 3 every row names its own timer output, PA_10 on channel 3 |
| PwmF030.Prescaler | libraries/mbed/targets/hal/TARGET_STM/TARGET_STM32F030/pwmout_api.c:57 | PSC is SystemCoreClock / 1000000, the clock in whole MHz, rounded down |
| PwmF030.StepsKeepCcer | libraries/mbed/targets/hal/TARGET_STM/TARGET_STM32F030/pwmout_api.c:57-74 | the steps of pwmout_init before the output enable leave CCER alone |
| PwmF030.StartedTimebase | libraries/mbed/targets/hal/TARGET_STM/TARGET_STM32F030/pwmout_api.c:56-74 | after pwmout_init PSC is the prescaler, ARR is 20000, the counter is 0 and the channel's compare register is 0, while the other channels' compare registers are kept |
| PwmF030.StartedInPwmMode | libraries/mbed/targets/hal/TARGET_STM/TARGET_STM32F030/pwmout_api.c:60-73 | after pwmout_init the channel's mode field holds PWM mode 2 with preload |
| PwmF030.StartedOutputOn | libraries/mbed/targets/hal/TARGET_STM/TARGET_STM32F030/pwmout_api.c:75 | after pwmout_init the channel's output enable bit in CCER is set |
| PwmF030.StartedKeepsOtherCcer | libraries/mbed/targets/hal/TARGET_STM/TARGET_STM32F030/pwmout_api.c:75 | pwmout_init changes no CCER bit but the channel's enable |
| PwmF030.StartedKeepsMode | libraries/mbed/targets/hal/TARGET_STM/TARGET_STM32F030/pwmout_api.c:60-73 | a channel already in PWM mode stays so when pwmout_init programs another channel of the same timer |
| PwmF030.StartedKeepsOutput | libraries/mbed/targets/hal/TARGET_STM/TARGET_STM32F030/pwmout_api.c:75 | a channel whose output is on stays on when pwmout_init programs another channel of the same timer |
| PwmF030.EventBitsUpdate | libraries/mbed/targets/hal/TARGET_STM/TARGET_STM32F030/pwmout_api.c:78 | pwmout_init always generates the update event |
| PwmF030.EventBitsChannel | libraries/mbed/targets/hal/TARGET_STM/TARGET_STM32F030/pwmout_api.c:78 | pwmout_init generates the capture/compare event of its channel, bit ch of EGR |
| PwmF030.EnableBitsDistinct | libraries/mbed/targets/hal/TARGET_STM/TARGET_STM32F030/pwmout_api.c:75 | two different channels have disjoint CCER enable bits |
| PwmF030.MillisecondsAreMicroseconds | libraries/mbed/targets/hal/TARGET_STM/TARGET_STM32F030/pwmout_api.c:103-111 | both setters count 24 ticks per microsecond: ms milliseconds and 1000 * ms microseconds store the same value |
| PwmF030.TicksUsExact | libraries/mbed/targets/hal/TARGET_STM/TARGET_STM32F030/pwmout_api.c:108-111 | durations below 2^16 / 24 microseconds (2730 us) are kept exactly as 24 * us by the 16-bit timer |
| PwmF030.PeriodMsWraps | libraries/mbed/targets/hal/TARGET_STM/TARGET_STM32F030/pwmout_api.c:103-106 | the 16-bit ARR holds periods up to 2 ms only: 3 ms wraps, and 20 ms keeps 21248 ticks |
| PwmF030.PwmOut.constructor | libraries/mbed/targets/hal/TARGET_STM/TARGET_STM32F030/pwmout_api.c:37-45 | a fresh pwmout_t has no timer and channel 0 |
| PwmF030.SetTimebase | libraries/mbed/targets/hal/TARGET_STM/TARGET_STM32F030/pwmout_api.c:57-59 | PSC, ARR and CNT take the prescaler, 20000 and 0; no other register changes |
| PwmF030.SetOutputMode | libraries/mbed/targets/hal/TARGET_STM/TARGET_STM32F030/pwmout_api.c:60-73 | the PWM mode bits are ORed into CCMR1 for channels 1 and 2, CCMR2 for 3 and 4, in the low half for odd channels and the high half for even ones |
| PwmF030.EnableOutput | libraries/mbed/targets/hal/TARGET_STM/TARGET_STM32F030/pwmout_api.c:75-78 | CCER gains the channel's enable bit, BDTR becomes MOE, CR1 becomes CEN and EGR the update and channel events |
| PwmF030.GpioClockPorts | libraries/mbed/targets/hal/TARGET_STM/TARGET_STM32F030/pwmout_api.c:53 | the port clock bit 1 << (port + 17) is GPIOAEN for a pin of port A and GPIOBEN for a pin of port B |
| PwmF030.TableTimersClocked | libraries/mbed/targets/hal/TARGET_STM/TARGET_STM32F030/pwmout_api.c:46-52 | every timer the table names has a case in the clock switch, on exactly one of APB1 and APB2 |
| PwmF030.TablePortsClocked | libraries/mbed/targets/hal/TARGET_STM/TARGET_STM32F030/pwmout_api.c:53 | every pin of the table gets a non-zero port clock bit, and AHBENR has it set afterwards |
| PwmF030.EnableClocks | libraries/mbed/targets/hal/TARGET_STM/TARGET_STM32F030/pwmout_api.c:46-53 | APB1ENR and APB2ENR gain the enable bit of the timer (TIM3, TIM14 on APB1; TIM1, TIM16, TIM17 on APB2; nothing for another base) and AHBENR the pin's port bit; no bit is cleared |
| PwmF030.Configure | libraries/mbed/targets/hal/TARGET_STM/TARGET_STM32F030/pwmout_api.c:55-78 | the timer's registers become the started state: PSC, ARR = 20000 and CNT = 0, the channel in PWM mode, its compare register 0, its output enabled, BDTR, CR1 and EGR as the lemmas above describe |
| PwmF030.Init | libraries/mbed/targets/hal/TARGET_STM/TARGET_STM32F030/pwmout_api.c:37-79 | a pin the table does not list fails with nothing changed; otherwise the object records the timer and channel the name decodes to, the clocks are enabled as EnableClocks states, and that timer's registers become the started state the lemmas above describe |
| PwmF030.PeriodMs | libraries/mbed/targets/hal/TARGET_STM/TARGET_STM32F030/pwmout_api.c:103-106 | ARR keeps 24000 * ms modulo 2^16 and nothing else changes |
| PwmF030.PeriodUs | libraries/mbed/targets/hal/TARGET_STM/TARGET_STM32F030/pwmout_api.c:108-111 | ARR keeps 24 * us modulo 2^16 and nothing else changes |
| PwmF030.PulsewidthMs | libraries/mbed/targets/hal/TARGET_STM/TARGET_STM32F030/pwmout_api.c:120-124 | the channel's compare register keeps 24000 * ms modulo 2^16 and nothing else changes |
| PwmF030.PulsewidthUs | libraries/mbed/targets/hal/TARGET_STM/TARGET_STM32F030/pwmout_api.c:126-130 | the channel's compare register keeps 24 * us modulo 2^16 and nothing else changes |
| AdcCommon.ChannelPin | libraries/mbed/targets/hal/TARGET_STM/TARGET_STM32F1XX/analogin_api.c:27-45 | the pin of channel c is on port A, B or C: PA_0..PA_7 for channels 0..7, PB_0..PB_1 for 8..9, PC_0..PC_5 for 10..15 |
| AdcCommon.ChannelOfPin | libraries/mbed/targets/hal/TARGET_STM/TARGET_STM32F030/analogin_api.c:27-45 | the channel of a pin, when it has one, is below 16 |
| AdcCommon.ChannelPinRoundTrip | libraries/mbed/targets/hal/TARGET_STM/TARGET_STM32F1XX/analogin_api.c:27-45 | the channel of the pin of channel c is c |
| AdcCommon.ChannelOfPinInverse | libraries/mbed/targets/hal/TARGET_STM/TARGET_STM32F030/analogin_api.c:27-45 | a pin that has a channel is the pin of that channel, so the tables list each analog pin once |
| AdcCommon.WidenKeepsValue | libraries/mbed/targets/hal/TARGET_STM/TARGET_STM32F1XX/analogin_api.c:85-89 | analogin_read_u16 of a 12-bit sample keeps the sample in its top 12 bits |
| AdcCommon.WidenRepeatsTopNibble | libraries/mbed/targets/hal/TARGET_STM/TARGET_STM32F030/analogin_api.c:79-83 | and repeats the sample's top four bits in its low nibble |
| AdcCommon.WidenAdds | libraries/mbed/targets/hal/TARGET_STM/TARGET_STM32F1XX/analogin_api.c:88 | for a 12-bit sample the result is 16 * value + value / 256 |
| AdcCommon.WidenEnds | libraries/mbed/targets/hal/TARGET_STM/TARGET_STM32F030/analogin_api.c:82 | 0 maps to 0 and the full-scale 0xFFF to the full-scale 0xFFFF |
| AdcCommon.WidenOrdersTopBits | libraries/mbed/targets/hal/TARGET_STM/TARGET_STM32F1XX/analogin_api.c:88 | a larger 12-bit sample has larger top 12 bits in the result |
| AdcCommon.WidenStrictlyMonotone | libraries/mbed/targets/hal/TARGET_STM/TARGET_STM32F030/analogin_api.c:82 | a larger 12-bit sample gives a larger 16-bit reading |
| AdcCommon.WidenIgnoresHighBits | libraries/mbed/targets/hal/TARGET_STM/TARGET_STM32F1XX/analogin_api.c:88 | only the low 12 bits of the data register affect the reading |
| AnalogInF1.TableHasChannel | libraries/mbed/targets/hal/TARGET_STM/TARGET_STM32F1XX/analogin_api.c:27-45 | the table has 16 rows and lists the pin of every channel c with c as its name and analog input as its configuration |
| AnalogInF1.ClocksOn | libraries/mbed/targets/hal/TARGET_STM/TARGET_STM32F1XX/analogin_api.c:56-57 | analogin_init turns on the clocks of ports A, B, C and ADC1 and keeps every other APB2ENR bit |
| AnalogInF1.EnabledPowersOn | libraries/mbed/targets/hal/TARGET_STM/TARGET_STM32F1XX/analogin_api.c:60 | after analogin_init ADON is set |
| AnalogInF1.EnabledTriggersExternally | libraries/mbed/targets/hal/TARGET_STM/TARGET_STM32F1XX/analogin_api.c:60 | EXTTRIG is set |
| AnalogInF1.EnabledSelectsSwstart | libraries/mbed/targets/hal/TARGET_STM/TARGET_STM32F1XX/analogin_api.c:60 | all three EXTSEL bits are set, selecting the software start trigger |
| AnalogInF1.EnabledKeepsOthers | libraries/mbed/targets/hal/TARGET_STM/TARGET_STM32F1XX/analogin_api.c:60 | no other CR2 bit changes |
| AnalogInF1.Converting | libraries/mbed/targets/hal/TARGET_STM/TARGET_STM32F1XX/analogin_api.c:70 | starting a conversion sets SWSTART and keeps every other CR2 bit |
| AnalogInF1.ConvertingKeepsEnabled | libraries/mbed/targets/hal/TARGET_STM/TARGET_STM32F1XX/analogin_api.c:60-70 | starting a conversion on an enabled ADC leaves it enabled |
| AnalogInF1.AnalogIn.constructor | libraries/mbed/targets/hal/TARGET_STM/TARGET_STM32F1XX/analogin_api.c:49-50 | a fresh analogin_t names no channel |
| AnalogInF1.Init | libraries/mbed/targets/hal/TARGET_STM/TARGET_STM32F1XX/analogin_api.c:49-63 | the object holds the table lookup; an unlisted pin fails with no register changed; otherwise APB2ENR gets the ADC and port clocks, CR2 is enabled as above and nothing else changes |
| AnalogInF1.ReadU16 | libraries/mbed/targets/hal/TARGET_STM/TARGET_STM32F1XX/analogin_api.c:65-89 | SQR3 selects the object's channel, CR2 starts a conversion, and the reading is the 16-bit widening of the data register |
| AnalogInF030.TableHasChannel | libraries/mbed/targets/hal/TARGET_STM/TARGET_STM32F030/analogin_api.c:27-45 | the table has 16 rows and lists the pin of every channel c with ADC0_c as its name and analog mode as its configuration |
| AnalogInF030.GpioClocksOn | libraries/mbed/targets/hal/TARGET_STM/TARGET_STM32F030/analogin_api.c:55 | analogin_init turns on the clocks of ports A, B and C and keeps every other AHBENR bit |
| AnalogInF030.AdcClockOn | libraries/mbed/targets/hal/TARGET_STM/TARGET_STM32F030/analogin_api.c:56 | and the ADC clock, keeping every other APB2ENR bit |
| AnalogInF030.Enabled | libraries/mbed/targets/hal/TARGET_STM/TARGET_STM32F030/analogin_api.c:58 | enabling sets ADEN and keeps every other CR bit |
| AnalogInF030.Converting | libraries/mbed/targets/hal/TARGET_STM/TARGET_STM32F030/analogin_api.c:67 | starting a conversion sets ADSTART and keeps every other CR bit |
| AnalogInF030.ConvertingKeepsEnabled | libraries/mbed/targets/hal/TARGET_STM/TARGET_STM32F030/analogin_api.c:58-67 | starting a conversion on an enabled ADC leaves ADEN set |
| AnalogInF030.OneHotSelectsOnly | libraries/mbed/targets/hal/TARGET_STM/TARGET_STM32F030/analogin_api.c:65 | the channel selection word has exactly the channel's bit set |
| AnalogInF030.AnalogIn.constructor | libraries/mbed/targets/hal/TARGET_STM/TARGET_STM32F030/analogin_api.c:49-50 | a fresh analogin_t names no channel |
| AnalogInF030.Init | libraries/mbed/targets/hal/TARGET_STM/TARGET_STM32F030/analogin_api.c:49-62 | the object holds the table lookup; an unlisted pin fails with no register changed; otherwise AHBENR and APB2ENR get the port and ADC clocks, CR gets ADEN and nothing else changes |
| AnalogInF030.ReadU16 | libraries/mbed/targets/hal/TARGET_STM/TARGET_STM32F030/analogin_api.c:64-83 | CHSELR selects exactly the object's channel, SMPR holds the sampling time code 3, CR starts a conversion, and the reading is the 16-bit widening of the data register |
| RegsF1.TimRegs.WithCcr | libraries/mbed/targets/hal/TARGET_STM/TARGET_STM32F1XX/pwmout_api.c:96-97 | writing compare register n (CCR1 + n - 1) sets that register and keeps the other three |
| RegsF1.Tim.SetCcr | libraries/mbed/targets/hal/TARGET_STM/TARGET_STM32F1XX/pwmout_api.c:96-97 | the store through the CCR pointer changes only compare register n |
| RegsF030.TimRegs.WithCcr | libraries/mbed/targets/hal/TARGET_STM/TARGET_STM32F030/pwmout_api.c:120-130 | writing compare register n (CCR1 + n - 1) sets that register and keeps the other three |
| RegsF030.Tim.SetCcr | libraries/mbed/targets/hal/TARGET_STM/TARGET_STM32F030/pwmout_api.c:122-123 | the store through the CCR pointer changes only compare register n |

## Left out

- Interrupts: NVIC vector installation and IRQ enables in the tickers and
  serial are not modelled. The serial IRQ handler is modelled only as its
  dispatch through the saved id and index.
- Busy-waits are not modelled: ADRDY/EOC polling in the ADC reads and
  TXE/RXNE/BSY polling in spi_master_write, the SPI slave functions,
  spi_busy and serial_getc/putc/readable/writable. The ADC data register
  and the timer counters are inputs of the read methods.
- Floating point is not modelled: analogin_read, and the pwmout_write,
  pwmout_read and seconds-based period and pulse-width setters, work on
  `float`.
- The effects of pinmap_pinout on the GPIO registers are not modelled:
  pinmap.c's common part is not part of this model.
- pinmap_peripheral and pinmap_merge are parameters: a resolver is
  constrained only by `Pins.FromTable` (its result comes from the table it
  was given, and only in the drivers that need it), and a merger not at
  all. No lemma assumes that the resolver takes the first match or that
  the merger agrees on equal or NC values; `Pins.FirstMatch` is a
  separate reference lookup.
- The serial pin_mode(tx/rx, PullUp) calls are not modelled, because they
  act on registers pinmap_pinout has already written and that write is not
  modelled.
- The memcpy of the stdio serial object is not modelled. The stdio UART
  value of the F1 family comes from a header that is not part of this
  model, so it is a parameter of `SerialF1.SerialGlobals`.
- The PWMName, ADCName and UARTName values of the F1 family are defined in
  a header that is not part of this model; the F1 drivers take them as
  given. The STM_PIN_* mode and configuration constants are a
  `PinConstants` parameter, with RM0008 reference values proved well
  formed.
- I2CName (PeripheralNames.h:53-56) is not modelled: no I2C driver is part
  of this model.
- Code under `#if 0` is not modelled.
- SpiF1.Frequency: the uninitialised local baud_rate is a parameter
  `start` limited to 28, because the loop's `1 << (baud_rate + 2)` shifts
  a signed int and is undefined from 29 on.
- SpiF1.BaudLoop: requires the same stale start of at most 28, for the
  same shift.
- SpiF1.Configure: requires the same stale start of at most 28, as it
  calls spi_frequency.
- SpiF1.Init: requires the same stale start of at most 28, as it calls
  spi_frequency.
- Signed shifts that C leaves undefined are modelled as unsigned 32-bit
  shifts: the F1 pinmap.c:43, :44 and :98 shift `0xf`, `conf` and `0x03`
  (signed ints) by 28 or 30 for pin index 7 or 15, which overflows; the
  F030 spi_api.c:131 shifts `bits - 1` left by 8, negative for bits <= 0,
  which `SpiF030.DataSizeBits` takes modulo 2^8.
- TickerF1.Compose: `TIM3->CNT << 16` shifts a 16-bit value promoted to a
  signed int, which overflows for hi >= 0x8000; the model takes the
  unsigned concatenation hi:lo that compilers produce.
- SerialF1.Free: requires the object's index to be 0, 1 or 2. The source
  indexes serial_irq_ids with it unchecked, and serial_init sets it only
  for UART_1, so a UART_2 object that was not zero-initialised would write
  out of bounds; the model excludes that write.
- SerialF1.IrqHandler: requires the object's index to be 0, 1 or 2, for
  the same out-of-bounds store.
- AnalogInF030.ReadU16: requires channel < 32, because `1 << channel`
  overflows a 32-bit word for larger values. The table only yields
  channels 0..15.
- PwmF030.GpioClock: a pin of port 15 or above (the shift would leave the
  register), or NC, sets no AHBENR bit. The source shifts past bit 31 in
  that case; pwmout_init only reaches it for pins that resolve, and those
  are on ports A and B.
- GpioF1.GpioSet: requires a port below 30, so that `1 << (port + 2)`
  stays inside APB2ENR.
- Signed overflow of `24000 * ms` and `24 * us` in the PWM setters is
  modelled as wrap-around; the 16-bit timers keep the value modulo 2^16.
- SerialF1.Baud and SpiF030.Frequency require a non-zero rate, because the
  source divides by it.

## Findings

| source | as written | input that shows it | evidently intended | confidence | as-written member | corrected member |
|---|---|---|---|---|---|---|
| libraries/mbed/targets/hal/TARGET_STM/TARGET_STM32F030/PeripheralNames.h:62-63 | TIM_1_3 is TIM1_BASE + 4, the same value as TIM_1_4 | PA_10 in PinMap_PWM_Out decodes to channel 4 of TIM1, the channel of PA_11 | TIM_1_3 = TIM1_BASE + 3 | high (not executed) | PwmF030.Pa10DrivesChannel4 | PwmF030.CorrectedOutputsDistinct |
| libraries/mbed/targets/hal/TARGET_STM/TARGET_STM32F030/spi_api.c:116 | the frame size test joins `bits >= 4` and `bits <= 16` with a logical or, which every size passes | spi_format with bits = 40 is accepted and bits - 1 spills into bit 13 of CR2 | both bounds joined with a logical and | high (not executed) | SpiF030.OversizedFrameAccepted | SpiF030.ValidFormatFitsField |
| libraries/mbed/targets/hal/TARGET_STM/TARGET_STM32F1XX/spi_api.c:119 | `baud_rate == 0;` compares instead of assigning, so the loop starts from an uninitialised value | a stale baud_rate of 16 skips the loop, writes BR = 0 (the fastest clock) and sets LSBFIRST | `baud_rate = 0;` | high (not executed) | SpiF1.StaleBaudRateCorruptsCr1 | SpiF1.BaudRateMeaning |
| libraries/mbed/targets/hal/TARGET_STM/TARGET_STM32F1XX/serial_api.c:211 | serial_break_clear computes `CR1 &= SBK` | clearing a break on a running UART keeps SBK set and clears UE, TE and RE | `CR1 &= ~SBK` | high (not executed) | SerialF1.BreakClearKeepsOnlySbk | SerialF1.CorrectedBreakClearMeaning |
| libraries/mbed/targets/hal/TARGET_STM/TARGET_STM32F1XX/pwmout_api.c:44-47 | the channel's mode is assigned to the whole CCMR1 or CCMR2 | pwmout_init for PWM_1 and then PWM_2 leaves CCMR1 = 0x6800, with channel 1 no longer in PWM mode | the mode bits ORed into CCMR1 or CCMR2, as the F030 driver does | medium (not executed) | PwmF1.SecondChannelDropsFirst | PwmF1.CorrectedKeepsMode |
| libraries/mbed/targets/hal/TARGET_STM/TARGET_STM32F1XX/serial_api.c:107 | STOP_1 (two stop bits) is set when one stop bit is asked for | serial_format(obj, 8, ParityNone, 1) selects two stop bits, and 2 selects one | set STOP_1 when stop_bits == 2 | high (not executed) | SerialF1.StopBitsSwapped | SerialF1.CorrectedStopBitsMeaning |
