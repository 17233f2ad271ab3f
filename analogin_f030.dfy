/**
 * The STM32F030 analog input (analogin_api.c): analogin_init resolves the
 * pin to an ADC channel, turns on the GPIO and ADC clocks and enables ADC1;
 * analogin_read_u16 selects the channel alone in the channel selection
 * register, sets the sampling time, starts a conversion and stretches the
 * 12-bit result to 16 bits.
 */
module AnalogInF030 {
  import opened Wrappers
  import opened Pins
  import opened RegsF030
  import opened NamesF030
  import opened AdcCommon

  /** STM_PIN_DATA(3, 0): MODER = 11, analog mode, no pull. */
  const ANALOG: PinData := PinData(3, 0)

  /** PinMap_ADC without its terminator: sixteen analog inputs. */
  const ADC_PINS: seq<PinMap<bv32>> :=
    [ PinMap(PA(0), ADC0[0], ANALOG), PinMap(PA(1), ADC0[1], ANALOG), PinMap(PA(2), ADC0[2], ANALOG),
      PinMap(PA(3), ADC0[3], ANALOG), PinMap(PA(4), ADC0[4], ANALOG), PinMap(PA(5), ADC0[5], ANALOG),
      PinMap(PA(6), ADC0[6], ANALOG), PinMap(PA(7), ADC0[7], ANALOG),
      PinMap(PB(0), ADC0[8], ANALOG), PinMap(PB(1), ADC0[9], ANALOG),
      PinMap(PC(0), ADC0[10], ANALOG), PinMap(PC(1), ADC0[11], ANALOG), PinMap(PC(2), ADC0[12], ANALOG),
      PinMap(PC(3), ADC0[13], ANALOG), PinMap(PC(4), ADC0[14], ANALOG), PinMap(PC(5), ADC0[15], ANALOG) ]

  /**
   * Every channel 0..15 has its row: its pin of the shared layout, in analog
   * mode. As the table has sixteen rows and the layout gives distinct
   * channels distinct pins (AdcCommon.ChannelPinRoundTrip), the table holds
   * exactly these rows: the same wiring as the STM32F1xx driver.
   */
  lemma TableHasChannel(c: bv32)
    requires c < 16
    ensures |ADC_PINS| == 16
    ensures PinMap(ChannelPin(c), c, ANALOG) in ADC_PINS
  {
  }

  /** The GPIO clocks analogin_init turns on in AHBENR: ports A, B and C. */
  const GPIO_CLOCKS: bv32 := RCC_AHBENR_GPIOAEN | RCC_AHBENR_GPIOBEN | RCC_AHBENR_GPIOCEN

  /** AHBENR after analogin_init: the three port clocks are on, every other bit is kept. */
  function GpioClocksOn(enr: bv32): (r: bv32)
    ensures r & GPIO_CLOCKS == GPIO_CLOCKS
    ensures r & !GPIO_CLOCKS == enr & !GPIO_CLOCKS
  {
    enr | GPIO_CLOCKS
  }

  /** APB2ENR after analogin_init: the ADC clock is on, every other bit is kept. */
  function AdcClockOn(enr: bv32): (r: bv32)
    ensures r & RCC_APB2ENR_ADC1EN == RCC_APB2ENR_ADC1EN
    ensures r & !RCC_APB2ENR_ADC1EN == enr & !RCC_APB2ENR_ADC1EN
  {
    enr | RCC_APB2ENR_ADC1EN
  }

  /** CR after analogin_init: ADEN is set, every other bit is kept. */
  function Enabled(cr: bv32): (r: bv32)
    ensures r & ADC_CR_ADEN == ADC_CR_ADEN
    ensures r & !ADC_CR_ADEN == cr & !ADC_CR_ADEN
  {
    cr | ADC_CR_ADEN
  }

  /** CR after a read starts: ADSTART is set, every other bit is kept. */
  function Converting(cr: bv32): (r: bv32)
    ensures r & ADC_CR_ADSTART == ADC_CR_ADSTART
    ensures r & !ADC_CR_ADSTART == cr & !ADC_CR_ADSTART
  {
    cr | ADC_CR_ADSTART
  }

  /** Starting a conversion keeps the converter enabled. */
  lemma ConvertingKeepsEnabled(cr: bv32)
    ensures Converting(Enabled(cr)) & ADC_CR_ADEN == ADC_CR_ADEN
  {
  }

  /** CHSELR for a read of channel c: 1 << c. */
  function OneHot(c: bv32): bv32
    requires c < 32
  {
    1 << c
  }

  /** The channel selection selects channel c and no other: bit d is set exactly when d == c. */
  lemma OneHotSelectsOnly(c: bv32, d: bv32)
    requires c < 32 && d < 32
    ensures (OneHot(c) >> d) & 1 == 1 <==> d == c
  {
  }

  /** analogin_t: the channel, or None when the pin has none. */
  class AnalogIn {
    var adc: Option<bv32>

    constructor ()
      ensures adc.None?
    {
      adc := None;
    }
  }

  /**
   * analogin_init: the object takes the resolved channel; a pin with no
   * channel ends in error() with nothing else changed; otherwise the clocks
   * are enabled and ADC1 is enabled.
   */
  method Init(obj: AnalogIn, rcc: Rcc, adc1: Adc, resolve: Resolver<bv32>, pin: PinName)
    returns (st: Status)
    modifies obj, rcc, adc1
    ensures obj.adc == resolve(pin, ADC_PINS)
    ensures obj.adc.None? ==> st == Failed(PinoutMappingFailed) && unchanged(rcc) && unchanged(adc1)
    ensures obj.adc.Some? ==>
      && st == Ok
      && rcc.AHBENR == GpioClocksOn(old(rcc.AHBENR)) && rcc.APB2ENR == AdcClockOn(old(rcc.APB2ENR))
      && rcc.APB1ENR == old(rcc.APB1ENR)
      && adc1.CR == Enabled(old(adc1.CR)) && adc1.CHSELR == old(adc1.CHSELR) && adc1.SMPR == old(adc1.SMPR)
  {
    obj.adc := resolve(pin, ADC_PINS);
    if obj.adc.None? {
      return Failed(PinoutMappingFailed);
    }
    rcc.AHBENR := GpioClocksOn(rcc.AHBENR);
    rcc.APB2ENR := AdcClockOn(rcc.APB2ENR);
    adc1.CR := Enabled(adc1.CR);
    st := Ok;
  }

  /**
   * analogin_read_u16: CHSELR selects the object's channel alone, SMPR = 011
   * a sampling time of 28.5 ADC clock cycles, ADSTART starts the conversion, and the data register dr
   * read once EOC is set is returned stretched to 16 bits.
   */
  method ReadU16(obj: AnalogIn, adc1: Adc, dr: bv32) returns (r: bv16)
    requires obj.adc.Some? && obj.adc.value < 32
    modifies adc1
    ensures adc1.CHSELR == OneHot(obj.adc.value)
    ensures adc1.SMPR == ADC_SMPR_SMP_0_1
    ensures adc1.CR == Converting(old(adc1.CR))
    ensures r == Widen(dr)
  {
    adc1.CHSELR := OneHot(obj.adc.value);
    adc1.SMPR := ADC_SMPR_SMP_0_1;
    adc1.CR := Converting(adc1.CR);
    var value := dr;
    r := Widen(value);
  }
}
