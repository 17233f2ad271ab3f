/**
 * The STM32F1xx analog input (analogin_api.c): analogin_init resolves the
 * pin to an ADC1 channel, turns on the GPIO and ADC clocks and powers ADC1 up
 * with conversions started by software; analogin_read_u16 selects the
 * channel as the first of the regular sequence, starts a conversion and
 * stretches the 12-bit result to 16 bits.
 */
module AnalogInF1 {
  import opened Wrappers
  import opened Pins
  import opened RegsF1
  import opened PinmapF1
  import opened AdcCommon

  /** ADCName: ADC0_0 .. ADC0_15 are the channel numbers 0..15. */
  const ADC0: seq<bv32> := [0, 1, 2, 3, 4, 5, 6, 7, 8, 9, 10, 11, 12, 13, 14, 15]

  /** PinMap_ADC without its terminator: sixteen analog inputs. */
  function AdcPins(k: PinConstants): seq<PinMap<bv32>>
  {
    var d := PinData(k.modeInput, k.confInputAnalog);
    [ PinMap(PA(0), ADC0[0], d), PinMap(PA(1), ADC0[1], d), PinMap(PA(2), ADC0[2], d), PinMap(PA(3), ADC0[3], d),
      PinMap(PA(4), ADC0[4], d), PinMap(PA(5), ADC0[5], d), PinMap(PA(6), ADC0[6], d), PinMap(PA(7), ADC0[7], d),
      PinMap(PB(0), ADC0[8], d), PinMap(PB(1), ADC0[9], d),
      PinMap(PC(0), ADC0[10], d), PinMap(PC(1), ADC0[11], d), PinMap(PC(2), ADC0[12], d),
      PinMap(PC(3), ADC0[13], d), PinMap(PC(4), ADC0[14], d), PinMap(PC(5), ADC0[15], d) ]
  }

  /**
   * Every channel 0..15 has its row: its pin of the shared layout, configured
   * as an analog input. As the table has sixteen rows and the layout gives
   * distinct channels distinct pins (AdcCommon.ChannelPinRoundTrip), the
   * table holds exactly these rows.
   */
  lemma TableHasChannel(k: PinConstants, c: bv32)
    requires c < 16
    ensures |AdcPins(k)| == 16
    ensures PinMap(ChannelPin(c), c, PinData(k.modeInput, k.confInputAnalog)) in AdcPins(k)
  {
  }

  /** The clocks analogin_init turns on: GPIO ports A, B, C and ADC1. */
  const ADC_CLOCKS: bv32 := RCC_APB2ENR_IOPAEN | RCC_APB2ENR_IOPBEN | RCC_APB2ENR_IOPCEN | RCC_APB2ENR_ADC1EN

  /** APB2ENR after analogin_init: the four enable bits are set, every other bit is kept. */
  function ClocksOn(enr: bv32): (r: bv32)
    ensures r & ADC_CLOCKS == ADC_CLOCKS
    ensures r & !ADC_CLOCKS == enr & !ADC_CLOCKS
  {
    enr | ADC_CLOCKS
  }

  /** CR2 after analogin_init: ADON, EXTTRIG and EXTSEL = 111 are ORed in. */
  function Enabled(cr2: bv32): bv32
  {
    cr2 | ADC_CR2_ADON | ADC_CR2_EXTTRIG | ADC_CR2_EXTSEL
  }

  /** After analogin_init the converter is powered on... */
  lemma EnabledPowersOn(cr2: bv32)
    ensures Enabled(cr2) & ADC_CR2_ADON == ADC_CR2_ADON
  {
  }

  /** ... regular conversions start on an external event... */
  lemma EnabledTriggersExternally(cr2: bv32)
    ensures Enabled(cr2) & ADC_CR2_EXTTRIG == ADC_CR2_EXTTRIG
  {
  }

  /** ... and that event is SWSTART (EXTSEL = 111). */
  lemma EnabledSelectsSwstart(cr2: bv32)
    ensures Enabled(cr2) & ADC_CR2_EXTSEL == ADC_CR2_EXTSEL
  {
  }

  /** No other CR2 bit changes. */
  lemma EnabledKeepsOthers(cr2: bv32)
    ensures Enabled(cr2) & !(ADC_CR2_ADON | ADC_CR2_EXTTRIG | ADC_CR2_EXTSEL)
      == cr2 & !(ADC_CR2_ADON | ADC_CR2_EXTTRIG | ADC_CR2_EXTSEL)
  {
  }

  /** CR2 after a read starts: SWSTART is set, every other bit is kept. */
  function Converting(cr2: bv32): (r: bv32)
    ensures r & ADC_CR2_SWSTART == ADC_CR2_SWSTART
    ensures r & !ADC_CR2_SWSTART == cr2 & !ADC_CR2_SWSTART
  {
    cr2 | ADC_CR2_SWSTART
  }

  /** Starting a conversion keeps the converter set up by analogin_init. */
  lemma ConvertingKeepsEnabled(cr2: bv32)
    ensures Enabled(Converting(Enabled(cr2))) == Converting(Enabled(cr2))
  {
  }

  /** analogin_t: the channel, or None when the pin has none. */
  class AnalogIn {
    var adc: Option<bv32>

    constructor ()
      ensures adc.None?
    {
      adc := None;
    }
  }

  /**
   * analogin_init: the object takes the resolved channel; a pin with no
   * channel ends in error() with nothing else changed; otherwise the clocks
   * are enabled and ADC1 powered up.
   */
  method Init(obj: AnalogIn, rcc: Rcc, adc1: Adc, k: PinConstants, resolve: Resolver<bv32>, pin: PinName)
    returns (st: Status)
    requires FromTable(resolve(pin, AdcPins(k)), AdcPins(k))
    modifies obj, rcc, adc1
    ensures obj.adc == resolve(pin, AdcPins(k))
    ensures obj.adc.None? ==> st == Failed(PinoutMappingFailed) && unchanged(rcc) && unchanged(adc1)
    ensures obj.adc.Some? ==>
      && st == Ok
      && rcc.APB2ENR == ClocksOn(old(rcc.APB2ENR)) && rcc.APB1ENR == old(rcc.APB1ENR)
      && adc1.CR2 == Enabled(old(adc1.CR2)) && adc1.SQR3 == old(adc1.SQR3)
  {
    obj.adc := resolve(pin, AdcPins(k));
    if obj.adc.None? {
      return Failed(PinoutMappingFailed);
    }
    rcc.APB2ENR := ClocksOn(rcc.APB2ENR);
    adc1.CR2 := Enabled(adc1.CR2);
    st := Ok;
  }

  /**
   * analogin_read_u16: SQR3 selects the object's channel, SWSTART starts the
   * conversion, and the data register dr read once EOC is set is returned
   * stretched to 16 bits.
   */
  method ReadU16(obj: AnalogIn, adc1: Adc, dr: bv32) returns (r: bv16)
    requires obj.adc.Some?
    modifies adc1
    ensures adc1.SQR3 == obj.adc.value
    ensures adc1.CR2 == Converting(old(adc1.CR2))
    ensures r == Widen(dr)
  {
    adc1.SQR3 := obj.adc.value;
    adc1.CR2 := Converting(adc1.CR2);
    var value := dr;
    r := Widen(value);
  }
}
