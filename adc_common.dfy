/**
 * What the STM32F1xx and STM32F030 analog input drivers share: both wire ADC
 * channels 0..15 to the same pins (PA_0..PA_7, PB_0, PB_1, PC_0..PC_5), and
 * analogin_read_u16 stretches the 12-bit conversion result to 16 bits by
 * shifting it left four places and filling the freed low nibble with its own
 * top nibble, so that 0 stays 0 and full scale 0xFFF becomes 0xFFFF.
 */
module AdcCommon {
  import opened Wrappers
  import opened Pins

  /** The pin of ADC channel c: PA_c for 0..7, PB_(c-8) for 8, 9, PC_(c-10) for 10..15. */
  function ChannelPin(c: bv32): (p: PinName)
    requires c < 16
    ensures p.Pin? && PortIndex(p.id) <= 2
  {
    if c < 8 then PA(c) else if c < 10 then PB(c - 8) else PC(c - 10)
  }

  /** The ADC channel a pin carries, read off its port and index; None for any other pin. */
  function ChannelOfPin(p: PinName): (r: Option<bv32>)
    ensures r.Some? ==> r.value < 16
  {
    match p
    case NC => None
    case Pin(id) =>
      var port := PortIndex(id);
      var i := PinIndex(id);
      if port == 0 && i < 8 then Some(i)
      else if port == 1 && i < 2 then Some(8 + i)
      else if port == 2 && i < 6 then Some(10 + i)
      else None
  }

  /** Every channel's pin carries that channel... */
  lemma ChannelPinRoundTrip(c: bv32)
    requires c < 16
    ensures ChannelOfPin(ChannelPin(c)) == Some(c)
  {
  }

  /** ... and a pin carrying a channel is that channel's pin, so no two channels share a pin. */
  lemma ChannelOfPinInverse(p: PinName)
    requires ChannelOfPin(p).Some?
    ensures ChannelPin(ChannelOfPin(p).value) == p
  {
    PinSplitRoundTrip(p.id);
  }

  /** The full-scale conversion result, ADC_12BIT_RANGE. */
  const ADC_RANGE: bv32 := 0xFFF

  /** (value << 4) | ((value >> 8) & 0xF), computed in 32 bits and returned as a uint16_t. */
  function Widen(value: bv32): (r: bv16)
  {
    (((value << 4) | ((value >> 8) & 0xF)) & 0xFFFF) as bv16
  }

  /** For a 12-bit result, the top 12 bits of the widened value are the result itself... */
  lemma WidenKeepsValue(value: bv32)
    requires value <= ADC_RANGE
    ensures (Widen(value) >> 4) as bv32 == value
  {
  }

  /** ... and its low nibble repeats the result's top nibble. */
  lemma WidenRepeatsTopNibble(value: bv32)
    requires value <= ADC_RANGE
    ensures (Widen(value) & 0xF) as bv32 == value >> 8
  {
  }

  /** For a 12-bit result the OR adds two parts that do not overlap: 16 * value and value / 256. */
  lemma WidenAdds(value: bv32)
    requires value <= ADC_RANGE
    ensures Widen(value) as bv32 == value * 16 + value / 256
  {
  }

  /** Zero and full scale map to the ends of the 16-bit range. */
  lemma WidenEnds()
    ensures Widen(0) == 0 && Widen(ADC_RANGE) == 0xFFFF
  {
  }

  /** Of two 12-bit results, the larger one has the larger top 12 bits once widened... */
  lemma WidenOrdersTopBits(v: bv32, w: bv32)
    requires v < w <= ADC_RANGE
    ensures Widen(v) >> 4 < Widen(w) >> 4
  {
  }

  /** ... and a 16-bit value with larger top 12 bits is the larger value. */
  lemma TopBitsOrder(x: bv16, y: bv16)
    requires x >> 4 < y >> 4
    ensures x < y
  {
  }

  /**
   * A larger conversion result reads as a larger 16-bit value: widening is strictly
   * monotone on 0..ADC_RANGE, so it is also one-to-one there.
   */
  lemma WidenStrictlyMonotone(v: bv32, w: bv32)
    requires v < w <= ADC_RANGE
    ensures Widen(v) < Widen(w)
  {
    WidenOrdersTopBits(v, w);
    TopBitsOrder(Widen(v), Widen(w));
  }

  /** Bits of the data register above the 12-bit result do not reach the 16-bit value. */
  lemma WidenIgnoresHighBits(value: bv32)
    ensures Widen(value) == Widen(value & ADC_RANGE)
  {
  }
}
