/**
 * Pin and peripheral identities shared by every driver of the STM32 HAL
 * targets: pin names, configuration codes, pin-map tables and the
 * signatures of the resolver (pinmap_peripheral) and merger (pinmap_merge).
 */
module Pins {
  import opened Wrappers

  /**
   * A pin name. NC is the "not connected" sentinel; every other pin packs its
   * port in bits 4 and up and its index within the port in bits 0..3 of the
   * unsigned value id.
   */
  datatype PinName = NC | Pin(id: bv32)

  /** The port of a pin: id >> 4. */
  function PortIndex(id: bv32): bv32
  {
    id >> 4
  }

  /** The index of a pin inside its port: id & 0xF. */
  function PinIndex(id: bv32): (i: bv32)
    ensures i < 16
  {
    id & 0xF
  }

  /** Port and index together determine the pin. */
  lemma PinSplitRoundTrip(id: bv32)
    ensures (PortIndex(id) << 4) | PinIndex(id) == id
  {
  }

  /** Pins of ports A, B and C: PA_i = 0x00 + i, PB_i = 0x10 + i, PC_i = 0x20 + i. */
  function PA(i: bv32): (p: PinName)
    requires i < 16
    ensures p.Pin? && PortIndex(p.id) == 0 && PinIndex(p.id) == i
  {
    Pin(i)
  }

  function PB(i: bv32): (p: PinName)
    requires i < 16
    ensures p.Pin? && PortIndex(p.id) == 1 && PinIndex(p.id) == i
  {
    Pin(0x10 + i)
  }

  function PC(i: bv32): (p: PinName)
    requires i < 16
    ensures p.Pin? && PortIndex(p.id) == 2 && PinIndex(p.id) == i
  {
    Pin(0x20 + i)
  }

  /** A configuration code STM_PIN_DATA(mode, conf): the electrical mode and its sub-configuration. */
  datatype PinData = PinData(mode: bv32, conf: bv32)

  /** One row of a pin-map table: a pin, the peripheral it can serve and its configuration. */
  datatype PinMap<P> = PinMap(pin: PinName, peripheral: P, data: PinData)

  /** pinmap_peripheral: the peripheral a pin serves according to a table, or None (NC). */
  type Resolver<!P> = (PinName, seq<PinMap<P>>) -> Option<P>

  /** pinmap_merge: the peripheral two resolved roles agree on, or None (NC). */
  type Merger<!P> = (Option<P>, Option<P>) -> Option<P>

  /** A resolver result comes from the table it was given. */
  predicate FromTable<P(==)>(r: Option<P>, t: seq<PinMap<P>>)
  {
    r.Some? ==> exists i :: 0 <= i < |t| && t[i].peripheral == r.value
  }

  /**
   * A reference lookup: the peripheral of the first row listing pin, or None.
   * It is one resolver among those the drivers accept, not a model of
   * pinmap_peripheral.
   */
  function FirstMatch<P>(pin: PinName, t: seq<PinMap<P>>): (r: Option<P>)
    ensures r.None? <==> forall i :: 0 <= i < |t| ==> t[i].pin != pin
    ensures r.Some? ==> exists i :: 0 <= i < |t| && t[i].pin == pin && t[i].peripheral == r.value
                          && forall j :: 0 <= j < i ==> t[j].pin != pin
  {
    if |t| == 0 then None
    else if t[0].pin == pin then Some(t[0].peripheral)
    else
      var r := FirstMatch(pin, t[1..]);
      assert forall i :: 1 <= i < |t| ==> t[i] == t[1..][i - 1];
      r
  }

  /**
   * A pull or drive setting requested through pin_mode. OtherMode stands for
   * any further enumerator, which the drivers treat as "keep the current
   * configuration".
   */
  datatype PinMode = PullNone | PullUp | PullDown | OpenDrain | OtherMode

  /** Why a driver called error(). */
  datatype Fault =
    | PinoutMappingFailed
    | FormatError
    | InvalidStopBits
    | InvalidDataBits
    | InvalidParity

  /**
   * How a driver call ends: normally, in error() (which never returns), or in
   * an endless loop.
   */
  datatype Status = Ok | Failed(fault: Fault) | Hangs
}
