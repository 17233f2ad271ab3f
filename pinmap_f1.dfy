/**
 * GPIO pin configuration of the STM32F1xx (pinmap.c): each pin owns a 4-bit
 * field of its port's CRL (pins 0..7) or CRH (pins 8..15) register. The two
 * low bits of the field are the MODE (input, or output at some speed), the two
 * high bits are CNF (the input kind or output kind). pin_function rewrites the
 * whole field; pin_mode rewrites only CNF and, for pulled inputs, the pin's
 * bit in ODR, which selects pull-up or pull-down.
 */
module PinmapF1 {
  import opened Pins
  import opened RegsF1

  /**
   * The STM_PIN_MODE_* and STM_PIN_CONF_* values of the F1 target, which live
   * in a header outside this model.
   */
  datatype PinConstants = PinConstants(
    modeInput: bv32,
    modeOutput2MHz: bv32,
    modeOutput50MHz: bv32,
    confInputAnalog: bv32,
    confInputFloat: bv32,
    confInputPupd: bv32,
    confOutputPushPull: bv32,
    confOutputOpenDrain: bv32,
    confOutputAltPushPull: bv32,
    confOutputAltOpenDrain: bv32)

  /**
   * Every value fits its 2-bit field, and input mode is 0: pin_mode compares
   * the masked, still shifted MODE bits with the unshifted STM_PIN_MODE_INPUT,
   * which only means "the pin is an input" when that constant is 0.
   */
  predicate WellFormed(k: PinConstants)
  {
    && k.modeInput == 0 && k.modeOutput2MHz < 4 && k.modeOutput50MHz < 4
    && k.confInputAnalog < 4 && k.confInputFloat < 4 && k.confInputPupd < 4
    && k.confOutputPushPull < 4 && k.confOutputOpenDrain < 4
    && k.confOutputAltPushPull < 4 && k.confOutputAltOpenDrain < 4
  }

  /** The values given in the STM32F1 reference manual (RM0008, section 9.2.1). */
  const ReferenceConstants := PinConstants(0, 2, 3, 0, 1, 2, 0, 1, 2, 3)

  lemma ReferenceConstantsWellFormed()
    ensures WellFormed(ReferenceConstants)
    ensures ReferenceConstants.modeOutput2MHz != ReferenceConstants.modeInput
  {
  }

  /** The register values of one port that pin configuration touches. */
  datatype PortRegs = PortRegs(crl: bv32, crh: bv32, odr: bv32)

  function Regs(g: GpioPort): PortRegs
    reads g
  {
    PortRegs(g.CRL, g.CRH, g.ODR)
  }

  /** Bit offset of a pin's field: 4 * index in CRL, 4 * index - 32 in CRH. */
  function CrOffset(index: bv32): (off: bv32)
    requires index < 16
    ensures off <= 28
    ensures off == (index & 7) << 2
  {
    if index < 8 then index << 2 else (index << 2) - 32
  }

  /** The configuration register holding a pin's field. */
  function Cr(r: PortRegs, index: bv32): bv32
  {
    if index < 8 then r.crl else r.crh
  }

  function WithCr(r: PortRegs, index: bv32, v: bv32): (r': PortRegs)
    ensures Cr(r', index) == v && r'.odr == r.odr
    ensures index < 8 ==> r'.crh == r.crh
    ensures index >= 8 ==> r'.crl == r.crl
  {
    if index < 8 then r.(crl := v) else r.(crh := v)
  }

  /** The MODE bits of the field at off. */
  function ModeField(cr: bv32, off: bv32): bv32
    requires off <= 28
  {
    (cr >> off) & 3
  }

  /** The CNF bits of the field at off. */
  function ConfField(cr: bv32, off: bv32): bv32
    requires off <= 28
  {
    (cr >> (off + 2)) & 3
  }

  /** x and y differ at most in the bits of mask m. */
  predicate SameOutside(x: bv32, y: bv32, m: bv32)
  {
    (x ^ y) & !m == 0
  }

  /** Agreement outside a mask is transitive. */
  lemma SameOutsideTrans(x: bv32, y: bv32, z: bv32, m: bv32)
    requires SameOutside(x, y, m) && SameOutside(y, z, m)
    ensures SameOutside(x, z, m)
  {
  }

  /** The 4-bit field at off cleared, then mode and conf ORed in. */
  function FieldWrite(cr: bv32, off: bv32, mode: bv32, conf: bv32): bv32
    requires off <= 28
  {
    (cr & !(0xF << off)) | ((mode << off) | (conf << (off + 2)))
  }

  /** A written field reads back its MODE bits... */
  lemma FieldWriteMode(cr: bv32, off: bv32, mode: bv32, conf: bv32)
    requires off <= 28 && mode < 4 && conf < 4
    ensures ModeField(FieldWrite(cr, off, mode, conf), off) == mode
  {
  }

  /** ...and its CNF bits... */
  lemma FieldWriteConf(cr: bv32, off: bv32, mode: bv32, conf: bv32)
    requires off <= 28 && mode < 4 && conf < 4
    ensures ConfField(FieldWrite(cr, off, mode, conf), off) == conf
  {
  }

  /** ...and no bit outside the field changes. */
  lemma FieldWriteFrame(cr: bv32, off: bv32, mode: bv32, conf: bv32)
    requires off <= 28 && mode < 4 && conf < 4
    ensures SameOutside(FieldWrite(cr, off, mode, conf), cr, 0xF << off)
  {
  }

  /** The CNF bits at off cleared, then conf ORed in. */
  function ConfWrite(cr: bv32, off: bv32, conf: bv32): bv32
    requires off <= 28
  {
    (cr & !(3 << (off + 2))) | (conf << (off + 2))
  }

  /** Rewritten CNF bits read back as written... */
  lemma ConfWriteConf(cr: bv32, off: bv32, conf: bv32)
    requires off <= 28 && conf < 4
    ensures ConfField(ConfWrite(cr, off, conf), off) == conf
  {
  }

  /** ...the MODE bits next to them keep their value... */
  lemma ConfWriteMode(cr: bv32, off: bv32, conf: bv32)
    requires off <= 28 && conf < 4
    ensures ModeField(ConfWrite(cr, off, conf), off) == ModeField(cr, off)
  {
  }

  /** ...and no bit outside the CNF bits changes. */
  lemma ConfWriteFrame(cr: bv32, off: bv32, conf: bv32)
    requires off <= 28 && conf < 4
    ensures SameOutside(ConfWrite(cr, off, conf), cr, 3 << (off + 2))
  {
  }

  /** In particular no bit outside the pin's field changes. */
  lemma ConfWriteFieldFrame(cr: bv32, off: bv32, conf: bv32)
    requires off <= 28 && conf < 4
    ensures SameOutside(ConfWrite(cr, off, conf), cr, 0xF << off)
  {
  }

  /** pin_function on a pin of this port: its field becomes (mode, conf). */
  function PinFunctionRegs(r: PortRegs, index: bv32, d: PinData): PortRegs
    requires index < 16
  {
    WithCr(r, index, FieldWrite(Cr(r, index), CrOffset(index), d.mode, d.conf))
  }

  /** The input test of pin_mode: the MODE bits, masked in place, compared with STM_PIN_MODE_INPUT. */
  predicate ReadsAsInput(cr: bv32, off: bv32, k: PinConstants)
    requires off <= 28
  {
    cr & (3 << off) == k.modeInput
  }

  /** With input mode 0, the test means exactly "the MODE bits are the input mode". */
  lemma InputTestMeaning(cr: bv32, off: bv32, k: PinConstants)
    requires off <= 28 && WellFormed(k)
    ensures ReadsAsInput(cr, off, k) <==> ModeField(cr, off) == k.modeInput
  {
  }

  /** The alternate-function bit of an output's CNF field (CNF bit 1). */
  predicate IsAlt(cr: bv32, off: bv32)
    requires off <= 28
  {
    cr & (2 << (off + 2)) != 0
  }

  /** The CNF setting pin_mode picks for an input: floating, pulled, or unchanged. */
  function InputConf(mode: PinMode, orig: bv32, k: PinConstants): bv32
  {
    match mode
    case PullNone => k.confInputFloat
    case PullUp => k.confInputPupd
    case PullDown => k.confInputPupd
    case _ => orig
  }

  /**
   * The CNF setting pin_mode picks for an output: open-drain or push-pull,
   * keeping the alternate-function choice, or unchanged.
   */
  function OutputConf(mode: PinMode, isAlt: bool, orig: bv32, k: PinConstants): bv32
  {
    match mode
    case OpenDrain => if isAlt then k.confOutputAltOpenDrain else k.confOutputOpenDrain
    case PullUp => if isAlt then k.confOutputAltPushPull else k.confOutputPushPull
    case PullDown => if isAlt then k.confOutputAltPushPull else k.confOutputPushPull
    case _ => orig
  }

  /** The CNF value pin_mode writes; it is held in a uint8_t. */
  function ChosenConf(cr: bv32, off: bv32, mode: PinMode, k: PinConstants): bv32
    requires off <= 28
  {
    var conf :=
      if ReadsAsInput(cr, off, k) then InputConf(mode, ConfField(cr, off), k)
      else OutputConf(mode, IsAlt(cr, off), ConfField(cr, off), k);
    conf & 0xFF
  }

  /** The ODR value a pulled input leaves: PullUp sets the pin's bit, PullDown clears it. */
  function PullOdr(odr: bv32, index: bv32, mode: PinMode): bv32
    requires index < 16
  {
    match mode
    case PullUp => odr | (1 << index)
    case PullDown => odr & !(1 << index)
    case _ => odr
  }

  /** The ODR value after pin_mode: only an input's pull drives the pin's bit. */
  function NewOdr(odr: bv32, cr: bv32, off: bv32, index: bv32, mode: PinMode, k: PinConstants): bv32
    requires off <= 28 && index < 16
  {
    if ReadsAsInput(cr, off, k) then PullOdr(odr, index, mode) else odr
  }

  /** pin_mode on a pin of this port. */
  function PinModeRegs(r: PortRegs, index: bv32, mode: PinMode, k: PinConstants): PortRegs
    requires index < 16
  {
    var cr := Cr(r, index);
    var off := CrOffset(index);
    WithCr(r.(odr := NewOdr(r.odr, cr, off, index, mode, k)), index, ConfWrite(cr, off, ChosenConf(cr, off, mode, k)))
  }

  /** The pin's configuration register after the input branch of pin_mode rewrites CNF. */
  function InputModeCr(cr: bv32, index: bv32, mode: PinMode, k: PinConstants): bv32
    requires index < 16
  {
    ConfWrite(cr, CrOffset(index), InputConf(mode, ConfField(cr, CrOffset(index)), k) & 0xFF)
  }

  /** The pin's configuration register after the output branch of pin_mode rewrites CNF. */
  function OutputModeCr(cr: bv32, index: bv32, mode: PinMode, k: PinConstants): bv32
    requires index < 16
  {
    ConfWrite(cr, CrOffset(index), OutputConf(mode, IsAlt(cr, CrOffset(index)), ConfField(cr, CrOffset(index)), k) & 0xFF)
  }

  /** The input branch of pin_mode: the pull drives ODR, then CNF is rewritten. */
  function InputModeRegs(r: PortRegs, index: bv32, mode: PinMode, k: PinConstants): PortRegs
    requires index < 16
  {
    WithCr(r.(odr := PullOdr(r.odr, index, mode)), index, InputModeCr(Cr(r, index), index, mode, k))
  }

  /** The output branch of pin_mode: only CNF is rewritten. */
  function OutputModeRegs(r: PortRegs, index: bv32, mode: PinMode, k: PinConstants): PortRegs
    requires index < 16
  {
    WithCr(r, index, OutputModeCr(Cr(r, index), index, mode, k))
  }

  /** When the pin reads as an input, pin_mode takes its input branch. */
  lemma PinModeInputBranch(r: PortRegs, index: bv32, mode: PinMode, k: PinConstants)
    requires index < 16 && ReadsAsInput(Cr(r, index), CrOffset(index), k)
    ensures PinModeRegs(r, index, mode, k) == InputModeRegs(r, index, mode, k)
  {
  }

  /** Otherwise it takes its output branch. */
  lemma PinModeOutputBranch(r: PortRegs, index: bv32, mode: PinMode, k: PinConstants)
    requires index < 16 && !ReadsAsInput(Cr(r, index), CrOffset(index), k)
    ensures PinModeRegs(r, index, mode, k) == OutputModeRegs(r, index, mode, k)
  {
  }

  /**
   * pin_function writes (mode, conf) into the pin's field, which reads back
   * unchanged; every other bit of that register, the other configuration
   * register and ODR keep their values.
   */
  lemma PinFunctionEffect(r: PortRegs, index: bv32, d: PinData)
    requires index < 16 && d.mode < 4 && d.conf < 4
    ensures var r' := PinFunctionRegs(r, index, d);
      && ModeField(Cr(r', index), CrOffset(index)) == d.mode
      && ConfField(Cr(r', index), CrOffset(index)) == d.conf
      && SameOutside(Cr(r', index), Cr(r, index), 0xF << CrOffset(index))
      && (index < 8 ==> r'.crh == r.crh)
      && (index >= 8 ==> r'.crl == r.crl)
      && r'.odr == r.odr
  {
    var cr := Cr(r, index);
    var off := CrOffset(index);
    FieldWriteMode(cr, off, d.mode, d.conf);
    FieldWriteConf(cr, off, d.mode, d.conf);
    FieldWriteFrame(cr, off, d.mode, d.conf);
  }

  /**
   * pin_mode rewrites at most the pin's two CNF bits in its configuration
   * register, and leaves the other configuration register alone.
   */
  lemma PinModeFrame(r: PortRegs, index: bv32, mode: PinMode, k: PinConstants)
    requires index < 16 && WellFormed(k)
    ensures var r' := PinModeRegs(r, index, mode, k);
      && SameOutside(Cr(r', index), Cr(r, index), 3 << (CrOffset(index) + 2))
      && (index < 8 ==> r'.crh == r.crh)
      && (index >= 8 ==> r'.crl == r.crl)
  {
    var cr := Cr(r, index);
    var off := CrOffset(index);
    ChosenConfFits(cr, off, mode, k);
    ConfWriteFrame(cr, off, ChosenConf(cr, off, mode, k));
  }

  /** In particular pin_mode leaves every other pin's field alone. */
  lemma PinModeFieldFrame(r: PortRegs, index: bv32, mode: PinMode, k: PinConstants)
    requires index < 16 && WellFormed(k)
    ensures SameOutside(Cr(PinModeRegs(r, index, mode, k), index), Cr(r, index), 0xF << CrOffset(index))
  {
    var cr := Cr(r, index);
    var off := CrOffset(index);
    ChosenConfFits(cr, off, mode, k);
    ConfWriteFieldFrame(cr, off, ChosenConf(cr, off, mode, k));
  }

  /** pin_mode keeps the pin's MODE bits. */
  lemma PinModeKeepsMode(r: PortRegs, index: bv32, mode: PinMode, k: PinConstants)
    requires index < 16 && WellFormed(k)
    ensures ModeField(Cr(PinModeRegs(r, index, mode, k), index), CrOffset(index)) == ModeField(Cr(r, index), CrOffset(index))
  {
    var cr := Cr(r, index);
    var off := CrOffset(index);
    ChosenConfFits(cr, off, mode, k);
    ConfWriteMode(cr, off, ChosenConf(cr, off, mode, k));
  }

  /** After pin_mode the pin's CNF bits read back as the chosen setting. */
  lemma PinModeWritesConf(r: PortRegs, index: bv32, mode: PinMode, k: PinConstants)
    requires index < 16 && WellFormed(k)
    ensures ConfField(Cr(PinModeRegs(r, index, mode, k), index), CrOffset(index)) == ChosenConf(Cr(r, index), CrOffset(index), mode, k)
  {
    var cr := Cr(r, index);
    var off := CrOffset(index);
    ChosenConfFits(cr, off, mode, k);
    ConfWriteConf(cr, off, ChosenConf(cr, off, mode, k));
  }

  /** With well-formed constants the chosen CNF fits its two bits. */
  lemma ChosenConfFits(cr: bv32, off: bv32, mode: PinMode, k: PinConstants)
    requires off <= 28 && WellFormed(k)
    ensures ChosenConf(cr, off, mode, k) < 4
  {
  }

  /**
   * For a pin whose MODE bits say input, pin_mode chooses its CNF setting
   * from the input table: PullNone floating, PullUp and PullDown pulled,
   * anything else the current CNF.
   */
  lemma InputChoice(cr: bv32, off: bv32, mode: PinMode, k: PinConstants)
    requires off <= 28 && WellFormed(k) && ModeField(cr, off) == k.modeInput
    ensures ChosenConf(cr, off, mode, k) == InputConf(mode, ConfField(cr, off), k)
  {
    InputTestMeaning(cr, off, k);
  }

  /**
   * For a pin whose MODE bits say output, pin_mode chooses its CNF setting
   * from the output table: OpenDrain open-drain, PullUp and PullDown
   * push-pull, each in the alternate-function variant when the pin's
   * alternate-function bit is set, anything else the current CNF.
   */
  lemma OutputChoice(cr: bv32, off: bv32, mode: PinMode, k: PinConstants)
    requires off <= 28 && WellFormed(k) && ModeField(cr, off) != k.modeInput
    ensures ChosenConf(cr, off, mode, k) == OutputConf(mode, IsAlt(cr, off), ConfField(cr, off), k)
  {
    InputTestMeaning(cr, off, k);
  }

  /** PullUp on an input sets the pin's ODR bit. */
  lemma PullUpSetsBit(odr: bv32, index: bv32)
    requires index < 16
    ensures (PullOdr(odr, index, PullUp) >> index) & 1 == 1
  {
  }

  /** PullDown on an input clears the pin's ODR bit. */
  lemma PullDownClearsBit(odr: bv32, index: bv32)
    requires index < 16
    ensures (PullOdr(odr, index, PullDown) >> index) & 1 == 0
  {
  }

  /** A pull touches no other ODR bit. */
  lemma PullUpKeepsOtherBits(odr: bv32, index: bv32)
    requires index < 16
    ensures PullOdr(odr, index, PullUp) & !(1 << index) == odr & !(1 << index)
  {
  }

  lemma PullDownKeepsOtherBits(odr: bv32, index: bv32)
    requires index < 16
    ensures PullOdr(odr, index, PullDown) & !(1 << index) == odr & !(1 << index)
  {
  }

  /** pin_mode changes ODR only for a pulled input. */
  lemma OdrOnlyForPulledInput(r: PortRegs, index: bv32, mode: PinMode, k: PinConstants)
    requires index < 16 && WellFormed(k)
    requires ModeField(Cr(r, index), CrOffset(index)) != k.modeInput || (mode != PullUp && mode != PullDown)
    ensures PinModeRegs(r, index, mode, k).odr == r.odr
  {
    InputTestMeaning(Cr(r, index), CrOffset(index), k);
  }

  /** The bank a pin's configuration lives in, as a frame. */
  function Bank(ports: seq<GpioPort>, pin: PinName): set<GpioPort>
  {
    if pin.Pin? && HasPort(ports, pin.id) then {ports[Port(pin.id)]} else {}
  }

  /**
   * The position of a pin's bank in ports; the source computes the bank's
   * address as GPIOA_BASE + (port << 10).
   */
  function Port(id: bv32): int
  {
    PortIndex(id) as int
  }

  predicate HasPort(ports: seq<GpioPort>, id: bv32)
  {
    Port(id) < |ports|
  }

  /**
   * pin_function: NC changes nothing; otherwise the pin's 4-bit field in CRL
   * or CRH is cleared and (d.mode, d.conf) written into it.
   */
  method SetFunction(ports: seq<GpioPort>, pin: PinName, d: PinData)
    requires pin.Pin? ==> HasPort(ports, pin.id)
    modifies Bank(ports, pin)
    ensures pin.Pin? ==>
      Regs(ports[Port(pin.id)]) == PinFunctionRegs(old(Regs(ports[Port(pin.id)])), PinIndex(pin.id), d)
  {
    if pin.NC? {
      return;
    }
    var index := PinIndex(pin.id);
    var gpio := ports[Port(pin.id)];
    var offset := CrOffset(index);
    if index < 8 {
      gpio.CRL := FieldWrite(gpio.CRL, offset, d.mode, d.conf);
    } else {
      gpio.CRH := FieldWrite(gpio.CRH, offset, d.mode, d.conf);
    }
  }

  /**
   * pin_mode: NC changes nothing; otherwise the pin's CNF bits are rewritten
   * with the setting chosen from the current MODE and CNF, and a pulled input
   * drives its ODR bit.
   */
  method SetMode(ports: seq<GpioPort>, pin: PinName, mode: PinMode, k: PinConstants)
    requires pin.Pin? ==> HasPort(ports, pin.id)
    modifies Bank(ports, pin)
    ensures pin.Pin? ==>
      Regs(ports[Port(pin.id)]) == PinModeRegs(old(Regs(ports[Port(pin.id)])), PinIndex(pin.id), mode, k)
  {
    if pin.NC? {
      return;
    }
    UpdateMode(ports[Port(pin.id)], PinIndex(pin.id), mode, k);
  }

  /** The body of pin_mode once the pin's bank and index are known. */
  method UpdateMode(gpio: GpioPort, index: bv32, mode: PinMode, k: PinConstants)
    requires index < 16
    modifies gpio
    ensures Regs(gpio) == PinModeRegs(old(Regs(gpio)), index, mode, k)
  {
    var r := Regs(gpio);
    if ReadsAsInput(Cr(r, index), CrOffset(index), k) {
      PinModeInputBranch(r, index, mode, k);
      UpdateInputMode(gpio, index, mode, k);
    } else {
      PinModeOutputBranch(r, index, mode, k);
      UpdateOutputMode(gpio, index, mode, k);
    }
  }

  /** pin_mode on a pin whose MODE bits read as input: pick the input CNF and drive the pull. */
  method UpdateInputMode(gpio: GpioPort, index: bv32, mode: PinMode, k: PinConstants)
    requires index < 16
    modifies gpio
    ensures Regs(gpio) == InputModeRegs(old(Regs(gpio)), index, mode, k)
  {
    var r := Regs(gpio);
    WriteOdr(gpio, PullOdr(r.odr, index, mode));
    WriteCr(gpio, index, InputModeCr(Cr(r, index), index, mode, k));
  }

  /** pin_mode on a pin whose MODE bits read as an output: pick the output CNF, keeping the alternate function. */
  method UpdateOutputMode(gpio: GpioPort, index: bv32, mode: PinMode, k: PinConstants)
    requires index < 16
    modifies gpio
    ensures Regs(gpio) == OutputModeRegs(old(Regs(gpio)), index, mode, k)
  {
    WriteCr(gpio, index, OutputModeCr(Cr(Regs(gpio), index), index, mode, k));
  }

  /** Stores a new value into ODR. */
  method WriteOdr(gpio: GpioPort, v: bv32)
    modifies gpio
    ensures Regs(gpio) == old(Regs(gpio)).(odr := v)
  {
    gpio.ODR := v;
  }

  /** Stores a new value into the configuration register holding the pin: CRL for 0..7, CRH for 8..15. */
  method WriteCr(gpio: GpioPort, index: bv32, v: bv32)
    modifies gpio
    ensures Regs(gpio) == WithCr(old(Regs(gpio)), index, v)
  {
    if index < 8 {
      gpio.CRL := v;
    } else {
      gpio.CRH := v;
    }
  }
}
