/**
 * The STM32F1xx digital I/O object (gpio_api.c): gpio_set turns on the
 * port's clock and yields the pin's bit mask, gpio_init fills a gpio_t and
 * sets its direction, gpio_dir and gpio_mode reconfigure the pin through
 * pin_function and pin_mode.
 */
module GpioF1 {
  import opened Pins
  import opened RegsF1
  import opened PinmapF1

  datatype PinDirection = Input | Output

  /** GPIOA_BASE (RM0008 memory map); the banks follow 0x400 bytes apart. */
  const GPIOA_BASE: bv32 := 0x4001_0800

  /** The mask gpio_set returns: exactly the pin's bit. */
  function PinMask(id: bv32): (m: bv32)
    ensures m != 0 && m & (m - 1) == 0
    ensures m >> PinIndex(id) == 1
  {
    1 << PinIndex(id)
  }

  /**
   * APB2ENR after gpio_set: the port's IOPxEN bit, at position port + 2, is
   * set and every bit that was set stays set.
   */
  function EnableClock(enr: bv32, id: bv32): (r: bv32)
    requires PortIndex(id) < 30
    ensures r & enr == enr
    ensures (r >> (PortIndex(id) + 2)) & 1 == 1
  {
    enr | (1 << (PortIndex(id) + 2))
  }

  /** The address of a pin's register bank, GPIOA_BASE + (port << 10). */
  function BankAddress(id: bv32): bv32
  {
    GPIOA_BASE + (PortIndex(id) << 10)
  }

  /** Pins of different ports (A..P) reach different register banks. */
  lemma BankAddressDistinct(a: bv32, b: bv32)
    requires PortIndex(a) < 16 && PortIndex(b) < 16
    ensures BankAddress(a) == BankAddress(b) <==> PortIndex(a) == PortIndex(b)
  {
  }

  /** The registers of a pin's bank after gpio_dir. */
  function DirRegs(r: PortRegs, index: bv32, dir: PinDirection, k: PinConstants): PortRegs
    requires index < 16
  {
    match dir
    case Input => PinModeRegs(PinFunctionRegs(r, index, PinData(k.modeInput, k.confInputPupd)), index, PullDown, k)
    case Output => PinFunctionRegs(r, index, PinData(k.modeOutput2MHz, k.confOutputPushPull))
  }

  /** gpio_dir(PIN_INPUT) leaves the pin's MODE bits at input. */
  lemma InputDirMode(r: PortRegs, index: bv32, k: PinConstants)
    requires index < 16 && WellFormed(k)
    ensures ModeField(Cr(DirRegs(r, index, Input, k), index), CrOffset(index)) == k.modeInput
  {
    var d := PinData(k.modeInput, k.confInputPupd);
    PinFunctionEffect(r, index, d);
    PinModeKeepsMode(PinFunctionRegs(r, index, d), index, PullDown, k);
  }

  /** gpio_dir(PIN_INPUT) leaves the pin's CNF bits at pull-up/pull-down input. */
  lemma InputDirConf(r: PortRegs, index: bv32, k: PinConstants)
    requires index < 16 && WellFormed(k)
    ensures ConfField(Cr(DirRegs(r, index, Input, k), index), CrOffset(index)) == k.confInputPupd
  {
    var d := PinData(k.modeInput, k.confInputPupd);
    var r1 := PinFunctionRegs(r, index, d);
    PinFunctionEffect(r, index, d);
    PinModeWritesConf(r1, index, PullDown, k);
    InputChoice(Cr(r1, index), CrOffset(index), PullDown, k);
  }

  /** gpio_dir(PIN_INPUT) selects the pull-down: the pin's ODR bit is clear. */
  lemma InputDirPullsDown(r: PortRegs, index: bv32, k: PinConstants)
    requires index < 16 && WellFormed(k)
    ensures (DirRegs(r, index, Input, k).odr >> index) & 1 == 0
  {
    var d := PinData(k.modeInput, k.confInputPupd);
    var r1 := PinFunctionRegs(r, index, d);
    PinFunctionEffect(r, index, d);
    InputTestMeaning(Cr(r1, index), CrOffset(index), k);
    PullDownClearsBit(r.odr, index);
  }

  /** gpio_dir(PIN_INPUT) touches no other pin's ODR bit. */
  lemma InputDirKeepsOtherOdr(r: PortRegs, index: bv32, k: PinConstants)
    requires index < 16 && WellFormed(k)
    ensures DirRegs(r, index, Input, k).odr & !(1 << index) == r.odr & !(1 << index)
  {
    var d := PinData(k.modeInput, k.confInputPupd);
    var r1 := PinFunctionRegs(r, index, d);
    PinFunctionEffect(r, index, d);
    InputTestMeaning(Cr(r1, index), CrOffset(index), k);
    PullDownKeepsOtherBits(r.odr, index);
  }

  /** gpio_dir(PIN_INPUT) keeps every other pin's configuration field. */
  lemma InputDirKeepsOtherPins(r: PortRegs, index: bv32, k: PinConstants)
    requires index < 16 && WellFormed(k)
    ensures var r' := DirRegs(r, index, Input, k);
      && SameOutside(Cr(r', index), Cr(r, index), 0xF << CrOffset(index))
      && (index < 8 ==> r'.crh == r.crh)
      && (index >= 8 ==> r'.crl == r.crl)
  {
    var d := PinData(k.modeInput, k.confInputPupd);
    var r1 := PinFunctionRegs(r, index, d);
    PinFunctionEffect(r, index, d);
    PinModeFrame(r1, index, PullDown, k);
    PinModeFieldFrame(r1, index, PullDown, k);
    SameOutsideTrans(Cr(DirRegs(r, index, Input, k), index), Cr(r1, index), Cr(r, index), 0xF << CrOffset(index));
  }

  /**
   * gpio_dir(PIN_OUTPUT) makes the pin a 2 MHz push-pull output and changes
   * nothing else in the bank.
   */
  lemma OutputDirEffect(r: PortRegs, index: bv32, k: PinConstants)
    requires index < 16 && WellFormed(k)
    ensures var r' := DirRegs(r, index, Output, k);
      && ModeField(Cr(r', index), CrOffset(index)) == k.modeOutput2MHz
      && ConfField(Cr(r', index), CrOffset(index)) == k.confOutputPushPull
      && SameOutside(Cr(r', index), Cr(r, index), 0xF << CrOffset(index))
      && (index < 8 ==> r'.crh == r.crh)
      && (index >= 8 ==> r'.crl == r.crl)
      && r'.odr == r.odr
  {
    PinFunctionEffect(r, index, PinData(k.modeOutput2MHz, k.confOutputPushPull));
  }

  /** A digital I/O object: the pin, its mask and the address of its bank. */
  class Gpio {
    var pin: PinName
    var mask: bv32
    var bankAddress: bv32

    constructor()
      ensures pin == NC && mask == 0 && bankAddress == 0
    {
      pin := NC;
      mask := 0;
      bankAddress := 0;
    }
  }

  /**
   * gpio_set: enables the pin's port clock in APB2ENR and returns the pin's
   * mask.
   */
  method GpioSet(rcc: Rcc, id: bv32) returns (mask: bv32)
    requires PortIndex(id) < 30
    modifies rcc
    ensures mask == PinMask(id)
    ensures rcc.APB2ENR == EnableClock(old(rcc.APB2ENR), id)
    ensures rcc.APB1ENR == old(rcc.APB1ENR)
  {
    var portIndex := id >> 4;
    rcc.APB2ENR := rcc.APB2ENR | (1 << (portIndex + 2));
    mask := 1 << (id & 0xF);
  }

  /**
   * gpio_init: NC leaves everything untouched; otherwise the object records
   * the pin, its mask and its bank, the clock is enabled and the direction set.
   */
  method GpioInit(obj: Gpio, rcc: Rcc, ports: seq<GpioPort>, pin: PinName, dir: PinDirection, k: PinConstants)
    requires pin.Pin? ==> HasPort(ports, pin.id) && PortIndex(pin.id) < 30
    modifies obj, rcc, Bank(ports, pin)
    ensures pin.NC? ==> unchanged(obj) && unchanged(rcc)
    ensures pin.Pin? ==>
      && obj.pin == pin && obj.mask == PinMask(pin.id) && obj.bankAddress == BankAddress(pin.id)
      && rcc.APB2ENR == EnableClock(old(rcc.APB2ENR), pin.id)
      && rcc.APB1ENR == old(rcc.APB1ENR)
      && Regs(ports[Port(pin.id)]) == DirRegs(old(Regs(ports[Port(pin.id)])), PinIndex(pin.id), dir, k)
  {
    if pin.NC? {
      return;
    }
    obj.pin := pin;
    obj.mask := GpioSet(rcc, pin.id);
    obj.bankAddress := BankAddress(pin.id);
    GpioDir(obj, ports, dir, k);
  }

  /** gpio_mode: pin_mode on the object's pin. */
  method GpioMode(obj: Gpio, ports: seq<GpioPort>, mode: PinMode, k: PinConstants)
    requires obj.pin.Pin? ==> HasPort(ports, obj.pin.id)
    modifies Bank(ports, obj.pin)
    ensures obj.pin.Pin? ==>
      Regs(ports[Port(obj.pin.id)]) == PinModeRegs(old(Regs(ports[Port(obj.pin.id)])), PinIndex(obj.pin.id), mode, k)
  {
    SetMode(ports, obj.pin, mode, k);
  }

  /**
   * gpio_dir: an input is configured as a pulled input and then pulled down;
   * an output as a 2 MHz push-pull output.
   */
  method GpioDir(obj: Gpio, ports: seq<GpioPort>, dir: PinDirection, k: PinConstants)
    requires obj.pin.Pin? ==> HasPort(ports, obj.pin.id)
    modifies Bank(ports, obj.pin)
    ensures obj.pin.Pin? ==>
      Regs(ports[Port(obj.pin.id)]) == DirRegs(old(Regs(ports[Port(obj.pin.id)])), PinIndex(obj.pin.id), dir, k)
  {
    match dir
    case Input =>
      SetFunction(ports, obj.pin, PinData(k.modeInput, k.confInputPupd));
      SetMode(ports, obj.pin, PullDown, k);
    case Output =>
      SetFunction(ports, obj.pin, PinData(k.modeOutput2MHz, k.confOutputPushPull));
  }
}
