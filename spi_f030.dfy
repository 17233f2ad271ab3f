/**
 * The STM32F030 SPI master/slave driver (spi_api.c): the pin tables, the
 * choice of controller in spi_init, the frame format in CR1/CR2, the baud
 * rate divisor in CR1 and the width of a data register write.
 */
module SpiF030 {
  import opened Wrappers
  import opened Bits
  import opened Pins
  import opened RegsF030
  import opened NamesF030

  /** STM_PIN_DATA(2, 0), the configuration of every SPI pin on this target. */
  const SPI_PIN: PinData := PinData(2, 0)

  /** The pin tables, without their {NC, NC, 0} terminator. */
  const SCLK_PINS: seq<PinMap<SpiName>> :=
    [PinMap(PA(5), SPI_1, SPI_PIN), PinMap(PB(3), SPI_1, SPI_PIN),
     PinMap(PB(13), SPI_2, SPI_PIN), PinMap(PB(13), SPI_1, SPI_PIN)]
  const MOSI_PINS: seq<PinMap<SpiName>> :=
    [PinMap(PA(7), SPI_1, SPI_PIN), PinMap(PB(5), SPI_1, SPI_PIN),
     PinMap(PB(15), SPI_2, SPI_PIN), PinMap(PB(15), SPI_1, SPI_PIN)]
  const MISO_PINS: seq<PinMap<SpiName>> :=
    [PinMap(PA(6), SPI_1, SPI_PIN), PinMap(PB(4), SPI_1, SPI_PIN),
     PinMap(PB(14), SPI_2, SPI_PIN), PinMap(PB(14), SPI_1, SPI_PIN)]
  const SSEL_PINS: seq<PinMap<SpiName>> :=
    [PinMap(PA(4), SPI_1, SPI_PIN), PinMap(PA(15), SPI_1, SPI_PIN),
     PinMap(PB(12), SPI_2, SPI_PIN), PinMap(PB(12), SPI_1, SPI_PIN)]

  /** Pin p is listed twice in table t: first for SPI_2 (row 2), then for SPI_1 (row 3), and in no earlier row. */
  predicate ListedTwice(t: seq<PinMap<SpiName>>, p: PinName)
  {
    && |t| == 4
    && t[2].pin == p && t[2].peripheral == SPI_2
    && t[3].pin == p && t[3].peripheral == SPI_1
    && t[0].pin != p && t[1].pin != p
  }

  /** PB_12 .. PB_15 each serve both controllers, SPI_2 listed first. */
  lemma SecondBankListedTwice()
    ensures ListedTwice(SCLK_PINS, PB(13)) && ListedTwice(MOSI_PINS, PB(15))
    ensures ListedTwice(MISO_PINS, PB(14)) && ListedTwice(SSEL_PINS, PB(12))
  {
  }

  /** With a first-match lookup, each of PB_12 .. PB_15 resolves to SPI_2. */
  lemma SecondBankFirstMatch()
    ensures FirstMatch(PB(13), SCLK_PINS) == Some(SPI_2) && FirstMatch(PB(15), MOSI_PINS) == Some(SPI_2)
    ensures FirstMatch(PB(14), MISO_PINS) == Some(SPI_2) && FirstMatch(PB(12), SSEL_PINS) == Some(SPI_2)
  {
    SecondBankListedTwice();
  }

  /** The controller spi_init settles on: the merge of the data pair and of the control pair. */
  function InitPeripheral(resolve: Resolver<SpiName>, merge: Merger<SpiName>,
                          mosi: PinName, miso: PinName, sclk: PinName, ssel: PinName): Option<SpiName>
  {
    merge(merge(resolve(mosi, MOSI_PINS), resolve(miso, MISO_PINS)),
          merge(resolve(sclk, SCLK_PINS), resolve(ssel, SSEL_PINS)))
  }

  /** An spi_t: the controller in use and the frame size in bits. */
  class SpiObject {
    var spi: Option<SpiName>
    var dataSize: int

    constructor ()
      ensures spi == None && dataSize == 0
    {
      spi := None;
      dataSize := 0;
    }
  }

  /** The AHBENR bits spi_init sets: the GPIOA clock for SPI_1, and the GPIOB clock for both. */
  function AhbClocks(name: SpiName): bv32
  {
    match name
    case SPI_1 => RCC_AHBENR_GPIOAEN | RCC_AHBENR_GPIOBEN
    case SPI_2 => RCC_AHBENR_GPIOBEN
  }

  /** AHBENR, APB2ENR and APB1ENR after spi_init: the port clocks, then SPI1EN or SPI2EN. */
  function InitAhb(enr: bv32, name: SpiName): bv32
  {
    enr | AhbClocks(name)
  }

  function InitApb2(enr: bv32, name: SpiName): bv32
  {
    if name == SPI_1 then enr | RCC_APB2ENR_SPI1EN else enr
  }

  function InitApb1(enr: bv32, name: SpiName): bv32
  {
    if name == SPI_2 then enr | RCC_APB1ENR_SPI2EN else enr
  }

  /** Every row of table t for controller name is on a port whose clock is enabled in AHBENR value enr. */
  predicate PortsClocked(t: seq<PinMap<SpiName>>, name: SpiName, enr: bv32)
  {
    forall i :: 0 <= i < |t| && t[i].peripheral == name ==>
      t[i].pin.Pin? && PortIndex(t[i].pin.id) < 15 && enr & PortClockBit(PortIndex(t[i].pin.id)) != 0
  }

  /**
   * spi_init turns on the port clock of every SCLK pin that maps to the
   * chosen controller, PB_13 included whichever controller it resolves to...
   */
  lemma InitClocksSclkPorts(name: SpiName, enr: bv32)
    ensures PortsClocked(SCLK_PINS, name, InitAhb(enr, name))
  {
  }

  /** ... of every MOSI pin... */
  lemma InitClocksMosiPorts(name: SpiName, enr: bv32)
    ensures PortsClocked(MOSI_PINS, name, InitAhb(enr, name))
  {
  }

  /** ... of every MISO pin... */
  lemma InitClocksMisoPorts(name: SpiName, enr: bv32)
    ensures PortsClocked(MISO_PINS, name, InitAhb(enr, name))
  {
  }

  /** ... and of every SSEL pin. */
  lemma InitClocksSselPorts(name: SpiName, enr: bv32)
    ensures PortsClocked(SSEL_PINS, name, InitAhb(enr, name))
  {
  }

  /** spi_init turns on the clock of the controller it chose: SPI1EN in APB2ENR, SPI2EN in APB1ENR. */
  lemma InitClocksController(name: SpiName, apb1: bv32, apb2: bv32)
    ensures name == SPI_1 ==> InitApb2(apb2, name) & RCC_APB2ENR_SPI1EN != 0
    ensures name == SPI_2 ==> InitApb1(apb1, name) & RCC_APB1ENR_SPI2EN != 0
  {
  }

  /** The clock enables of spi_init. */
  method EnableClocks(rcc: Rcc, name: SpiName)
    modifies rcc
    ensures rcc.AHBENR == InitAhb(old(rcc.AHBENR), name)
    ensures rcc.APB2ENR == InitApb2(old(rcc.APB2ENR), name)
    ensures rcc.APB1ENR == InitApb1(old(rcc.APB1ENR), name)
  {
    match name {
      case SPI_1 =>
        rcc.AHBENR := rcc.AHBENR | RCC_AHBENR_GPIOAEN;
        rcc.APB2ENR := rcc.APB2ENR | RCC_APB2ENR_SPI1EN;
      case SPI_2 =>
        rcc.APB1ENR := rcc.APB1ENR | RCC_APB1ENR_SPI2EN;
    }
    rcc.AHBENR := rcc.AHBENR | RCC_AHBENR_GPIOBEN;
  }

  /** The register block of a controller. */
  function Block(spi1: Spi, spi2: Spi, name: SpiName): Spi
  {
    match name
    case SPI_1 => spi1
    case SPI_2 => spi2
  }

  // ---------------------------------------------------------------- CR1 / CR2

  /** CR1 after spi_disable and after spi_enable. */
  function SpiDisabled(cr1: bv16): bv16
  {
    cr1 & !SPI_CR1_SPE
  }

  function SpiEnabled(cr1: bv16): bv16
  {
    cr1 | SPI_CR1_SPE
  }

  /** The clock phase, clock polarity and master bits of CR1. */
  function ModeBits(phase: bool, polarity: bool, master: bool): bv16
  {
    (if phase then SPI_CR1_CPHA else 0)
    | (if polarity then SPI_CR1_CPOL else 0)
    | (if master then SPI_CR1_MSTR else 0)
  }

  /** ModeBits sets exactly the requested bits among CPHA, CPOL and MSTR, and no other bit. */
  lemma ModeBitsMeaning(phase: bool, polarity: bool, master: bool)
    ensures ModeBits(phase, polarity, master) & SPI_CR1_CPHA != 0 <==> phase
    ensures ModeBits(phase, polarity, master) & SPI_CR1_CPOL != 0 <==> polarity
    ensures ModeBits(phase, polarity, master) & SPI_CR1_MSTR != 0 <==> master
    ensures ModeBits(phase, polarity, master) & !(SPI_CR1_CPHA | SPI_CR1_CPOL | SPI_CR1_MSTR) == 0
  {
  }

  function WithClockMode(cr1: bv16, phase: bool, polarity: bool, master: bool): bv16
  {
    (cr1 & !(SPI_CR1_MSTR | SPI_CR1_CPHA | SPI_CR1_CPOL)) | ModeBits(phase, polarity, master)
  }

  /** mode & 1 and mode & 2 of a mode in 0..3. */
  predicate Phase(mode: int)
  {
    mode % 2 == 1
  }

  predicate Polarity(mode: int)
  {
    mode >= 2
  }

  /** The DS field value (bits - 1) << 8 as the 16-bit CR2 keeps it. */
  function DataSizeBits(bits: int): bv16
  {
    (((bits - 1) % 0x100) as bv16) << 8
  }

  function WithRxThreshold(cr2: bv16, bits: int): bv16
  {
    if bits <= 8 then cr2 | SPI_CR2_FRXTH else cr2
  }

  function WithDataSize(cr2: bv16, bits: int): bv16
  {
    (cr2 & !SPI_CR2_DS) | DataSizeBits(bits)
  }

  /** CR1 and CR2 after a successful spi_format. */
  function FormatCr1(cr1: bv16, mode: int, slave: bool): bv16
  {
    SpiEnabled(WithClockMode(SpiDisabled(cr1), Phase(mode), Polarity(mode), !slave))
  }

  function FormatCr2(cr2: bv16, bits: int): bv16
  {
    WithDataSize(WithRxThreshold(cr2, bits), bits)
  }

  /**
   * The rejection test of spi_format as written: bits >= 4 || bits <= 16
   * holds of every integer, so only the mode is checked.
   */
  predicate FormatRejected(bits: int, mode: int)
  {
    !(bits >= 4 || bits <= 16) || !(mode >= 0 && mode <= 3)
  }

  lemma FormatRejectedOnlyForMode(bits: int, mode: int)
    ensures FormatRejected(bits, mode) <==> !(0 <= mode <= 3)
  {
  }

  /** A 40-bit frame passes the check and its DS value spills out of the DS field into bit 13 of CR2. */
  lemma OversizedFrameAccepted()
    ensures !FormatRejected(40, 0)
    ensures DataSizeBits(40) & !SPI_CR2_DS == 0x2000
  {
  }

  /** The check the DS field needs: 4 to 16 bits, mode 0..3. */
  predicate ValidFormat(bits: int, mode: int)
  {
    4 <= bits <= 16 && 0 <= mode <= 3
  }

  /** With a valid format the DS value fits the DS field and holds bits - 1. */
  lemma ValidFormatFitsField(bits: int, mode: int)
    requires ValidFormat(bits, mode)
    ensures !FormatRejected(bits, mode)
    ensures DataSizeBits(bits) & !SPI_CR2_DS == 0
    ensures DataSizeBits(bits) >> 8 == (bits - 1) as bv16
  {
  }

  /**
   * spi_format's CR1: CPHA is bit 0 of the mode, CPOL bit 1, MSTR is set
   * exactly for a master, SPE is set again, every other bit is kept.
   */
  lemma FormatCr1Effect(cr1: bv16, mode: int, slave: bool)
    requires 0 <= mode <= 3
    ensures FormatCr1(cr1, mode, slave) & SPI_CR1_CPHA != 0 <==> mode % 2 == 1
    ensures FormatCr1(cr1, mode, slave) & SPI_CR1_CPOL != 0 <==> mode >= 2
    ensures FormatCr1(cr1, mode, slave) & SPI_CR1_MSTR != 0 <==> !slave
    ensures FormatCr1(cr1, mode, slave) & SPI_CR1_SPE != 0
    ensures FormatCr1(cr1, mode, slave) & !(SPI_CR1_CPHA | SPI_CR1_CPOL | SPI_CR1_MSTR | SPI_CR1_SPE)
         == cr1 & !(SPI_CR1_CPHA | SPI_CR1_CPOL | SPI_CR1_MSTR | SPI_CR1_SPE)
  {
    var m := ModeBits(Phase(mode), Polarity(mode), !slave);
    ModeBitsMeaning(Phase(mode), Polarity(mode), !slave);
    assert FormatCr1(cr1, mode, slave) == (((cr1 & !SPI_CR1_SPE) & !(SPI_CR1_MSTR | SPI_CR1_CPHA | SPI_CR1_CPOL)) | m) | SPI_CR1_SPE;
    LowBitsReplaced(cr1, m);
  }

  /** Clearing SPE, replacing the three low bits by m and setting SPE again. */
  lemma LowBitsReplaced(cr1: bv16, m: bv16)
    requires m & !7 == 0
    ensures (((cr1 & !0x40) & !7) | m) | 0x40 == (cr1 & !7) | m | 0x40
    ensures ((cr1 & !7) | m | 0x40) & 1 == m & 1
    ensures ((cr1 & !7) | m | 0x40) & 2 == m & 2
    ensures ((cr1 & !7) | m | 0x40) & 4 == m & 4
    ensures ((cr1 & !7) | m | 0x40) & 0x40 != 0
    ensures ((cr1 & !7) | m | 0x40) & !0x47 == cr1 & !0x47
  {
  }

  /**
   * spi_format's CR2: the DS field holds bits - 1; FRXTH is set for frames
   * of at most 8 bits and otherwise left as it was (never cleared); every
   * other bit is kept.
   */
  lemma FormatCr2Effect(cr2: bv16, bits: int)
    requires 4 <= bits <= 16
    ensures (FormatCr2(cr2, bits) & SPI_CR2_DS) >> 8 == (bits - 1) as bv16
    ensures bits <= 8 ==> FormatCr2(cr2, bits) & SPI_CR2_FRXTH != 0
    ensures bits > 8 ==> FormatCr2(cr2, bits) & SPI_CR2_FRXTH == cr2 & SPI_CR2_FRXTH
    ensures FormatCr2(cr2, bits) & !(SPI_CR2_DS | SPI_CR2_FRXTH) == cr2 & !(SPI_CR2_DS | SPI_CR2_FRXTH)
  {
    ValidFormatFitsField(bits, 0);
  }

  // ---------------------------------------------------------------- baud rate

  /** The peripheral clock of a controller: SystemCoreClock / 2 for SPI_1, / 4 for SPI_2. */
  function Pclk(clk: bv32, name: SpiName): bv32
  {
    match name
    case SPI_1 => clk >> 1
    case SPI_2 => clk >> 2
  }

  /** The divisor spi_frequency starts from, PCLK / hz in uint32_t arithmetic. */
  function Divisor(pclk: bv32, hz: bv32): bv32
    requires hz != 0
  {
    pclk / hz
  }

  /** spi_frequency's divisor after the "nearest power of 2" block, in uint32_t arithmetic. */
  function Smear(d: bv32): bv32
  {
    var x0 := if d > 0 then d - 1 else 0;
    var x1 := x0 | (x0 >> 1);
    var x2 := x1 | (x1 >> 2);
    var x3 := x2 | (x2 >> 4);
    var x4 := x3 | (x3 >> 8);
    var x5 := x4 | (x4 >> 16);
    x5 + 1
  }

  /** For a divisor from 1 to 2^31 the block yields a power of two ... */
  lemma SmearPower(d: bv32)
    requires 1 <= d <= 0x8000_0000
    ensures Smear(d) != 0 && Smear(d) & (Smear(d) - 1) == 0
  {
  }

  /** ... that is at least the divisor ... */
  lemma SmearAbove(d: bv32)
    requires 1 <= d <= 0x8000_0000
    ensures d <= Smear(d)
  {
  }

  /** ... and the least such: half of it is below the divisor. */
  lemma SmearLeast(d: bv32)
    requires 1 <= d <= 0x8000_0000
    ensures Smear(d) >> 1 < d
  {
  }

  /** __builtin_ffs: one plus the index of the lowest set bit, 0 for 0 (a binary search over the halves). */
  function Ffs(x: bv32): bv32
  {
    if x == 0 then 0
    else if x & 0xFFFF != 0 then FfsLow16(x)
    else 16 + FfsLow16(x >> 16)
  }

  function FfsLow16(x: bv32): bv32
  {
    if x & 0xFF != 0 then FfsLow8(x) else 8 + FfsLow8(x >> 8)
  }

  function FfsLow8(x: bv32): bv32
  {
    if x & 0xF != 0 then FfsLow4(x) else 4 + FfsLow4(x >> 4)
  }

  function FfsLow4(x: bv32): bv32
  {
    if x & 1 != 0 then 1 else if x & 2 != 0 then 2 else if x & 4 != 0 then 3 else 4
  }

  /** Ffs finds the lowest set bit: that bit is set and every bit below it is clear. */
  lemma FfsLowestSetBit(x: bv32)
    requires x != 0
    ensures 1 <= Ffs(x) <= 32
    ensures (x >> (Ffs(x) - 1)) & 1 == 1
    ensures x & (((1 as bv32) << (Ffs(x) - 1)) - 1) == 0
  {
  }

  /** For a power of two p, Ffs(p) - 1 is its exponent. */
  lemma FfsOfPower(p: bv32)
    requires p != 0 && p & (p - 1) == 0
    ensures Ffs(p) - 1 < 32 && p == 1 << (Ffs(p) - 1)
  {
    FfsLowestSetBit(p);
  }

  /** The BR field value for a divisor d = PCLK / hz: the exponent of the smeared divisor, at most 7. */
  function BaudRate(d: bv32): (br: bv32)
    ensures br <= 7
  {
    var b := Ffs(Smear(d)) - 1;
    if b > 7 then 7 else b
  }

  /**
   * The baud rate field selects 2^br, the least power of two at least the
   * divisor, unless that exceeds 2^7, when it is clamped to 7; a divisor of
   * 0 or 1 gives 0, and one above 2^31 (whose smeared value wraps to 0)
   * gives 7.
   */
  lemma BaudRateMeaning(d: bv32)
    ensures d <= 1 ==> BaudRate(d) == 0
    ensures 1 <= d <= 0x8000_0000 && BaudRate(d) < 7 ==> d <= (1 << BaudRate(d)) && (1 << BaudRate(d)) >> 1 < d
    ensures 1 <= d <= 0x8000_0000 && BaudRate(d) == 7 ==> d > 64
    ensures d > 0x8000_0000 ==> BaudRate(d) == 7
  {
    if 1 <= d <= 0x8000_0000 {
      SmearPower(d);
      SmearAbove(d);
      SmearLeast(d);
      FfsOfPower(Smear(d));
    }
  }

  function WithBaudRate(cr1: bv16, br: bv32): bv16
    requires br <= 7
  {
    (cr1 & !SPI_CR1_BR) | ((br as bv16) << 3)
  }

  /** CR1 after spi_frequency(hz) on a controller. */
  function FrequencyCr1(cr1: bv16, clk: bv32, hz: bv32, name: SpiName): bv16
    requires hz != 0
  {
    SpiEnabled(WithBaudRate(SpiDisabled(cr1), BaudRate(Divisor(Pclk(clk, name), hz))))
  }

  /** spi_frequency replaces the BR field (bits 3..5) and sets SPE; every other bit is kept. */
  lemma FrequencyCr1Effect(cr1: bv16, br: bv32)
    requires br <= 7
    ensures (SpiEnabled(WithBaudRate(SpiDisabled(cr1), br)) >> 3) & 7 == br as bv16
    ensures SpiEnabled(WithBaudRate(SpiDisabled(cr1), br)) & SPI_CR1_SPE != 0
    ensures SpiEnabled(WithBaudRate(SpiDisabled(cr1), br)) & !(SPI_CR1_BR | SPI_CR1_SPE)
         == cr1 & !(SPI_CR1_BR | SPI_CR1_SPE)
  {
  }

  // ---------------------------------------------------------------- operations

  /** spi_disable. */
  method Disable(regs: Spi)
    modifies regs
    ensures regs.CR1 == SpiDisabled(old(regs.CR1)) && regs.CR2 == old(regs.CR2)
  {
    regs.CR1 := regs.CR1 & !SPI_CR1_SPE;
  }

  /** spi_enable. */
  method Enable(regs: Spi)
    modifies regs
    ensures regs.CR1 == SpiEnabled(old(regs.CR1)) && regs.CR2 == old(regs.CR2)
  {
    regs.CR1 := regs.CR1 | SPI_CR1_SPE;
  }

  /**
   * spi_format on the controller whose registers are regs: disables it,
   * fails for a rejected format (with SPE left clear), otherwise records the
   * frame size and programs CR1 and CR2 and enables it again.
   */
  method Format(obj: SpiObject, regs: Spi, bits: int, mode: int, slave: bool) returns (st: Status)
    modifies obj`dataSize, regs
    ensures st == if FormatRejected(bits, mode) then Failed(FormatError) else Ok
    ensures st.Failed? ==>
      (regs.CR1 == SpiDisabled(old(regs.CR1)) && regs.CR2 == old(regs.CR2) && obj.dataSize == old(obj.dataSize))
    ensures st.Ok? ==>
      (regs.CR1 == FormatCr1(old(regs.CR1), mode, slave) && regs.CR2 == FormatCr2(old(regs.CR2), bits)
       && obj.dataSize == bits)
  {
    Disable(regs);
    if !(bits >= 4 || bits <= 16) || !(mode >= 0 && mode <= 3) {
      return Failed(FormatError);
    }
    obj.dataSize := bits;
    regs.CR2 := WithRxThreshold(regs.CR2, bits);
    var polarity := Polarity(mode);
    var phase := Phase(mode);
    regs.CR1 := WithClockMode(regs.CR1, phase, polarity, !slave);
    regs.CR2 := WithDataSize(regs.CR2, bits);
    Enable(regs);
    st := Ok;
  }

  /**
   * spi_frequency on the controller obj names, whose registers are regs;
   * hz is the unsigned value the division uses.
   */
  method Frequency(obj: SpiObject, regs: Spi, clk: bv32, hz: bv32)
    requires obj.spi.Some? && hz != 0
    modifies regs
    ensures regs.CR1 == FrequencyCr1(old(regs.CR1), clk, hz, obj.spi.value)
    ensures regs.CR2 == old(regs.CR2)
  {
    Disable(regs);
    var pclk := clk;
    match obj.spi.value {
      case SPI_1 => pclk := pclk >> 1;
      case SPI_2 => pclk := pclk >> 2;
    }
    var divisor := Divisor(pclk, hz);
    var baudRate := BaudRate(divisor);
    regs.CR1 := WithBaudRate(regs.CR1, baudRate);
    Enable(regs);
  }

  /** CR1 at the end of a successful spi_init. */
  function InitCr1(cr1: bv16, ssel: PinName, clk: bv32, name: SpiName): bv16
  {
    var formatted := FormatCr1(cr1, 0, ssel != NC);
    var running := SpiEnabled(FrequencyCr1(formatted, clk, 1_000_000, name));
    if ssel == NC then running | SPI_CR1_SSM | SPI_CR1_SSI else running
  }

  /**
   * After spi_init the controller is a master exactly when no slave-select
   * pin is given, and then uses software slave management (SSM and SSI);
   * with a slave-select pin SSM and SSI keep their previous values. Mode 0
   * (CPOL = CPHA = 0) is selected and the controller is enabled.
   */
  lemma InitCr1Effect(cr1: bv16, ssel: PinName, clk: bv32, name: SpiName)
    ensures InitCr1(cr1, ssel, clk, name) & SPI_CR1_MSTR != 0 <==> ssel == NC
    ensures ssel == NC ==> InitCr1(cr1, ssel, clk, name) & (SPI_CR1_SSM | SPI_CR1_SSI) == SPI_CR1_SSM | SPI_CR1_SSI
    ensures ssel != NC ==> InitCr1(cr1, ssel, clk, name) & (SPI_CR1_SSM | SPI_CR1_SSI) == cr1 & (SPI_CR1_SSM | SPI_CR1_SSI)
    ensures InitCr1(cr1, ssel, clk, name) & (SPI_CR1_CPOL | SPI_CR1_CPHA) == 0
    ensures InitCr1(cr1, ssel, clk, name) & SPI_CR1_SPE != 0
  {
    var formatted := FormatCr1(cr1, 0, ssel != NC);
    FormatCr1Effect(cr1, 0, ssel != NC);
    assert formatted & (SPI_CR1_CPHA | SPI_CR1_CPOL) == 0;
    FrequencyCr1Effect(formatted, BaudRate(Divisor(Pclk(clk, name), 1_000_000)));
  }

  /**
   * The register programming of spi_init on the chosen controller: 8-bit
   * mode 0, slave exactly when ssel is given, 1 MHz, enabled, and software
   * slave management without ssel.
   */
  method Configure(obj: SpiObject, regs: Spi, ssel: PinName, clk: bv32) returns (st: Status)
    requires obj.spi.Some?
    modifies obj`dataSize, regs
    ensures st == Ok && obj.dataSize == 8
    ensures regs.CR1 == InitCr1(old(regs.CR1), ssel, clk, obj.spi.value)
    ensures regs.CR2 == FormatCr2(old(regs.CR2), 8)
  {
    st := Format(obj, regs, 8, 0, ssel != NC);
    Frequency(obj, regs, clk, 1_000_000);
    Enable(regs);
    if ssel == NC {
      regs.CR1 := regs.CR1 | SPI_CR1_SSM | SPI_CR1_SSI;
    }
  }

  /**
   * spi_init: resolves the controller from the four pins and fails when the
   * merge gives NC; otherwise enables the port and controller clocks, formats the controller for 8-bit mode 0 (slave
   * exactly when ssel is given), sets 1 MHz, enables it and, without ssel,
   * turns on software slave management. The other controller is untouched.
   */
  method Init(obj: SpiObject, rcc: Rcc, spi1: Spi, spi2: Spi, resolve: Resolver<SpiName>, merge: Merger<SpiName>,
              mosi: PinName, miso: PinName, sclk: PinName, ssel: PinName, clk: bv32) returns (st: Status)
    requires spi1 != spi2
    modifies obj, rcc, spi1, spi2
    ensures obj.spi == InitPeripheral(resolve, merge, mosi, miso, sclk, ssel)
    ensures obj.spi.None? ==>
      st == Failed(PinoutMappingFailed) && obj.dataSize == old(obj.dataSize)
      && unchanged(rcc) && unchanged(spi1) && unchanged(spi2)
    ensures obj.spi.Some? ==>
      var regs := Block(spi1, spi2, obj.spi.value);
      && st == Ok && obj.dataSize == 8
      && regs.CR1 == InitCr1(old(regs.CR1), ssel, clk, obj.spi.value)
      && regs.CR2 == FormatCr2(old(regs.CR2), 8)
    ensures obj.spi.Some? ==> rcc.AHBENR == InitAhb(old(rcc.AHBENR), obj.spi.value)
    ensures obj.spi.Some? ==> rcc.APB2ENR == InitApb2(old(rcc.APB2ENR), obj.spi.value)
    ensures obj.spi.Some? ==> rcc.APB1ENR == InitApb1(old(rcc.APB1ENR), obj.spi.value)
    ensures obj.spi == Some(SPI_1) ==> unchanged(spi2)
    ensures obj.spi == Some(SPI_2) ==> unchanged(spi1)
  {
    var spiMosi := resolve(mosi, MOSI_PINS);
    var spiMiso := resolve(miso, MISO_PINS);
    var spiSclk := resolve(sclk, SCLK_PINS);
    var spiSsel := resolve(ssel, SSEL_PINS);
    var spiData := merge(spiMosi, spiMiso);
    var spiCntl := merge(spiSclk, spiSsel);
    obj.spi := merge(spiData, spiCntl);
    if obj.spi.None? {
      return Failed(PinoutMappingFailed);
    }
    EnableClocks(rcc, obj.spi.value);
    var regs := Block(spi1, spi2, obj.spi.value);
    st := Configure(obj, regs, ssel, clk);
  }

  /** A data register access: a 16-bit store, or an 8-bit store to the register's low byte. */
  datatype DataWrite = Write16(half: u16) | Write8(byte: u8)

  /**
   * The store spi_write makes: 16 bits for frames wider than 8 bits, else a
   * single byte, holding value truncated to that width.
   */
  function WriteAccess(dataSize: int, value: int): (w: DataWrite)
    ensures w.Write16? <==> dataSize > 8
    ensures w.Write16? ==> (w.half as int - value) % 0x1_0000 == 0
    ensures w.Write8? ==> (w.byte as int - value) % 0x100 == 0
  {
    if dataSize > 8 then Write16(Wrap16(value)) else Write8(Wrap8(value))
  }
}
