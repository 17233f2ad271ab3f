/**
 * The STM32F1xx SPI master driver (spi_api.c): the pin tables, the choice of
 * controller in spi_init, the frame format in CR1 and the baud rate loop of
 * spi_frequency.
 */
module SpiF1 {
  import opened Wrappers
  import opened Pins
  import opened RegsF1
  import opened PinmapF1

  /** The two SPI controllers of the F1 targets. */
  datatype SpiName = SPI_1 | SPI_2

  /** The pin tables, without their {NC, NC, 0} terminator; k holds the STM_PIN_* values. */
  function SclkPins(k: PinConstants): seq<PinMap<SpiName>>
  {
    [PinMap(PA(5), SPI_1, PinData(k.modeOutput50MHz, k.confOutputAltPushPull)),
     PinMap(PB(13), SPI_2, PinData(k.modeOutput50MHz, k.confOutputAltPushPull))]
  }

  function MosiPins(k: PinConstants): seq<PinMap<SpiName>>
  {
    [PinMap(PA(7), SPI_1, PinData(k.modeOutput50MHz, k.confOutputAltPushPull)),
     PinMap(PB(15), SPI_2, PinData(k.modeOutput50MHz, k.confOutputAltPushPull))]
  }

  function MisoPins(k: PinConstants): seq<PinMap<SpiName>>
  {
    [PinMap(PA(6), SPI_1, PinData(k.modeInput, k.confInputFloat)),
     PinMap(PB(14), SPI_2, PinData(k.modeInput, k.confInputFloat))]
  }

  /** Every row of table t whose pin is p names controller s. */
  predicate OnlyServes(t: seq<PinMap<SpiName>>, p: PinName, s: SpiName)
  {
    forall i :: 0 <= i < |t| && t[i].pin == p ==> t[i].peripheral == s
  }

  /**
   * The tables are one-to-one: port A pins serve SPI_1 and port B pins
   * SPI_2, each pin in one row; MISO is a floating input, the other roles
   * are 50 MHz alternate push-pull outputs.
   */
  lemma TablesOneToOne(k: PinConstants)
    ensures OnlyServes(SclkPins(k), PA(5), SPI_1) && OnlyServes(SclkPins(k), PB(13), SPI_2)
    ensures OnlyServes(MosiPins(k), PA(7), SPI_1) && OnlyServes(MosiPins(k), PB(15), SPI_2)
    ensures OnlyServes(MisoPins(k), PA(6), SPI_1) && OnlyServes(MisoPins(k), PB(14), SPI_2)
    ensures forall i :: 0 <= i < |MisoPins(k)| ==> MisoPins(k)[i].data == PinData(k.modeInput, k.confInputFloat)
    ensures forall i :: 0 <= i < |MosiPins(k)| ==>
      MosiPins(k)[i].data == PinData(k.modeOutput50MHz, k.confOutputAltPushPull)
    ensures forall i :: 0 <= i < |SclkPins(k)| ==>
      SclkPins(k)[i].data == PinData(k.modeOutput50MHz, k.confOutputAltPushPull)
  {
  }

  /** The controller spi_init settles on: ssel plays no part. */
  function InitPeripheral(k: PinConstants, resolve: Resolver<SpiName>, merge: Merger<SpiName>,
                          mosi: PinName, miso: PinName, sclk: PinName): Option<SpiName>
  {
    merge(merge(resolve(mosi, MosiPins(k)), resolve(miso, MisoPins(k))), resolve(sclk, SclkPins(k)))
  }

  /** An spi_t: the controller in use. */
  class SpiObject {
    var spi: Option<SpiName>

    constructor ()
      ensures spi == None
    {
      spi := None;
    }
  }

  /** The APB2ENR bits spi_init sets: AFIO, then port A and SPI1 for SPI_1, or port B for SPI_2. */
  function Apb2Clocks(name: SpiName): bv32
  {
    match name
    case SPI_1 => RCC_APB2ENR_AFIOEN | RCC_APB2ENR_IOPAEN | RCC_APB2ENR_SPI1EN
    case SPI_2 => RCC_APB2ENR_AFIOEN | RCC_APB2ENR_IOPBEN
  }

  /** The APB1ENR bits spi_init sets: the SPI2 clock for SPI_2. */
  function Apb1Clocks(name: SpiName): bv32
  {
    match name
    case SPI_1 => 0
    case SPI_2 => RCC_APB1ENR_SPI2EN
  }

  /** APB2ENR and APB1ENR after spi_init: the bits above ORed in. */
  function InitApb2(enr: bv32, name: SpiName): bv32
  {
    enr | Apb2Clocks(name)
  }

  function InitApb1(enr: bv32, name: SpiName): bv32
  {
    enr | Apb1Clocks(name)
  }

  /** Every row of table t for controller name is on a port whose clock is enabled in APB2ENR value enr. */
  predicate PortsClocked(t: seq<PinMap<SpiName>>, name: SpiName, enr: bv32)
  {
    forall i :: 0 <= i < |t| && t[i].peripheral == name ==>
      t[i].pin.Pin? && PortIndex(t[i].pin.id) < 30 && enr & PortClockBit(PortIndex(t[i].pin.id)) != 0
  }

  /** spi_init turns on the port clock of every SCLK pin that maps to the chosen controller... */
  lemma InitClocksSclkPorts(k: PinConstants, name: SpiName, enr: bv32)
    ensures PortsClocked(SclkPins(k), name, InitApb2(enr, name))
  {
  }

  /** ... of every MOSI pin... */
  lemma InitClocksMosiPorts(k: PinConstants, name: SpiName, enr: bv32)
    ensures PortsClocked(MosiPins(k), name, InitApb2(enr, name))
  {
  }

  /** ... and of every MISO pin. */
  lemma InitClocksMisoPorts(k: PinConstants, name: SpiName, enr: bv32)
    ensures PortsClocked(MisoPins(k), name, InitApb2(enr, name))
  {
  }

  /** spi_init turns on the clock of the controller it chose: SPI1EN in APB2ENR, SPI2EN in APB1ENR. */
  lemma InitClocksController(name: SpiName, apb1: bv32, apb2: bv32)
    ensures name == SPI_1 ==> InitApb2(apb2, name) & RCC_APB2ENR_SPI1EN != 0
    ensures name == SPI_2 ==> InitApb1(apb1, name) & RCC_APB1ENR_SPI2EN != 0
  {
  }

  function Block(spi1: Spi, spi2: Spi, name: SpiName): Spi
  {
    match name
    case SPI_1 => spi1
    case SPI_2 => spi2
  }

  // ---------------------------------------------------------------- CR1

  function SpiDisabled(cr1: bv16): bv16
  {
    cr1 & !SPI_CR1_SPE
  }

  function SpiEnabled(cr1: bv16): bv16
  {
    cr1 | SPI_CR1_SPE
  }

  /** Bit 0 = CPHA, bit 1 = CPOL, bit 2 = MSTR, bit 11 = DFF (16-bit frames). */
  function FrameBits(phase: bool, polarity: bool, master: bool, wide: bool): bv16
  {
    (if phase then SPI_CR1_CPHA else 0)
    | (if polarity then SPI_CR1_CPOL else 0)
    | (if master then SPI_CR1_MSTR else 0)
    | (if wide then SPI_CR1_DFF else 0)
  }

  /** FrameBits sets exactly the requested bits of the mask 0x807. */
  lemma FrameBitsMeaning(phase: bool, polarity: bool, master: bool, wide: bool)
    ensures FrameBits(phase, polarity, master, wide) & SPI_CR1_CPHA != 0 <==> phase
    ensures FrameBits(phase, polarity, master, wide) & SPI_CR1_CPOL != 0 <==> polarity
    ensures FrameBits(phase, polarity, master, wide) & SPI_CR1_MSTR != 0 <==> master
    ensures FrameBits(phase, polarity, master, wide) & SPI_CR1_DFF != 0 <==> wide
    ensures FrameBits(phase, polarity, master, wide) & !0x807 == 0
  {
  }

  /** CR1 with the bits of 0x807 replaced by m. */
  function WithFrame(cr1: bv16, m: bv16): bv16
  {
    (cr1 & !0x807) | m
  }

  /** CR1 after a successful spi_format. */
  function FormatCr1(cr1: bv16, bits: int, mode: int, slave: bool): bv16
  {
    SpiEnabled(WithFrame(SpiDisabled(cr1), FrameBits(mode % 2 == 1, mode >= 2, !slave, bits == 16)))
  }

  /** spi_format's rejection test. */
  predicate FormatRejected(bits: int, mode: int)
  {
    !(bits == 8 || bits == 16) || !(mode >= 0 && mode <= 3)
  }

  /**
   * spi_format's CR1: CPHA is bit 0 of the mode, CPOL bit 1, MSTR is set
   * exactly for a master, DFF exactly for 16-bit frames, SPE is set again
   * and every other bit is kept.
   */
  lemma FormatCr1Effect(cr1: bv16, bits: int, mode: int, slave: bool)
    requires !FormatRejected(bits, mode)
    ensures FormatCr1(cr1, bits, mode, slave) & SPI_CR1_CPHA != 0 <==> mode % 2 == 1
    ensures FormatCr1(cr1, bits, mode, slave) & SPI_CR1_CPOL != 0 <==> mode >= 2
    ensures FormatCr1(cr1, bits, mode, slave) & SPI_CR1_MSTR != 0 <==> !slave
    ensures FormatCr1(cr1, bits, mode, slave) & SPI_CR1_DFF != 0 <==> bits == 16
    ensures FormatCr1(cr1, bits, mode, slave) & SPI_CR1_SPE != 0
    ensures FormatCr1(cr1, bits, mode, slave) & !(0x807 | SPI_CR1_SPE) == cr1 & !(0x807 | SPI_CR1_SPE)
  {
    var m := FrameBits(mode % 2 == 1, mode >= 2, !slave, bits == 16);
    FrameBitsMeaning(mode % 2 == 1, mode >= 2, !slave, bits == 16);
    FrameBitsReplaced(cr1, m);
  }

  /** Clearing SPE, replacing the bits of 0x807 by m and setting SPE again. */
  lemma FrameBitsReplaced(cr1: bv16, m: bv16)
    requires m & !0x807 == 0
    ensures SpiEnabled(WithFrame(SpiDisabled(cr1), m)) & 0x807 == m
    ensures SpiEnabled(WithFrame(SpiDisabled(cr1), m)) & SPI_CR1_SPE != 0
    ensures SpiEnabled(WithFrame(SpiDisabled(cr1), m)) & !0x847 == cr1 & !0x847
  {
  }

  // ---------------------------------------------------------------- baud rate

  function Pow2(n: nat): (p: nat)
    ensures p >= 1
  {
    if n == 0 then 1 else 2 * Pow2(n - 1)
  }

  /** The peripheral clock: SystemCoreClock, halved for SPI_2 only. */
  function Pclk(clk: nat, name: SpiName): nat
  {
    if name == SPI_2 then clk / 2 else clk
  }

  /** The clock rate baud rate field value br selects: PCLK / 2^(br + 2). */
  function Scaled(pclk: nat, br: nat): int
  {
    pclk / Pow2(br + 2)
  }

  /** The loop test of spi_frequency. */
  predicate TooFast(pclk: nat, hz: nat, br: nat)
  {
    Scaled(pclk, br) > hz && br < 7
  }

  /** The value the baud rate loop stops at when it starts from br. */
  function BaudSearch(pclk: nat, hz: nat, br: nat): nat
    decreases 7 - br
  {
    if TooFast(pclk, hz, br) then BaudSearch(pclk, hz, br + 1) else br
  }

  /**
   * From a start of at most 7 the loop stops at the first br from the start
   * on at which the divided clock no longer exceeds hz, or at 7; from a
   * start above 7 it does not run at all.
   */
  lemma {:induction false} BaudSearchMeaning(pclk: nat, hz: nat, start: nat)
    ensures start <= 7 ==> start <= BaudSearch(pclk, hz, start) <= 7
    ensures start > 7 ==> BaudSearch(pclk, hz, start) == start
    ensures var br := BaudSearch(pclk, hz, start); br >= 7 || Scaled(pclk, br) <= hz
    ensures forall j :: start <= j < BaudSearch(pclk, hz, start) ==> Scaled(pclk, j) > hz
  {
    BaudSearchRange(pclk, hz, start);
    BaudSearchStops(pclk, hz, start);
    BaudSearchSkips(pclk, hz, start);
  }

  lemma {:induction false} BaudSearchRange(pclk: nat, hz: nat, start: nat)
    ensures start <= 7 ==> start <= BaudSearch(pclk, hz, start) <= 7
    ensures start > 7 ==> BaudSearch(pclk, hz, start) == start
    decreases 7 - start
  {
    if TooFast(pclk, hz, start) {
      BaudSearchRange(pclk, hz, start + 1);
    }
  }

  lemma {:induction false} BaudSearchStops(pclk: nat, hz: nat, start: nat)
    ensures var br := BaudSearch(pclk, hz, start); br >= 7 || Scaled(pclk, br) <= hz
    decreases 7 - start
  {
    if TooFast(pclk, hz, start) {
      BaudSearchStops(pclk, hz, start + 1);
    }
  }

  lemma {:induction false} BaudSearchSkips(pclk: nat, hz: nat, start: nat)
    ensures forall j :: start <= j < BaudSearch(pclk, hz, start) ==> Scaled(pclk, j) > hz
    decreases 7 - start
  {
    if TooFast(pclk, hz, start) {
      BaudSearchSkips(pclk, hz, start + 1);
    }
  }

  /**
   * The loop of spi_frequency from the stale value start of the
   * uninitialised baud_rate; start is at most 28 so that 1 << (br + 2)
   * stays within an int.
   */
  method BaudLoop(pclk: nat, hz: nat, start: nat) returns (br: nat)
    requires start <= 28
    ensures br == BaudSearch(pclk, hz, start)
    ensures start <= 7 ==> start <= br <= 7
    ensures start > 7 ==> br == start
    ensures br == 7 || br == start > 7 || Scaled(pclk, br) <= hz
    ensures forall j :: start <= j < br ==> Scaled(pclk, j) > hz
  {
    br := start;
    while pclk / Pow2(br + 2) > hz && br < 7
      invariant start <= br && (start <= 7 ==> br <= 7) && (start > 7 ==> br == start)
      invariant BaudSearch(pclk, hz, br) == BaudSearch(pclk, hz, start)
      invariant forall j :: start <= j < br ==> Scaled(pclk, j) > hz
      decreases 7 - br
    {
      br := br + 1;
    }
  }

  /** The value baud_rate << 3 as the 16-bit CR1 receives it. */
  function BaudField(br: nat): bv16
    requires br < 0x2000
  {
    (br as bv16) << 3
  }

  function WithBaudRate(cr1: bv16, br: nat): bv16
    requires br < 0x2000
  {
    (cr1 & !SPI_CR1_BR) | BaudField(br)
  }

  /** CR1 after spi_frequency(hz), with baud_rate starting from start. */
  function FrequencyCr1(cr1: bv16, clk: nat, hz: nat, name: SpiName, start: nat): bv16
    requires start <= 28
  {
    BaudSearchMeaning(Pclk(clk, name), hz, start);
    SpiEnabled(WithBaudRate(SpiDisabled(cr1), BaudSearch(Pclk(clk, name), hz, start)))
  }

  /** A baud rate of at most 7 lands in the BR field and changes no other bit but SPE. */
  lemma BaudFieldFits(cr1: bv16, br: nat)
    requires br <= 7
    ensures (SpiEnabled(WithBaudRate(SpiDisabled(cr1), br)) & SPI_CR1_BR) >> 3 == br as bv16
    ensures SpiEnabled(WithBaudRate(SpiDisabled(cr1), br)) & !(SPI_CR1_BR | SPI_CR1_SPE)
         == cr1 & !(SPI_CR1_BR | SPI_CR1_SPE)
  {
  }

  /** baud_rate values up to 28 only reach bits 3..7 (BR, SPE, LSBFIRST). */
  lemma BaudFieldReach(cr1: bv16, br: nat)
    requires br <= 28
    ensures SpiEnabled(WithBaudRate(SpiDisabled(cr1), br)) & !(SPI_CR1_BR | SPI_CR1_SPE | SPI_CR1_LSBFIRST)
         == cr1 & !(SPI_CR1_BR | SPI_CR1_SPE | SPI_CR1_LSBFIRST)
  {
  }

  /**
   * A stale start of 16 skips the loop and writes 16 << 3: the BR field is
   * 0 (the fastest clock, whatever hz asks for) and LSBFIRST is set.
   */
  lemma StaleBaudRateCorruptsCr1(cr1: bv16, pclk: nat, hz: nat)
    ensures BaudSearch(pclk, hz, 16) == 16
    ensures WithBaudRate(cr1, 16) & SPI_CR1_BR == 0
    ensures WithBaudRate(cr1, 16) & SPI_CR1_LSBFIRST != 0
  {
  }

  /** The intended baud rate: the loop started from 0. */
  function BaudRate(pclk: nat, hz: nat): nat
  {
    BaudSearch(pclk, hz, 0)
  }

  /**
   * The intended baud rate is the least br <= 7 at which PCLK / 2^(br + 2)
   * does not exceed hz, or 7 when there is none, and it only changes the BR
   * field of CR1.
   */
  lemma BaudRateMeaning(cr1: bv16, pclk: nat, hz: nat)
    ensures BaudRate(pclk, hz) <= 7
    ensures BaudRate(pclk, hz) == 7 || Scaled(pclk, BaudRate(pclk, hz)) <= hz
    ensures forall j :: 0 <= j < BaudRate(pclk, hz) ==> Scaled(pclk, j) > hz
    ensures (SpiEnabled(WithBaudRate(SpiDisabled(cr1), BaudRate(pclk, hz))) & SPI_CR1_BR) >> 3
         == BaudRate(pclk, hz) as bv16
    ensures SpiEnabled(WithBaudRate(SpiDisabled(cr1), BaudRate(pclk, hz))) & !(SPI_CR1_BR | SPI_CR1_SPE)
         == cr1 & !(SPI_CR1_BR | SPI_CR1_SPE)
  {
    BaudSearchMeaning(pclk, hz, 0);
    BaudFieldFits(cr1, BaudRate(pclk, hz));
  }

  // ---------------------------------------------------------------- operations

  /** ssp_disable. */
  method Disable(regs: Spi)
    modifies regs
    ensures regs.CR1 == SpiDisabled(old(regs.CR1))
  {
    regs.CR1 := regs.CR1 & !SPI_CR1_SPE;
  }

  /** ssp_enable. */
  method Enable(regs: Spi)
    modifies regs
    ensures regs.CR1 == SpiEnabled(old(regs.CR1))
  {
    regs.CR1 := regs.CR1 | SPI_CR1_SPE;
  }

  /**
   * spi_format: disables the controller, fails for a rejected format (SPE
   * left clear), otherwise programs CR1 and enables it again.
   */
  method Format(regs: Spi, bits: int, mode: int, slave: bool) returns (st: Status)
    modifies regs
    ensures st == if FormatRejected(bits, mode) then Failed(FormatError) else Ok
    ensures st.Failed? ==> regs.CR1 == SpiDisabled(old(regs.CR1))
    ensures st.Ok? ==> regs.CR1 == FormatCr1(old(regs.CR1), bits, mode, slave)
  {
    Disable(regs);
    if !(bits == 8 || bits == 16) || !(mode >= 0 && mode <= 3) {
      return Failed(FormatError);
    }
    var polarity := mode >= 2;
    var phase := mode % 2 == 1;
    regs.CR1 := WithFrame(regs.CR1, FrameBits(phase, polarity, !slave, bits == 16));
    Enable(regs);
    st := Ok;
  }

  /**
   * spi_frequency on the controller obj names, whose registers are regs;
   * clk is SystemCoreClock, hz the unsigned value the comparison uses and
   * start the stale content of baud_rate.
   */
  method Frequency(obj: SpiObject, regs: Spi, clk: nat, hz: nat, start: nat)
    requires obj.spi.Some? && start <= 28
    modifies regs
    ensures regs.CR1 == FrequencyCr1(old(regs.CR1), clk, hz, obj.spi.value, start)
  {
    Disable(regs);
    var pclk := clk;
    if obj.spi.value == SPI_2 {
      pclk := pclk / 2;
    }
    var baudRate := BaudLoop(pclk, hz, start);
    BaudSearchMeaning(pclk, hz, start);
    regs.CR1 := WithBaudRate(regs.CR1, baudRate);
    Enable(regs);
  }

  /** CR1 at the end of a successful spi_init. */
  function InitCr1(cr1: bv16, clk: nat, name: SpiName, start: nat): bv16
    requires start <= 28
  {
    SpiEnabled(FrequencyCr1(FormatCr1(cr1, 8, 0, false), clk, 1_000_000, name, start)) | SPI_CR1_SSM | SPI_CR1_SSI
  }

  /**
   * After spi_init the controller is an enabled master in mode 0 with 8-bit
   * frames and software slave management (SSM and SSI), whatever the stale
   * baud rate start was.
   */
  lemma InitCr1Effect(cr1: bv16, clk: nat, name: SpiName, start: nat)
    requires start <= 28
    ensures InitCr1(cr1, clk, name, start) & (SPI_CR1_SSM | SPI_CR1_SSI) == SPI_CR1_SSM | SPI_CR1_SSI
    ensures InitCr1(cr1, clk, name, start) & (SPI_CR1_MSTR | SPI_CR1_SPE) == SPI_CR1_MSTR | SPI_CR1_SPE
    ensures InitCr1(cr1, clk, name, start) & (SPI_CR1_CPOL | SPI_CR1_CPHA | SPI_CR1_DFF) == 0
  {
    var formatted := FormatCr1(cr1, 8, 0, false);
    FormatCr1Effect(cr1, 8, 0, false);
    var br := BaudSearch(Pclk(clk, name), 1_000_000, start);
    BaudSearchMeaning(Pclk(clk, name), 1_000_000, start);
    BaudFieldReach(formatted, br);
  }

  /**
   * The register programming of spi_init on the chosen controller: 8-bit
   * mode 0 master, 1 MHz, enabled, software slave management.
   */
  method Configure(obj: SpiObject, regs: Spi, clk: nat, start: nat) returns (st: Status)
    requires obj.spi.Some? && start <= 28
    modifies regs
    ensures st == Ok && regs.CR1 == InitCr1(old(regs.CR1), clk, obj.spi.value, start)
  {
    st := Format(regs, 8, 0, false);
    Frequency(obj, regs, clk, 1_000_000, start);
    Enable(regs);
    regs.CR1 := regs.CR1 | SPI_CR1_SSM | SPI_CR1_SSI;
  }

  /** The clock enables of spi_init. */
  method EnableClocks(rcc: Rcc, name: SpiName)
    modifies rcc
    ensures rcc.APB2ENR == InitApb2(old(rcc.APB2ENR), name)
    ensures rcc.APB1ENR == InitApb1(old(rcc.APB1ENR), name)
  {
    rcc.APB2ENR := InitApb2(rcc.APB2ENR, name);
    rcc.APB1ENR := InitApb1(rcc.APB1ENR, name);
  }

  /**
   * spi_init: resolves the controller from mosi, miso and sclk; when the
   * merge gives NC it spins forever (reported as Hangs) and changes no
   * register. Otherwise it enables the AFIO, port and controller
   * clocks, formats the controller as an 8-bit mode 0 master,
   * sets 1 MHz, enables it and turns on software slave management. The other
   * controller is untouched.
   */
  method Init(obj: SpiObject, rcc: Rcc, spi1: Spi, spi2: Spi, k: PinConstants, resolve: Resolver<SpiName>,
              merge: Merger<SpiName>, mosi: PinName, miso: PinName, sclk: PinName, clk: nat, start: nat)
    returns (st: Status)
    requires spi1 != spi2 && start <= 28
    modifies obj, rcc, spi1, spi2
    ensures obj.spi == InitPeripheral(k, resolve, merge, mosi, miso, sclk)
    ensures obj.spi.None? ==> st == Hangs && unchanged(rcc) && unchanged(spi1) && unchanged(spi2)
    ensures obj.spi.Some? ==>
      var regs := Block(spi1, spi2, obj.spi.value);
      st == Ok && regs.CR1 == InitCr1(old(regs.CR1), clk, obj.spi.value, start)
    ensures obj.spi.Some? ==> rcc.APB2ENR == InitApb2(old(rcc.APB2ENR), obj.spi.value)
    ensures obj.spi.Some? ==> rcc.APB1ENR == InitApb1(old(rcc.APB1ENR), obj.spi.value)
    ensures obj.spi == Some(SPI_1) ==> unchanged(spi2)
    ensures obj.spi == Some(SPI_2) ==> unchanged(spi1)
  {
    var spiMosi := resolve(mosi, MosiPins(k));
    var spiMiso := resolve(miso, MisoPins(k));
    var spiSclk := resolve(sclk, SclkPins(k));
    var spiData := merge(spiMosi, spiMiso);
    obj.spi := merge(spiData, spiSclk);
    if obj.spi.None? {
      return Hangs;
    }
    EnableClocks(rcc, obj.spi.value);
    var regs := Block(spi1, spi2, obj.spi.value);
    st := Configure(obj, regs, clk, start);
  }
}
