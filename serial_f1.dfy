/**
 * The STM32F1xx UART driver (serial_api.c): controller choice and default
 * set-up in serial_init, the BRR divisor of serial_baud, the frame format of
 * serial_format, the break bit and the table of interrupt ids.
 */
module SerialF1 {
  import opened Wrappers
  import opened Bits
  import opened Pins
  import opened RegsF1
  import opened PinmapF1

  /** The two UARTs of the F1 targets. */
  datatype UartName = UART_1 | UART_2

  /** The parity settings serial_format accepts as an argument. */
  datatype Parity = ParityNone | ParityOdd | ParityEven | ParityForced1 | ParityForced0

  /** UART_NUM, the number of interrupt id slots. */
  const UART_NUM: nat := 3

  /** The pin tables, without their {NC, NC, 0} terminator; k holds the STM_PIN_* values. */
  function TxPins(k: PinConstants): seq<PinMap<UartName>>
  {
    [PinMap(PA(9), UART_1, PinData(k.modeOutput50MHz, k.confOutputAltPushPull)),
     PinMap(PA(2), UART_2, PinData(k.modeOutput50MHz, k.confOutputAltPushPull))]
  }

  function RxPins(k: PinConstants): seq<PinMap<UartName>>
  {
    [PinMap(PA(10), UART_1, PinData(k.modeInput, k.confInputFloat)),
     PinMap(PA(3), UART_2, PinData(k.modeInput, k.confInputFloat))]
  }

  /** The UART serial_init settles on. */
  function InitPeripheral(k: PinConstants, resolve: Resolver<UartName>, merge: Merger<UartName>,
                          tx: PinName, rx: PinName): Option<UartName>
  {
    merge(resolve(tx, TxPins(k)), resolve(rx, RxPins(k)))
  }

  /**
   * A serial_t: the UART in use and its slot in the interrupt id table. The
   * constructor stands for a zero-initialised serial_t (a static object);
   * serial_init sets the index only for UART_1.
   */
  class SerialObject {
    var uart: Option<UartName>
    var index: int

    constructor ()
      ensures uart == None && index == 0
    {
      uart := None;
      index := 0;
    }
  }

  /**
   * The driver's static state: serial_irq_ids, irq_handler (a handler is
   * known here only by an identity), stdio_uart_inited, and STDIO_UART,
   * whose value comes from a header that is not part of this model.
   */
  class SerialGlobals {
    const irqIds: array<u32>
    var irqHandler: nat
    var stdioInited: bool
    const stdio: UartName

    constructor (stdio: UartName)
      ensures irqIds.Length == UART_NUM && fresh(irqIds)
      ensures forall i :: 0 <= i < UART_NUM ==> irqIds[i] == 0
      ensures irqHandler == 0 && !stdioInited && this.stdio == stdio
    {
      irqIds := new u32[UART_NUM](_ => 0);
      irqHandler := 0;
      stdioInited := false;
      this.stdio := stdio;
    }
  }

  /** The APB2ENR bits serial_init sets: AFIO, and USART1 for UART_1. */
  function Apb2Clocks(name: UartName): bv32
  {
    match name
    case UART_1 => RCC_APB2ENR_AFIOEN | RCC_APB2ENR_USART1EN
    case UART_2 => RCC_APB2ENR_AFIOEN
  }

  /** The APB1ENR bits serial_init sets: USART2 for UART_2. */
  function Apb1Clocks(name: UartName): bv32
  {
    match name
    case UART_1 => 0
    case UART_2 => RCC_APB1ENR_USART2EN
  }

  /** APB2ENR and APB1ENR after serial_init: the bits above ORed in. */
  function InitApb2(enr: bv32, name: UartName): bv32
  {
    enr | Apb2Clocks(name)
  }

  function InitApb1(enr: bv32, name: UartName): bv32
  {
    enr | Apb1Clocks(name)
  }

  /** serial_init turns on the clock of the UART it chose: USART1EN in APB2ENR, USART2EN in APB1ENR. */
  lemma InitClocksUart(name: UartName, apb1: bv32, apb2: bv32)
    ensures name == UART_1 ==> InitApb2(apb2, name) & RCC_APB2ENR_USART1EN != 0
    ensures name == UART_2 ==> InitApb1(apb1, name) & RCC_APB1ENR_USART2EN != 0
  {
  }

  /**
   * Every TX and RX pin is on port A, but serial_init leaves the port A
   * clock bit as it found it: the pins work only if something else enabled it.
   */
  lemma InitLeavesPortClock(k: PinConstants, name: UartName, enr: bv32)
    ensures forall i :: 0 <= i < |TxPins(k)| ==> TxPins(k)[i].pin.Pin? && PortIndex(TxPins(k)[i].pin.id) == 0
    ensures forall i :: 0 <= i < |RxPins(k)| ==> RxPins(k)[i].pin.Pin? && PortIndex(RxPins(k)[i].pin.id) == 0
    ensures InitApb2(enr, name) & PortClockBit(0) == enr & PortClockBit(0)
  {
  }

  /** The clock enables of serial_init. */
  method EnableClocks(rcc: Rcc, name: UartName)
    modifies rcc
    ensures rcc.APB2ENR == InitApb2(old(rcc.APB2ENR), name)
    ensures rcc.APB1ENR == InitApb1(old(rcc.APB1ENR), name)
  {
    rcc.APB2ENR := InitApb2(rcc.APB2ENR, name);
    rcc.APB1ENR := InitApb1(rcc.APB1ENR, name);
  }

  function Block(usart1: Usart, usart2: Usart, name: UartName): Usart
  {
    match name
    case UART_1 => usart1
    case UART_2 => usart2
  }

  // ---------------------------------------------------------------- baud rate

  /** UART_1 runs from SystemCoreClock, UART_2 from half of it. */
  function Divider(name: UartName): (d: nat)
    ensures d == 1 || d == 2
  {
    if name == UART_1 then 1 else 2
  }

  /** serial_baud's BRR: SystemCoreClock / baudrate / divider, kept to 16 bits. */
  function Brr(clk: nat, baud: nat, name: UartName): u16
    requires baud != 0
  {
    Wrap16(clk / baud / Divider(name))
  }

  /**
   * When it fits in 16 bits, BRR is the floor of the peripheral clock over
   * the baud rate, the value in 1/16 units that gives that baud rate.
   */
  lemma BrrMeaning(clk: nat, baud: nat, name: UartName)
    requires baud != 0 && clk / baud / Divider(name) < 0x1_0000
    ensures var b := Brr(clk, baud, name) as int;
      b * (baud * Divider(name)) <= clk < (b + 1) * (baud * Divider(name))
  {
    NestedFloor(clk, baud, Divider(name));
  }

  /** x / y / d is the floor of x over y * d. */
  lemma NestedFloor(x: nat, y: nat, d: nat)
    requires y > 0 && d > 0
    ensures var b := x / y / d; b * (y * d) <= x < (b + 1) * (y * d)
  {
    var q := x / y;
    var b := q / d;
    DivBounds(x, y);
    DivBounds(q, d);
    MulMonotone(b * d, q, y);
    MulMonotone(q + 1, (b + 1) * d, y);
    MulAssoc(b, d, y);
    MulAssoc(b + 1, d, y);
  }

  lemma DivBounds(x: nat, y: nat)
    requires y > 0
    ensures (x / y) * y <= x < (x / y + 1) * y
  {
  }

  lemma MulAssoc(x: int, y: int, z: int)
    ensures x * (z * y) == (x * y) * z
  {
  }

  lemma MulMonotone(x: int, y: int, m: nat)
    requires x <= y
    ensures x * m <= y * m
  {
  }

  // ---------------------------------------------------------------- format

  /** CR2 after the stop bit step of serial_format, as written: STOP_1 for one stop bit. */
  function StopBitsCr2(cr2: bv16, stopBits: int): bv16
  {
    if stopBits == 1 then (cr2 & !USART_CR2_STOP) | USART_CR2_STOP_1 else cr2 & !USART_CR2_STOP
  }

  /** The number of half stop bits the STOP field (bits 12..13) selects: 00 = 1, 01 = 0.5, 10 = 2, 11 = 1.5. */
  function HalfStopBits(cr2: bv16): nat
  {
    var field := cr2 & USART_CR2_STOP;
    if field == 0 then 2 else if field == 0x1000 then 1 else if field == 0x2000 then 4 else 3
  }

  /**
   * As written, asking for one stop bit selects two and asking for two
   * selects one; the other bits of CR2 are kept.
   */
  lemma StopBitsSwapped(cr2: bv16)
    ensures HalfStopBits(StopBitsCr2(cr2, 1)) == 4
    ensures HalfStopBits(StopBitsCr2(cr2, 2)) == 2
    ensures StopBitsCr2(cr2, 1) & !USART_CR2_STOP == cr2 & !USART_CR2_STOP
    ensures StopBitsCr2(cr2, 2) & !USART_CR2_STOP == cr2 & !USART_CR2_STOP
  {
    OneStopBitGivesTwo(cr2);
    TwoStopBitsGiveOne(cr2);
    OneStopBitKeeps(cr2);
    TwoStopBitsKeep(cr2);
  }

  lemma OneStopBitKeeps(cr2: bv16)
    ensures StopBitsCr2(cr2, 1) & !USART_CR2_STOP == cr2 & !USART_CR2_STOP
  {
  }

  lemma TwoStopBitsKeep(cr2: bv16)
    ensures StopBitsCr2(cr2, 2) & !USART_CR2_STOP == cr2 & !USART_CR2_STOP
  {
  }

  lemma OneStopBitGivesTwo(cr2: bv16)
    ensures HalfStopBits(StopBitsCr2(cr2, 1)) == 4
  {
  }

  lemma TwoStopBitsGiveOne(cr2: bv16)
    ensures HalfStopBits(StopBitsCr2(cr2, 2)) == 2
  {
  }

  /** The intended stop bit step: STOP_1 for two stop bits. */
  function CorrectedStopBitsCr2(cr2: bv16, stopBits: int): bv16
  {
    if stopBits == 2 then (cr2 & !USART_CR2_STOP) | USART_CR2_STOP_1 else cr2 & !USART_CR2_STOP
  }

  /** The intended step selects the requested number of stop bits and keeps the rest of CR2. */
  lemma CorrectedStopBitsMeaning(cr2: bv16, stopBits: int)
    requires stopBits == 1 || stopBits == 2
    ensures HalfStopBits(CorrectedStopBitsCr2(cr2, stopBits)) == 2 * stopBits
    ensures CorrectedStopBitsCr2(cr2, stopBits) & !USART_CR2_STOP == cr2 & !USART_CR2_STOP
  {
    if stopBits == 1 {
      CorrectedOneStopBit(cr2);
      CorrectedOneStopBitKeeps(cr2);
    } else {
      CorrectedTwoStopBits(cr2);
      CorrectedTwoStopBitsKeep(cr2);
    }
  }

  lemma CorrectedOneStopBitKeeps(cr2: bv16)
    ensures CorrectedStopBitsCr2(cr2, 1) & !USART_CR2_STOP == cr2 & !USART_CR2_STOP
  {
  }

  lemma CorrectedTwoStopBitsKeep(cr2: bv16)
    ensures CorrectedStopBitsCr2(cr2, 2) & !USART_CR2_STOP == cr2 & !USART_CR2_STOP
  {
  }

  lemma CorrectedOneStopBit(cr2: bv16)
    ensures HalfStopBits(CorrectedStopBitsCr2(cr2, 1)) == 2
  {
  }

  lemma CorrectedTwoStopBits(cr2: bv16)
    ensures HalfStopBits(CorrectedStopBitsCr2(cr2, 2)) == 4
  {
  }

  /** The M bit serial_format sets: for 9 data bits. */
  function WordLengthBits(dataBits: int): bv16
  {
    if dataBits == 9 then USART_CR1_M else 0
  }

  /** CR1 after the word length step: M, PCE and PS cleared, then M set for 9 data bits. */
  function WordLengthCr1(cr1: bv16, dataBits: int): bv16
  {
    (cr1 & !(USART_CR1_M | USART_CR1_PCE | USART_CR1_PS)) | WordLengthBits(dataBits)
  }

  /** The bits the parity step ORs in; the forced parities are rejected and add nothing. */
  function ParityBits(parity: Parity): bv16
  {
    match parity
    case ParityOdd => USART_CR1_PCE | USART_CR1_PS
    case ParityEven => USART_CR1_PCE
    case _ => 0
  }

  function ParityCr1(cr1: bv16, parity: Parity): bv16
  {
    cr1 | ParityBits(parity)
  }

  /** CR1 after serial_format gets past the data bit check. */
  function FormatCr1(cr1: bv16, dataBits: int, parity: Parity): bv16
  {
    ParityCr1(WordLengthCr1(cr1, dataBits), parity)
  }

  predicate SupportedParity(parity: Parity)
  {
    parity == ParityNone || parity == ParityOdd || parity == ParityEven
  }

  /**
   * serial_format's CR1: M exactly for 9 data bits, PCE exactly for odd or
   * even parity, PS exactly for odd parity; every other bit is kept.
   */
  lemma FormatCr1Effect(cr1: bv16, dataBits: int, parity: Parity)
    ensures FormatCr1(cr1, dataBits, parity) & USART_CR1_M != 0 <==> dataBits == 9
    ensures FormatCr1(cr1, dataBits, parity) & USART_CR1_PCE != 0 <==> parity == ParityOdd || parity == ParityEven
    ensures FormatCr1(cr1, dataBits, parity) & USART_CR1_PS != 0 <==> parity == ParityOdd
    ensures FormatCr1(cr1, dataBits, parity) & !(USART_CR1_M | USART_CR1_PCE | USART_CR1_PS)
         == cr1 & !(USART_CR1_M | USART_CR1_PCE | USART_CR1_PS)
  {
    FormatSetsWordLength(cr1, dataBits, parity);
    FormatSetsParityEnable(cr1, dataBits, parity);
    FormatSetsParityOdd(cr1, dataBits, parity);
    FormatKeepsOtherBits(cr1, dataBits, parity);
  }

  lemma FormatSetsWordLength(cr1: bv16, dataBits: int, parity: Parity)
    ensures FormatCr1(cr1, dataBits, parity) & USART_CR1_M != 0 <==> dataBits == 9
  {
  }

  lemma FormatSetsParityEnable(cr1: bv16, dataBits: int, parity: Parity)
    ensures FormatCr1(cr1, dataBits, parity) & USART_CR1_PCE != 0 <==> parity == ParityOdd || parity == ParityEven
  {
  }

  lemma FormatSetsParityOdd(cr1: bv16, dataBits: int, parity: Parity)
    ensures FormatCr1(cr1, dataBits, parity) & USART_CR1_PS != 0 <==> parity == ParityOdd
  {
  }

  lemma FormatKeepsOtherBits(cr1: bv16, dataBits: int, parity: Parity)
    ensures FormatCr1(cr1, dataBits, parity) & !(USART_CR1_M | USART_CR1_PCE | USART_CR1_PS)
         == cr1 & !(USART_CR1_M | USART_CR1_PCE | USART_CR1_PS)
  {
  }

  lemma OrZero(x: bv16)
    ensures x | 0 == x
  {
  }

  // ---------------------------------------------------------------- operations

  /** serial_baud on the UART obj names, whose registers are regs; clk is SystemCoreClock. */
  method Baud(obj: SerialObject, regs: Usart, clk: nat, baud: nat)
    requires obj.uart.Some? && baud != 0
    modifies regs
    ensures regs.BRR == Brr(clk, baud, obj.uart.value)
    ensures regs.CR1 == old(regs.CR1) && regs.CR2 == old(regs.CR2)
  {
    var divider := if obj.uart.value == UART_1 then 1 else 2;
    regs.BRR := Wrap16(clk / baud / divider);
  }

  /**
   * serial_format: a stop bit count other than 1 or 2 fails before any
   * write; then the STOP field is rewritten; a data bit count outside 8..9
   * fails with only CR2 written; then the word length is set, and a forced
   * parity fails after that.
   */
  method Format(regs: Usart, dataBits: int, parity: Parity, stopBits: int) returns (st: Status)
    modifies regs
    ensures regs.BRR == old(regs.BRR)
    ensures stopBits != 1 && stopBits != 2 ==>
      st == Failed(InvalidStopBits) && regs.CR1 == old(regs.CR1) && regs.CR2 == old(regs.CR2)
    ensures (stopBits == 1 || stopBits == 2) ==> regs.CR2 == StopBitsCr2(old(regs.CR2), stopBits)
    ensures (stopBits == 1 || stopBits == 2) && (dataBits < 8 || dataBits > 9) ==>
      st == Failed(InvalidDataBits) && regs.CR1 == old(regs.CR1)
    ensures (stopBits == 1 || stopBits == 2) && 8 <= dataBits <= 9 ==>
      regs.CR1 == FormatCr1(old(regs.CR1), dataBits, parity)
      && st == (if SupportedParity(parity) then Ok else Failed(InvalidParity))
  {
    if stopBits != 1 && stopBits != 2 {
      return Failed(InvalidStopBits);
    }
    regs.CR2 := StopBitsCr2(regs.CR2, stopBits);
    if dataBits < 8 || dataBits > 9 {
      return Failed(InvalidDataBits);
    }
    regs.CR1 := WordLengthCr1(regs.CR1, dataBits);
    match parity {
      case ParityNone =>
        OrZero(regs.CR1);
        st := Ok;
      case ParityOdd =>
        regs.CR1 := ParityCr1(regs.CR1, parity);
        st := Ok;
      case ParityEven =>
        regs.CR1 := ParityCr1(regs.CR1, parity);
        st := Ok;
      case _ =>
        OrZero(regs.CR1);
        st := Failed(InvalidParity);
    }
  }

  /**
   * The register programming of serial_init on the chosen UART: 9600 baud,
   * 8 data bits, no parity, and the STOP field as serial_format writes it
   * (two stop bits), then CR1 overwritten with UE | TE | RE.
   */
  method Configure(obj: SerialObject, regs: Usart, clk: nat)
    requires obj.uart.Some?
    modifies regs
    ensures regs.BRR == Brr(clk, 9600, obj.uart.value)
    ensures regs.CR2 == StopBitsCr2(old(regs.CR2), 1)
    ensures regs.CR1 == USART_CR1_UE | USART_CR1_TE | USART_CR1_RE
  {
    Baud(obj, regs, clk, 9600);
    var formatted := Format(regs, 8, ParityNone, 1);
    regs.CR1 := USART_CR1_UE | USART_CR1_TE | USART_CR1_RE;
  }

  /**
   * serial_init: resolves the UART from tx and rx and fails when the merge
   * gives NC, with the object untouched; otherwise enables the AFIO and UART clocks, sets 9600 baud and
   * 8 data bits, no parity, and the STOP field as serial_format writes it (two stop bits), then overwrites CR1 with exactly UE | TE | RE, gives UART_1 the interrupt
   * slot 0 (UART_2 keeps whatever index it had) and marks the stdio UART
   * as set up.
   */
  method Init(obj: SerialObject, g: SerialGlobals, rcc: Rcc, usart1: Usart, usart2: Usart, k: PinConstants,
              resolve: Resolver<UartName>, merge: Merger<UartName>, tx: PinName, rx: PinName, clk: nat)
    returns (st: Status)
    requires usart1 != usart2
    modifies obj, g, rcc, usart1, usart2
    ensures InitPeripheral(k, resolve, merge, tx, rx).None? ==>
      st == Failed(PinoutMappingFailed) && unchanged(obj) && unchanged(g) && unchanged(rcc)
      && unchanged(usart1) && unchanged(usart2)
    ensures InitPeripheral(k, resolve, merge, tx, rx).Some? ==> obj.uart == InitPeripheral(k, resolve, merge, tx, rx)
    ensures InitPeripheral(k, resolve, merge, tx, rx).Some? ==>
      var regs := Block(usart1, usart2, obj.uart.value);
      && st == Ok
      && regs.BRR == Brr(clk, 9600, obj.uart.value)
      && regs.CR2 == StopBitsCr2(old(regs.CR2), 1)
      && regs.CR1 == USART_CR1_UE | USART_CR1_TE | USART_CR1_RE
      && obj.index == (if obj.uart.value == UART_1 then 0 else old(obj.index))
      && g.stdioInited == (old(g.stdioInited) || obj.uart.value == g.stdio)
      && g.irqHandler == old(g.irqHandler)
    ensures InitPeripheral(k, resolve, merge, tx, rx).Some? ==>
      rcc.APB2ENR == InitApb2(old(rcc.APB2ENR), obj.uart.value)
    ensures InitPeripheral(k, resolve, merge, tx, rx).Some? ==>
      rcc.APB1ENR == InitApb1(old(rcc.APB1ENR), obj.uart.value)
    ensures InitPeripheral(k, resolve, merge, tx, rx) == Some(UART_1) ==> unchanged(usart2)
    ensures InitPeripheral(k, resolve, merge, tx, rx) == Some(UART_2) ==> unchanged(usart1)
  {
    var uartTx := resolve(tx, TxPins(k));
    var uartRx := resolve(rx, RxPins(k));
    var uart := merge(uartTx, uartRx);
    if uart.None? {
      return Failed(PinoutMappingFailed);
    }
    EnableClocks(rcc, uart.value);
    obj.uart := uart;
    var regs := Block(usart1, usart2, uart.value);
    Configure(obj, regs, clk);
    if uart.value == UART_1 {
      obj.index := 0;
    }
    if uart.value == g.stdio {
      g.stdioInited := true;
    }
    st := Ok;
  }

  /**
   * serial_init formats for 8 data bits and no parity and then stores
   * UE | TE | RE into CR1: whatever CR1 held before, the word length and
   * parity bits of the final value are those the format call chose, so the
   * overwrite keeps 8 data bits and no parity.
   */
  lemma InitKeepsFormat(cr1: bv16)
    ensures FormatCr1(cr1, 8, ParityNone) & (USART_CR1_M | USART_CR1_PCE | USART_CR1_PS)
      == (USART_CR1_UE | USART_CR1_TE | USART_CR1_RE) & (USART_CR1_M | USART_CR1_PCE | USART_CR1_PS)
  {
  }

  /** serial_free: empties the object's interrupt id slot and no other. */
  method Free(obj: SerialObject, g: SerialGlobals)
    requires g.irqIds.Length == UART_NUM && 0 <= obj.index < UART_NUM
    modifies g.irqIds
    ensures g.irqIds[..] == old(g.irqIds[..])[obj.index := 0]
  {
    g.irqIds[obj.index] := 0;
  }

  /** serial_irq_handler: records the handler and the object's id in its slot, and no other slot. */
  method IrqHandler(obj: SerialObject, g: SerialGlobals, handler: nat, id: u32)
    requires g.irqIds.Length == UART_NUM && 0 <= obj.index < UART_NUM
    modifies g, g.irqIds
    ensures g.irqHandler == handler
    ensures g.irqIds[..] == old(g.irqIds[..])[obj.index := id]
    ensures g.stdioInited == old(g.stdioInited)
  {
    g.irqHandler := handler;
    g.irqIds[obj.index] := id;
  }

  /** serial_break_set. */
  method BreakSet(regs: Usart)
    modifies regs
    ensures regs.CR1 == BreakSetCr1(old(regs.CR1))
    ensures regs.BRR == old(regs.BRR) && regs.CR2 == old(regs.CR2)
  {
    regs.CR1 := regs.CR1 | USART_CR1_SBK;
  }

  /** serial_break_clear as written: CR1 is ANDed with SBK. */
  method BreakClear(regs: Usart)
    modifies regs
    ensures regs.CR1 == BreakClearCr1(old(regs.CR1))
    ensures regs.BRR == old(regs.BRR) && regs.CR2 == old(regs.CR2)
  {
    regs.CR1 := regs.CR1 & USART_CR1_SBK;
  }

  function BreakSetCr1(cr1: bv16): bv16
  {
    cr1 | USART_CR1_SBK
  }

  function BreakClearCr1(cr1: bv16): bv16
  {
    cr1 & USART_CR1_SBK
  }

  /** Setting the break sends SBK and keeps every other bit. */
  lemma BreakSetEffect(cr1: bv16)
    ensures BreakSetCr1(cr1) & USART_CR1_SBK != 0
    ensures BreakSetCr1(cr1) & !USART_CR1_SBK == cr1 & !USART_CR1_SBK
  {
  }

  /**
   * As written, clearing a break that was just set leaves SBK set and clears
   * every other bit, UE, TE and RE included: on a running UART the break
   * goes on and the UART is switched off.
   */
  lemma BreakClearKeepsOnlySbk(cr1: bv16)
    ensures BreakClearCr1(cr1) & !USART_CR1_SBK == 0
    ensures BreakClearCr1(BreakSetCr1(cr1)) == USART_CR1_SBK
    ensures BreakClearCr1(BreakSetCr1(USART_CR1_UE | USART_CR1_TE | USART_CR1_RE)) & USART_CR1_UE == 0
  {
  }

  /** The intended serial_break_clear: SBK cleared. */
  function CorrectedBreakClearCr1(cr1: bv16): bv16
  {
    cr1 & !USART_CR1_SBK
  }

  /**
   * The intended clear stops the break and keeps every other bit, so it
   * undoes a break set on a register that had SBK clear.
   */
  lemma CorrectedBreakClearMeaning(cr1: bv16)
    ensures CorrectedBreakClearCr1(cr1) & USART_CR1_SBK == 0
    ensures CorrectedBreakClearCr1(cr1) & !USART_CR1_SBK == cr1 & !USART_CR1_SBK
    ensures cr1 & USART_CR1_SBK == 0 ==> CorrectedBreakClearCr1(BreakSetCr1(cr1)) == cr1
  {
    SbkCleared(cr1);
    ClearKeepsOthers(cr1);
    ClearUndoesSet(cr1);
  }

  lemma SbkCleared(cr1: bv16)
    ensures CorrectedBreakClearCr1(cr1) & USART_CR1_SBK == 0
  {
  }

  lemma ClearKeepsOthers(cr1: bv16)
    ensures CorrectedBreakClearCr1(cr1) & !USART_CR1_SBK == cr1 & !USART_CR1_SBK
  {
  }

  lemma ClearUndoesSet(cr1: bv16)
    ensures cr1 & USART_CR1_SBK == 0 ==> CorrectedBreakClearCr1(BreakSetCr1(cr1)) == cr1
  {
  }
}
