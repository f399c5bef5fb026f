/** uart_init (uart.c:27-173) as the sequence of its steps, and what the
    hardware looks like once it has run. */
module UartInit {
  import opened Bits
  import opened FrameFormat
  import opened Dma
  import opened Config
  import opened Registers
  import opened UartPins
  import opened UartMode
  import opened UartDma
  import opened UartStart

  /** The frame format uart_init hands to uart_set_mode, as the union's byte. */
  function InitFormat(h: Header, b: Build): (cfg: bv8) {
    Pack(Preset(b.uartInverted), h.layout)
  }

  /** The hardware after the first steps of uart_init: the pins (uart.c:30-72). */
  function AfterPins(h: Header, b: Build, s: HwState): (s': HwState)
    requires Supported(b.txUart)
  {
    PinMux(h, b.txUart, s)
  }

  /** ... then the baud rate (uart.c:75-81). */
  function AfterBaud(h: Header, b: Build, s: HwState): (s': HwState)
    requires Supported(b.txUart)
  {
    Baud(h, AfterPins(h, b, s))
  }

  /** ... then the frame format (uart.c:84-106). */
  function AfterMode(h: Header, b: Build, s: HwState): (s': HwState)
    requires Supported(b.txUart)
  {
    SetMode(h, b.Usart(), AfterBaud(h, b, s), InitFormat(h, b))
  }

  /** The rest of uart_init from the state `s`: descriptor 3 (uart.c:111-138),
      the channel-table pointer and arming (uart.c:142-148), and telemetry
      reception if `on` (uart.c:150-172). */
  function Tail(h: Header, u: Usart, on: bool, s: HwState): (t: HwState)
    requires |s.desc| > TX_CHANNEL
  {
    Telemetry(h, on, Arm(h, PointChannels(h, SetupTxDescriptor(h, u, s))))
  }

  /** uart_init for the build `b`: pins, baud rate, frame format, descriptor 3,
      the channel-table pointer, arming, and telemetry reception if enabled. */
  function Init(h: Header, b: Build, s: HwState): (s': HwState)
    requires Supported(b.txUart) && |s.desc| > TX_CHANNEL
  {
    HeadKeeps(h, b, s);
    Tail(h, b.Usart(), b.hubTelemetryOnTxUart, AfterMode(h, b, s))
  }

  /** The pins, the baud rate and the frame format leave the descriptors, the
      flags, DMAARM alone. */
  lemma HeadKeeps(h: Header, b: Build, s: HwState)
    requires Supported(b.txUart)
    ensures var s3 := AfterMode(h, b, s);
      s3.desc == s.desc && s3.flags == s.flags && s3.regs.dmaArm == s.regs.dmaArm
  {
    PinMuxKeeps(h, b.txUart, s);
    BaudKeeps(h, AfterPins(h, b, s));
    SetModeKeeps(h, b.Usart(), AfterBaud(h, b, s), InitFormat(h, b));
  }

  /** The rest of uart_init writes DMA1CFG, DMAARM and UxCSR and, with
      telemetry on, clears URXxIF and sets URXxIE and EA. */
  lemma TailFrame(h: Header, u: Usart, on: bool, s: HwState)
    requires |s.desc| > TX_CHANNEL
    ensures var t := Tail(h, u, on, s);
      && t.regs == s.regs.(dma1CfgH := t.regs.dma1CfgH, dma1CfgL := t.regs.dma1CfgL,
                           dmaArm := t.regs.dmaArm, csr := t.regs.csr)
      && (!on ==> t.flags == s.flags)
  {
    var s4 := SetupTxDescriptor(h, u, s);
    var s5 := PointChannels(h, s4);
    SetupTxDescriptorFrame(h, u, s);
    PointChannelsFrame(h, s4);
    ArmFrame(h, s5);
    TelemetryFrame(h, on, Arm(h, s5));
    TelemetryBits(h, on, Arm(h, s5));
  }

  /** In particular the pin, baud-rate and frame-format registers are left
      alone. */
  lemma TailKeeps(h: Header, u: Usart, on: bool, s: HwState)
    requires |s.desc| > TX_CHANNEL
    ensures var t := Tail(h, u, on, s);
      && t.regs.percfg == s.regs.percfg && t.regs.p0sel == s.regs.p0sel && t.regs.p1sel == s.regs.p1sel
      && t.regs.p0dir == s.regs.p0dir && t.regs.p1dir == s.regs.p1dir && t.regs.p2dir == s.regs.p2dir
      && t.regs.baud == s.regs.baud && t.regs.gcr == s.regs.gcr && t.regs.ucr == s.regs.ucr
      && t.regs.ip0 == s.regs.ip0 && t.regs.ip1 == s.regs.ip1
  {
    TailFrame(h, u, on, s);
  }

  /** Descriptor 3 ends up ready and no other descriptor changes. */
  lemma TailDescriptor(h: Header, u: Usart, on: bool, s: HwState)
    requires |s.desc| > TX_CHANNEL
    ensures var t := Tail(h, u, on, s);
      && |t.desc| == |s.desc| && TxDescriptorReady(h, u, t.desc[TX_CHANNEL])
      && (forall j :: 0 <= j < |s.desc| && j != TX_CHANNEL ==> t.desc[j] == s.desc[j])
  {
    var s4 := SetupTxDescriptor(h, u, s);
    var s5 := PointChannels(h, s4);
    SetupTxDescriptorBits(h, u, s);
    PointChannelsFrame(h, s4);
    ArmFrame(h, s5);
    TelemetryFrame(h, on, Arm(h, s5));
  }

  /** DMA1CFGH:DMA1CFGL point at `dma_config[1]`. */
  lemma TailPointer(h: Header, u: Usart, on: bool, s: HwState)
    requires |s.desc| > TX_CHANNEL
    ensures var t := Tail(h, u, on, s);
      Word(t.regs.dma1CfgH, t.regs.dma1CfgL) == h.dmaConfig1Addr
  {
    var s5 := PointChannels(h, SetupTxDescriptor(h, u, s));
    PointChannelsBits(h, SetupTxDescriptor(h, u, s));
    ArmFrame(h, s5);
    TelemetryFrame(h, on, Arm(h, s5));
  }

  /** The arm bit of channel 3 is set and no other bit of DMAARM changes. */
  lemma TailArm(h: Header, u: Usart, on: bool, s: HwState)
    requires |s.desc| > TX_CHANNEL
    ensures SetsOnly(s.regs.dmaArm, Tail(h, u, on, s).regs.dmaArm, h.dmaArmCh3)
  {
    var s4 := SetupTxDescriptor(h, u, s);
    var s5 := PointChannels(h, s4);
    SetupTxDescriptorFrame(h, u, s);
    PointChannelsFrame(h, s4);
    ArmBits(h, s5);
    TelemetryFrame(h, on, Arm(h, s5));
  }

  /** Telemetry reception sets the receiver-enable bits of UxCSR, clears
      URXxIF and sets URXxIE and EA; without it UxCSR and the flags stay as
      they are. */
  lemma TailReceive(h: Header, u: Usart, on: bool, s: HwState)
    requires |s.desc| > TX_CHANNEL
    ensures var t := Tail(h, u, on, s);
      && (on ==> !t.GetFlag(URXxIF) && t.GetFlag(URXxIE) && t.GetFlag(EA))
      && (!on ==> t.flags == s.flags)
      && SetsOnly(s.regs.csr, t.regs.csr, if on then h.csrRxEnable else 0)
  {
    var s4 := SetupTxDescriptor(h, u, s);
    var s5 := PointChannels(h, s4);
    SetupTxDescriptorFrame(h, u, s);
    PointChannelsFrame(h, s4);
    ArmFrame(h, s5);
    TelemetryBits(h, on, Arm(h, s5));
    if !on {
      SetsOnlyNone(s.regs.csr);
    }
  }

  /** What the rest of uart_init leaves alone ends up as uart_set_mode left
      it. */
  lemma InitKeepsMode(h: Header, b: Build, s: HwState)
    requires Supported(b.txUart) && |s.desc| > TX_CHANNEL
    ensures var t, s3 := Init(h, b, s), AfterMode(h, b, s);
      && t.regs.percfg == s3.regs.percfg && t.regs.p0sel == s3.regs.p0sel && t.regs.p1sel == s3.regs.p1sel
      && t.regs.p0dir == s3.regs.p0dir && t.regs.p1dir == s3.regs.p1dir && t.regs.p2dir == s3.regs.p2dir
      && t.regs.baud == s3.regs.baud && t.regs.gcr == s3.regs.gcr && t.regs.ucr == s3.regs.ucr
      && t.regs.ip0 == s3.regs.ip0 && t.regs.ip1 == s3.regs.ip1
  {
    TailKeeps(h, b.Usart(), b.hubTelemetryOnTxUart, AfterMode(h, b, s));
  }

  /** The pin registers end up as the pin multiplexing for TX_UART left them:
      nothing after it in uart_init writes them. */
  lemma InitPinMux(h: Header, b: Build, s: HwState)
    requires Supported(b.txUart) && |s.desc| > TX_CHANNEL
    ensures var t, p := Init(h, b, s), PinMux(h, b.txUart, s);
      && t.regs.percfg == p.regs.percfg && t.regs.p0sel == p.regs.p0sel && t.regs.p1sel == p.regs.p1sel
      && t.regs.p0dir == p.regs.p0dir && t.regs.p1dir == p.regs.p1dir && t.regs.p2dir == p.regs.p2dir
  {
    InitKeepsMode(h, b, s);
    ModeKeepsPins(h, b, s);
  }

  /** Neither the baud rate nor uart_set_mode writes a pin register. */
  lemma ModeKeepsPins(h: Header, b: Build, s: HwState)
    requires Supported(b.txUart)
    ensures var s3, p := AfterMode(h, b, s), PinMux(h, b.txUart, s);
      && s3.regs.percfg == p.regs.percfg && s3.regs.p0sel == p.regs.p0sel && s3.regs.p1sel == p.regs.p1sel
      && s3.regs.p0dir == p.regs.p0dir && s3.regs.p1dir == p.regs.p1dir && s3.regs.p2dir == p.regs.p2dir
  {
    SetModeKeeps(h, b.Usart(), AfterBaud(h, b, s), InitFormat(h, b));
    BaudKeeps(h, AfterPins(h, b, s));
  }

  /** UxBAUD holds the 115200-baud mantissa and the low five bits of UxGCR the
      exponent, as long as the instance's ORDER bit is not one of those five. */
  lemma InitBaud(h: Header, b: Build, s: HwState)
    requires Supported(b.txUart) && |s.desc| > TX_CHANNEL
    requires h.GcrOrder(b.Usart()) & 0x1F == 0
    ensures var s' := Init(h, b, s);
      s'.regs.baud == h.baudM && s'.regs.gcr & 0x1F == h.baudE & 0x1F
  {
    InitKeepsMode(h, b, s);
    ModeBaud(h, b, s);
  }

  /** The same, just after uart_set_mode. */
  lemma ModeBaud(h: Header, b: Build, s: HwState)
    requires Supported(b.txUart)
    requires h.GcrOrder(b.Usart()) & 0x1F == 0
    ensures var s3 := AfterMode(h, b, s);
      s3.regs.baud == h.baudM && s3.regs.gcr & 0x1F == h.baudE & 0x1F
  {
    var s2 := AfterBaud(h, b, s);
    SetModeKeeps(h, b.Usart(), s2, InitFormat(h, b));
    SetModeLowGcr(h, b.Usart(), s2, InitFormat(h, b));
    BaudBits(h, AfterPins(h, b, s));
  }

  /** The frame format reaches the instance: UxUCR holds the preset's byte
      without bit 7, so each field placed below bit 7 reads as the preset has
      it. */
  lemma InitFrameFormat(h: Header, b: Build, s: HwState)
    requires Supported(b.txUart) && |s.desc| > TX_CHANNEL && h.layout.Distinct()
    ensures var ucr, c := Init(h, b, s).regs.ucr, Preset(b.uartInverted);
      && ucr == InitFormat(h, b) & 0x7F
      && forall f :: h.layout.Pos(f) < 7 ==> BitOf(ucr, h.layout.Pos(f)) == c.Get(f)
  {
    InitKeepsMode(h, b, s);
    SetModeUcr(h, b.Usart(), AfterBaud(h, b, s), InitFormat(h, b));
    InitFormatFields(h, b);
  }

  /** The fields of the preset below bit 7 are those bits of its byte. */
  lemma InitFormatFields(h: Header, b: Build)
    requires h.layout.Distinct()
    ensures forall f :: h.layout.Pos(f) < 7 ==>
      BitOf(InitFormat(h, b) & 0x7F, h.layout.Pos(f)) == Preset(b.uartInverted).Get(f)
  {
    UcrFields(InitFormat(h, b), h.layout);
    UnpackPack(Preset(b.uartInverted), h.layout);
  }

  /** ORDER is clear in UxGCR, so data goes out LSB first, and the instance's
      interrupt priority bit is set in IP0 and clear in IP1. */
  lemma InitOrderAndPriority(h: Header, b: Build, s: HwState)
    requires Supported(b.txUart) && |s.desc| > TX_CHANNEL && h.layout.Distinct()
    ensures var s', u := Init(h, b, s), b.Usart();
      && s'.regs.gcr & h.GcrOrder(u) == 0
      && s'.regs.ip0 & IpBit(u) == IpBit(u) && s'.regs.ip1 & IpBit(u) == 0
  {
    InitKeepsMode(h, b, s);
    SetModeOrderPriority(h, b.Usart(), AfterBaud(h, b, s), InitFormat(h, b));
    InitFormatOrder(h, b);
  }

  /** The preset's ORDER field is 0, so its byte has the ORDER bit clear. */
  lemma InitFormatOrder(h: Header, b: Build)
    requires h.layout.Distinct()
    ensures !BitOf(InitFormat(h, b), h.layout.order)
  {
    assert h.layout.Pos(ORDER) == h.layout.order;
  }

  /** Descriptor 3 is ready for uart_start_transmission and no other
      descriptor changes; DMA1CFGH:DMA1CFGL point at `dma_config[1]`; the arm
      bit of channel 3 is set and no other bit of DMAARM changes. */
  lemma InitTxDescriptor(h: Header, b: Build, s: HwState)
    requires Supported(b.txUart) && |s.desc| > TX_CHANNEL
    ensures var s' := Init(h, b, s);
      && |s'.desc| == |s.desc| && TxDescriptorReady(h, b.Usart(), s'.desc[TX_CHANNEL])
      && (forall j :: 0 <= j < |s.desc| && j != TX_CHANNEL ==> s'.desc[j] == s.desc[j])
      && Word(s'.regs.dma1CfgH, s'.regs.dma1CfgL) == h.dmaConfig1Addr
      && SetsOnly(s.regs.dmaArm, s'.regs.dmaArm, h.dmaArmCh3)
  {
    var s3 := AfterMode(h, b, s);
    HeadKeeps(h, b, s);
    TailDescriptor(h, b.Usart(), b.hubTelemetryOnTxUart, s3);
    TailPointer(h, b.Usart(), b.hubTelemetryOnTxUart, s3);
    TailArm(h, b.Usart(), b.hubTelemetryOnTxUart, s3);
  }

  /** With HUB_TELEMETRY_ON_TX_UART the receive flag ends clear and the receive
      and global interrupts enabled, and UxCSR has the UART-mode bit and the
      receiver-enable bits set; without it no flag changes and UxCSR gets only
      the UART-mode bit. Either way no other bit of UxCSR changes. */
  lemma InitTelemetry(h: Header, b: Build, s: HwState)
    requires Supported(b.txUart) && |s.desc| > TX_CHANNEL
    ensures var s', on := Init(h, b, s), b.hubTelemetryOnTxUart;
      && (on ==> !s'.GetFlag(URXxIF) && s'.GetFlag(URXxIE) && s'.GetFlag(EA))
      && (!on ==> forall f :: s'.GetFlag(f) == s.GetFlag(f))
      && SetsOnly(s.regs.csr, s'.regs.csr, if on then 0x80 | h.csrRxEnable else 0x80)
  {
    var on, s1, s2, s3 := b.hubTelemetryOnTxUart, AfterPins(h, b, s), AfterBaud(h, b, s), AfterMode(h, b, s);
    HeadKeeps(h, b, s);
    PinMuxKeeps(h, b.txUart, s);
    BaudKeeps(h, s1);
    SetModeCsr(h, b.Usart(), s2, InitFormat(h, b));
    TailReceive(h, b.Usart(), on, s3);
    SetsOnlyThen(s.regs.csr, s3.regs.csr, Init(h, b, s).regs.csr, 0x80, if on then h.csrRxEnable else 0);
  }

  /** A transmission started right after uart_init puts `data[0..len]` on the
      wire, `len + 1` bytes in order. */
  lemma InitThenStart(h: Header, b: Build, s: HwState, mem: seq<bv8>, data: Word16, len: Byte)
    requires Supported(b.txUart) && |s.desc| > TX_CHANNEL && |mem| == MEMORY_SIZE
    requires h.dmaArmCh3 != 0 && data + len < MEMORY_SIZE
    ensures WireBytes(h, b.Usart(), StartTransmission(h, b.Usart(), Init(h, b, s), mem, data, len), mem)
            == Some(mem[data..data + len + 1])
  {
    InitTxDescriptor(h, b, s);
    StartSendsFrame(h, b.Usart(), Init(h, b, s), mem, data, len);
  }
}
