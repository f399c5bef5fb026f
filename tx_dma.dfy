/** The transmit channel: descriptor 3 setup, the channel-table pointer and
    arming (uart.c:111-148), and hub-telemetry reception (uart.c:150-172). */
module UartDma {
  import opened Bits
  import opened Dma
  import opened Config
  import opened Registers

  /** The DMA channel, and index into `dma_config[]`, used for transmission. */
  const TX_CHANNEL: nat := 3

  /** The fields of descriptor 3 that uart_init fixes for good: low priority,
      7-bit M8, no interrupt, single-mode byte transfers triggered by the
      instance's UTX, to the instance's UxDBUF, `LEN` bytes, source increment
      1, destination increment 0. */
  predicate TxChannelSetup(h: Header, u: Usart, d: Descriptor) {
    && d.priority == h.dmaPriLow && d.m8 == h.dmaM8Use7Bits && d.irqMask == h.dmaIrqMaskDisable
    && d.trig == h.TrigUtx(u) && d.tMode == h.dmaTModeSingle && d.wordSize == h.dmaWordSizeByte
    && d.WordOf(DESTADDR) == h.DbufAddr(u) && d.vlen == h.dmaVLenUseLen
    && d.srcInc == h.dmaSrcInc1 && d.destInc == h.dmaDestInc0
  }

  /** Descriptor 3 as uart_init leaves it: set up, source and length still 0. */
  predicate TxDescriptorReady(h: Header, u: Usart, d: Descriptor) {
    TxChannelSetup(h, u, d) && d.WordOf(SRCADDR) == 0 && d.WordOf(LEN) == 0
  }

  /** The writes to `dma_config[3]` (uart.c:111-138), in program order. */
  function SetupTxDescriptor(h: Header, u: Usart, s: HwState): (s': HwState)
    requires |s.desc| > TX_CHANNEL
  {
    var s1 := s.WriteDesc(TX_CHANNEL, PRIORITY, h.dmaPriLow);
    var s2 := s1.WriteDesc(TX_CHANNEL, M8, h.dmaM8Use7Bits);
    var s3 := s2.WriteDesc(TX_CHANNEL, IRQMASK, h.dmaIrqMaskDisable);
    var s4 := s3.WriteDesc(TX_CHANNEL, TRIG, h.TrigUtx(u));
    var s5 := s4.WriteDesc(TX_CHANNEL, TMODE, h.dmaTModeSingle);
    var s6 := s5.WriteDesc(TX_CHANNEL, WORDSIZE, h.dmaWordSizeByte);
    var s7 := s6.WriteDescWord(TX_CHANNEL, SRCADDR, 0);
    var s8 := s7.WriteDescWord(TX_CHANNEL, DESTADDR, h.DbufAddr(u));
    var s9 := s8.WriteDesc(TX_CHANNEL, VLEN, h.dmaVLenUseLen);
    var s10 := s9.WriteDescWord(TX_CHANNEL, LEN, 0);
    var s11 := s10.WriteDesc(TX_CHANNEL, SRCINC, h.dmaSrcInc1);
    s11.WriteDesc(TX_CHANNEL, DESTINC, h.dmaDestInc0)
  }

  /** Every field of descriptor 3 gets its value; the other descriptors are
      untouched. */
  lemma SetupTxDescriptorBits(h: Header, u: Usart, s: HwState)
    requires |s.desc| > TX_CHANNEL
    ensures var s' := SetupTxDescriptor(h, u, s);
      && |s'.desc| == |s.desc| && TxDescriptorReady(h, u, s'.desc[TX_CHANNEL])
      && (forall j :: 0 <= j < |s.desc| && j != TX_CHANNEL ==> s'.desc[j] == s.desc[j])
  {
  }

  /** The descriptor writes change no register and no flag. */
  lemma SetupTxDescriptorFrame(h: Header, u: Usart, s: HwState)
    requires |s.desc| > TX_CHANNEL
    ensures SetupTxDescriptor(h, u, s).regs == s.regs && SetupTxDescriptor(h, u, s).flags == s.flags
  {
  }

  /** The twelve writes, in program order. */
  lemma SetupTxDescriptorTrace(h: Header, u: Usart, s: HwState)
    requires |s.desc| > TX_CHANNEL
    ensures SetupTxDescriptor(h, u, s).trace == s.trace + [
           DescBits(3, PRIORITY, h.dmaPriLow), DescBits(3, M8, h.dmaM8Use7Bits),
           DescBits(3, IRQMASK, h.dmaIrqMaskDisable), DescBits(3, TRIG, h.TrigUtx(u)),
           DescBits(3, TMODE, h.dmaTModeSingle), DescBits(3, WORDSIZE, h.dmaWordSizeByte),
           DescWord(3, SRCADDR, 0), DescWord(3, DESTADDR, h.DbufAddr(u)),
           DescBits(3, VLEN, h.dmaVLenUseLen), DescWord(3, LEN, 0),
           DescBits(3, SRCINC, h.dmaSrcInc1), DescBits(3, DESTINC, h.dmaDestInc0)]
  {
  }

  /** `SET_WORD(DMA1CFGH, DMA1CFGL, &dma_config[1])` (uart.c:142). */
  function PointChannels(h: Header, s: HwState): (s': HwState) {
    s.WriteWord(DMA1CFGH, DMA1CFGL, h.dmaConfig1Addr)
  }

  /** DMA1CFGH:DMA1CFGL point at `dma_config[1]`. */
  lemma PointChannelsBits(h: Header, s: HwState)
    ensures var s' := PointChannels(h, s);
      Word(s'.regs.dma1CfgH, s'.regs.dma1CfgL) == h.dmaConfig1Addr
  {
    SplitWord(h.dmaConfig1Addr);
  }

  /** Nothing else changes, and the pair is written as one SET_WORD. */
  lemma PointChannelsFrame(h: Header, s: HwState)
    ensures var s' := PointChannels(h, s);
      s'.regs == s.regs.(dma1CfgH := s'.regs.dma1CfgH, dma1CfgL := s'.regs.dma1CfgL)
    ensures PointChannels(h, s).flags == s.flags && PointChannels(h, s).desc == s.desc
    ensures PointChannels(h, s).trace == s.trace + [SfrWord(DMA1CFGH, DMA1CFGL, h.dmaConfig1Addr)]
  {
  }

  /** `DMAARM |= DMA_ARM_CH3; delay_45nop();` (uart.c:147-148 and 222-225). */
  function Arm(h: Header, s: HwState): (s': HwState) {
    s.Write(DMAARM, SetBits(s.Get(DMAARM), h.dmaArmCh3)).Delay()
  }

  /** Channel 3's arm bit is set and no other bit of DMAARM changes. */
  lemma ArmBits(h: Header, s: HwState)
    ensures SetsOnly(s.regs.dmaArm, Arm(h, s).regs.dmaArm, h.dmaArmCh3)
  {
    SetBitsSetsOnly(s.regs.dmaArm, h.dmaArmCh3);
  }

  /** Only DMAARM changes; the write is followed by the delay. */
  lemma ArmFrame(h: Header, s: HwState)
    ensures var s' := Arm(h, s);
      s'.regs == s.regs.(dmaArm := s'.regs.dmaArm)
    ensures Arm(h, s).flags == s.flags && Arm(h, s).desc == s.desc
    ensures Arm(h, s).trace == s.trace + [Sfr(DMAARM, Arm(h, s).regs.dmaArm), Delay45]
  {
  }

  // ------------------------------------------------------ telemetry reception

  /** Hub telemetry on the TX UART (uart.c:150-172). */
  function Telemetry(h: Header, on: bool, s: HwState): (s': HwState) {
    if !on then s
    else
      var s1 := s.WriteFlag(URXxIF, false);
      var s2 := s1.Write(UxCSR, SetBits(s1.Get(UxCSR), h.csrRxEnable));
      var s3 := s2.WriteFlag(URXxIE, true);
      s3.WriteFlag(EA, true)
  }

  /** With the flag set: the pending receive flag is cleared, the receiver
      enabled, and the receive interrupt and the global interrupt enabled.
      Without it nothing happens. */
  lemma TelemetryBits(h: Header, on: bool, s: HwState)
    ensures var s' := Telemetry(h, on, s);
      && (on ==> !s'.GetFlag(URXxIF) && s'.GetFlag(URXxIE) && s'.GetFlag(EA))
      && (on ==> SetsOnly(s.regs.csr, s'.regs.csr, h.csrRxEnable))
      && (!on ==> s' == s)
  {
    SetBitsSetsOnly(s.regs.csr, h.csrRxEnable);
  }

  /** Of the registers only UxCSR changes. */
  lemma TelemetryFrame(h: Header, on: bool, s: HwState)
    ensures var s' := Telemetry(h, on, s);
      s'.regs == s.regs.(csr := s'.regs.csr) && s'.desc == s.desc
  {
  }

  /** The flag is cleared before reception is enabled, and the receive
      interrupt is enabled before the global interrupt. */
  lemma TelemetryTrace(h: Header, s: HwState)
    ensures var s' := Telemetry(h, true, s);
      s'.trace == s.trace + [Bit(URXxIF, false), Sfr(UxCSR, s'.regs.csr), Bit(URXxIE, true), Bit(EA, true)]
  {
  }
}
