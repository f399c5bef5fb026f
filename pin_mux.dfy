/** uart_init's pin multiplexing and baud-rate setup (uart.c:30-81). */
module UartPins {
  import opened Bits
  import opened Config
  import opened Registers

  /** `P2DIR = (P2DIR & 0x3F) | 0b01000000`: bits 7:6 become 01, bits 5:0 are kept. */
  predicate Usart1First(before: bv8, after: bv8) {
    after & 0xC0 == 0x40 && after & 0x3F == before & 0x3F
  }

  lemma MergeUsart1First(r: bv8)
    ensures Usart1First(r, Merge(r, 0x3F, 0x40))
  {
  }

  /** Pin multiplexing and direction for the selected TX_UART (uart.c:30-72). */
  function PinMux(h: Header, t: TxUart, s: HwState): (s': HwState)
    requires Supported(t)
  {
    match t
    case USART0_P1 => PinMuxUsart0P1(h, s)
    case USART1_P0 => PinMuxUsart1P0(h, s)
    case USART1_P1 => PinMuxUsart1P1(h, s)
  }

  /** Whatever TX_UART selects, the pin multiplexing writes pin registers
      only. */
  lemma PinMuxFrame(h: Header, t: TxUart, s: HwState)
    requires Supported(t)
    ensures var s' := PinMux(h, t, s);
      s'.regs == s.regs.(percfg := s'.regs.percfg, p0sel := s'.regs.p0sel, p1sel := s'.regs.p1sel,
                         p0dir := s'.regs.p0dir, p1dir := s'.regs.p1dir, p2dir := s'.regs.p2dir)
    ensures PinMux(h, t, s).flags == s.flags && PinMux(h, t, s).desc == s.desc
  {
    match t
    case USART0_P1 => PinMuxUsart0P1Frame(h, s);
    case USART1_P0 => PinMuxUsart1P0Frame(h, s);
    case USART1_P1 => PinMuxUsart1P1Frame(h, s);
  }

  /** In particular UxCSR, DMAARM, the flags and the descriptors are left
      alone. */
  lemma PinMuxKeeps(h: Header, t: TxUart, s: HwState)
    requires Supported(t)
    ensures var s' := PinMux(h, t, s);
      && s'.regs.csr == s.regs.csr && s'.regs.dmaArm == s.regs.dmaArm
      && s'.flags == s.flags && s'.desc == s.desc
  {
    PinMuxFrame(h, t, s);
  }

  /** USART0 on port 1, alternative 2 (uart.c:30-42): TX on P1_5, RX on P1_4,
      all of P0_2..P0_5 back to GPIO. */
  function PinMuxUsart0P1(h: Header, s: HwState): (s': HwState) {
    var s1 := s.Write(PERCFG, SetBits(s.Get(PERCFG), h.percfgU0Cfg));
    var s2 := s1.Write(P1SEL, SetBits(s1.Get(P1SEL), OneHot(5) | OneHot(4)));
    var s3 := s2.Write(P0SEL, ClearBits(s2.Get(P0SEL), 0x3C));
    s3.Write(P1DIR, SetBits(s3.Get(P1DIR), OneHot(5)))
  }

  /** PERCFG gets U0CFG, P1SEL bits 5 and 4 and P1DIR bit 5 are set, P0SEL
      bits 5..2 are cleared; every other bit of the four stays as it was. */
  lemma PinMuxUsart0P1Bits(h: Header, s: HwState)
    ensures var s' := PinMuxUsart0P1(h, s);
      && SetsOnly(s.regs.percfg, s'.regs.percfg, h.percfgU0Cfg)
      && SetsOnly(s.regs.p1sel, s'.regs.p1sel, 0x30)
      && ClearsOnly(s.regs.p0sel, s'.regs.p0sel, 0x3C)
      && SetsOnly(s.regs.p1dir, s'.regs.p1dir, 0x20)
  {
    PinMuxUsart0P1Values(h, s);
    SetBitsSetsOnly(s.regs.percfg, h.percfgU0Cfg);
    SetBitsSetsOnly(s.regs.p1sel, 0x30);
    ClearBitsClearsOnly(s.regs.p0sel, 0x3C);
    SetBitsSetsOnly(s.regs.p1dir, 0x20);
  }

  /** Each of the four registers is written once, from its own old value. */
  lemma PinMuxUsart0P1Values(h: Header, s: HwState)
    ensures var s' := PinMuxUsart0P1(h, s);
      && s'.regs.percfg == SetBits(s.regs.percfg, h.percfgU0Cfg)
      && s'.regs.p1sel == SetBits(s.regs.p1sel, 0x30)
      && s'.regs.p0sel == ClearBits(s.regs.p0sel, 0x3C)
      && s'.regs.p1dir == SetBits(s.regs.p1dir, 0x20)
  {
  }

  /** Only those four registers change. */
  lemma PinMuxUsart0P1Frame(h: Header, s: HwState)
    ensures var s' := PinMuxUsart0P1(h, s);
      s'.regs == s.regs.(percfg := s'.regs.percfg, p1sel := s'.regs.p1sel, p0sel := s'.regs.p0sel, p1dir := s'.regs.p1dir)
    ensures PinMuxUsart0P1(h, s).flags == s.flags && PinMuxUsart0P1(h, s).desc == s.desc
  {
  }

  /** The four writes, in program order. */
  lemma PinMuxUsart0P1Trace(h: Header, s: HwState)
    ensures var s' := PinMuxUsart0P1(h, s);
      s'.trace == s.trace + [Sfr(PERCFG, s'.regs.percfg), Sfr(P1SEL, s'.regs.p1sel),
                               Sfr(P0SEL, s'.regs.p0sel), Sfr(P1DIR, s'.regs.p1dir)]
  {
  }

  /** USART1 on port 0, alternative 1 (uart.c:43-57): TX on P0_4, RX on P0_5,
      USART1 given priority on port 2. */
  function PinMuxUsart1P0(h: Header, s: HwState): (s': HwState) {
    var s1 := s.Write(PERCFG, ClearBits(s.Get(PERCFG), h.percfgU1Cfg));
    var s2 := s1.Write(P2DIR, Merge(s1.Get(P2DIR), 0x3F, 0x40));
    var s3 := s2.Write(P0SEL, SetBits(s2.Get(P0SEL), OneHot(4) | OneHot(5)));
    s3.Write(P0DIR, SetBits(s3.Get(P0DIR), OneHot(4)))
  }

  /** PERCFG loses U1CFG, P2DIR bits 7:6 become 01, P0SEL bits 4 and 5 and
      P0DIR bit 4 are set; every other bit of the four stays as it was. */
  lemma PinMuxUsart1P0Bits(h: Header, s: HwState)
    ensures var s' := PinMuxUsart1P0(h, s);
      && ClearsOnly(s.regs.percfg, s'.regs.percfg, h.percfgU1Cfg)
      && Usart1First(s.regs.p2dir, s'.regs.p2dir)
      && SetsOnly(s.regs.p0sel, s'.regs.p0sel, 0x30)
      && SetsOnly(s.regs.p0dir, s'.regs.p0dir, 0x10)
  {
    PinMuxUsart1P0Values(h, s);
    ClearBitsClearsOnly(s.regs.percfg, h.percfgU1Cfg);
    MergeUsart1First(s.regs.p2dir);
    SetBitsSetsOnly(s.regs.p0sel, 0x30);
    SetBitsSetsOnly(s.regs.p0dir, 0x10);
  }

  /** Each of the four registers is written once, from its own old value. */
  lemma PinMuxUsart1P0Values(h: Header, s: HwState)
    ensures var s' := PinMuxUsart1P0(h, s);
      && s'.regs.percfg == ClearBits(s.regs.percfg, h.percfgU1Cfg)
      && s'.regs.p2dir == Merge(s.regs.p2dir, 0x3F, 0x40)
      && s'.regs.p0sel == SetBits(s.regs.p0sel, 0x30)
      && s'.regs.p0dir == SetBits(s.regs.p0dir, 0x10)
  {
  }

  /** Only those four registers change. */
  lemma PinMuxUsart1P0Frame(h: Header, s: HwState)
    ensures var s' := PinMuxUsart1P0(h, s);
      s'.regs == s.regs.(percfg := s'.regs.percfg, p2dir := s'.regs.p2dir, p0sel := s'.regs.p0sel, p0dir := s'.regs.p0dir)
    ensures PinMuxUsart1P0(h, s).flags == s.flags && PinMuxUsart1P0(h, s).desc == s.desc
  {
  }

  /** The four writes, in program order. */
  lemma PinMuxUsart1P0Trace(h: Header, s: HwState)
    ensures var s' := PinMuxUsart1P0(h, s);
      s'.trace == s.trace + [Sfr(PERCFG, s'.regs.percfg), Sfr(P2DIR, s'.regs.p2dir),
                               Sfr(P0SEL, s'.regs.p0sel), Sfr(P0DIR, s'.regs.p0dir)]
  {
  }

  /** USART1 on port 1, alternative 2 (uart.c:58-69): TX on P1_6, RX on P1_7,
      USART1 given priority on port 2. */
  function PinMuxUsart1P1(h: Header, s: HwState): (s': HwState) {
    var s1 := s.Write(PERCFG, SetBits(s.Get(PERCFG), h.percfgU1Cfg));
    var s2 := s1.Write(P2DIR, Merge(s1.Get(P2DIR), 0x3F, 0x40));
    var s3 := s2.Write(P1SEL, SetBits(s2.Get(P1SEL), OneHot(6) | OneHot(7)));
    s3.Write(P1DIR, SetBits(s3.Get(P1DIR), OneHot(6)))
  }

  /** PERCFG gets U1CFG, P2DIR bits 7:6 become 01, P1SEL bits 6 and 7 and
      P1DIR bit 6 are set; every other bit of the four stays as it was. */
  lemma PinMuxUsart1P1Bits(h: Header, s: HwState)
    ensures var s' := PinMuxUsart1P1(h, s);
      && SetsOnly(s.regs.percfg, s'.regs.percfg, h.percfgU1Cfg)
      && Usart1First(s.regs.p2dir, s'.regs.p2dir)
      && SetsOnly(s.regs.p1sel, s'.regs.p1sel, 0xC0)
      && SetsOnly(s.regs.p1dir, s'.regs.p1dir, 0x40)
  {
    PinMuxUsart1P1Values(h, s);
    SetBitsSetsOnly(s.regs.percfg, h.percfgU1Cfg);
    MergeUsart1First(s.regs.p2dir);
    SetBitsSetsOnly(s.regs.p1sel, 0xC0);
    SetBitsSetsOnly(s.regs.p1dir, 0x40);
  }

  /** Each of the four registers is written once, from its own old value. */
  lemma PinMuxUsart1P1Values(h: Header, s: HwState)
    ensures var s' := PinMuxUsart1P1(h, s);
      && s'.regs.percfg == SetBits(s.regs.percfg, h.percfgU1Cfg)
      && s'.regs.p2dir == Merge(s.regs.p2dir, 0x3F, 0x40)
      && s'.regs.p1sel == SetBits(s.regs.p1sel, 0xC0)
      && s'.regs.p1dir == SetBits(s.regs.p1dir, 0x40)
  {
  }

  /** Only those four registers change. */
  lemma PinMuxUsart1P1Frame(h: Header, s: HwState)
    ensures var s' := PinMuxUsart1P1(h, s);
      s'.regs == s.regs.(percfg := s'.regs.percfg, p2dir := s'.regs.p2dir, p1sel := s'.regs.p1sel, p1dir := s'.regs.p1dir)
    ensures PinMuxUsart1P1(h, s).flags == s.flags && PinMuxUsart1P1(h, s).desc == s.desc
  {
  }

  /** The four writes, in program order. */
  lemma PinMuxUsart1P1Trace(h: Header, s: HwState)
    ensures var s' := PinMuxUsart1P1(h, s);
      s'.trace == s.trace + [Sfr(PERCFG, s'.regs.percfg), Sfr(P2DIR, s'.regs.p2dir),
                               Sfr(P1SEL, s'.regs.p1sel), Sfr(P1DIR, s'.regs.p1dir)]
  {
  }

  /** Baud rate (uart.c:75-81). */
  function Baud(h: Header, s: HwState): (s': HwState) {
    var s1 := s.Write(UxBAUD, h.baudM);
    s1.Write(UxGCR, Merge(s1.Get(UxGCR), !0x1F, h.baudE))
  }

  /** UxBAUD gets M, the low five bits of UxGCR get E; bits 7:5 of UxGCR are
      kept, plus any of E's own bits there. */
  lemma BaudBits(h: Header, s: HwState)
    ensures var s' := Baud(h, s);
      && s'.regs.baud == h.baudM
      && s'.regs.gcr & 0x1F == h.baudE & 0x1F
      && s'.regs.gcr & 0xE0 == (s.regs.gcr | h.baudE) & 0xE0
      && (h.baudE & 0xE0 == 0 ==> s'.regs.gcr & 0xE0 == s.regs.gcr & 0xE0)
  {
  }

  /** The baud-rate setup writes UxBAUD and UxGCR only. */
  lemma BaudFrame(h: Header, s: HwState)
    ensures var s' := Baud(h, s);
      s'.regs == s.regs.(baud := s'.regs.baud, gcr := s'.regs.gcr)
    ensures Baud(h, s).flags == s.flags && Baud(h, s).desc == s.desc
  {
  }

  /** In particular the pin registers, UxCSR, DMAARM, the flags and the
      descriptors are left alone. */
  lemma BaudKeeps(h: Header, s: HwState)
    ensures var s' := Baud(h, s);
      && s'.regs.percfg == s.regs.percfg && s'.regs.p0sel == s.regs.p0sel && s'.regs.p1sel == s.regs.p1sel
      && s'.regs.p0dir == s.regs.p0dir && s'.regs.p1dir == s.regs.p1dir && s'.regs.p2dir == s.regs.p2dir
      && s'.regs.csr == s.regs.csr && s'.regs.dmaArm == s.regs.dmaArm
      && s'.flags == s.flags && s'.desc == s.desc
  {
    BaudFrame(h, s);
  }

  /** UxBAUD is written first, then UxGCR. */
  lemma BaudTrace(h: Header, s: HwState)
    ensures Baud(h, s).trace == s.trace + [Sfr(UxBAUD, h.baudM), Sfr(UxGCR, Baud(h, s).regs.gcr)]
  {
  }
}
