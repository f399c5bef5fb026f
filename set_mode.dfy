/** uart_set_mode (uart.c:175-211). */
module UartMode {
  import opened Bits
  import opened FrameFormat
  import opened Config
  import opened Registers

  /** uart_set_mode (uart.c:175-211) for instance `u`; `cfg` is the byte view
      of the union `*cfg`, whose ORDER bit is read through the layout. */
  function SetMode(h: Header, u: Usart, s: HwState, cfg: bv8): (s': HwState) {
    ModeWrites(s, cfg & 0x7F, BitOf(cfg, h.layout.order), h.GcrOrder(u), IpBit(u))
  }

  /** The five writes of uart_set_mode, with the instance's ORDER mask and
      priority bit and the value of ORDER as parameters. */
  function ModeWrites(s: HwState, ucr: bv8, order: bool, orderMask: bv8, ipBit: bv8): (s': HwState) {
    var s1 := s.Write(UxCSR, SetBits(s.Get(UxCSR), 0x80));
    var s2 := s1.Write(UxUCR, ucr);
    var gcr := if order then SetBits(s2.Get(UxGCR), orderMask) else ClearBits(s2.Get(UxGCR), orderMask);
    var s3 := s2.Write(UxGCR, gcr);
    var s4 := s3.Write(IP0, SetBits(s3.Get(IP0), ipBit));
    s4.Write(IP1, ClearBits(s4.Get(IP1), ipBit))
  }

  /** Each register is written once, from its own old value. */
  lemma ModeWritesValues(s: HwState, ucr: bv8, order: bool, orderMask: bv8, ipBit: bv8)
    ensures var s' := ModeWrites(s, ucr, order, orderMask, ipBit);
      && s'.regs.csr == SetBits(s.regs.csr, 0x80)
      && s'.regs.ucr == ucr
      && s'.regs.gcr == (if order then SetBits(s.regs.gcr, orderMask) else ClearBits(s.regs.gcr, orderMask))
      && s'.regs.ip0 == SetBits(s.regs.ip0, ipBit)
      && s'.regs.ip1 == ClearBits(s.regs.ip1, ipBit)
  {
  }

  /** CSR gains MODE, UCR takes the format byte, the ORDER mask is set or
      cleared, the priority bit is set in IP0 and cleared in IP1. */
  lemma ModeWritesBits(s: HwState, ucr: bv8, order: bool, orderMask: bv8, ipBit: bv8)
    ensures var s' := ModeWrites(s, ucr, order, orderMask, ipBit);
      && SetsOnly(s.regs.csr, s'.regs.csr, 0x80)
      && s'.regs.ucr == ucr
      && (if order then SetsOnly(s.regs.gcr, s'.regs.gcr, orderMask)
          else ClearsOnly(s.regs.gcr, s'.regs.gcr, orderMask))
      && SetsOnly(s.regs.ip0, s'.regs.ip0, ipBit)
      && ClearsOnly(s.regs.ip1, s'.regs.ip1, ipBit)
  {
    ModeWritesValues(s, ucr, order, orderMask, ipBit);
    SetBitsSetsOnly(s.regs.csr, 0x80);
    if order {
      SetBitsSetsOnly(s.regs.gcr, orderMask);
    } else {
      ClearBitsClearsOnly(s.regs.gcr, orderMask);
    }
    SetBitsSetsOnly(s.regs.ip0, ipBit);
    ClearBitsClearsOnly(s.regs.ip1, ipBit);
  }

  /** No other register, flag or descriptor changes. */
  lemma ModeWritesFrame(s: HwState, ucr: bv8, order: bool, orderMask: bv8, ipBit: bv8)
    ensures var s' := ModeWrites(s, ucr, order, orderMask, ipBit);
      s'.regs == s.regs.(csr := s'.regs.csr, ucr := s'.regs.ucr, gcr := s'.regs.gcr, ip0 := s'.regs.ip0, ip1 := s'.regs.ip1)
    ensures var s' := ModeWrites(s, ucr, order, orderMask, ipBit);
      s'.flags == s.flags && s'.desc == s.desc
  {
  }

  /** The five writes appear once each, in program order. */
  lemma ModeWritesTrace(s: HwState, ucr: bv8, order: bool, orderMask: bv8, ipBit: bv8)
    ensures var s' := ModeWrites(s, ucr, order, orderMask, ipBit);
      s'.trace == s.trace + [Sfr(UxCSR, s'.regs.csr), Sfr(UxUCR, s'.regs.ucr),
                             Sfr(UxGCR, s'.regs.gcr), Sfr(IP0, s'.regs.ip0), Sfr(IP1, s'.regs.ip1)]
  {
  }

  /** Replaying the five writes on the state they produced writes every
      register the value it already holds. */
  lemma ModeWritesAgain(s: HwState, ucr: bv8, order: bool, orderMask: bv8, ipBit: bv8)
    ensures var once := ModeWrites(s, ucr, order, orderMask, ipBit);
      var twice := ModeWrites(once, ucr, order, orderMask, ipBit);
      twice.regs == once.regs && twice.flags == once.flags && twice.desc == once.desc
  {
    var once := ModeWrites(s, ucr, order, orderMask, ipBit);
    var s1 := s.Write(UxCSR, SetBits(s.Get(UxCSR), 0x80));
    var s2 := s1.Write(UxUCR, ucr);
    var gcr := if order then SetBits(s2.Get(UxGCR), orderMask) else ClearBits(s2.Get(UxGCR), orderMask);
    var s3 := s2.Write(UxGCR, gcr);
    var s4 := s3.Write(IP0, SetBits(s3.Get(IP0), ipBit));
    assert once == s4.Write(IP1, ClearBits(s4.Get(IP1), ipBit));

    SetBitsAgain(s.Get(UxCSR), 0x80);
    var t1 := once.Write(UxCSR, SetBits(once.Get(UxCSR), 0x80));
    WriteSame(once, UxCSR, SetBits(once.Get(UxCSR), 0x80));
    var t2 := t1.Write(UxUCR, ucr);
    WriteSame(t1, UxUCR, ucr);
    if order {
      SetBitsAgain(s2.Get(UxGCR), orderMask);
    } else {
      ClearBitsAgain(s2.Get(UxGCR), orderMask);
    }
    var gcr2 := if order then SetBits(t2.Get(UxGCR), orderMask) else ClearBits(t2.Get(UxGCR), orderMask);
    var t3 := t2.Write(UxGCR, gcr2);
    WriteSame(t2, UxGCR, gcr2);
    SetBitsAgain(s3.Get(IP0), ipBit);
    var t4 := t3.Write(IP0, SetBits(t3.Get(IP0), ipBit));
    WriteSame(t3, IP0, SetBits(t3.Get(IP0), ipBit));
    ClearBitsAgain(s4.Get(IP1), ipBit);
    WriteSame(t4, IP1, ClearBits(t4.Get(IP1), ipBit));
  }

  /** UxCSR gets the UART-mode bit 7; UxUCR gets the format without bit 7, so
      it holds every field that lives in bits 6..0; the ORDER bit of UxGCR
      follows the ORDER field; the instance's interrupt priority bit is set in
      IP0 and cleared in IP1. */
  lemma SetModeBits(h: Header, u: Usart, s: HwState, cfg: bv8)
    ensures var s' := SetMode(h, u, s, cfg);
      && SetsOnly(s.regs.csr, s'.regs.csr, 0x80)
      && s'.regs.ucr == cfg & 0x7F
      && (if Unpack(cfg, h.layout).order then SetsOnly(s.regs.gcr, s'.regs.gcr, h.GcrOrder(u))
          else ClearsOnly(s.regs.gcr, s'.regs.gcr, h.GcrOrder(u)))
      && SetsOnly(s.regs.ip0, s'.regs.ip0, IpBit(u))
      && ClearsOnly(s.regs.ip1, s'.regs.ip1, IpBit(u))
  {
    ModeWritesBits(s, cfg & 0x7F, BitOf(cfg, h.layout.order), h.GcrOrder(u), IpBit(u));
  }

  /** The frame-format fields in bits 6..0 reach UxUCR; bit 7 does not. */
  lemma SetModeFields(h: Header, u: Usart, s: HwState, cfg: bv8)
    ensures var ucr := SetMode(h, u, s, cfg).regs.ucr;
      && !BitOf(ucr, 7)
      && forall f :: h.layout.Pos(f) < 7 ==> BitOf(ucr, h.layout.Pos(f)) == Unpack(cfg, h.layout).Get(f)
  {
    SetModeBits(h, u, s, cfg);
    UcrFields(cfg, h.layout);
  }

  /** uart_set_mode touches nothing but its five registers. */
  lemma SetModeFrame(h: Header, u: Usart, s: HwState, cfg: bv8)
    ensures var s' := SetMode(h, u, s, cfg);
      s'.regs == s.regs.(csr := s'.regs.csr, ucr := s'.regs.ucr, gcr := s'.regs.gcr, ip0 := s'.regs.ip0, ip1 := s'.regs.ip1)
    ensures SetMode(h, u, s, cfg).flags == s.flags && SetMode(h, u, s, cfg).desc == s.desc
  {
    ModeWritesFrame(s, cfg & 0x7F, BitOf(cfg, h.layout.order), h.GcrOrder(u), IpBit(u));
  }

  /** In particular the pin registers, UxBAUD, DMAARM, the flags and the
      descriptors are left alone. */
  lemma SetModeKeeps(h: Header, u: Usart, s: HwState, cfg: bv8)
    ensures var s' := SetMode(h, u, s, cfg);
      && s'.regs.percfg == s.regs.percfg && s'.regs.p0sel == s.regs.p0sel && s'.regs.p1sel == s.regs.p1sel
      && s'.regs.p0dir == s.regs.p0dir && s'.regs.p1dir == s.regs.p1dir && s'.regs.p2dir == s.regs.p2dir
      && s'.regs.baud == s.regs.baud && s'.regs.dmaArm == s.regs.dmaArm
      && s'.flags == s.flags && s'.desc == s.desc
  {
    SetModeFrame(h, u, s, cfg);
  }

  // The single facts uart_init needs from SetModeBits, each on its own.

  /** UxUCR holds bits 6..0 of the format byte. */
  lemma SetModeUcr(h: Header, u: Usart, s: HwState, cfg: bv8)
    ensures SetMode(h, u, s, cfg).regs.ucr == cfg & 0x7F
  {
    ModeWritesValues(s, cfg & 0x7F, BitOf(cfg, h.layout.order), h.GcrOrder(u), IpBit(u));
  }

  /** UxCSR gains MODE and keeps every other bit. */
  lemma SetModeCsr(h: Header, u: Usart, s: HwState, cfg: bv8)
    ensures SetsOnly(s.regs.csr, SetMode(h, u, s, cfg).regs.csr, 0x80)
  {
    ModeWritesValues(s, cfg & 0x7F, BitOf(cfg, h.layout.order), h.GcrOrder(u), IpBit(u));
    SetBitsSetsOnly(s.regs.csr, 0x80);
  }

  /** An ORDER mask outside bits 4..0 leaves the baud exponent alone. */
  lemma SetModeLowGcr(h: Header, u: Usart, s: HwState, cfg: bv8)
    requires h.GcrOrder(u) & 0x1F == 0
    ensures SetMode(h, u, s, cfg).regs.gcr & 0x1F == s.regs.gcr & 0x1F
  {
    var order, m := BitOf(cfg, h.layout.order), h.GcrOrder(u);
    ModeWritesValues(s, cfg & 0x7F, order, m, IpBit(u));
    if order {
      SetBitsSetsOnly(s.regs.gcr, m);
      SetsOnlyKeeps(s.regs.gcr, SetBits(s.regs.gcr, m), m, 0x1F);
    } else {
      ClearBitsClearsOnly(s.regs.gcr, m);
      ClearsOnlyKeeps(s.regs.gcr, ClearBits(s.regs.gcr, m), m, 0x1F);
    }
  }

  /** A format with ORDER clear leaves the ORDER bit of UxGCR clear; the
      priority bit is set in IP0 and clear in IP1. */
  lemma SetModeOrderPriority(h: Header, u: Usart, s: HwState, cfg: bv8)
    ensures var s' := SetMode(h, u, s, cfg);
      && (!BitOf(cfg, h.layout.order) ==> s'.regs.gcr & h.GcrOrder(u) == 0)
      && s'.regs.ip0 & IpBit(u) == IpBit(u) && s'.regs.ip1 & IpBit(u) == 0
  {
    var order, m, ip := BitOf(cfg, h.layout.order), h.GcrOrder(u), IpBit(u);
    ModeWritesValues(s, cfg & 0x7F, order, m, ip);
    ClearBitsClearsOnly(s.regs.gcr, m);
    SetBitsSetsOnly(s.regs.ip0, ip);
    ClearBitsClearsOnly(s.regs.ip1, ip);
  }

  /** uart_set_mode writes its five registers in program order. */
  lemma SetModeTrace(h: Header, u: Usart, s: HwState, cfg: bv8)
    ensures var s' := SetMode(h, u, s, cfg);
      s'.trace == s.trace + [Sfr(UxCSR, s'.regs.csr), Sfr(UxUCR, s'.regs.ucr),
                             Sfr(UxGCR, s'.regs.gcr), Sfr(IP0, s'.regs.ip0), Sfr(IP1, s'.regs.ip1)]
  {
    ModeWritesTrace(s, cfg & 0x7F, BitOf(cfg, h.layout.order), h.GcrOrder(u), IpBit(u));
  }

  /** The fields that end up in UxUCR: all but bit 7. */
  lemma UcrFields(b: bv8, l: Layout)
    ensures !BitOf(b & 0x7F, 7)
    ensures forall f :: l.Pos(f) < 7 ==> BitOf(b & 0x7F, l.Pos(f)) == Unpack(b, l).Get(f)
  {
    Low7Bit(b, 7);
    forall f | l.Pos(f) < 7 {
      Low7Bit(b, l.Pos(f));
    }
  }

  /** Applying the same format twice leaves the hardware as applying it once,
      and the second call writes the same five values again. */
  lemma SetModeIdempotent(h: Header, u: Usart, s: HwState, cfg: bv8)
    ensures SetMode(h, u, SetMode(h, u, s, cfg), cfg).Untraced() == SetMode(h, u, s, cfg).Untraced()
    ensures var once := SetMode(h, u, s, cfg);
            SetMode(h, u, once, cfg).trace == once.trace + once.trace[|s.trace|..]
  {
    var once := SetMode(h, u, s, cfg);
    ModeWritesAgain(s, cfg & 0x7F, BitOf(cfg, h.layout.order), h.GcrOrder(u), IpBit(u));
    ModeWritesTrace(s, cfg & 0x7F, BitOf(cfg, h.layout.order), h.GcrOrder(u), IpBit(u));
    ModeWritesTrace(once, cfg & 0x7F, BitOf(cfg, h.layout.order), h.GcrOrder(u), IpBit(u));
  }
}
