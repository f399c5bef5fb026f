/** uart_start_transmission (uart.c:213-233) and what then reaches the
    transmit data register under the single-mode DMA model. */
module UartStart {
  import opened Bits
  import opened Dma
  import opened Config
  import opened Registers
  import opened UartDma

  /** The size of the 16-bit data address space the descriptor points into. */
  const MEMORY_SIZE: nat := 0x10000

  /** `&data[1]`, as the 16 bits SET_WORD stores. */
  function NextAddress(data: Word16): (a: Word16) {
    (data + 1) % MEMORY_SIZE
  }

  /** uart_start_transmission(data, len): `data` is the buffer's address in
      `mem`, `len` the `uint8_t` length. */
  function StartTransmission(h: Header, u: Usart, s: HwState, mem: seq<bv8>, data: Word16, len: Byte): (s': HwState)
    requires |s.desc| > TX_CHANNEL && |mem| == MEMORY_SIZE
    ensures |s'.desc| == |s.desc|
  {
    var s1 := s.WriteDescWord(TX_CHANNEL, SRCADDR, NextAddress(data));
    var s2 := s1.WriteDescWord(TX_CHANNEL, LEN, len);
    var s3 := Arm(h, s2);
    s3.Write(UxDBUF, mem[data])
  }

  /** Only SRCADDR and LEN of descriptor 3 change: the source is the byte
      after `data[0]`, the length is `len`, whose high byte is 0 since `len`
      has eight bits. */
  lemma StartDescriptor(h: Header, u: Usart, s: HwState, mem: seq<bv8>, data: Word16, len: Byte)
    requires |s.desc| > TX_CHANNEL && |mem| == MEMORY_SIZE
    ensures var s' := StartTransmission(h, u, s, mem, data, len);
      var d, d0 := s'.desc[TX_CHANNEL], s.desc[TX_CHANNEL];
      && |s'.desc| == |s.desc|
      && (forall j :: 0 <= j < |s.desc| && j != TX_CHANNEL ==> s'.desc[j] == s.desc[j])
      && d.WordOf(SRCADDR) == NextAddress(data)
      && d.WordOf(LEN) == len && HighByte(d.WordOf(LEN)) == 0
      && d.WordOf(DESTADDR) == d0.WordOf(DESTADDR)
      && (forall f :: d.Get(f) == d0.Get(f))
  {
  }

  /** Channel 3's arm bit is set and no other bit of DMAARM changes. */
  lemma StartArms(h: Header, u: Usart, s: HwState, mem: seq<bv8>, data: Word16, len: Byte)
    requires |s.desc| > TX_CHANNEL && |mem| == MEMORY_SIZE
    ensures SetsOnly(s.regs.dmaArm, StartTransmission(h, u, s, mem, data, len).regs.dmaArm, h.dmaArmCh3)
  {
    var s2 := s.WriteDescWord(TX_CHANNEL, SRCADDR, NextAddress(data)).WriteDescWord(TX_CHANNEL, LEN, len);
    ArmBits(h, s2);
  }

  /** UxDBUF gets `data[0]`. */
  lemma StartWritesDbuf(h: Header, u: Usart, s: HwState, mem: seq<bv8>, data: Word16, len: Byte)
    requires |s.desc| > TX_CHANNEL && |mem| == MEMORY_SIZE
    ensures StartTransmission(h, u, s, mem, data, len).Get(UxDBUF) == mem[data]
  {
  }

  /** No other register and no flag changes. */
  lemma StartFrame(h: Header, u: Usart, s: HwState, mem: seq<bv8>, data: Word16, len: Byte)
    requires |s.desc| > TX_CHANNEL && |mem| == MEMORY_SIZE
    ensures var s' := StartTransmission(h, u, s, mem, data, len);
      s'.regs == s.regs.(dmaArm := s'.regs.dmaArm, dbuf := s'.regs.dbuf) && s'.flags == s.flags
  {
    var s2 := s.WriteDescWord(TX_CHANNEL, SRCADDR, NextAddress(data)).WriteDescWord(TX_CHANNEL, LEN, len);
    ArmFrame(h, s2);
  }

  /** Descriptor 3 is written, then the channel is armed, then the delay, then
      `data[0]` goes to UxDBUF. */
  lemma StartTrace(h: Header, u: Usart, s: HwState, mem: seq<bv8>, data: Word16, len: Byte)
    requires |s.desc| > TX_CHANNEL && |mem| == MEMORY_SIZE
    ensures var s' := StartTransmission(h, u, s, mem, data, len);
      s'.trace == s.trace + [DescWord(TX_CHANNEL, SRCADDR, NextAddress(data)), DescWord(TX_CHANNEL, LEN, len),
                             Sfr(DMAARM, s'.Get(DMAARM)), Delay45, Sfr(UxDBUF, mem[data])]
  {
    var s2 := s.WriteDescWord(TX_CHANNEL, SRCADDR, NextAddress(data)).WriteDescWord(TX_CHANNEL, LEN, len);
    ArmFrame(h, s2);
  }

  // ------------------------------------------------------ the wire, abstractly

  /** Channel 3's arm bit is set. */
  predicate TxArmed(h: Header, s: HwState) {
    h.dmaArmCh3 != 0 && s.Get(DMAARM) & h.dmaArmCh3 == h.dmaArmCh3
  }

  /** The bytes an armed channel set up as uart_init leaves it moves to
      UxDBUF: one per UTX trigger, `LEN` of them, from SRCADDR upward. None
      for a descriptor in any other mode or one that runs past memory. */
  function ChannelBytes(h: Header, u: Usart, d: Descriptor, mem: seq<bv8>): (bytes: Option<seq<bv8>>) {
    var src, n := d.WordOf(SRCADDR), d.WordOf(LEN);
    if TxChannelSetup(h, u, d) && src + n <= |mem| then Some(SingleTransfers(mem, src, n)) else None
  }

  /** DMA1CFGH:DMA1CFGL point at `dma_config[1]`, so channel 3 loads its
      configuration from `dma_config[3]`. */
  predicate TablePointed(h: Header, s: HwState) {
    Word(s.regs.dma1CfgH, s.regs.dma1CfgL) == h.dmaConfig1Addr
  }

  /** The last three writes of `s` were: DMAARM, the delay that lets the
      controller load the armed channel's descriptor, and a byte into UxDBUF.
      No descriptor write follows the arm, so the descriptor in `s` is the one
      the channel loaded. */
  predicate ArmedThenKicked(s: HwState) {
    var n := |s.trace|;
    && n >= 3
    && s.trace[n - 3].Sfr? && s.trace[n - 3].reg == DMAARM
    && s.trace[n - 2] == Delay45
    && s.trace[n - 1].Sfr? && s.trace[n - 1].reg == UxDBUF
  }

  /** What the model predicts reaches UxDBUF from the state `s`: the byte the
      CPU wrote last, then, each time the shift register takes a byte and
      raises UTX, the channel's next byte. None means the model makes no
      prediction, not that nothing is sent. That is the case when the writes
      did not end with arm, delay and the first byte, when channel 3 is not
      armed, or when the channel table is not `dma_config[1..]`. */
  function WireBytes(h: Header, u: Usart, s: HwState, mem: seq<bv8>): (bytes: Option<seq<bv8>>) {
    if |s.desc| > TX_CHANNEL && ArmedThenKicked(s) && TxArmed(h, s) && TablePointed(h, s) then
      match ChannelBytes(h, u, s.desc[TX_CHANNEL], mem)
      case Some(rest) => Some([s.trace[|s.trace| - 1].value] + rest)
      case None => None
    else None
  }

  /** A start keeps the channel set up and points it at the `len` bytes
      after `data[0]`. */
  lemma StartKeepsSetup(h: Header, u: Usart, s: HwState, mem: seq<bv8>, data: Word16, len: Byte)
    requires |s.desc| > TX_CHANNEL && |mem| == MEMORY_SIZE
    requires TxChannelSetup(h, u, s.desc[TX_CHANNEL])
    ensures var d := StartTransmission(h, u, s, mem, data, len).desc[TX_CHANNEL];
      TxChannelSetup(h, u, d) && d.WordOf(SRCADDR) == NextAddress(data) && d.WordOf(LEN) == len
  {
    StartDescriptor(h, u, s, mem, data, len);
    var d, d0 := StartTransmission(h, u, s, mem, data, len).desc[TX_CHANNEL], s.desc[TX_CHANNEL];
    assert d.Get(PRIORITY) == d0.Get(PRIORITY) && d.Get(M8) == d0.Get(M8) && d.Get(IRQMASK) == d0.Get(IRQMASK);
    assert d.Get(TRIG) == d0.Get(TRIG) && d.Get(TMODE) == d0.Get(TMODE) && d.Get(WORDSIZE) == d0.Get(WORDSIZE);
    assert d.Get(VLEN) == d0.Get(VLEN) && d.Get(SRCINC) == d0.Get(SRCINC) && d.Get(DESTINC) == d0.Get(DESTINC);
  }

  /** After a start the channel is armed, and the writes end with the arm,
      the delay and `data[0]` into UxDBUF. */
  lemma StartTriggers(h: Header, u: Usart, s: HwState, mem: seq<bv8>, data: Word16, len: Byte)
    requires |s.desc| > TX_CHANNEL && |mem| == MEMORY_SIZE && h.dmaArmCh3 != 0
    ensures var s' := StartTransmission(h, u, s, mem, data, len);
      TxArmed(h, s') && ArmedThenKicked(s') && s'.trace[|s'.trace| - 1] == Sfr(UxDBUF, mem[data])
  {
    StartArms(h, u, s, mem, data, len);
    StartTrace(h, u, s, mem, data, len);
  }

  /** With descriptor 3 set up by uart_init, the channel table in place and a
      buffer of `len + 1` bytes, a start puts exactly `data[0], data[1], ...,
      data[len]` on the wire: each byte once, in order. */
  lemma StartSendsFrame(h: Header, u: Usart, s: HwState, mem: seq<bv8>, data: Word16, len: Byte)
    requires |s.desc| > TX_CHANNEL && |mem| == MEMORY_SIZE
    requires TxChannelSetup(h, u, s.desc[TX_CHANNEL]) && h.dmaArmCh3 != 0 && TablePointed(h, s)
    requires data + len < MEMORY_SIZE
    ensures WireBytes(h, u, StartTransmission(h, u, s, mem, data, len), mem) == Some(mem[data..data + len + 1])
  {
    var s' := StartTransmission(h, u, s, mem, data, len);
    StartKeepsSetup(h, u, s, mem, data, len);
    StartTriggers(h, u, s, mem, data, len);
    StartFrame(h, u, s, mem, data, len);
    assert TablePointed(h, s');
    var src := NextAddress(data);
    var last := s'.trace[|s'.trace| - 1];
    assert last.value == mem[data];
    assert src + len <= |mem|;
    assert ChannelBytes(h, u, s'.desc[TX_CHANNEL], mem) == Some(SingleTransfers(mem, src, len));
    assert WireBytes(h, u, s', mem) == Some([mem[data]] + SingleTransfers(mem, src, len));
    FrameSlice(mem, data, len);
  }

  /** The frame guarantee rests on the order of uart.c:214-225. If the arm
      comes before the descriptor writes, or the first byte is written without
      the delay after arming, the model guarantees no bytes (WireBytes is
      None), although `data[0]` still reaches UxDBUF. */
  lemma StartOrderMatters(h: Header, u: Usart, s: HwState, mem: seq<bv8>, data: Word16, len: Byte)
    requires |s.desc| > TX_CHANNEL && |mem| == MEMORY_SIZE
    ensures var armFirst := Arm(h, s).WriteDescWord(TX_CHANNEL, SRCADDR, NextAddress(data))
                                     .WriteDescWord(TX_CHANNEL, LEN, len).Write(UxDBUF, mem[data]);
      WireBytes(h, u, armFirst, mem) == None
    ensures var noDelay := s.WriteDescWord(TX_CHANNEL, SRCADDR, NextAddress(data)).WriteDescWord(TX_CHANNEL, LEN, len)
                            .Write(DMAARM, SetBits(s.Get(DMAARM), h.dmaArmCh3)).Write(UxDBUF, mem[data]);
      WireBytes(h, u, noDelay, mem) == None
  {
  }

  /** The frame guarantee rests on the channel table pointer of uart.c:142.
      Without it the model guarantees no bytes after a start (WireBytes is
      None). */
  lemma StartNeedsTable(h: Header, u: Usart, s: HwState, mem: seq<bv8>, data: Word16, len: Byte)
    requires |s.desc| > TX_CHANNEL && |mem| == MEMORY_SIZE && !TablePointed(h, s)
    ensures WireBytes(h, u, StartTransmission(h, u, s, mem, data, len), mem) == None
  {
    StartFrame(h, u, s, mem, data, len);
  }

  /** `data[0]` followed by what the channel reads from `&data[1]` is the
      buffer's first `len + 1` bytes. */
  lemma FrameSlice(mem: seq<bv8>, data: Word16, len: Byte)
    requires |mem| == MEMORY_SIZE && data + len < MEMORY_SIZE
    ensures NextAddress(data) + len <= |mem|
    ensures [mem[data]] + SingleTransfers(mem, NextAddress(data), len) == mem[data..data + len + 1]
  {
    if data + 1 < MEMORY_SIZE {
      SingleTransfersAreSlice(mem, data + 1, len);
      assert mem[data..data + len + 1] == [mem[data]] + mem[data + 1..data + 1 + len];
    } else {
      assert len == 0 && NextAddress(data) == 0;
      assert SingleTransfers(mem, 0, 0) == [];
    }
  }

  /** The frame `0xAA, 1, 2, 3` at address 0x100, started with `len = 3`,
      goes out as exactly those four bytes. */
  lemma SendsExampleFrame(h: Header, u: Usart, s: HwState, mem: seq<bv8>)
    requires |s.desc| > TX_CHANNEL && |mem| == MEMORY_SIZE
    requires TxChannelSetup(h, u, s.desc[TX_CHANNEL]) && h.dmaArmCh3 != 0 && TablePointed(h, s)
    requires mem[0x100..0x104] == [0xAA, 1, 2, 3]
    ensures WireBytes(h, u, StartTransmission(h, u, s, mem, 0x100, 3), mem) == Some([0xAA, 1, 2, 3])
  {
    StartSendsFrame(h, u, s, mem, 0x100, 3);
  }
}
