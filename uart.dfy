/** The driver as it runs: the special function registers, the interrupt
    flags, the DMA descriptor table `dma_config[]` and the write history are
    the fields of one object, and uart_init, uart_set_mode and
    uart_start_transmission update them statement by statement. Each method
    leaves the object in the state the corresponding function of the value
    model computes from the old one, so everything proved there holds of it. */
module Uart {
  import opened Bits
  import opened FrameFormat
  import opened Dma
  import opened Config
  import opened Registers
  import UartPins
  import UartMode
  import UartDma
  import UartStart
  import UartInit

  class Hw {
    /** The header constants and the build selections. */
    const hdr: Header
    const build: Build

    /** The special function registers, one byte per `Reg`. */
    var regs: RegFile
    /** URXxIF, URXxIE and EA. */
    var flags: Flags
    /** `dma_config[]` */
    const dmaConfig: array<Descriptor>
    /** Every write so far, in order. */
    var trace: seq<Event>

    /** The hardware as a value of the model. */
    function State(): (s: HwState)
      reads this, dmaConfig
    {
      HwState(regs, flags, dmaConfig[..], trace)
    }

    /** The hardware in the state `s`, for the build `b` against the headers `h`. */
    constructor (h: Header, b: Build, s: HwState)
      ensures hdr == h && build == b && State() == s && fresh(dmaConfig)
    {
      hdr, build := h, b;
      regs, flags := s.regs, s.flags;
      dmaConfig := new Descriptor[|s.desc|](i requires 0 <= i < |s.desc| => s.desc[i]);
      trace := s.trace;
    }

    function Get(r: Reg): (v: bv8)
      reads this
    {
      regs.Get(r)
    }

    // ------------------------------------------------------- single writes

    /** `REG = v` */
    method WriteReg(r: Reg, v: bv8)
      modifies this
      ensures State() == old(State()).Write(r, v)
    {
      regs := regs.Put(r, v);
      trace := trace + [Sfr(r, v)];
    }

    /** `SET_WORD(HIGH, LOW, w)` */
    method WriteWord(high: Reg, low: Reg, w: bv16)
      requires high != low
      modifies this
      ensures State() == old(State()).WriteWord(high, low, w)
    {
      var (hi, lo) := Split(w);
      regs := regs.Put(high, hi).Put(low, lo);
      trace := trace + [SfrWord(high, low, w)];
    }

    /** `FLAG = v` */
    method WriteFlag(f: Flag, v: bool)
      modifies this
      ensures State() == old(State()).WriteFlag(f, v)
    {
      flags := flags.Put(f, v);
      trace := trace + [Bit(f, v)];
    }

    /** `dma_config[i].F = v` */
    method WriteDesc(i: nat, f: BitField, v: nat)
      requires i < dmaConfig.Length
      modifies this, dmaConfig
      ensures State() == old(State()).WriteDesc(i, f, v)
    {
      dmaConfig[i] := dmaConfig[i].Set(f, v);
      trace := trace + [DescBits(i, f, v)];
    }

    /** `SET_WORD(dma_config[i].WH, dma_config[i].WL, v)` */
    method WriteDescWord(i: nat, w: WordField, v: Word16)
      requires i < dmaConfig.Length
      modifies this, dmaConfig
      ensures State() == old(State()).WriteDescWord(i, w, v)
    {
      dmaConfig[i] := dmaConfig[i].SetWord(w, v);
      trace := trace + [DescWord(i, w, v)];
    }

    /** `delay_45nop()` */
    method Delay()
      modifies this
      ensures State() == old(State()).Delay()
    {
      trace := trace + [Delay45];
    }

    // ------------------------------------------------------------ uart_init

    /** uart_init (uart.c:27-173). */
    method Init()
      requires Supported(build.txUart) && dmaConfig.Length > UartDma.TX_CHANNEL
      modifies this, dmaConfig
      ensures State() == UartInit.Init(hdr, build, old(State()))
    {
      PinMux();
      Baud();
      var config := Preset(build.uartInverted);
      SetMode(Pack(config, hdr.layout));
      SetupTxDescriptor();
      WriteWord(DMA1CFGH, DMA1CFGL, hdr.dmaConfig1Addr);
      Arm();
      if build.hubTelemetryOnTxUart {
        WriteFlag(URXxIF, false);
        WriteReg(UxCSR, SetBits(Get(UxCSR), hdr.csrRxEnable));
        WriteFlag(URXxIE, true);
        WriteFlag(EA, true);
      }
    }

    /** The pin-mux branch TX_UART selects (uart.c:30-72). */
    method PinMux()
      requires Supported(build.txUart)
      modifies this
      ensures State() == UartPins.PinMux(hdr, build.txUart, old(State()))
    {
      match build.txUart
      case USART0_P1 => PinMuxUsart0P1();
      case USART1_P0 => PinMuxUsart1P0();
      case USART1_P1 => PinMuxUsart1P1();
    }

    /** USART0 on port 1 (uart.c:30-42). */
    method PinMuxUsart0P1()
      modifies this
      ensures State() == UartPins.PinMuxUsart0P1(hdr, old(State()))
    {
      WriteReg(PERCFG, SetBits(Get(PERCFG), hdr.percfgU0Cfg));
      WriteReg(P1SEL, SetBits(Get(P1SEL), OneHot(5) | OneHot(4)));
      WriteReg(P0SEL, ClearBits(Get(P0SEL), 0x3C));
      WriteReg(P1DIR, SetBits(Get(P1DIR), OneHot(5)));
    }

    /** USART1 on port 0 (uart.c:43-57). */
    method PinMuxUsart1P0()
      modifies this
      ensures State() == UartPins.PinMuxUsart1P0(hdr, old(State()))
    {
      WriteReg(PERCFG, ClearBits(Get(PERCFG), hdr.percfgU1Cfg));
      WriteReg(P2DIR, Merge(Get(P2DIR), 0x3F, 0x40));
      WriteReg(P0SEL, SetBits(Get(P0SEL), OneHot(4) | OneHot(5)));
      WriteReg(P0DIR, SetBits(Get(P0DIR), OneHot(4)));
    }

    /** USART1 on port 1 (uart.c:58-69). */
    method PinMuxUsart1P1()
      modifies this
      ensures State() == UartPins.PinMuxUsart1P1(hdr, old(State()))
    {
      WriteReg(PERCFG, SetBits(Get(PERCFG), hdr.percfgU1Cfg));
      WriteReg(P2DIR, Merge(Get(P2DIR), 0x3F, 0x40));
      WriteReg(P1SEL, SetBits(Get(P1SEL), OneHot(6) | OneHot(7)));
      WriteReg(P1DIR, SetBits(Get(P1DIR), OneHot(6)));
    }

    /** The baud-rate registers (uart.c:75-81). */
    method Baud()
      modifies this
      ensures State() == UartPins.Baud(hdr, old(State()))
    {
      WriteReg(UxBAUD, hdr.baudM);
      WriteReg(UxGCR, Merge(Get(UxGCR), !0x1F, hdr.baudE));
    }

    /** Descriptor 3 (uart.c:111-138). */
    method SetupTxDescriptor()
      requires dmaConfig.Length > UartDma.TX_CHANNEL
      modifies this, dmaConfig
      ensures State() == UartDma.SetupTxDescriptor(hdr, build.Usart(), old(State()))
    {
      var u := build.Usart();
      WriteDesc(3, PRIORITY, hdr.dmaPriLow);
      WriteDesc(3, M8, hdr.dmaM8Use7Bits);
      WriteDesc(3, IRQMASK, hdr.dmaIrqMaskDisable);
      WriteDesc(3, TRIG, hdr.TrigUtx(u));
      WriteDesc(3, TMODE, hdr.dmaTModeSingle);
      WriteDesc(3, WORDSIZE, hdr.dmaWordSizeByte);
      WriteDescWord(3, SRCADDR, 0);
      WriteDescWord(3, DESTADDR, hdr.DbufAddr(u));
      WriteDesc(3, VLEN, hdr.dmaVLenUseLen);
      WriteDescWord(3, LEN, 0);
      WriteDesc(3, SRCINC, hdr.dmaSrcInc1);
      WriteDesc(3, DESTINC, hdr.dmaDestInc0);
    }

    /** `DMAARM |= DMA_ARM_CH3; delay_45nop();` */
    method Arm()
      modifies this
      ensures State() == UartDma.Arm(hdr, old(State()))
    {
      WriteReg(DMAARM, SetBits(Get(DMAARM), hdr.dmaArmCh3));
      Delay();
    }

    // ------------------------------------------------------- uart_set_mode

    /** uart_set_mode (uart.c:175-211); `cfg` is the byte of the union. */
    method SetMode(cfg: bv8)
      modifies this
      ensures State() == UartMode.SetMode(hdr, build.Usart(), old(State()), cfg)
    {
      var u := build.Usart();
      WriteReg(UxCSR, SetBits(Get(UxCSR), 0x80));
      WriteReg(UxUCR, cfg & 0x7F);
      if BitOf(cfg, hdr.layout.order) {
        WriteReg(UxGCR, SetBits(Get(UxGCR), hdr.GcrOrder(u)));
      } else {
        WriteReg(UxGCR, ClearBits(Get(UxGCR), hdr.GcrOrder(u)));
      }
      WriteReg(IP0, SetBits(Get(IP0), IpBit(u)));
      WriteReg(IP1, ClearBits(Get(IP1), IpBit(u)));
    }

    // --------------------------------------------- uart_start_transmission

    /** uart_start_transmission (uart.c:213-233): `data` is the buffer's
        address in `mem`, `len` the number of bytes after `data[0]`. */
    method StartTransmission(mem: seq<bv8>, data: Word16, len: Byte)
      requires dmaConfig.Length > UartDma.TX_CHANNEL && |mem| == UartStart.MEMORY_SIZE
      modifies this, dmaConfig
      ensures State() == UartStart.StartTransmission(hdr, build.Usart(), old(State()), mem, data, len)
    {
      WriteDescWord(3, SRCADDR, UartStart.NextAddress(data));
      WriteDescWord(3, LEN, len);
      Arm();
      WriteReg(UxDBUF, mem[data]);
    }
  }
}
