/** The hardware state uart.c touches, as a value: the special function
    registers of the selected USART instance and of the pins, the USART
    receive-interrupt and global interrupt-enable bits, the DMA descriptor
    table and the ordered trace of every write. */
module Registers {
  import opened Bits
  import opened Dma

  /** The 8-bit registers. `Ux…` is U0… or U1…, whichever instance the build
      selects. */
  datatype Reg =
    | PERCFG | P0SEL | P1SEL | P0DIR | P1DIR | P2DIR
    | UxBAUD | UxGCR | UxUCR | UxCSR | UxDBUF
    | IP0 | IP1 | DMAARM | DMA1CFGH | DMA1CFGL

  /** The bit-addressable flags URXxIF, URXxIE and EA. */
  datatype Flag = URXxIF | URXxIE | EA

  /** One write, in program order. */
  datatype Event =
    | Sfr(reg: Reg, value: bv8)                          // REG = value
    | SfrWord(high: Reg, low: Reg, word: bv16)           // SET_WORD(HIGH, LOW, word)
    | Bit(flag: Flag, level: bool)                       // FLAG = 1 / FLAG = 0
    | DescBits(index: nat, field: BitField, code: nat)   // dma_config[index].FIELD = code
    | DescWord(index: nat, pair: WordField, addr: Word16)  // SET_WORD on a dma_config[index] pair
    | Delay45                                            // delay_45nop()

  /** The register file: one byte for every `Reg`. */
  datatype RegFile = RegFile(
    percfg: bv8, p0sel: bv8, p1sel: bv8, p0dir: bv8, p1dir: bv8, p2dir: bv8,
    baud: bv8, gcr: bv8, ucr: bv8, csr: bv8, dbuf: bv8,
    ip0: bv8, ip1: bv8, dmaArm: bv8, dma1CfgH: bv8, dma1CfgL: bv8)
  {
    function Get(r: Reg): (v: bv8) {
      match r
      case PERCFG => percfg
      case P0SEL => p0sel
      case P1SEL => p1sel
      case P0DIR => p0dir
      case P1DIR => p1dir
      case P2DIR => p2dir
      case UxBAUD => baud
      case UxGCR => gcr
      case UxUCR => ucr
      case UxCSR => csr
      case UxDBUF => dbuf
      case IP0 => ip0
      case IP1 => ip1
      case DMAARM => dmaArm
      case DMA1CFGH => dma1CfgH
      case DMA1CFGL => dma1CfgL
    }

    function Put(r: Reg, v: bv8): (x: RegFile) {
      match r
      case PERCFG => this.(percfg := v)
      case P0SEL => this.(p0sel := v)
      case P1SEL => this.(p1sel := v)
      case P0DIR => this.(p0dir := v)
      case P1DIR => this.(p1dir := v)
      case P2DIR => this.(p2dir := v)
      case UxBAUD => this.(baud := v)
      case UxGCR => this.(gcr := v)
      case UxUCR => this.(ucr := v)
      case UxCSR => this.(csr := v)
      case UxDBUF => this.(dbuf := v)
      case IP0 => this.(ip0 := v)
      case IP1 => this.(ip1 := v)
      case DMAARM => this.(dmaArm := v)
      case DMA1CFGH => this.(dma1CfgH := v)
      case DMA1CFGL => this.(dma1CfgL := v)
    }
  }

  datatype Flags = Flags(urxIF: bool, urxIE: bool, ea: bool)
  {
    function Get(f: Flag): (v: bool) {
      match f
      case URXxIF => urxIF
      case URXxIE => urxIE
      case EA => ea
    }

    function Put(f: Flag, v: bool): (x: Flags) {
      match f
      case URXxIF => this.(urxIF := v)
      case URXxIE => this.(urxIE := v)
      case EA => this.(ea := v)
    }

  }

  datatype HwState = HwState(regs: RegFile, flags: Flags, desc: seq<Descriptor>, trace: seq<Event>)
  {
    function Get(r: Reg): (v: bv8) { regs.Get(r) }

    function GetFlag(f: Flag): (v: bool) { flags.Get(f) }

    /** `REG = v` */
    function Write(r: Reg, v: bv8): (s': HwState)
    {
      this.(regs := regs.Put(r, v), trace := trace + [Sfr(r, v)])
    }

    /** `SET_WORD(HIGH, LOW, w)` on a register pair. */
    function WriteWord(high: Reg, low: Reg, w: bv16): (s': HwState)
      requires high != low
    {
      var hl := Split(w);
      this.(regs := regs.Put(high, hl.0).Put(low, hl.1), trace := trace + [SfrWord(high, low, w)])
    }

    /** `FLAG = 1` or `FLAG = 0` */
    function WriteFlag(f: Flag, v: bool): (s': HwState)
    {
      this.(flags := flags.Put(f, v), trace := trace + [Bit(f, v)])
    }

    /** `dma_config[i].F = v` */
    function WriteDesc(i: nat, f: BitField, v: nat): (s': HwState)
      requires i < |desc|
    {
      this.(desc := desc[i := desc[i].Set(f, v)], trace := trace + [DescBits(i, f, v)])
    }

    /** `SET_WORD(dma_config[i].WH, dma_config[i].WL, v)` */
    function WriteDescWord(i: nat, w: WordField, v: Word16): (s': HwState)
      requires i < |desc|
    {
      this.(desc := desc[i := desc[i].SetWord(w, v)], trace := trace + [DescWord(i, w, v)])
    }

    /** `delay_45nop()`: only its place in the trace is modelled. */
    function Delay(): (s': HwState)
    {
      this.(trace := trace + [Delay45])
    }

    /** The state without its history: what a register read-back observes. */
    function Untraced(): (s': HwState) {
      this.(trace := [])
    }
  }

  /** Writing a register the value it already holds changes no register. */
  lemma WriteSame(s: HwState, r: Reg, v: bv8)
    requires v == s.Get(r)
    ensures s.Write(r, v).regs == s.regs
  {
    match r
    case PERCFG => case P0SEL => case P1SEL => case P0DIR =>
    case P1DIR => case P2DIR => case UxBAUD => case UxGCR =>
    case UxUCR => case UxCSR => case UxDBUF => case IP0 =>
    case IP1 => case DMAARM => case DMA1CFGH => case DMA1CFGL =>
  }
}
