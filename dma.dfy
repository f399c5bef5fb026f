/** One entry of the DMA descriptor table `dma_config[]` and an abstract model
    of a single-mode transfer (the DMA controller itself is not part of this
    model beyond that step). */
module Dma {
  import opened Bits

  datatype Option<T> = None | Some(value: T)

  /** An 8-bit and a 16-bit unsigned value, as numbers. */
  type Byte = b: nat | b < 0x100
  type Word16 = w: nat | w < 0x10000

  /** The byte SET_WORD stores in the high register of a pair. */
  function HighByte(w: Word16): (hb: Byte) {
    w / 0x100
  }

  /** The descriptor's bit-fields, written one at a time by uart_init. */
  datatype BitField = PRIORITY | M8 | IRQMASK | TRIG | TMODE | WORDSIZE | VLEN | SRCINC | DESTINC

  /** The descriptor's high/low byte pairs, written with SET_WORD. */
  datatype WordField = SRCADDR | DESTADDR | LEN

  /** A DMA channel descriptor. The bit-fields hold the dma.h enumeration
      values assigned to them; each high/low byte pair is held as the 16-bit
      value it makes up. */
  datatype Descriptor = Descriptor(
    srcAddr: Word16, destAddr: Word16, len: Word16,
    priority: nat, m8: nat, irqMask: nat, trig: nat, tMode: nat,
    wordSize: nat, vlen: nat, srcInc: nat, destInc: nat)
  {
    function Get(f: BitField): (v: nat) {
      match f
      case PRIORITY => priority
      case M8 => m8
      case IRQMASK => irqMask
      case TRIG => trig
      case TMODE => tMode
      case WORDSIZE => wordSize
      case VLEN => vlen
      case SRCINC => srcInc
      case DESTINC => destInc
    }

    function WordOf(w: WordField): (v: Word16) {
      match w
      case SRCADDR => srcAddr
      case DESTADDR => destAddr
      case LEN => len
    }

    /** `dma_config[i].F = v` */
    function Set(f: BitField, v: nat): (d: Descriptor) {
      match f
      case PRIORITY => this.(priority := v)
      case M8 => this.(m8 := v)
      case IRQMASK => this.(irqMask := v)
      case TRIG => this.(trig := v)
      case TMODE => this.(tMode := v)
      case WORDSIZE => this.(wordSize := v)
      case VLEN => this.(vlen := v)
      case SRCINC => this.(srcInc := v)
      case DESTINC => this.(destInc := v)
    }

    /** `SET_WORD(dma_config[i].WH, dma_config[i].WL, v)` */
    function SetWord(w: WordField, v: Word16): (d: Descriptor) {
      match w
      case SRCADDR => this.(srcAddr := v)
      case DESTADDR => this.(destAddr := v)
      case LEN => this.(len := v)
    }
  }

  /** The bytes a channel in single mode moves from memory in `n` triggers,
      starting at `src`, with source increment 1: trigger i reads `mem[src + i]`. */
  function SingleTransfers(mem: seq<bv8>, src: nat, n: nat): (out: seq<bv8>)
    requires src + n <= |mem|
    ensures |out| == n
    decreases n
  {
    if n == 0 then [] else [mem[src]] + SingleTransfers(mem, src + 1, n - 1)
  }

  /** The transfers read the `n` bytes from `src` in order, each exactly once. */
  lemma {:induction false} SingleTransfersAreSlice(mem: seq<bv8>, src: nat, n: nat)
    requires src + n <= |mem|
    ensures SingleTransfers(mem, src, n) == mem[src..src + n]
    decreases n
  {
    if n > 0 {
      SingleTransfersAreSlice(mem, src + 1, n - 1);
      assert mem[src..src + n] == [mem[src]] + mem[src + 1..src + n];
    }
  }
}
