/** The USART frame format record `union uart_config_t` and the two presets
    uart_init builds (uart.c:83-106). The bit layout of the union comes from
    uart.h, which is not part of this model, so it is a parameter. */
module FrameFormat {
  import opened Bits

  /** The single-bit fields of `uart_config_t.bit`. */
  datatype Field = START | STOP | SPB | PARITY | BIT9 | D9 | FLOW | ORDER

  /** A frame format; `true` stands for a field value of 1. */
  datatype UartConfig = UartConfig(
    start: bool,   // start bit level
    stop: bool,    // stop bit level
    spb: bool,     // 1 = two stop bits
    parity: bool,  // 1 = parity enabled
    bit9: bool,    // 1 = nine data bits
    d9: bool,      // ninth bit / parity sense
    flow: bool,    // hardware flow control
    order: bool)   // 1 = most significant bit first
  {
    function Get(f: Field): (v: bool) {
      match f
      case START => start
      case STOP => stop
      case SPB => spb
      case PARITY => parity
      case BIT9 => bit9
      case D9 => d9
      case FLOW => flow
      case ORDER => order
    }
  }

  /** The bit of `uart_config_t.byte` each field occupies. */
  datatype Layout = Layout(
    start: BitPos, stop: BitPos, spb: BitPos, parity: BitPos,
    bit9: BitPos, d9: BitPos, flow: BitPos, order: BitPos)
  {
    function Pos(f: Field): (p: BitPos) {
      match f
      case START => start
      case STOP => stop
      case SPB => spb
      case PARITY => parity
      case BIT9 => bit9
      case D9 => d9
      case FLOW => flow
      case ORDER => order
    }

    /** Every field has a bit of its own (a C bit-field union guarantees it). */
    predicate Distinct() {
      forall f, g :: f != g ==> Pos(f) != Pos(g)
    }
  }

  /** The bits the eight fields occupy. */
  function Positions(l: Layout): (ps: set<BitPos>) {
    {l.start} + {l.stop} + {l.spb} + {l.parity} + {l.bit9} + {l.d9} + {l.flow} + {l.order}
  }

  /** `Distinct` spelled out field by field. */
  lemma DistinctFields(l: Layout)
    requires l.Distinct()
    ensures l.start != l.stop && l.start != l.spb && l.start != l.parity && l.start != l.bit9
    ensures l.start != l.d9 && l.start != l.flow && l.start != l.order
    ensures l.stop != l.spb && l.stop != l.parity && l.stop != l.bit9 && l.stop != l.d9
    ensures l.stop != l.flow && l.stop != l.order
    ensures l.spb != l.parity && l.spb != l.bit9 && l.spb != l.d9 && l.spb != l.flow && l.spb != l.order
    ensures l.parity != l.bit9 && l.parity != l.d9 && l.parity != l.flow && l.parity != l.order
    ensures l.bit9 != l.d9 && l.bit9 != l.flow && l.bit9 != l.order
    ensures l.d9 != l.flow && l.d9 != l.order && l.flow != l.order
  {
    assert l.Pos(START) == l.start && l.Pos(STOP) == l.stop && l.Pos(SPB) == l.spb && l.Pos(PARITY) == l.parity;
    assert l.Pos(BIT9) == l.bit9 && l.Pos(D9) == l.d9 && l.Pos(FLOW) == l.flow && l.Pos(ORDER) == l.order;
  }

  /** Eight fields on eight different bits occupy eight bits. */
  lemma PositionsCount(l: Layout)
    requires l.Distinct()
    ensures |Positions(l)| == 8
  {
    DistinctFields(l);
    var u1 := {l.start};
    var u2 := u1 + {l.stop};
    assert |u2| == 2;
    var u3 := u2 + {l.spb};
    assert |u3| == 3;
    var u4 := u3 + {l.parity};
    assert |u4| == 4;
    var u5 := u4 + {l.bit9};
    assert |u5| == 5;
    var u6 := u5 + {l.d9};
    assert |u6| == 6;
    var u7 := u6 + {l.flow};
    assert |u7| == 7;
  }

  lemma InPositions(l: Layout, p: BitPos)
    requires p in Positions(l)
    ensures exists f :: l.Pos(f) == p
  {
    assert l.Pos(START) == l.start && l.Pos(STOP) == l.stop && l.Pos(SPB) == l.spb && l.Pos(PARITY) == l.parity;
    assert l.Pos(BIT9) == l.bit9 && l.Pos(D9) == l.d9 && l.Pos(FLOW) == l.flow && l.Pos(ORDER) == l.order;
  }

  /** In a layout where every field has a bit of its own, every bit of the
      byte belongs to some field. */
  lemma LayoutCovers(l: Layout, p: BitPos)
    requires l.Distinct()
    ensures exists f :: l.Pos(f) == p
  {
    PositionsCount(l);
    if p !in Positions(l) {
      MissingPos(Positions(l), p);
    }
    InPositions(l, p);
  }

  function FieldMask(c: UartConfig, l: Layout, f: Field): (m: bv8) {
    if c.Get(f) then OneHot(l.Pos(f)) else 0
  }

  /** The fields in declaration order. */
  const AllFields: seq<Field> := [START, STOP, SPB, PARITY, BIT9, D9, FLOW, ORDER]

  /** The bits contributed by the fields `fs`. */
  function PackFields(c: UartConfig, l: Layout, fs: seq<Field>): (b: bv8) {
    if fs == [] then 0 else FieldMask(c, l, fs[0]) | PackFields(c, l, fs[1..])
  }

  lemma FieldMaskBit(c: UartConfig, l: Layout, g: Field, f: Field)
    requires l.Distinct()
    ensures BitOf(FieldMask(c, l, g), l.Pos(f)) <==> g == f && c.Get(f)
  {
    if c.Get(g) {
      OneHotBit(l.Pos(g), l.Pos(f));
    }
  }

  lemma {:induction false} PackFieldsBit(c: UartConfig, l: Layout, fs: seq<Field>, f: Field)
    requires l.Distinct()
    ensures BitOf(PackFields(c, l, fs), l.Pos(f)) <==> f in fs && c.Get(f)
  {
    if fs != [] {
      assert f in fs <==> f == fs[0] || f in fs[1..];
      PackFieldsBit(c, l, fs[1..], f);
      FieldMaskBit(c, l, fs[0], f);
      var m, r := FieldMask(c, l, fs[0]), PackFields(c, l, fs[1..]);
      assert PackFields(c, l, fs) == m | r;
      OrBit(m, r, l.Pos(f));
    }
  }

  /** `uart_config_t.byte` after every field of `.bit` has been assigned: each
      field's value stands at that field's bit. */
  function Pack(c: UartConfig, l: Layout): (b: bv8)
    ensures l.Distinct() ==> forall f :: BitOf(b, l.Pos(f)) == c.Get(f)
  {
    PackAllFields(c, l);
    PackFields(c, l, AllFields)
  }

  lemma PackAllFields(c: UartConfig, l: Layout)
    ensures l.Distinct() ==> forall f :: BitOf(PackFields(c, l, AllFields), l.Pos(f)) == c.Get(f)
  {
    if l.Distinct() {
      forall f ensures BitOf(PackFields(c, l, AllFields), l.Pos(f)) == c.Get(f) {
        PackFieldsBit(c, l, AllFields, f);
      }
    }
  }

  /** Reading the fields back out of a byte. With every field on a bit of
      its own the eight fields cover the whole byte, so packing them again
      gives the byte back. */
  function Unpack(b: bv8, l: Layout): (c: UartConfig)
    ensures l.Distinct() ==> Pack(c, l) == b
  {
    var c := UartConfig(BitOf(b, l.start), BitOf(b, l.stop), BitOf(b, l.spb), BitOf(b, l.parity),
                        BitOf(b, l.bit9), BitOf(b, l.d9), BitOf(b, l.flow), BitOf(b, l.order));
    if l.Distinct() then PackOfBits(b, l, c); c else c
  }

  /** A frame format holding every bit of `b` at its field's position packs
      to `b`: no bit of the byte is left to a default. */
  lemma PackOfBits(b: bv8, l: Layout, c: UartConfig)
    requires l.Distinct()
    requires forall f :: c.Get(f) == BitOf(b, l.Pos(f))
    ensures Pack(c, l) == b
  {
    forall p: BitPos
      ensures BitOf(Pack(c, l), p) == BitOf(b, p)
    {
      LayoutCovers(l, p);
      var f :| l.Pos(f) == p;
    }
    BitsEqual(Pack(c, l), b);
  }

  lemma UnpackPack(c: UartConfig, l: Layout)
    requires l.Distinct()
    ensures Unpack(Pack(c, l), l) == c
  {
    var d := Unpack(Pack(c, l), l);
    assert d.Get(START) == c.Get(START) && d.Get(STOP) == c.Get(STOP);
    assert d.Get(SPB) == c.Get(SPB) && d.Get(PARITY) == c.Get(PARITY);
    assert d.Get(BIT9) == c.Get(BIT9) && d.Get(D9) == c.Get(D9);
    assert d.Get(FLOW) == c.Get(FLOW) && d.Get(ORDER) == c.Get(ORDER);
  }

  /** The frame format uart_init selects: START, STOP and D9 depend on
      UART_INVERTED; the remaining five fields are 0 in both builds, i.e. one
      stop bit, parity disabled, eight data bits, no flow control, LSB first. */
  function Preset(inverted: bool): (c: UartConfig)
    ensures !c.spb && !c.parity && !c.bit9 && !c.flow && !c.order
  {
    if inverted then
      UartConfig(start := true, stop := false, d9 := true,
                 spb := false, parity := false, bit9 := false, flow := false, order := false)
    else
      UartConfig(start := false, stop := true, d9 := false,
                 spb := false, parity := false, bit9 := false, flow := false, order := false)
  }

  /** The inverted and the standard preset differ in exactly START, STOP and D9. */
  lemma PresetsDiffer(f: Field)
    ensures Preset(true).Get(f) != Preset(false).Get(f) <==> f == START || f == STOP || f == D9
    ensures Preset(true).Get(START) && !Preset(true).Get(STOP) && Preset(true).Get(D9)
    ensures !Preset(false).Get(START) && Preset(false).Get(STOP) && !Preset(false).Get(D9)
  {
  }

  /** At the byte level the two presets differ in exactly the START, STOP and D9 bits. */
  lemma PresetsDifferPacked(l: Layout)
    requires l.Distinct()
    ensures Pack(Preset(true), l) ^ Pack(Preset(false), l)
            == OneHot(l.start) | OneHot(l.stop) | OneHot(l.d9)
  {
    forall p: BitPos
      ensures (BitOf(Pack(Preset(true), l), p) != BitOf(Pack(Preset(false), l), p))
              == (p == l.start || p == l.stop || p == l.d9)
    {
      PresetBitsDiffer(l, p);
    }
    XorIsMask(Pack(Preset(true), l), Pack(Preset(false), l), l.start, l.stop, l.d9);
  }

  lemma PresetBitsDiffer(l: Layout, p: BitPos)
    requires l.Distinct()
    ensures (BitOf(Pack(Preset(true), l), p) != BitOf(Pack(Preset(false), l), p))
            == (p == l.start || p == l.stop || p == l.d9)
  {
    LayoutCovers(l, p);
    var f :| l.Pos(f) == p;
    PresetsDiffer(f);
    assert l.Pos(START) == l.start && l.Pos(STOP) == l.stop && l.Pos(D9) == l.d9;
  }
}
