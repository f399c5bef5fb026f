/** Read-modify-write idioms on 8-bit special function registers and the
    SET_WORD split of a 16-bit value into a high and a low byte. */
module Bits {

  /** `after` has every bit of `m` set and agrees with `before` on all other bits. */
  predicate SetsOnly(before: bv8, after: bv8, m: bv8) {
    after & m == m && after & !m == before & !m
  }

  /** `after` has every bit of `m` clear and agrees with `before` on all other bits. */
  predicate ClearsOnly(before: bv8, after: bv8, m: bv8) {
    after & m == 0 && after & !m == before & !m
  }

  /** `REG |= m` */
  function SetBits(r: bv8, m: bv8): (r': bv8) {
    r | m
  }

  /** `REG &= ~m` */
  function ClearBits(r: bv8, m: bv8): (r': bv8) {
    r & !m
  }

  /** `REG |= m` sets the bits of `m` and no other. */
  lemma SetBitsSetsOnly(r: bv8, m: bv8)
    ensures SetsOnly(r, SetBits(r, m), m)
  {
  }

  /** `REG &= ~m` clears the bits of `m` and no other. */
  lemma ClearBitsClearsOnly(r: bv8, m: bv8)
    ensures ClearsOnly(r, ClearBits(r, m), m)
  {
  }

  /** `REG |= m` and `REG &= ~m` are idempotent. */
  lemma SetBitsAgain(r: bv8, m: bv8)
    ensures SetBits(SetBits(r, m), m) == SetBits(r, m)
  {
  }

  lemma ClearBitsAgain(r: bv8, m: bv8)
    ensures ClearBits(ClearBits(r, m), m) == ClearBits(r, m)
  {
  }

  /** Setting no bits leaves the byte as it is. */
  lemma SetsOnlyNone(a: bv8)
    ensures SetsOnly(a, a, 0)
  {
  }

  /** Setting `m1` and then `m2` sets exactly `m1 | m2`. */
  lemma SetsOnlyThen(a: bv8, b: bv8, c: bv8, m1: bv8, m2: bv8)
    requires SetsOnly(a, b, m1) && SetsOnly(b, c, m2)
    ensures SetsOnly(a, c, m1 | m2)
  {
  }

  /** Setting `m` leaves the bits of `k` alone when the two masks are disjoint. */
  lemma SetsOnlyKeeps(a: bv8, b: bv8, m: bv8, k: bv8)
    requires SetsOnly(a, b, m) && m & k == 0
    ensures b & k == a & k
  {
  }

  /** Clearing `m` leaves the bits of `k` alone when the two masks are disjoint. */
  lemma ClearsOnlyKeeps(a: bv8, b: bv8, m: bv8, k: bv8)
    requires ClearsOnly(a, b, m) && m & k == 0
    ensures b & k == a & k
  {
  }

  /** `REG = (REG & keep) | v`: the bits outside `keep` come from `v`, the bits
      of `v` are set, and a kept bit that `v` does not set keeps its old value. */
  function Merge(r: bv8, keep: bv8, v: bv8): (r': bv8) {
    (r & keep) | v
  }

  type BitPos = p: nat | p < 8

  lemma SubsetCard(a: set<BitPos>, b: set<BitPos>)
    requires a <= b
    ensures |a| <= |b|
    decreases b
  {
    if b != {} {
      var x :| x in b;
      SubsetCard(a - {x}, b - {x});
    }
  }

  /** A set of bit positions that misses `p` has at most seven members. */
  lemma MissingPos(s: set<BitPos>, p: BitPos)
    requires p !in s
    ensures |s| <= 7
  {
    var all: set<BitPos> := {0, 1, 2, 3, 4, 5, 6, 7};
    assert |all| == 8;
    SubsetCard(s, all - {p});
  }

  /** `1 << p`, spelled out per position. */
  function OneHot(p: BitPos): (m: bv8)
    ensures m != 0 && m & (m - 1) == 0
  {
    match p
    case 0 => 0x01
    case 1 => 0x02
    case 2 => 0x04
    case 3 => 0x08
    case 4 => 0x10
    case 5 => 0x20
    case 6 => 0x40
    case _ => 0x80
  }

  /** Whether bit `p` of `b` is one. */
  predicate BitOf(b: bv8, p: BitPos) {
    b & OneHot(p) != 0
  }

  lemma OneHotBit(q: BitPos, p: BitPos)
    ensures BitOf(OneHot(q), p) <==> p == q
  {
  }

  lemma OrBit(a: bv8, b: bv8, p: BitPos)
    ensures BitOf(a | b, p) <==> BitOf(a, p) || BitOf(b, p)
  {
  }

  lemma XorBit(a: bv8, b: bv8, p: BitPos)
    ensures BitOf(a ^ b, p) <==> BitOf(a, p) != BitOf(b, p)
  {
    XorMask(a, b, OneHot(p));
  }

  /** For a single-bit mask `m`, bit `m` of `a ^ b` is set when exactly one of
      `a` and `b` has it. */
  lemma XorMask(a: bv8, b: bv8, m: bv8)
    requires m & (m - 1) == 0
    ensures (a ^ b) & m != 0 <==> (a & m != 0) != (b & m != 0)
  {
  }

  /** `b & 0x7F` keeps bits 6..0 of `b` and clears bit 7. */
  lemma Low7Bit(b: bv8, p: BitPos)
    ensures BitOf(b & 0x7F, p) <==> p < 7 && BitOf(b, p)
  {
    match p
    case 0 => case 1 => case 2 => case 3 =>
    case 4 => case 5 => case 6 => case 7 =>
  }

  /** Bit `p` of `t ^ u` is bit `p` of the mask of positions `a`, `b`, `c`
      when those are exactly where `t` and `u` differ. */
  lemma XorOfThree(t: bv8, u: bv8, a: BitPos, b: BitPos, c: BitPos, p: BitPos)
    requires (BitOf(t, p) != BitOf(u, p)) == (p == a || p == b || p == c)
    ensures BitOf(t ^ u, p) == BitOf(OneHot(a) | OneHot(b) | OneHot(c), p)
  {
    XorBit(t, u, p);
    OrBit(OneHot(a) | OneHot(b), OneHot(c), p);
    OrBit(OneHot(a), OneHot(b), p);
    OneHotBit(a, p); OneHotBit(b, p); OneHotBit(c, p);
  }

  /** Two bytes that differ exactly at positions `a`, `b`, `c` have that
      mask as their exclusive or. */
  lemma XorIsMask(t: bv8, u: bv8, a: BitPos, b: BitPos, c: BitPos)
    requires forall p: BitPos :: (BitOf(t, p) != BitOf(u, p)) == (p == a || p == b || p == c)
    ensures t ^ u == OneHot(a) | OneHot(b) | OneHot(c)
  {
    var x, m := t ^ u, OneHot(a) | OneHot(b) | OneHot(c);
    forall p: BitPos ensures BitOf(x, p) == BitOf(m, p) {
      XorOfThree(t, u, a, b, c, p);
    }
    BitsEqual(x, m);
  }

  /** Two bytes with the same bits are equal. */
  lemma BitsEqual(a: bv8, b: bv8)
    requires forall p: BitPos :: BitOf(a, p) == BitOf(b, p)
    ensures a == b
  {
    assert BitOf(a, 0) == BitOf(b, 0) && BitOf(a, 1) == BitOf(b, 1);
    assert BitOf(a, 2) == BitOf(b, 2) && BitOf(a, 3) == BitOf(b, 3);
    assert BitOf(a, 4) == BitOf(b, 4) && BitOf(a, 5) == BitOf(b, 5);
    assert BitOf(a, 6) == BitOf(b, 6) && BitOf(a, 7) == BitOf(b, 7);
  }

  /** The 16-bit value a high/low register pair holds. */
  function Word(h: bv8, l: bv8): (w: bv16) {
    ((h as bv16) << 8) | (l as bv16)
  }

  /** `SET_WORD(H, L, w)`: the bytes stored into the pair so that it holds `w`. */
  function Split(w: bv16): (hl: (bv8, bv8)) {
    ((w >> 8) as bv8, (w & 0xFF) as bv8)
  }

  /** The pair SET_WORD stores holds the word it was given. */
  lemma SplitWord(w: bv16)
    ensures Word(Split(w).0, Split(w).1) == w
  {
  }
}
