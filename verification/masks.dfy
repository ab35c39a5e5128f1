/**
 * Bit masks over the 20-cell playing field.
 *
 * A cell is a bit position; bits 0..19 are the field and the upper twelve
 * bits of a `bv32` are never part of it. Moving one row up or down is a
 * shift by four, moving one column is a shift by one. The constants keep the
 * names the program gives them: `C1`..`C4` are the four consecutive 4-bit
 * groups (bits 0-3, 4-7, 8-11, 12-15), `R1` is the group of bits 16-19, and
 * `R2`..`R5` are every fourth bit starting at bit 0, 1, 2 and 3.
 */
module Masks {

  const BoardMask: bv32 := 0xF_FFFF
  const C1: bv32 := 0xF
  const C2: bv32 := C1 << 4
  const C3: bv32 := C1 << 8
  const C4: bv32 := C1 << 12
  const R1: bv32 := C1 << 16
  const R2: bv32 := 0x1111
  const R3: bv32 := R2 << 1
  const R4: bv32 := R2 << 2
  const R5: bv32 := R2 << 3

  /** The bits 0..15 that the probe table covers. */
  const Low16: bv32 := 0xFFFF

  /** The probe table, in the program's order: entry 4*r + c is `Cc & Rr`. */
  const CellMasks: seq<bv32> := [
    C1 & R1, C2 & R1, C3 & R1, C4 & R1,
    C1 & R2, C2 & R2, C3 & R2, C4 & R2,
    C1 & R3, C2 & R3, C3 & R3, C4 & R3,
    C1 & R4, C2 & R4, C3 & R4, C4 & R4,
    C1 & R5, C2 & R5, C3 & R5, C4 & R5
  ]

  /** Exactly one bit of `m` is set. */
  predicate IsSingleBit(m: bv32) {
    m != 0 && m & (m - 1) == 0
  }

  /** Entry `i` of the probe table. */
  function CellMask(i: nat): bv32
    requires i < 20
  {
    CellMasks[i]
  }

  /** One row up (towards bit 0): every set bit moves down four positions and
      bits 0..3 fall off. */
  function Up(m: bv32): (r: bv32)
    ensures r & 0xF000_0000 == 0
  {
    m >> 4
  }

  /** One row down: every set bit moves up four positions, clipped to the field. */
  function Down(m: bv32): (r: bv32)
    ensures r & !BoardMask == 0
  {
    (m << 4) & BoardMask
  }

  /** Every set bit moves up one position, then group `C1` and everything outside
      the field is cleared. */
  function Right(m: bv32): (r: bv32)
    ensures r & !BoardMask == 0 && r & C1 == 0
  {
    (m << 1) & !C1 & BoardMask
  }

  /** Every set bit moves down one position, then group `C4` is cleared. */
  function Left(m: bv32): (r: bv32)
    ensures r & C4 == 0
  {
    (m >> 1) & !C4
  }

  /** The table's first four entries are empty; the other sixteen are single
      bits inside bits 0..15. */
  lemma CellMaskShape(i: nat)
    requires i < 20
    ensures i < 4 <==> CellMask(i) == 0
    ensures 4 <= i ==> IsSingleBit(CellMask(i)) && CellMask(i) & Low16 == CellMask(i)
  {
  }

  /** Where the shifts can put bits: `Down` and `Right` stay inside the field,
      `Right` never sets a bit of `C1`, `Left` never one of `C4`, and `Up`
      leaves the top row of the word empty. */
  lemma ShiftRanges(m: bv32)
    ensures Down(m) & !BoardMask == 0 && Right(m) & !BoardMask == 0
    ensures Right(m) & C1 == 0
    ensures Left(m) & C4 == 0
    ensures Up(m) & 0xF000_0000 == 0
  {
  }

  /** A row down and back up restores bits 0..15 and loses the rest. */
  lemma UpDown(m: bv32)
    ensures Up(Down(m)) == m & Low16
  {
  }

  /** Each shift takes a single bit to a single bit or to nothing. */
  lemma ShiftsOfSingle(m: bv32)
    requires IsSingleBit(m)
    ensures Up(m) == 0 || IsSingleBit(Up(m))
    ensures Down(m) == 0 || IsSingleBit(Down(m))
    ensures Right(m) == 0 || IsSingleBit(Right(m))
    ensures Left(m) == 0 || IsSingleBit(Left(m))
  {
  }

  /** No shift fixes a non-empty mask. */
  lemma ShiftsMove(m: bv32)
    requires m != 0
    ensures Up(m) != m && Down(m) != m && Right(m) != m && Left(m) != m
  {
    assert m >> 4 != m;
    assert (m << 4) & BoardMask != m;
    assert (m << 1) & !C1 & BoardMask != m;
    assert (m >> 1) & !C4 != m;
  }

  /** The wrap masks clear bit groups, not a column: `Right` of bit 1 would be
      bit 2, which lies in `C1`, and `Left` of bit 13 would be bit 12, which lies
      in `C4`; both come out empty. */
  lemma WrapMasksClearGroups()
    ensures Right(0x2) == 0 && Left(0x2000) == 0
  {
  }

  /** Two different masks, each a single bit or empty, share no bit. */
  lemma DistinctSingles(a: bv32, c: bv32)
    requires IsSingleBit(a) && (c == 0 || IsSingleBit(c)) && a != c
    ensures a & c == 0
  {
  }

  /** Every bit of `b` is a bit of `w`. */
  predicate Within(b: bv32, w: bv32) {
    b & w == b
  }

  /** `a` and `b` share no bit. */
  predicate Disjoint(a: bv32, b: bv32) {
    a & b == 0
  }

  /** `a` and `b` share a bit. */
  predicate Meets(a: bv32, b: bv32) {
    a & b != 0
  }

  /** `p` with the bits of `a` toggled off and the bits of `c` set: one anchor
      leaves a cell and enters another. */
  function Slide(p: bv32, a: bv32, c: bv32): bv32 {
    (p ^ a) | c
  }

  /** The union of the entries `i..` of a mask sequence. */
  function UnionFrom(s: seq<bv32>, i: nat): bv32
    requires i <= |s|
    decreases |s| - i
  {
    if i == |s| then 0 else s[i] | UnionFrom(s, i + 1)
  }

  lemma WithinUnion(b: bv32, a: bv32, u: bv32, w: bv32)
    requires w == a | u && (Within(b, u) || b == a)
    ensures Within(b, w)
  {
  }

  /** Every entry from `i` on lies inside the union of the entries from `i` on. */
  lemma {:induction false} InUnionFrom(s: seq<bv32>, i: nat, j: nat)
    requires i <= j < |s|
    ensures Within(s[j], UnionFrom(s, i))
    decreases j - i
  {
    var b, a, u, w := s[j], s[i], UnionFrom(s, i + 1), UnionFrom(s, i);
    assert w == a | u;
    if i < j {
      InUnionFrom(s, i + 1, j);
      assert Within(b, u);
    }
    WithinUnion(b, a, u, w);
  }

  /** The union of the probe-table entries `i..19`. */
  function ProbeUnion(i: nat): bv32
    requires i <= 20
  {
    UnionFrom(CellMasks, i)
  }

  /** The table's entries written out, with the unions of its tails. */
  lemma ProbeUnionValues()
    ensures CellMasks == [0, 0, 0, 0,
      0x0001, 0x0010, 0x0100, 0x1000,
      0x0002, 0x0020, 0x0200, 0x2000,
      0x0004, 0x0040, 0x0400, 0x4000,
      0x0008, 0x0080, 0x0800, 0x8000]
    ensures ProbeUnion(0) == 0xFFFF && ProbeUnion(4) == 0xFFFF && ProbeUnion(5) == 0xFFFE
    ensures ProbeUnion(6) == 0xFFEE && ProbeUnion(7) == 0xFEEE && ProbeUnion(8) == 0xEEEE
    ensures ProbeUnion(9) == 0xEEEC && ProbeUnion(10) == 0xEECC && ProbeUnion(11) == 0xECCC
    ensures ProbeUnion(12) == 0xCCCC && ProbeUnion(13) == 0xCCC8 && ProbeUnion(14) == 0xCC88
    ensures ProbeUnion(15) == 0xC888 && ProbeUnion(16) == 0x8888 && ProbeUnion(17) == 0x8880
    ensures ProbeUnion(18) == 0x8800 && ProbeUnion(19) == 0x8000
  {
    var c := CellMasks;
    assert c == [0, 0, 0, 0,
      0x0001, 0x0010, 0x0100, 0x1000,
      0x0002, 0x0020, 0x0200, 0x2000,
      0x0004, 0x0040, 0x0400, 0x4000,
      0x0008, 0x0080, 0x0800, 0x8000];
    assert UnionFrom(c, 19) == 0x8000;
    assert UnionFrom(c, 18) == 0x8800;
    assert UnionFrom(c, 17) == 0x8880;
    assert UnionFrom(c, 16) == 0x8888;
    assert UnionFrom(c, 15) == 0xC888;
    assert UnionFrom(c, 14) == 0xCC88;
    assert UnionFrom(c, 13) == 0xCCC8;
    assert UnionFrom(c, 12) == 0xCCCC;
    assert UnionFrom(c, 11) == 0xECCC;
    assert UnionFrom(c, 10) == 0xEECC;
    assert UnionFrom(c, 9) == 0xEEEC;
    assert UnionFrom(c, 8) == 0xEEEE;
    assert UnionFrom(c, 7) == 0xFEEE;
    assert UnionFrom(c, 6) == 0xFFEE;
    assert UnionFrom(c, 5) == 0xFFFE;
    assert UnionFrom(c, 4) == 0xFFFF;
    assert UnionFrom(c, 3) == 0xFFFF;
    assert UnionFrom(c, 2) == 0xFFFF;
    assert UnionFrom(c, 1) == 0xFFFF;
  }

  /** Each non-empty probe is disjoint from every later one. */
  lemma ProbeDisjointFromLater(i: nat)
    requires 4 <= i < 20
    ensures Disjoint(CellMask(i), ProbeUnion(i + 1))
  {
    ProbeUnionValues();
  }

  lemma DisjointWithin(a: bv32, b: bv32, u: bv32)
    requires Disjoint(a, u) && Within(b, u)
    ensures Disjoint(a, b)
  {
  }

  /** The sixteen non-empty probes are pairwise disjoint, hence distinct. */
  lemma ProbePairDisjoint(i: nat, j: nat)
    requires 4 <= i < j < 20
    ensures Disjoint(CellMask(i), CellMask(j))
  {
    ProbeDisjointFromLater(i);
    InUnionFrom(CellMasks, i + 1, j);
    DisjointWithin(CellMask(i), CellMask(j), ProbeUnion(i + 1));
  }

  /** The probes together cover exactly bits 0..15: the first four entries are
      empty, so bits 16..19 (the last row of the field) are never probed. */
  lemma ProbesCover()
    ensures ProbeUnion(0) == Low16
    ensures ProbeUnion(4) == ProbeUnion(0)
    ensures Disjoint(ProbeUnion(0), R1)
  {
    ProbeUnionValues();
  }
}
