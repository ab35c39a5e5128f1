/**
 * The bit-packed board and its successor generation.
 *
 * A board holds one anchor mask per block kind and a stored `mask`. The
 * program's constructor computes a footprint-expanded occupancy but stores
 * only the union of the four anchor masks, so every "is this cell free" test
 * below looks at anchor cells only. The model keeps that behaviour.
 */
module Boards {
  import opened Masks

  /** The five masks of a board, in the program's field order. */
  datatype Board = Board(mask: bv32, p2x1: bv32, p2x2: bv32, p1x2: bv32, p1x1: bv32)

  /** The four block kinds, named by their footprints. */
  datatype Kind = Block2x2 | Block2x1 | Block1x2 | Block1x1

  /** The anchor mask of kind `k`. */
  function Anchors(b: Board, k: Kind): bv32 {
    match k
    case Block2x2 => b.p2x2
    case Block2x1 => b.p2x1
    case Block1x2 => b.p1x2
    case Block1x1 => b.p1x1
  }

  /** The stored mask is the union of the four anchor masks: what the
      constructor establishes for every board it builds. */
  predicate Valid(b: Board) {
    b.mask == b.p2x2 | b.p1x2 | b.p2x1 | b.p1x1
  }

  /** The footprint-expanded occupancy the constructor computes in a local
      variable and then discards. */
  function Footprint(p2x2: bv32, p2x1: bv32, p1x2: bv32, p1x1: bv32): bv32 {
    p1x1
    | p2x1 | (p2x1 << 1)
    | p1x2 | (p1x2 << 4)
    | p2x2 | (p2x2 << 5) | (p2x2 << 4) | (p2x2 << 1)
  }

  /** The constructor: keeps the four anchor masks and stores their union. */
  function New(p2x2: bv32, p2x1: bv32, p1x2: bv32, p1x1: bv32): (b: Board)
    ensures b.p2x2 == p2x2 && b.p2x1 == p2x1 && b.p1x2 == p1x2 && b.p1x1 == p1x1
    ensures Valid(b)
  {
    Board(p2x2 | p1x2 | p2x1 | p1x1, p2x1, p2x2, p1x2, p1x1)
  }

  /** Rebuilding a board from its anchor masks gives the same board exactly
      when the board is valid: a valid board is determined by its anchors. */
  lemma NewFromAnchors(b: Board)
    ensures Valid(b) <==> New(b.p2x2, b.p2x1, b.p1x2, b.p1x1) == b
  {
  }

  /** The stored mask lies inside the footprint occupancy. */
  lemma MaskWithinFootprint(p2x2: bv32, p2x1: bv32, p1x2: bv32, p1x1: bv32)
    ensures Within(New(p2x2, p2x1, p1x2, p1x1).mask, Footprint(p2x2, p2x1, p1x2, p1x1))
  {
  }

  /** The cells of the field whose bit is clear in the stored mask. */
  function Free(b: Board): bv32 {
    !b.mask & BoardMask
  }

  /** A cell that `Follow` hands to the per-kind generators: a single bit in
      bits 0..15 that is clear in the stored mask. */
  predicate IsProbe(b: Board, m: bv32) {
    IsSingleBit(m) && Within(m, Low16) && Disjoint(m, b.mask)
  }

  /** `x` keeps every anchor mask of `b` except possibly the one of kind `k`. */
  predicate SameExcept(b: Board, x: Board, k: Kind) {
    (k == Block2x2 || x.p2x2 == b.p2x2)
    && (k == Block2x1 || x.p2x1 == b.p2x1)
    && (k == Block1x2 || x.p1x2 == b.p1x2)
    && (k == Block1x1 || x.p1x1 == b.p1x1)
  }

  /** `x` differs from `b` in the anchor mask of kind `k` and in no other. */
  predicate Moved(b: Board, x: Board, k: Kind) {
    SameExcept(b, x, k) && Anchors(x, k) != Anchors(b, k)
  }

  /** `x` differs from `b` in exactly one anchor mask. */
  predicate OneKindMoved(b: Board, x: Board) {
    Moved(b, x, Block2x2) || Moved(b, x, Block2x1) || Moved(b, x, Block1x2) || Moved(b, x, Block1x1)
  }

  /** One guarded push of a generator: `board` is pushed when the anchor test
      `hit` (the moving kind's mask meeting a neighbour cell of the probe) is
      non-empty and the occupancy test `blocked` (a second cell the block
      needs, meeting the stored mask) is empty. Guards without an occupancy
      test have `blocked == 0`. */
  datatype Push = Push(hit: bv32, blocked: bv32, board: Board)

  predicate Fires(p: Push) {
    p.hit != 0 && p.blocked == 0
  }

  /** The boards of the pushes that fire, in order. */
  function Pushed(ps: seq<Push>): (r: seq<Board>)
    ensures |r| <= |ps|
    ensures forall x :: x in r <==> exists i :: 0 <= i < |ps| && Fires(ps[i]) && ps[i].board == x
  {
    if ps == [] then [] else (if Fires(ps[0]) then [ps[0].board] else []) + Pushed(ps[1..])
  }

  /** The guarded pushes of the 2x2 generator for probe cell `m`, in the
      program's order. */
  function Pushes2x2(b: Board, m: bv32): (ps: seq<Push>)
    ensures |ps| == 4
  {
    [
      Push(Left(Left(m)) & b.p2x2, Down(m) & b.mask,
        New(Right(b.p2x2), b.p2x1, b.p1x2, b.p1x1)),
      Push(Right(m) & b.p2x2, Down(m) & b.mask,
        New(Left(b.p2x2), b.p2x1, b.p1x2, b.p1x1)),
      Push(Up(Up(m)) & b.p2x2, Right(m) & b.mask,
        New(Down(b.p2x2), b.p2x1, b.p1x2, b.p1x1)),
      Push(Down(m) & b.p2x2, Right(m) & b.mask,
        New(Up(b.p2x2), b.p2x1, b.p1x2, b.p1x1))]
  }

  /** The 2x2 block slides into probe cell `m`: right, left, down or up. */
  function Follow2x2(b: Board, m: bv32): (r: seq<Board>)
    ensures |r| <= 4
    ensures forall x :: x in r ==> Valid(x) && SameExcept(b, x, Block2x2)
  {
    Pushed(Pushes2x2(b, m))
  }

  /** The guarded pushes of the 2x1 generator for probe cell `m`, in the
      program's order. */
  function Pushes2x1(b: Board, m: bv32): (ps: seq<Push>)
    ensures |ps| == 4
  {
    [
      Push(Left(Left(m)) & b.p2x1, 0,
        New(b.p2x2, Slide(b.p2x1, Left(Left(m)), Left(m)), b.p1x2, b.p1x1)),
      Push(Right(m) & b.p2x1, 0,
        New(b.p2x2, Slide(b.p2x1, Right(m), m), b.p1x2, b.p1x1)),
      Push(Up(m) & b.p2x1, Right(m) & b.mask,
        New(b.p2x2, Slide(b.p2x1, Up(m), m), b.p1x2, b.p1x1)),
      Push(Down(m) & b.p2x1, Right(m) & b.mask,
        New(b.p2x2, Slide(b.p2x1, Down(m), m), b.p1x2, b.p1x1))]
  }

  /** A 2x1 block slides into probe cell `m`: its anchor moves one cell,
      from one or two cells away sideways, or from one row above or below. */
  function Follow2x1(b: Board, m: bv32): (r: seq<Board>)
    ensures |r| <= 4
    ensures forall x :: x in r ==> Valid(x) && SameExcept(b, x, Block2x1)
  {
    Pushed(Pushes2x1(b, m))
  }

  /** The guarded pushes of the 1x2 generator for probe cell `m`, in the
      program's order. */
  function Pushes1x2(b: Board, m: bv32): (ps: seq<Push>)
    ensures |ps| == 4
  {
    [
      Push(Up(Up(m)) & b.p1x2, 0,
        New(b.p2x2, b.p2x1, Slide(b.p1x2, Up(Up(m)), Up(m)), b.p1x1)),
      Push(Down(m) & b.p1x2, 0,
        New(b.p2x2, b.p2x1, Slide(b.p1x2, Down(m), m), b.p1x1)),
      Push(Left(m) & b.p1x2, Down(m) & b.mask,
        New(b.p2x2, b.p2x1, Slide(b.p1x2, Left(m), m), b.p1x1)),
      Push(Right(m) & b.p1x2, Down(m) & b.mask,
        New(b.p2x2, b.p2x1, Slide(b.p1x2, Right(m), m), b.p1x1))]
  }

  /** A 1x2 block slides into probe cell `m`: its anchor moves one cell,
      from one or two rows above or below, or from one cell sideways. */
  function Follow1x2(b: Board, m: bv32): (r: seq<Board>)
    ensures |r| <= 4
    ensures forall x :: x in r ==> Valid(x) && SameExcept(b, x, Block1x2)
  {
    Pushed(Pushes1x2(b, m))
  }

  /** The guarded pushes of the 1x1 generator for probe cell `m`, in the
      program's order. */
  function Pushes1x1(b: Board, m: bv32): (ps: seq<Push>)
    ensures |ps| == 4
  {
    [
      Push(Left(m) & b.p1x1, 0,
        New(b.p2x2, b.p2x1, b.p1x2, Slide(b.p1x1, Left(m), m))),
      Push(Right(m) & b.p1x1, 0,
        New(b.p2x2, b.p2x1, b.p1x2, Slide(b.p1x1, Right(m), m))),
      Push(Up(m) & b.p1x1, 0,
        New(b.p2x2, b.p2x1, b.p1x2, Slide(b.p1x1, Up(m), m))),
      Push(Down(m) & b.p1x1, 0,
        New(b.p2x2, b.p2x1, b.p1x2, Slide(b.p1x1, Down(m), m)))]
  }

  /** A 1x1 block next to probe cell `m` slides into it: its anchor bit is
      cleared and `m` is set. */
  function Follow1x1(b: Board, m: bv32): (r: seq<Board>)
    ensures |r| <= 4
    ensures forall x :: x in r ==> Valid(x) && SameExcept(b, x, Block1x1)
  {
    Pushed(Pushes1x1(b, m))
  }

  /** All moves into probe cell `m`, kind by kind in the program's order. */
  function FollowSingle(b: Board, m: bv32): (r: seq<Board>)
    ensures |r| <= 16
    ensures forall x :: x in r ==> Valid(x)
    ensures forall x :: x in r <==>
      x in Follow2x2(b, m) || x in Follow2x1(b, m) || x in Follow1x2(b, m) || x in Follow1x1(b, m)
  {
    Follow2x2(b, m) + Follow2x1(b, m) + Follow1x2(b, m) + Follow1x1(b, m)
  }

  /** The stored mask covers every probed cell. */
  predicate Full(b: Board) {
    Within(Low16, b.mask)
  }

  /** Table entry `i` is probed on `b`: the entry has a bit that is free. */
  predicate Probed(b: Board, i: nat)
    requires i < 20
  {
    Free(b) & CellMask(i) != 0
  }

  /** A probed entry is one of the sixteen single-bit entries, and a cell the
      generators may be handed: inside bits 0..15 and clear in the stored mask. */
  lemma ProbedIsProbe(b: Board, i: nat)
    requires i < 20 && Probed(b, i)
    ensures 4 <= i && IsProbe(b, CellMask(i))
  {
    CellMaskShape(i);
  }

  /** On a valid board a cell clear in the stored mask holds no anchor. */
  lemma FreeCellHoldsNoAnchor(b: Board, m: bv32)
    requires Valid(b) && Disjoint(m, b.mask)
    ensures Disjoint(m, b.p2x2) && Disjoint(m, b.p2x1) && Disjoint(m, b.p1x2) && Disjoint(m, b.p1x1)
  {
  }

  /** The successors found by probing table entries `i..19`, in push order. */
  function FollowFrom(b: Board, i: nat): (r: seq<Board>)
    requires i <= 20
    ensures |r| <= 16 * (20 - i)
    ensures forall x :: x in r ==> Valid(x)
    decreases 20 - i
  {
    if i == 20 then []
    else (if Probed(b, i) then FollowSingle(b, CellMask(i)) else []) + FollowFrom(b, i + 1)
  }

  /** The successor boards of `b`, in the order the program pushes them: every
      board that some generator produces for some probed table entry. */
  function Follow(b: Board): (r: seq<Board>)
    ensures |r| <= 320
    ensures forall x :: x in r ==> Valid(x)
  {
    FollowFrom(b, 0)
  }

  /** One step of `FollowFrom`: entry `i` contributes its own successors. */
  lemma FollowFromStep(b: Board, i: nat, x: Board)
    requires i < 20
    ensures x in FollowFrom(b, i) <==>
      (Probed(b, i) && x in FollowSingle(b, CellMask(i))) || x in FollowFrom(b, i + 1)
  {
  }

  /** A board is a successor from table entries `i..19` exactly when some
      probed entry among them produces it. */
  lemma {:induction false} FollowFromMembers(b: Board, i: nat, x: Board)
    requires i <= 20
    ensures x in FollowFrom(b, i) <==>
      exists j :: i <= j < 20 && Probed(b, j) && x in FollowSingle(b, CellMask(j))
    decreases 20 - i
  {
    if i < 20 {
      FollowFromStep(b, i, x);
      FollowFromMembers(b, i + 1, x);
      if exists j :: i <= j < 20 && Probed(b, j) && x in FollowSingle(b, CellMask(j)) {
        var j :| i <= j < 20 && Probed(b, j) && x in FollowSingle(b, CellMask(j));
        assert j == i || i + 1 <= j;
      }
    }
  }

  /** The successors of `b` are exactly the boards some probed table entry
      produces. */
  lemma FollowMembers(b: Board, x: Board)
    ensures x in Follow(b) <==> exists j :: 0 <= j < 20 && Probed(b, j) && x in FollowSingle(b, CellMask(j))
  {
    FollowFromMembers(b, 0, x);
  }

  /** The layout the program starts from: the 2x2 block anchored at bit 1, the
      2x1 block at bit 9, 1x2 blocks at bits 0, 3, 12 and 15, and 1x1 blocks at
      bits 13, 14, 17 and 18. */
  function Start(): (b: Board)
    ensures Valid(b)
  {
    New(0x2, 0x200, 0x9009, 0x6_6000)
  }

  /** The stored mask of the start board is not its footprint occupancy: the
      cell right of the 2x1 anchor (bit 10) is covered by that block but reads
      as free. */
  lemma StartMaskIsAnchorsOnly()
    ensures Start().mask != Footprint(0x2, 0x200, 0x9009, 0x6_6000)
    ensures Meets(Free(Start()), 0x400) && Meets(Footprint(0x2, 0x200, 0x9009, 0x6_6000), 0x400)
  {
  }
}
