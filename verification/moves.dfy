/**
 * What one slide does to a board: facts about the successors `Follow`
 * generates, proved kind by kind from the bit arithmetic of the shifts.
 */
module Moves {
  import opened Masks
  import opened BitCount
  import opened Boards

  /** Clearing a set single bit `a` and setting bits `c` that miss `a` changes the mask. */
  lemma ClearsBit(p: bv32, a: bv32, c: bv32, q: bv32)
    requires IsSingleBit(a) && a & p != 0 && a & c == 0 && q == (p ^ a) | c
    ensures q != p
  {
  }

  lemma MeetsNonZero(a: bv32, p: bv32)
    requires a & p != 0
    ensures a != 0 && p != 0
  {
  }

  /** A move of two cells, `a` = `Step(Step(m))` cleared and `c` = `Step(m)` set,
      where `Step` is `Left` or `Up`. */
  lemma SlideTwo(p: bv32, m: bv32, c: bv32, a: bv32, q: bv32)
    requires IsSingleBit(m)
    requires (c == Left(m) && a == Left(c)) || (c == Up(m) && a == Up(c))
    requires a & p != 0 && q == (p ^ a) | c
    ensures q != p
  {
    MeetsNonZero(a, p);
    ShiftsOfSingle(m);
    if c == 0 {
      assert false;
    } else {
      ShiftsOfSingle(c);
      ShiftsMove(c);
      DistinctSingles(a, c);
      ClearsBit(p, a, c, q);
    }
  }

  /** A move of one cell: the neighbour `a` of `m` is cleared and `m` is set. */
  lemma SlideOne(p: bv32, m: bv32, a: bv32, q: bv32)
    requires IsSingleBit(m)
    requires a == Left(m) || a == Right(m) || a == Up(m) || a == Down(m)
    requires a & p != 0 && q == (p ^ a) | m
    ensures IsSingleBit(a) && a != m
    ensures q != p
  {
    MeetsNonZero(a, p);
    ShiftsOfSingle(m);
    ShiftsMove(m);
    DistinctSingles(a, m);
    ClearsBit(p, a, m, q);
  }

  /** A push of the table moves the anchors of kind `k` whenever it fires. */
  predicate PushMoves(b: Board, p: Push, k: Kind) {
    Fires(p) ==> Moved(b, p.board, k)
  }

  lemma PushedMoves(b: Board, ps: seq<Push>, k: Kind)
    requires |ps| == 4
    requires PushMoves(b, ps[0], k) && PushMoves(b, ps[1], k)
    requires PushMoves(b, ps[2], k) && PushMoves(b, ps[3], k)
    ensures forall x :: x in Pushed(ps) ==> Moved(b, x, k)
  {
    forall x | x in Pushed(ps) ensures Moved(b, x, k) {
      var i :| 0 <= i < |ps| && Fires(ps[i]) && ps[i].board == x;
      assert i == 0 || i == 1 || i == 2 || i == 3;
    }
  }

  /** A firing 2x2 push shifts the non-empty 2x2 anchor mask, which changes it. */
  lemma Moves2x2Push(b: Board, m: bv32, i: nat)
    requires i < 4
    ensures PushMoves(b, Pushes2x2(b, m)[i], Block2x2)
  {
    if Fires(Pushes2x2(b, m)[i]) {
      ShiftsMove(b.p2x2);
    }
  }

  /** Every 2x2 successor changes the 2x2 anchor mask. */
  lemma Follow2x2Moves(b: Board, m: bv32)
    ensures forall x :: x in Follow2x2(b, m) ==> Moved(b, x, Block2x2)
  {
    Moves2x2Push(b, m, 0);
    Moves2x2Push(b, m, 1);
    Moves2x2Push(b, m, 2);
    Moves2x2Push(b, m, 3);
    PushedMoves(b, Pushes2x2(b, m), Block2x2);
  }

  // One lemma per push of the sliding kinds: the anchor left or entered.

  lemma Moves2x1FromLeft(b: Board, m: bv32)
    requires IsSingleBit(m)
    ensures PushMoves(b, Pushes2x1(b, m)[0], Block2x1)
  {
    var ps := Pushes2x1(b, m);
    if Fires(ps[0]) {
      SlideTwo(b.p2x1, m, Left(m), Left(Left(m)), ps[0].board.p2x1);
    }
  }

  lemma Moves2x1FromRight(b: Board, m: bv32)
    requires IsSingleBit(m)
    ensures PushMoves(b, Pushes2x1(b, m)[1], Block2x1)
  {
    var ps := Pushes2x1(b, m);
    if Fires(ps[1]) {
      SlideOne(b.p2x1, m, Right(m), ps[1].board.p2x1);
    }
  }

  lemma Moves2x1FromAbove(b: Board, m: bv32)
    requires IsSingleBit(m)
    ensures PushMoves(b, Pushes2x1(b, m)[2], Block2x1)
  {
    var ps := Pushes2x1(b, m);
    if Fires(ps[2]) {
      SlideOne(b.p2x1, m, Up(m), ps[2].board.p2x1);
    }
  }

  lemma Moves2x1FromBelow(b: Board, m: bv32)
    requires IsSingleBit(m)
    ensures PushMoves(b, Pushes2x1(b, m)[3], Block2x1)
  {
    var ps := Pushes2x1(b, m);
    if Fires(ps[3]) {
      SlideOne(b.p2x1, m, Down(m), ps[3].board.p2x1);
    }
  }

  lemma Moves1x2FromAbove(b: Board, m: bv32)
    requires IsSingleBit(m)
    ensures PushMoves(b, Pushes1x2(b, m)[0], Block1x2)
  {
    var ps := Pushes1x2(b, m);
    if Fires(ps[0]) {
      SlideTwo(b.p1x2, m, Up(m), Up(Up(m)), ps[0].board.p1x2);
    }
  }

  lemma Moves1x2FromBelow(b: Board, m: bv32)
    requires IsSingleBit(m)
    ensures PushMoves(b, Pushes1x2(b, m)[1], Block1x2)
  {
    var ps := Pushes1x2(b, m);
    if Fires(ps[1]) {
      SlideOne(b.p1x2, m, Down(m), ps[1].board.p1x2);
    }
  }

  lemma Moves1x2FromLeft(b: Board, m: bv32)
    requires IsSingleBit(m)
    ensures PushMoves(b, Pushes1x2(b, m)[2], Block1x2)
  {
    var ps := Pushes1x2(b, m);
    if Fires(ps[2]) {
      SlideOne(b.p1x2, m, Left(m), ps[2].board.p1x2);
    }
  }

  lemma Moves1x2FromRight(b: Board, m: bv32)
    requires IsSingleBit(m)
    ensures PushMoves(b, Pushes1x2(b, m)[3], Block1x2)
  {
    var ps := Pushes1x2(b, m);
    if Fires(ps[3]) {
      SlideOne(b.p1x2, m, Right(m), ps[3].board.p1x2);
    }
  }

  lemma Moves1x1FromLeft(b: Board, m: bv32)
    requires IsSingleBit(m)
    ensures PushMoves(b, Pushes1x1(b, m)[0], Block1x1)
  {
    var ps := Pushes1x1(b, m);
    if Fires(ps[0]) {
      SlideOne(b.p1x1, m, Left(m), ps[0].board.p1x1);
    }
  }

  lemma Moves1x1FromRight(b: Board, m: bv32)
    requires IsSingleBit(m)
    ensures PushMoves(b, Pushes1x1(b, m)[1], Block1x1)
  {
    var ps := Pushes1x1(b, m);
    if Fires(ps[1]) {
      SlideOne(b.p1x1, m, Right(m), ps[1].board.p1x1);
    }
  }

  lemma Moves1x1FromAbove(b: Board, m: bv32)
    requires IsSingleBit(m)
    ensures PushMoves(b, Pushes1x1(b, m)[2], Block1x1)
  {
    var ps := Pushes1x1(b, m);
    if Fires(ps[2]) {
      SlideOne(b.p1x1, m, Up(m), ps[2].board.p1x1);
    }
  }

  lemma Moves1x1FromBelow(b: Board, m: bv32)
    requires IsSingleBit(m)
    ensures PushMoves(b, Pushes1x1(b, m)[3], Block1x1)
  {
    var ps := Pushes1x1(b, m);
    if Fires(ps[3]) {
      SlideOne(b.p1x1, m, Down(m), ps[3].board.p1x1);
    }
  }

  /** Every 2x1 successor into a single probe cell changes the 2x1 anchor mask. */
  lemma Follow2x1Moves(b: Board, m: bv32)
    requires IsSingleBit(m)
    ensures forall x :: x in Follow2x1(b, m) ==> Moved(b, x, Block2x1)
  {
    Moves2x1FromLeft(b, m);
    Moves2x1FromRight(b, m);
    Moves2x1FromAbove(b, m);
    Moves2x1FromBelow(b, m);
    PushedMoves(b, Pushes2x1(b, m), Block2x1);
  }

  /** Every 1x2 successor into a single probe cell changes the 1x2 anchor mask. */
  lemma Follow1x2Moves(b: Board, m: bv32)
    requires IsSingleBit(m)
    ensures forall x :: x in Follow1x2(b, m) ==> Moved(b, x, Block1x2)
  {
    Moves1x2FromAbove(b, m);
    Moves1x2FromBelow(b, m);
    Moves1x2FromLeft(b, m);
    Moves1x2FromRight(b, m);
    PushedMoves(b, Pushes1x2(b, m), Block1x2);
  }

  /** Every 1x1 successor into a single probe cell changes the 1x1 anchor mask. */
  lemma Follow1x1Moves(b: Board, m: bv32)
    requires IsSingleBit(m)
    ensures forall x :: x in Follow1x1(b, m) ==> Moved(b, x, Block1x1)
  {
    Moves1x1FromLeft(b, m);
    Moves1x1FromRight(b, m);
    Moves1x1FromAbove(b, m);
    Moves1x1FromBelow(b, m);
    PushedMoves(b, Pushes1x1(b, m), Block1x1);
  }

  /** A firing 1x1 push keeps the number of 1x1 blocks when the probe cell
      holds no 1x1 anchor. */
  predicate PushKeepsCount(b: Board, p: Push) {
    Fires(p) ==> Popcount(p.board.p1x1) == Popcount(b.p1x1)
  }

  /** A neighbour of a single cell that meets `s` is itself a single cell. */
  lemma NeighbourIsSingle(s: bv32, m: bv32, a: bv32)
    requires IsSingleBit(m)
    requires a == Left(m) || a == Right(m) || a == Up(m) || a == Down(m)
    requires a & s != 0
    ensures IsSingleBit(a)
  {
    MeetsNonZero(a, s);
    ShiftsOfSingle(m);
  }

  /** Moving one set bit of `s` to a clear single bit keeps the number of set bits. */
  lemma SlideKeepsCount(s: bv32, m: bv32, a: bv32, q: bv32)
    requires IsSingleBit(m) && Disjoint(m, s) && IsSingleBit(a)
    requires a & s != 0 && q == Slide(s, a, m)
    ensures Popcount(q) == Popcount(s)
  {
    SwapKeepsCount(s, a, m);
  }

  lemma Count1x1Push(b: Board, m: bv32, a: bv32, p: Push)
    requires IsSingleBit(m) && Disjoint(m, b.p1x1)
    requires a == Left(m) || a == Right(m) || a == Up(m) || a == Down(m)
    requires p.hit == a & b.p1x1 && p.board.p1x1 == Slide(b.p1x1, a, m)
    ensures PushKeepsCount(b, p)
  {
    if Fires(p) {
      NeighbourIsSingle(b.p1x1, m, a);
      SlideKeepsCount(b.p1x1, m, a, p.board.p1x1);
    }
  }

  lemma Keeps1x1FromLeft(b: Board, m: bv32)
    requires IsSingleBit(m) && Disjoint(m, b.p1x1)
    ensures PushKeepsCount(b, Pushes1x1(b, m)[0])
  {
    Count1x1Push(b, m, Left(m), Pushes1x1(b, m)[0]);
  }

  lemma Keeps1x1FromRight(b: Board, m: bv32)
    requires IsSingleBit(m) && Disjoint(m, b.p1x1)
    ensures PushKeepsCount(b, Pushes1x1(b, m)[1])
  {
    Count1x1Push(b, m, Right(m), Pushes1x1(b, m)[1]);
  }

  lemma Keeps1x1FromAbove(b: Board, m: bv32)
    requires IsSingleBit(m) && Disjoint(m, b.p1x1)
    ensures PushKeepsCount(b, Pushes1x1(b, m)[2])
  {
    Count1x1Push(b, m, Up(m), Pushes1x1(b, m)[2]);
  }

  lemma Keeps1x1FromBelow(b: Board, m: bv32)
    requires IsSingleBit(m) && Disjoint(m, b.p1x1)
    ensures PushKeepsCount(b, Pushes1x1(b, m)[3])
  {
    Count1x1Push(b, m, Down(m), Pushes1x1(b, m)[3]);
  }

  lemma PushedKeepsCount(b: Board, ps: seq<Push>)
    requires |ps| == 4
    requires PushKeepsCount(b, ps[0]) && PushKeepsCount(b, ps[1])
    requires PushKeepsCount(b, ps[2]) && PushKeepsCount(b, ps[3])
    ensures forall x :: x in Pushed(ps) ==> Popcount(x.p1x1) == Popcount(b.p1x1)
  {
    forall x | x in Pushed(ps) ensures Popcount(x.p1x1) == Popcount(b.p1x1) {
      var i :| 0 <= i < |ps| && Fires(ps[i]) && ps[i].board == x;
      assert i == 0 || i == 1 || i == 2 || i == 3;
    }
  }

  /** Every 1x1 successor into a free single cell has as many 1x1 blocks as `b`. */
  lemma Follow1x1KeepsCount(b: Board, m: bv32)
    requires IsSingleBit(m) && Disjoint(m, b.p1x1)
    ensures forall x :: x in Follow1x1(b, m) ==> Popcount(x.p1x1) == Popcount(b.p1x1)
  {
    Keeps1x1FromLeft(b, m);
    Keeps1x1FromRight(b, m);
    Keeps1x1FromAbove(b, m);
    Keeps1x1FromBelow(b, m);
    PushedKeepsCount(b, Pushes1x1(b, m));
  }

  /** Every successor into a single probe cell moves the anchors of exactly
      one kind; when the cell holds no 1x1 anchor, the 1x1 count is kept. */
  lemma FollowSingleMoves(b: Board, m: bv32)
    requires IsSingleBit(m)
    ensures forall x :: x in FollowSingle(b, m) ==> OneKindMoved(b, x)
    ensures Disjoint(m, b.p1x1) ==>
      forall x :: x in FollowSingle(b, m) ==> Popcount(x.p1x1) == Popcount(b.p1x1)
  {
    Follow2x2Moves(b, m);
    Follow2x1Moves(b, m);
    Follow1x2Moves(b, m);
    Follow1x1Moves(b, m);
    if Disjoint(m, b.p1x1) {
      Follow1x1KeepsCount(b, m);
    }
  }

  /** Every successor from table entries `i..19` moves exactly one kind; on a
      valid board each also keeps the 1x1 count. */
  lemma {:induction false} FollowFromMoves(b: Board, i: nat)
    requires i <= 20
    ensures forall x :: x in FollowFrom(b, i) ==> OneKindMoved(b, x)
    ensures Valid(b) ==> forall x :: x in FollowFrom(b, i) ==> Popcount(x.p1x1) == Popcount(b.p1x1)
    decreases 20 - i
  {
    if i < 20 {
      if Probed(b, i) {
        ProbedIsProbe(b, i);
        var m := CellMask(i);
        if Valid(b) {
          FreeCellHoldsNoAnchor(b, m);
        }
        FollowSingleMoves(b, m);
      }
      FollowFromMoves(b, i + 1);
    }
  }

  /** Every successor of a board differs from it in the anchors of exactly one
      kind, and a successor of a valid board has as many 1x1 blocks. */
  lemma FollowMoves(b: Board)
    ensures forall x :: x in Follow(b) ==> OneKindMoved(b, x)
    ensures Valid(b) ==> forall x :: x in Follow(b) ==> Popcount(x.p1x1) == Popcount(b.p1x1)
  {
    FollowFromMoves(b, 0);
  }

  /** No board is its own successor. */
  lemma NoSelfLoop(b: Board)
    ensures b !in Follow(b)
  {
    FollowMoves(b);
  }

  /** A board whose stored mask covers bits 0..15 has no successors: no table
      entry is probed. */
  lemma {:induction false} FollowFromFull(b: Board, i: nat)
    requires i <= 20 && Full(b)
    ensures FollowFrom(b, i) == []
    decreases 20 - i
  {
    if i < 20 {
      CellMaskShape(i);
      assert !Probed(b, i);
      FollowFromFull(b, i + 1);
    }
  }

  lemma FollowFull(b: Board)
    requires Full(b)
    ensures Follow(b) == []
  {
    FollowFromFull(b, 0);
  }

  /** The wrap masks clear bit group `C1` rather than a column: on a board
      holding only a 2x2 block anchored at bit 0, probing table entry 12 (bit
      2) slides the block "right" into an empty 2x2 anchor mask. */
  lemma BigBlockCanVanish()
    ensures Probed(New(1, 0, 0, 0), 12)
    ensures New(0, 0, 0, 0) in FollowSingle(New(1, 0, 0, 0), CellMask(12))
  {
    var b, x := New(1, 0, 0, 0), New(0, 0, 0, 0);
    var m := CellMask(12);
    ProbeUnionValues();
    assert m == 4;
    var ps := Pushes2x2(b, m);
    assert Fires(ps[0]) && ps[0].board == x;
    assert x in Follow2x2(b, m);
  }

  /** The start layout has four 1x1 blocks (`Solver.StartPathKeepsFour`
      carries the count along a solution path). */
  lemma StartSmallCount()
    ensures Popcount(Start().p1x1) == 4
  {
    PopcountSingle(0x2000);
    PopcountSingle(0x4000);
    PopcountSingle(0x2_0000);
    PopcountSingle(0x4_0000);
    CountZero(0, 32);
    CountUnion(0x2000, 0x4000, 0x6000, 0, 32);
    CountUnion(0x6000, 0x2_0000, 0x2_6000, 0, 32);
    CountUnion(0x2_6000, 0x4_0000, 0x6_6000, 0, 32);
  }
}
