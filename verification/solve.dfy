/**
 * The program's search over its own boards: the breadth-first search run
 * with `Follow` as the successor function, together with what the move
 * generator's guarantees add to a solution path.
 */
module Solver {
  import opened BitCount
  import opened Boards
  import opened Moves
  import opened Search

  /** A successor of a valid board is valid and has as many 1x1 blocks. */
  lemma StepKeepsBoard(b: Board, x: Board)
    requires Valid(b) && x in Follow(b)
    ensures Valid(x) && Popcount(x.p1x1) == Popcount(b.p1x1)
  {
    FollowMoves(b);
  }

  /** A valid board with `c` 1x1 blocks. */
  predicate HoldsCount(c: nat, b: Board) {
    Valid(b) && Popcount(b.p1x1) == c
  }

  /** Every board on a chain that ends at a valid board with `c` 1x1 blocks
      is valid and has `c` 1x1 blocks. */
  lemma ChainKeepsBoards(path: seq<Board>, c: nat)
    requires IsChain(Follow, path) && |path| > 0 && HoldsCount(c, path[|path| - 1])
    ensures forall i :: 0 <= i < |path| ==> HoldsCount(c, path[i])
  {
    var keep := b => HoldsCount(c, b);
    forall b, x | keep(b) && x in Follow(b) ensures keep(x) {
      StepKeepsBoard(b, x);
    }
    forall i | 0 <= i < |path| ensures HoldsCount(c, path[i]) {
      ChainKeeps(Follow, keep, path, i);
    }
  }

  /** Each step of a chain moves the anchors of exactly one kind. */
  lemma ChainSteps(path: seq<Board>)
    requires IsChain(Follow, path)
    ensures forall i :: 0 <= i < |path| - 1 ==> OneKindMoved(path[i + 1], path[i])
  {
    forall i | 0 <= i < |path| - 1 ensures OneKindMoved(path[i + 1], path[i]) {
      FollowMoves(path[i + 1]);
      assert path[i] in Follow(path[i + 1]);
    }
  }

  /** The program's search from `start`. A solution path is a shortest chain
      of moves from `start` to a solved board, listed from the solved board
      back to `start`, with at most 120 boards; each step moves one kind of
      block, and from a valid start every board on it is valid and keeps the
      number of 1x1 blocks. Without a solution (where the program panics), no
      board within 119 moves of `start` is solved. */
  method Solve(start: Board, isSolved: Board -> bool) returns (out: Outcome)
    ensures out.Solved? ==>
      0 < |out.path| <= 120 && isSolved(out.path[0])
      && IsChain(Follow, out.path) && out.path[|out.path| - 1] == start
      && out.path[0] in Layer(Follow, start, |out.path| - 1)
      && (forall x :: x in Before(Follow, start, |out.path| - 1) ==> !isSolved(x))
      && (forall i :: 0 <= i < |out.path| - 1 ==> OneKindMoved(out.path[i + 1], out.path[i]))
      && (Valid(start) ==> forall i :: 0 <= i < |out.path| ==>
            Valid(out.path[i]) && Popcount(out.path[i].p1x1) == Popcount(start.p1x1))
    ensures out.NoSolution? ==> forall x :: x in Reach(Follow, start, 119) ==> !isSolved(x)
  {
    out := SearchWith(Follow, start, isSolved);
    if out.Solved? {
      ChainSteps(out.path);
      if Valid(start) {
        ChainKeepsBoards(out.path, Popcount(start.p1x1));
      }
    }
  }

  /** From the program's start layout, every board on a solution path has
      four 1x1 blocks. */
  lemma StartPathKeepsFour(path: seq<Board>)
    requires |path| > 0 && IsChain(Follow, path) && path[|path| - 1] == Start()
    ensures forall i :: 0 <= i < |path| ==> Popcount(path[i].p1x1) == 4
  {
    StartSmallCount();
    ChainKeepsBoards(path, 4);
  }
}
