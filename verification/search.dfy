/**
 * The layered breadth-first search and the backward walk that rebuilds the
 * solution path.
 *
 * The program keeps a set of visited boards, the current frontier `next`, and
 * one set per completed round. Hash-set iteration order is unspecified, so
 * every "first element the iteration meets" is modelled as an arbitrary
 * element (`:|`). The program's `is_solved` test is not part of this model;
 * it is the parameter `isSolved`.
 *
 * The search only ever asks a board for its successors, so it is stated over
 * a successor function `follow`; `Solver.Solve` runs it with `Boards.Follow`.
 */
module Search {
  import opened Boards

  /** The elements of a sequence, as a set. */
  function Elems(s: seq<Board>): set<Board> {
    set x | x in s
  }

  /** The boards `follow` produces from some board of `s`. */
  function Succ(follow: Board -> seq<Board>, s: set<Board>): set<Board> {
    set b, x | b in s && x in follow(b) :: x
  }

  /** The boards reachable from `start` in at most `n` moves. */
  function Reach(follow: Board -> seq<Board>, start: Board, n: nat): set<Board> {
    if n == 0 then {start} else Reach(follow, start, n - 1) + Succ(follow, Reach(follow, start, n - 1))
  }

  /** The boards reachable in fewer than `n` moves. */
  function Before(follow: Board -> seq<Board>, start: Board, n: nat): set<Board> {
    if n == 0 then {} else Reach(follow, start, n - 1)
  }

  /** The boards whose shortest distance from `start` is exactly `n`. */
  function Layer(follow: Board -> seq<Board>, start: Board, n: nat): set<Board> {
    Reach(follow, start, n) - Before(follow, start, n)
  }

  /** Some board of `s` has `x` among its successors. */
  predicate HasPred(follow: Board -> seq<Board>, s: set<Board>, x: Board) {
    exists b :: b in s && x in follow(b)
  }

  /** Each board of the sequence is a successor of the next one: a path read
      from its end back to its start. */
  predicate IsChain(follow: Board -> seq<Board>, path: seq<Board>) {
    forall i :: 0 <= i < |path| - 1 ==> path[i] in follow(path[i + 1])
  }

  /** Every board of each round set after the first has a predecessor in the
      round set before it, and `sln` has one in the last round set. */
  predicate LinkedDown(follow: Board -> seq<Board>, rounds: seq<set<Board>>, sln: Board) {
    (forall k :: 0 < k < |rounds| ==> forall x :: x in rounds[k] ==> HasPred(follow, rounds[k - 1], x))
    && (|rounds| > 0 ==> HasPred(follow, rounds[|rounds| - 1], sln))
  }

  datatype Outcome = Solved(path: seq<Board>) | NoSolution

  /** What one round of the search ends with: a solved board of the frontier,
      or the updated visited set and the next frontier. */
  datatype RoundResult = Found(sol: Board) | Done(visited: set<Board>, newNext: set<Board>)

  lemma ElemsSnoc(s: seq<Board>, i: nat)
    requires i < |s|
    ensures Elems(s[..i + 1]) == Elems(s[..i]) + {s[i]}
  {
    assert s[..i + 1] == s[..i] + [s[i]];
  }

  lemma SuccAdd(follow: Board -> seq<Board>, s: set<Board>, b: Board)
    ensures Succ(follow, s + {b}) == Succ(follow, s) + Elems(follow(b))
  {
  }

  lemma SuccEmpty(follow: Board -> seq<Board>)
    ensures Succ(follow, {}) == {}
  {
  }

  lemma SuccUnion(follow: Board -> seq<Board>, a: set<Board>, c: set<Board>)
    ensures Succ(follow, a + c) == Succ(follow, a) + Succ(follow, c)
  {
  }

  /** The loop over `follow()` of one board: every successor that is neither
      visited nor in the current frontier joins the next frontier. */
  method AddSuccessors(follow: Board -> seq<Board>, b: Board, visited: set<Board>,
                       next: set<Board>, acc: set<Board>)
    returns (r: set<Board>)
    ensures r == acc + (Elems(follow(b)) - visited - next)
  {
    var succs := follow(b);
    r := acc;
    var i := 0;
    while i < |succs|
      invariant 0 <= i <= |succs|
      invariant r == acc + (Elems(succs[..i]) - visited - next)
    {
      var n := succs[i];
      ElemsSnoc(succs, i);
      if n !in visited && n !in next {
        r := r + {n};
      }
      i := i + 1;
    }
    assert succs[..i] == succs;
  }

  /** Adding part of the frontier to the visited set does not change which
      successors count as new. */
  lemma NewSuccessors(f: set<Board>, visited: set<Board>, done: set<Board>, next: set<Board>)
    requires done <= next
    ensures f - (visited + done) - next == f - visited - next
  {
  }

  lemma MinusUnion(a: set<Board>, f: set<Board>, v: set<Board>, n: set<Board>)
    ensures (a - v - n) + (f - v - n) == (a + f) - v - n
  {
  }

  /** Processing frontier board `b` after the boards `done` keeps the next
      frontier equal to the new successors of the processed boards. */
  lemma FrontierStep(follow: Board -> seq<Board>, next: set<Board>, visited: set<Board>,
                     done: set<Board>, b: Board, acc: set<Board>, acc2: set<Board>)
    requires done <= next && b in next
    requires acc == Succ(follow, done) - visited - next
    requires acc2 == acc + (Elems(follow(b)) - (visited + done + {b}) - next)
    ensures acc2 == Succ(follow, done + {b}) - visited - next
  {
    NewSuccessors(Elems(follow(b)), visited, done + {b}, next);
    MinusUnion(Succ(follow, done), Elems(follow(b)), visited, next);
    SuccAdd(follow, done, b);
  }

  /** The state of a round part-way through the frontier: `done` is the part
      processed, `rest` the part still to go; the processed boards are not
      solved and are visited, and `newNext` holds their new successors. */
  ghost predicate RoundState(follow: Board -> seq<Board>, next: set<Board>, visited: set<Board>,
                             isSolved: Board -> bool, done: set<Board>, rest: set<Board>,
                             vis: set<Board>, newNext: set<Board>)
  {
    done + rest == next && done !! rest
    && vis == visited + done
    && newNext == Succ(follow, done) - visited - next
    && forall b :: b in done ==> !isSolved(b)
  }

  /** Processing one more unsolved frontier board keeps the round's state. */
  lemma RoundStep(follow: Board -> seq<Board>, next: set<Board>, visited: set<Board>,
                  isSolved: Board -> bool, done: set<Board>, rest: set<Board>,
                  vis: set<Board>, newNext: set<Board>, b: Board, newNext2: set<Board>)
    requires RoundState(follow, next, visited, isSolved, done, rest, vis, newNext)
    requires b in rest && !isSolved(b)
    requires newNext2 == newNext + (Elems(follow(b)) - (vis + {b}) - next)
    ensures RoundState(follow, next, visited, isSolved, done + {b}, rest - {b}, vis + {b}, newNext2)
    ensures |rest - {b}| < |rest|
  {
    FrontierStep(follow, next, visited, done, b, newNext, newNext2);
  }

  /** At the end of a round every frontier board is processed. */
  lemma RoundEnd(follow: Board -> seq<Board>, next: set<Board>, visited: set<Board>,
                 isSolved: Board -> bool, done: set<Board>, vis: set<Board>, newNext: set<Board>)
    requires RoundState(follow, next, visited, isSolved, done, {}, vis, newNext)
    ensures forall b :: b in next ==> !isSolved(b)
    ensures vis == visited + next && newNext == Succ(follow, next) - visited - next
  {
    assert done == next;
  }

  /** One round over the frontier `next`: it stops at a solved board, or marks
      every frontier board visited and collects the successors that are
      neither visited nor in the frontier. */
  method Round(follow: Board -> seq<Board>, next: set<Board>, visited: set<Board>,
               isSolved: Board -> bool)
    returns (res: RoundResult)
    ensures res.Found? ==> res.sol in next && isSolved(res.sol)
    ensures res.Done? ==> forall b :: b in next ==> !isSolved(b)
    ensures res.Done? ==> res.visited == visited + next
    ensures res.Done? ==> res.newNext == Succ(follow, next) - visited - next
  {
    var vis := visited;
    var newNext: set<Board> := {};
    var rest := next;
    ghost var done: set<Board> := {};
    SuccEmpty(follow);
    while rest != {}
      invariant RoundState(follow, next, visited, isSolved, done, rest, vis, newNext)
      decreases |rest|
    {
      var b :| b in rest;
      if isSolved(b) {
        return Found(b);
      }
      ghost var acc := newNext;
      newNext := AddSuccessors(follow, b, vis + {b}, next, newNext);
      RoundStep(follow, next, visited, isSolved, done, rest, vis, acc, b, newNext);
      vis := vis + {b};
      rest := rest - {b};
      done := done + {b};
    }
    RoundEnd(follow, next, visited, isSolved, done, vis, newNext);
    res := Done(vis, newNext);
  }

  /** Reachability grows with the number of moves. */
  lemma {:induction false} ReachGrows(follow: Board -> seq<Board>, start: Board, m: nat, n: nat)
    requires m <= n
    ensures Reach(follow, start, m) <= Reach(follow, start, n)
    decreases n - m
  {
    if m < n {
      ReachGrows(follow, start, m, n - 1);
    }
  }

  /** The reachable boards split into those reached earlier and the current
      layer, and the successors of the earlier ones are already reachable. */
  lemma ReachSplit(follow: Board -> seq<Board>, start: Board, r: nat)
    ensures Reach(follow, start, r) == Before(follow, start, r) + Layer(follow, start, r)
    ensures Before(follow, start, r) !! Layer(follow, start, r)
    ensures Succ(follow, Before(follow, start, r)) <= Reach(follow, start, r)
  {
    if r == 0 {
      SuccEmpty(follow);
    } else {
      ReachGrows(follow, start, r - 1, r);
    }
  }

  /** The next layer is the successors of the current layer that are not yet
      reachable: successors of earlier layers are never new. */
  lemma NextLayer(follow: Board -> seq<Board>, start: Board, r: nat)
    ensures Layer(follow, start, r + 1) == Succ(follow, Layer(follow, start, r)) - Reach(follow, start, r)
    ensures Before(follow, start, r + 1) == Reach(follow, start, r)
  {
    ReachSplit(follow, start, r);
    SuccUnion(follow, Before(follow, start, r), Layer(follow, start, r));
  }

  /** The first layer, the frontier of round 0, is the start board alone. */
  lemma FirstLayer(follow: Board -> seq<Board>, start: Board)
    ensures Layer(follow, start, 0) == {start} && Before(follow, start, 1) == {start}
  {
  }

  /** Every board of a layer after the first has a predecessor in the layer
      before it. */
  lemma LayerHasPred(follow: Board -> seq<Board>, start: Board, k: nat, x: Board)
    requires x in Layer(follow, start, k + 1)
    ensures HasPred(follow, Layer(follow, start, k), x)
  {
    NextLayer(follow, start, k);
  }

  /** The end of a chain of `n + 1` boards that starts at `start` (read
      backwards) is reachable in `n` moves. */
  lemma {:induction false} ChainInReach(follow: Board -> seq<Board>, start: Board, path: seq<Board>)
    requires |path| > 0 && IsChain(follow, path) && path[|path| - 1] == start
    ensures path[0] in Reach(follow, start, |path| - 1)
  {
    if |path| > 1 {
      var tail := path[1..];
      assert IsChain(follow, tail) by {
        forall i | 0 <= i < |tail| - 1 ensures tail[i] in follow(tail[i + 1]) {
          assert tail[i] == path[i + 1] && tail[i + 1] == path[i + 2];
        }
      }
      ChainInReach(follow, start, tail);
      assert path[0] in follow(tail[0]);
    }
  }

  /** A board of layer `n` is the end of no chain from `start` with fewer than
      `n` moves: the layers are shortest distances. */
  lemma LayerIsShortest(follow: Board -> seq<Board>, start: Board, n: nat, path: seq<Board>)
    requires |path| > 0 && IsChain(follow, path) && path[|path| - 1] == start
    requires path[0] in Layer(follow, start, n)
    ensures |path| - 1 >= n
  {
    ChainInReach(follow, start, path);
    if |path| - 1 < n {
      ReachGrows(follow, start, |path| - 1, n - 1);
    }
  }

  /** A property of boards that every move keeps holds all along a chain
      whose first board (its end, read backwards) has it. */
  lemma {:induction false} ChainKeeps(follow: Board -> seq<Board>, keep: Board -> bool,
                                      path: seq<Board>, i: nat)
    requires i < |path| && IsChain(follow, path) && keep(path[|path| - 1])
    requires forall b, x :: keep(b) && x in follow(b) ==> keep(x)
    ensures keep(path[i])
    decreases |path| - i
  {
    if i < |path| - 1 {
      ChainKeeps(follow, keep, path, i + 1);
      assert path[i] in follow(path[i + 1]);
    }
  }

  /** The inner loop of the backward walk: look through one round set for a
      board that has `cur` among its successors. */
  method FindPred(follow: Board -> seq<Board>, roundSet: set<Board>, cur: Board)
    returns (found: bool, pred: Board)
    ensures found ==> pred in roundSet && cur in follow(pred)
    ensures !found ==> !HasPred(follow, roundSet, cur)
  {
    var rest := roundSet;
    found, pred := false, cur;
    while rest != {} && !found
      invariant rest <= roundSet
      invariant found ==> pred in roundSet && cur in follow(pred)
      invariant !found ==> forall b :: b in roundSet - rest ==> cur !in follow(b)
      decreases |rest|
    {
      var b :| b in rest;
      if cur in follow(b) {
        found, pred := true, b;
      }
      rest := rest - {b};
    }
  }

  /** A chain extended at its end by a predecessor of its last board. */
  lemma ChainSnoc(follow: Board -> seq<Board>, path: seq<Board>, pred: Board)
    requires |path| > 0 && IsChain(follow, path) && path[|path| - 1] in follow(pred)
    ensures IsChain(follow, path + [pred])
  {
    var p := path + [pred];
    forall i | 0 <= i < |p| - 1 ensures p[i] in follow(p[i + 1]) {
      if i < |path| - 1 {
        assert p[i] == path[i] && p[i + 1] == path[i + 1];
      }
    }
  }

  /** The backward walk: from the solved board `sln`, go through the round
      sets from the last to the first and step to a predecessor wherever the
      round set has one. The result starts with `sln`, is a chain, and has at
      most one board per round set plus `sln`; when every round set's boards
      (and `sln`) have predecessors in the round set before, it has exactly
      one board per round set and ends in the first round set. */
  method ProcessSolution(follow: Board -> seq<Board>, rounds: seq<set<Board>>, sln: Board)
    returns (path: seq<Board>)
    ensures |path| > 0 && path[0] == sln && IsChain(follow, path)
    ensures |path| <= |rounds| + 1
    ensures LinkedDown(follow, rounds, sln) ==> |path| == |rounds| + 1
    ensures LinkedDown(follow, rounds, sln) && |rounds| > 0 ==> path[|path| - 1] in rounds[0]
  {
    var acc: seq<Board> := [];
    var cur := sln;
    var k := |rounds|;
    while k > 0
      invariant 0 <= k <= |rounds|
      invariant |acc| <= |rounds| - k
      invariant IsChain(follow, acc + [cur]) && (acc + [cur])[0] == sln
      invariant LinkedDown(follow, rounds, sln) ==>
        |acc| == |rounds| - k
        && (k > 0 ==> HasPred(follow, rounds[k - 1], cur))
        && (k < |rounds| ==> cur in rounds[k])
    {
      var found, pred := FindPred(follow, rounds[k - 1], cur);
      if found {
        ChainSnoc(follow, acc + [cur], pred);
        acc := acc + [cur];
        cur := pred;
      }
      k := k - 1;
    }
    path := acc + [cur];
  }

  /** A board of a round set that is a layer has a predecessor in the round
      set below when that one is the layer before. */
  lemma LinkedStep(follow: Board -> seq<Board>, start: Board, k: nat,
                   below: set<Board>, here: set<Board>, x: Board)
    requires below == Layer(follow, start, k) && here == Layer(follow, start, k + 1) && x in here
    ensures HasPred(follow, below, x)
  {
    LayerHasPred(follow, start, k, x);
  }

  /** When the round sets are the first layers, each board of a round set
      after the first has a predecessor in the round set before. */
  lemma RoundsLinked(follow: Board -> seq<Board>, start: Board, rounds: seq<set<Board>>)
    requires forall k :: 0 <= k < |rounds| ==> rounds[k] == Layer(follow, start, k)
    ensures forall k :: 0 < k < |rounds| ==> forall x :: x in rounds[k] ==> HasPred(follow, rounds[k - 1], x)
  {
    forall k, x | 0 < k < |rounds| && x in rounds[k] ensures HasPred(follow, rounds[k - 1], x) {
      LinkedStep(follow, start, k - 1, rounds[k - 1], rounds[k], x);
    }
  }

  /** When the round sets are the layers below the layer of `sln`, each of
      their boards and `sln` have a predecessor one round set down. */
  lemma LayersLinked(follow: Board -> seq<Board>, start: Board, rounds: seq<set<Board>>, sln: Board)
    requires forall k :: 0 <= k < |rounds| ==> rounds[k] == Layer(follow, start, k)
    requires sln in Layer(follow, start, |rounds|)
    ensures LinkedDown(follow, rounds, sln)
  {
    RoundsLinked(follow, start, rounds);
    if |rounds| > 0 {
      var j := |rounds| - 1;
      assert rounds[j] == Layer(follow, start, j);
      LinkedStep(follow, start, j, rounds[j], Layer(follow, start, j + 1), sln);
    }
  }

  /** The breadth-first search from `start` with at most 120 rounds. A
      solution path starts with a solved board, is a chain of successors that
      ends at `start`, has one board per completed round plus one, and no
      board closer to `start` is solved. Without a solution, no board within
      119 moves of `start` is solved. */
  method SearchWith(follow: Board -> seq<Board>, start: Board, isSolved: Board -> bool)
    returns (out: Outcome)
    ensures out.Solved? ==>
      0 < |out.path| <= 120 && isSolved(out.path[0])
      && IsChain(follow, out.path) && out.path[|out.path| - 1] == start
      && out.path[0] in Layer(follow, start, |out.path| - 1)
      && forall x :: x in Before(follow, start, |out.path| - 1) ==> !isSolved(x)
    ensures out.NoSolution? ==> forall x :: x in Reach(follow, start, 119) ==> !isSolved(x)
  {
    var visited: set<Board> := {};
    var roundSets: seq<set<Board>> := [];
    var next := {start};
    var round := 0;
    while round < 120
      invariant 0 <= round <= 120
      invariant |roundSets| == round
      invariant forall k :: 0 <= k < round ==> roundSets[k] == Layer(follow, start, k)
      invariant next == Layer(follow, start, round)
      invariant visited == Before(follow, start, round)
      invariant forall x :: x in visited ==> !isSolved(x)
    {
      var res := Round(follow, next, visited, isSolved);
      if res.Found? {
        LayersLinked(follow, start, roundSets, res.sol);
        var path := ProcessSolution(follow, roundSets, res.sol);
        return Solved(path);
      }
      ReachSplit(follow, start, round);
      NextLayer(follow, start, round);
      roundSets := roundSets + [next];
      visited := res.visited;
      next := res.newNext;
      round := round + 1;
    }
    return NoSolution;
  }
}
