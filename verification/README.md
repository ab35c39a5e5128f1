# Klotski bit-board and breadth-first search, in Dafny

This project models the core of `khun-phaen`, a solver for the sliding-block
puzzle (Klotski / Khun Phaen). The puzzle field has 20 cells, five rows of
four. Cell `4*row + col` is one bit of a 32-bit word.

The model covers two parts of the program.

- **The board.** A board holds one anchor mask per block kind (2x2, 2x1, 1x2
  and 1x1) plus a stored occupancy `mask`. The four shift primitives
  `up`/`down`/`left`/`right` move masks by a row or a column. The 20-entry
  probe table `CELL_MASKS` lists the cells `follow` looks at. `follow`
  probes each free cell and asks each block kind whether a block next to
  that cell can slide into it. Every successor is built with `Board::new`.
- **The search.** `search` is a layered breadth-first search with at most
  120 rounds. It keeps a visited set, the current frontier `next` and one
  set per completed round. When a solved board turns up, the nested
  `process_sln` walks backwards through the round sets and rebuilds the path
  from the solved board back to the start.

Files and modules:

- `masks.dfy` (`Masks`): the constants `BOARD_MASK`, `C1`..`C4`, `R1`..`R5`
  and `CELL_MASKS`, the shifts, and facts about both.
- `popcount.dfy` (`BitCount`): a population count on `bv32`. It proves that
  moving one set bit to a clear bit keeps the count.
- `board.dfy` (`Boards`): the `Board` datatype, the constructor and the
  successor generators. Each generator's guarded pushes are a table of
  `Push(hit, blocked, board)` entries, listed in the program's order.
- `moves.dfy` (`Moves`): what each successor does to the board. One kind
  moves, there are no self loops, the 1x1 count is kept, and a full board has
  no successors.
- `search.dfy` (`Search`): the search, stated over any successor function
  `follow`. It also holds reference definitions of reachability (`Reach`) and
  of distance layers (`Layer`), which the methods' contracts are stated
  against.
- `solve.dfy` (`Solver`): the search run with `Boards.Follow`, plus what the
  move lemmas add to a solution path.

The model follows the code as written in three places where the code
differs from an idealised Klotski board:

- **Stored mask.** `Board::new` computes a footprint-expanded occupancy,
  but only in a local variable (`src/board.rs:36-39`). It then stores the
  OR of the four anchor masks (`src/board.rs:41`). So every "is this cell
  free" test in `follow` looks at anchor cells only. In an idealised board
  the stored mask would be the union of the footprints.
- **Wrap masks.** `right` clears bit group `C1` (bits 0-3) and `left`
  clears `C4` (bits 12-15). Neither clears a column. In an idealised board
  the rightmost or leftmost column would be discarded. `Masks.WrapMasksClearGroups`
  and `Moves.BigBlockCanVanish` show the effect.
- **Unprobed cells.** Table entries 0-3 are `Cx & R1`, which is zero, so
  bits 16-19 are never probed. In an idealised board every one of the 20
  cells would be probed.

## Model

| member | source | states |
|---|---|---|
| Masks.Up | src/board.rs:245-247 | one row up: the result never has a bit in the top nibble of the word (its inverse is `Masks.UpDown`) |
| Masks.Down | src/board.rs:249-251 | one row down: the result stays inside `BOARD_MASK` |
| Masks.Right | src/board.rs:253-255 | one column right: the result stays inside `BOARD_MASK` and never sets a bit of `C1` |
| Masks.Left | src/board.rs:257-259 | one column left: the result never sets a bit of `C4` |
| Masks.CellMaskShape | src/board.rs:17-23 | table entries 0..3 are zero (in both directions of the iff); entries 4..19 are single bits inside bits 0..15 |
| Masks.ProbePairDisjoint | src/board.rs:17-23 | the sixteen non-empty table entries are pairwise disjoint, so they are sixteen distinct cells |
| Masks.ProbesCover | src/board.rs:17-23 | the union of the table is exactly bits 0..15; the first four entries add nothing, and the last row (bits 16..19) is never probed |
| Masks.ShiftRanges | src/board.rs:245-259 | `down` and `right` stay inside `BOARD_MASK`; `right` never sets a bit of `C1`; `left` never sets a bit of `C4`; `up` leaves the top nibble of the word empty |
| Masks.UpDown | src/board.rs:245-251 | `up(down(m))` is `m` restricted to bits 0..15: a row down and back up loses exactly the last row |
| Masks.ShiftsOfSingle | src/board.rs:245-259 | each of the four shifts takes a single-bit mask to a single-bit mask or to zero |
| Masks.ShiftsMove | src/board.rs:245-259 | no shift leaves a non-empty mask unchanged |
| Masks.WrapMasksClearGroups | src/board.rs:253-259 | `right(1<<1)` and `left(1<<13)` are both zero: the wrap masks clear 4-bit groups, not a column |
| BitCount.SwapKeepsCount | src/board.rs:206-242 | clearing one set bit and setting one clear bit (`(p ^ x) \| y`) keeps the population count |
| Boards.New | src/board.rs:35-47 | the constructor keeps the four anchor masks unchanged and its result is valid: the stored mask is the OR of the anchors |
| Boards.NewFromAnchors | src/board.rs:35-47 | rebuilding a board from its anchors gives back the same board exactly when the board is valid |
| Boards.MaskWithinFootprint | src/board.rs:36-41 | the stored mask lies inside the discarded footprint occupancy |
| Boards.StartMaskIsAnchorsOnly | src/board.rs:36-41 | on the start layout the stored mask differs from the footprint occupancy: bit 10, covered by the 2x1 block, reads as free |
| Boards.Pushed | src/board.rs:92-100 | the guarded pushes keep at most one board per guard, and a board is pushed exactly when some guard fires for it |
| Boards.Follow2x2 | src/board.rs:92-128 | at most four successors, each valid, each keeping the 2x1, 1x2 and 1x1 anchor masks |
| Boards.Follow2x1 | src/board.rs:130-166 | at most four successors, each valid, each keeping the 2x2, 1x2 and 1x1 anchor masks |
| Boards.Follow1x2 | src/board.rs:168-204 | at most four successors, each valid, each keeping the 2x2, 2x1 and 1x1 anchor masks |
| Boards.Follow1x1 | src/board.rs:206-242 | at most four successors, each valid, each keeping the 2x2, 2x1 and 1x2 anchor masks |
| Boards.FollowSingle | src/board.rs:84-90 | at most sixteen valid successors; a board is among them exactly when one of the four kind generators produces it |
| Boards.ProbedIsProbe | src/board.rs:72-77 | an entry that `follow` probes is one of the sixteen single-bit entries, inside bits 0..15 and clear in the stored mask |
| Boards.FollowFrom | src/board.rs:74-79 | the successors from table entries `i..19` number at most 16 per entry, and all are valid |
| Boards.Follow | src/board.rs:71-81 | at most 320 successors, all valid; which boards they are is stated by `Boards.FollowMembers` |
| Boards.FollowMembers | src/board.rs:71-81 | a board is a successor exactly when some probed table entry's generators produce it, in both directions |
| Boards.FollowFromMembers | src/board.rs:74-79 | a board is a successor from table entries `i..19` exactly when some probed entry among them produces it |
| Boards.Start | src/main.rs:5-10 | the program's start layout, built with the constructor; its only contract is that it is valid, and its anchor values are the constructor's arguments |
| Moves.Follow2x2Moves | src/board.rs:92-128 | every 2x2 successor changes the 2x2 anchor mask |
| Moves.Follow2x1Moves | src/board.rs:130-166 | every 2x1 successor into a single probe cell changes the 2x1 anchor mask |
| Moves.Follow1x2Moves | src/board.rs:168-204 | every 1x2 successor into a single probe cell changes the 1x2 anchor mask |
| Moves.Follow1x1Moves | src/board.rs:206-242 | every 1x1 successor into a single probe cell changes the 1x1 anchor mask |
| Moves.Follow1x1KeepsCount | src/board.rs:206-242 | when the probe cell holds no 1x1 anchor, every 1x1 successor has as many 1x1 anchors as the board |
| Moves.FollowSingleMoves | src/board.rs:84-90 | every successor into a single probe cell changes exactly one kind's anchor mask; the 1x1 count is kept when the cell holds no 1x1 anchor |
| Moves.FollowMoves | src/board.rs:71-81 | every successor of a board changes exactly one kind's anchor mask, and a successor of a valid board has as many 1x1 anchors |
| Moves.NoSelfLoop | src/board.rs:71-81 | no board is among its own successors |
| Moves.FollowFull | src/board.rs:72-79 | a board whose stored mask covers bits 0..15 has no successors |
| Moves.BigBlockCanVanish | src/board.rs:93-100 | with only a 2x2 block anchored at bit 0, probing bit 2 (entry 12) pushes a board whose 2x2 anchor mask is empty |
| Moves.StartSmallCount | src/main.rs:5-10 | the start layout has four 1x1 anchors |
| Search.AddSuccessors | src/search.rs:19-23 | the loop over one board's successors adds exactly those that are neither visited nor in the current frontier |
| Search.Round | src/search.rs:13-24 | one round either returns a solved frontier board, or finds none solved, marks the whole frontier visited, and collects as the new frontier exactly the successors of the frontier that are neither visited nor in the frontier (so the new frontier is disjoint from both) |
| Search.FirstLayer | src/search.rs:9-10 | the round-0 frontier, the first layer, is the start board alone |
| Search.NextLayer | src/search.rs:18-26 | the next layer is the successors of the current layer that are not yet reachable, and the boards reached before it are all boards within the current distance |
| Search.LayerIsShortest | src/search.rs:11-27 | a board of layer `n` ends no chain from the start with fewer than `n` moves |
| Search.ChainKeeps | src/search.rs:36-40 | a property every move keeps holds on every board of a chain that starts at a board with it |
| Search.FindPred | src/search.rs:36-42 | the inner loop of the backward walk finds a board of the round set that has the current board as a successor, or reports that no such board exists |
| Search.ProcessSolution | src/search.rs:31-46 | the walk's result starts with the solved board, each element is a successor of the next, and it has at most one board per round set plus one; when every round set is linked to the one below, it has exactly one per round set plus one and ends in the first round set |
| Search.LayersLinked | src/search.rs:19-26 | when the round sets are the first layers, each board of a round set, and a solved board of the next layer, has a predecessor one round set down |
| Search.SearchWith | src/search.rs:5-29 | a returned path starts with a solved board, is a chain of successors that ends at the start, has at most 120 boards, and its solved board lies in the layer of its length minus one, with no solved board nearer the start; without a solution (the program panics), no board within 119 moves is solved |
| Solver.Solve | src/search.rs:5-29 | the search over `follow`'s successors with the guarantees of `Search.SearchWith`; in addition, each step of the path moves one kind, and from a valid start every board on the path is valid and keeps the start's 1x1 count |
| Solver.ChainKeepsBoards | src/search.rs:31-46 | along a chain of successors that ends at a valid board, every board is valid and has the same number of 1x1 anchors |
| Solver.StartPathKeepsFour | src/main.rs:5-11 | every board of a chain of successors that ends at the program's start layout has four 1x1 anchors |

## Left out

- `println!` progress output (`src/search.rs:12`) and all printing in `src/main.rs`: output only. The `Display` implementation `src/main.rs` uses is not part of this model.
- `is_solved`: its definition is not part of this model. It is the parameter `isSolved: Board -> bool`.
- `HashSet` hashing and `Clone`: boards are Dafny values, and their equality compares all five fields, as the derived `PartialEq` does.
- `HashSet` iteration order is unspecified. Which solved board and which predecessor are taken is an arbitrary choice (`:|`), so the model does not say which path is returned.
- `panic!("No solution found")` is the result `NoSolution`.
- `flip_h` and `Pos` (`src/board.rs:1-4`, `49-69`): the search never uses them.
- Integer width: the masks are `u32` in the program and `bv32` here. Shifts on both drop the bits pushed out of the word, so the model needs no separate wrap-around.
- The known 40-move optimum of the start layout: proving it would mean running the whole search.
- Properties of an idealised puzzle that the code does not have: footprint occupancy, reversible slides, no wrap-around.
- Moves.Follow2x1Moves, Moves.Follow1x2Moves, Moves.Follow1x1Moves: these need the probe cell to be a single bit, which every cell `follow` hands over is (`Boards.ProbedIsProbe`).
- Search.SearchWith: the path is stated to be a shortest chain to the first solved layer. Which chain among the shortest ones is returned is left open, since it depends on iteration order.
