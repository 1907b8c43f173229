# Chess rules engine — Dafny model

A model of the chess rules engine of `src/lib.rs` (the `Game` type) and of
the board helpers that `src/boardutils.rs` repeats, with proofs about it.
The board is a value: a 64-element sequence of squares numbered 0 (a1) to 63
(h8). Each square holds a `(Piece, Side)` pair. The source keeps these as two
parallel arrays; here one `Square` holds both, and `Agrees` says that a square
holds a piece exactly when it has a side.

Modules follow the engine's structure:

- `Geometry`: board bounds, the file-edge tests and the eight direction
  steppers. `StepAsWritten` is the eight callbacks as they stand. `Step`,
  which the engine uses, differs from them only for a diagonal at
  distance 0 (see "Corrected definitions" below). Rust's truncating `%` is
  written out as `RustRem8`.
- `Pieces`: the piece and side enums, `!side`, and the starting arrays.
- `Rays`: `push_pos_if_non_ally` and `get_directions_movements`. These are
  the rook, bishop, queen and king rays. Live directions are visited from the
  back at each distance and dropped when they leave the board, wrap or meet
  a piece.
- `Knight`, `Pawn`: the knight table, pawn pushes, captures and en passant.
- `State`: the castling flags, their update, and the `Game` record.
- `Relocate`: the relocation list of `do_move_internal`. It holds the primary
  move, the en-passant self-move `[s, s]` and the castling rook. `Simulate`
  is the clone used to test a move: only the board changes.
- `Legal`: the mutually recursive core of move generation, the self-check
  filter, `is_checked` and castling. Termination uses the `filter` flag as
  the first `decreases` component. The unfiltered attack test never adds
  castling and never filters, so it does not call back into the filtered
  generator.
- `Legality`: what the filter and castling promise.
- `Classify`: checkmate, stalemate, promotion ranks and the precedence of
  `get_board_state`.
- `Play`: the public operations `get_position_possible_movements`,
  `do_move`, `request_draw` and `choose_promotion_piece`. A square outside
  0..63, on which the source would index out of bounds and panic, gives
  `Failure(IndexOutOfRange)`.

Behaviour kept as the source has it:

- `white_king_pos` and `black_king_pos` are set by `new` (src/lib.rs:174-175)
  and never updated. Every check test looks at those squares, even after the
  king has moved.
- `do_move` classifies the position before it flips the turn
  (src/lib.rs:566 and 578). The check test therefore looks at the mover's
  own recorded king square, which the self-check filter has just shown to
  be unattacked. So after a legal move `do_move` never reports a check or a
  mate (`Play.DoMoveNeverReportsCheck`).
- `is_stalemate` scans the squares whose side differs from `curr_turn`
  (src/lib.rs:489). These include the empty squares. In `do_move` they are
  the pieces of the side about to move, but each one's legal moves are
  filtered against the recorded king square of `curr_turn`, the mover
  (`FilterSelfCheck` with `CurrKingPos`). So a real stalemate is read as
  `Default`: White Ke1 playing Qg5-g6 against a lone Kh8 is one
  (`Play.StalemateAfterMoveMissed`).
- `pawn_awaiting_promotion_pos` starts at -1 and nothing assigns it, so
  `choose_promotion_piece` never finds a pending square.
- En passant inspects neither the moving piece nor the file edge, and the
  pawn's capture test looks only at the origin of the last move.
- At most one castling target is offered. The queen side is tried first
  (an `else if`). Castling does not check that the rook is still there.
- The self-check test of a clone is against the recorded king square of the
  side to move, as `filter_out_moves_causing_self_check` does.
- `request_draw` counts equal pairs of history snapshots, not repetitions of
  one position.

Corrected definitions. Where the source has one of the defects listed under
"## Findings", the model keeps the code as written in a separate member and
builds the engine on the corrected one. So `Legal.Moves`, `Legal.IsChecked`,
`Play.LegalMoves`, `Play.DoMove` and `Classify.GetBoardState` differ from
the source on the inputs that reach those defects:

- `Geometry.Step` (as written: `StepAsWritten`): a bishop, queen or king on
  the a-file or h-file keeps its two diagonal rays towards the board.
  As written, those rays are dropped, and a bishop on h1 has no moves at all.
- `Knight.KnightCandidates` (as written: `KnightCandidatesAsWritten`): only
  real knight jumps are offered. As written, g1 is offered a3 (square 16) from
  the starting position, h1 and a2 wrap across the board, and a knight on a3
  makes the engine read square -1.
- `Pawn.HasPawnMoved` (as written: `HasPawnMovedAsWritten`): the double push
  is offered only from the starting rank. As written, it is also offered from
  squares 16 (a3), 17 (b3), 47 (h6) and 56 (a8).
- `Relocate.CastlingReloc` (as written: `CastlingRelocAsWritten`): castling
  king-side puts the rook on f1 or f8. As written, it goes to d1 or d8.
- `Play.FiftyAfter` (as written: `FiftyAfterAsWritten`): the fifty-move
  counter drops by one on a quiet move. As written, it is reset by every move
  of a real piece.
- `Classify.RankHasPawn` (as written: `RankHasPawnAsWritten`): a pawn on h1
  or h8 counts for promotion. As written, it does not.

## Model

| member | source | states |
|---|---|---|
| Geometry.RustRem8Sign | src/lib.rs:82-87 | Rust's remainder by 8 keeps the dividend's sign, is zero exactly when the Euclidean one is, and equals it on non-negative squares |
| Geometry.EdgeFiles | src/boardutils.rs:75-83 | for a square of the board: it is not outside, the right-edge test holds exactly on the h-file, the left-edge test exactly on the a-file |
| Geometry.Step | src/lib.rs:91-123 | each stepper returns the target the source callback computes, and the same blocked flag except for a diagonal at distance 0 |
| Geometry.StepZero | src/boardutils.rs:87-102 | at distance 0 every direction returns the origin, unblocked, for any square of the board |
| Geometry.StepOneSideways | src/boardutils.rs:87-94 | one step right or left is unblocked exactly when the target stays on the same rank, one file over |
| Geometry.StepVertical | src/boardutils.rs:95-102 | up and down move n ranks in the same file and are blocked exactly when the target is off the board |
| Geometry.StepOneDiagonal | src/boardutils.rs:105-123 | an unblocked on-board diagonal step of one lands one rank and one file away |
| Geometry.DiagonalNeighbourReached | src/lib.rs:108-123 | every square one rank and one file away is the target of an unblocked diagonal step |
| Geometry.StepAsWrittenDropsEdgeRays | src/lib.rs:108-123 | the diagonal callbacks as written report an h-file or a-file origin as blocked at distance 0 |
| Geometry.StepFitsI8 | src/lib.rs:91-123 | for an origin on the board and a distance below 8, every target fits an i8 |
| Pieces.Not | src/lib.rs:21-31 | negation swaps the two real sides and keeps None |
| Pieces.NotInvolution | src/lib.rs:21-31 | negating twice gives back the side |
| Pieces.InitialBoardLayout | src/boardutils.rs:43-73 | in the starting arrays a piece is present exactly where a side is, White holds 0..15, 16..47 are empty, Black holds 48..63, the kings are on e1 and e8 |
| Rays.Level | src/lib.rs:207-216 | one distance pass pushes exactly the in-board, unwrapped, non-ally squares, and keeps exactly the passable directions: at distance 0 (the origin itself) every on-board, unwrapped one, further out those whose square is empty |
| Rays.Cast | src/lib.rs:194-216 | every square pushed is on the board and not held by the mover's side |
| Rays.CastReaches | src/lib.rs:194-216 | a square is pushed if and only if some direction reaches it with every earlier square of the ray empty, so nothing beyond the first occupied square is pushed |
| Rays.CastSound | src/lib.rs:194-216 | every pushed square is reached along a direction through empty squares |
| Rays.CastComplete | src/lib.rs:194-216 | every square reached through empty squares within the allowed length is pushed |
| Knight.KnightCandidates | src/lib.rs:283-299 | every candidate is on the board and a knight's jump away (two ranks and one file, or one rank and two files) |
| Knight.KnightCandidatesComplete | src/lib.rs:283-299 | every knight's jump that stays on the board is a candidate |
| Knight.NonAlly | src/lib.rs:194-205 | a candidate is pushed exactly when it is not held by the mover's side |
| Knight.KnightMoves | src/lib.rs:283-299 | a square is a knight move exactly when it is on the board, a knight's jump away and not held by the mover's side |
| Knight.KnightAsWrittenIndexesMinusOne | src/lib.rs:289-291 | as written, a knight on square 16 makes the engine index square -1 |
| Knight.KnightAsWrittenWrapsAcrossEdge | src/lib.rs:284-292 | as written, a knight on h1 reaches a4 and one on a2 reaches h3, which are not knight's jumps |
| Knight.KnightAsWrittenWrapsFromGFile | src/lib.rs:294-298 | as written, a knight on g1 reaches a3 and one on g2 reaches a2, which are not knight's jumps |
| Pawn.HasPawnMoved | src/lib.rs:184-191 | a white pawn is unmoved exactly on rank 2, a black one exactly on rank 7 |
| Pawn.HasPawnMovedAsWrittenMissesThirdRank | src/lib.rs:184-191 | as written, a white pawn on a3 and a black pawn on h6 count as unmoved |
| Pawn.WhitePushes | src/lib.rs:310-315 | the single push is offered exactly when the square ahead is empty; the double push exactly from rank 2 with both squares empty |
| Pawn.WhiteCaptures | src/lib.rs:316-328 | a diagonal target is offered exactly when it holds a black piece and the pawn is not on the edge that step would cross, or when the neighbouring square holds a pawn and the last move started one rank beyond the target |
| Pawn.WhitePawnMoves | src/lib.rs:308-330 | the white targets are on the board, among p+7, p+8, p+9, p+16, none from the last rank, and each follows its rule both ways |
| Pawn.BlackPushes | src/lib.rs:332-337 | the mirror of the white pushes, towards rank 1 |
| Pawn.BlackCaptures | src/lib.rs:338-350 | the mirror of the white captures, towards rank 1 |
| Pawn.BlackPawnMoves | src/lib.rs:331-351 | the black targets are on the board, among p-7, p-8, p-9, p-16, none from the first rank, and each follows its rule both ways |
| Pawn.PawnMoves | src/lib.rs:305-352 | a white pawn only moves to higher squares, any other pawn only to lower ones, always on the board |
| State.UpdateCastle | src/lib.rs:523-533 | a move from a tracked square sets that square's flag; flags never go back to false and no other flag changes |
| State.CurrKingPos | src/lib.rs:402-407 | the recorded king square of the side to move is on the board |
| State.Init | src/lib.rs:159-182 | the new game is well formed, the recorded squares hold the two kings, no promotion is pending and the history is empty |
| Relocate.ApplyReloc | src/lib.rs:547-557 | a relocation moves piece and side together, empties the source, changes no other square and keeps "piece iff side" |
| Relocate.EnPassantReloc | src/lib.rs:512-521 | the en-passant entry empties a pawn one rank from the target that the last move carried two ranks across the target; the square below the target only when White moves; it exists whenever its test holds |
| Relocate.CastlingReloc | src/lib.rs:500-510 | the rook entry exists exactly when the unmoved king leaves its start for two files over and that side's rook is unmoved; the rook comes from its corner and lands on the square the king crossed |
| Relocate.CastlingRelocAsWrittenMisplacesRook | src/lib.rs:504-507 | as written, castling e1 to g1 moves the h1 rook to d1, where the white queen starts |
| Relocate.CastlingRelocFor | src/lib.rs:540-545 | for the side to move, the rook entry exists exactly when its unmoved king goes from e1 (White) or e8 (other) two files towards an unmoved rook; the rook comes from that corner to the square the king crosses |
| Relocate.ApplyMove | src/lib.rs:535-557 | applying the relocations keeps the board well formed, empties the origin, puts the moving piece on the target, empties an en-passant pawn's square, moves a castling rook beside the king, and changes no other square |
| Relocate.Simulate | src/lib.rs:354-360 | the clone differs from the game only in its board, stays well formed and has the same recorded king square |
| Legal.Moves | src/lib.rs:368-386 | every generated target is on the board and safe to apply |
| Legal.PseudoMoves | src/lib.rs:270-276 | the pattern moves, with castling added for a king when filtering, are on the board and safe to apply |
| Legal.PatternMoves | src/lib.rs:373-381 | the per-piece dispatch yields on-board targets that are safe to apply |
| Legal.SlidingMoves | src/lib.rs:278-281 | the queen and king rays push only on-board squares not held by the mover's side |
| Legal.FilterSelfCheck | src/lib.rs:354-367 | the kept targets are a subsequence of the candidates |
| Legal.CastlingMoves | src/lib.rs:240-248 | at most one castling target, and only one of 2, 6, 58, 62 |
| Legal.IsChecked | src/lib.rs:393-400 | a square is attacked when some square whose side is not the side to move has it among its moves; defined as the source loop, its meaning is Legality.CheckedMeansAttacked |
| Legal.PathClear | src/lib.rs:478-480 | both path squares are empty and not attacked; used by Legality.CastlingRule |
| Legal.SideCastling | src/lib.rs:250-268 | at most one target, two files left or right of the king's start |
| Legality.FilterKeeps | src/lib.rs:354-367 | a target survives the filter exactly when it is a candidate and the clone's recorded king square is unattacked |
| Legality.LegalMovesSafe | src/lib.rs:368-390 | the legal moves are a subsequence of the pattern moves, and a pattern move is legal exactly when it leaves the recorded king square unattacked |
| Legality.CheckedReadsOnlyPosition | src/lib.rs:393-400 | the attack test depends only on the board, the side to move and the last move's origin |
| Legality.KingMovesOneStep | src/lib.rs:270-272 | every pattern move of a king is one step along one of the eight rays |
| Legality.CheckedMeansAttacked | src/lib.rs:393-400 | with filter off, a square is attacked exactly when a piece of the other side has it among its pattern moves; empty squares pass the side test but attack nothing |
| Legality.CastlingRule | src/lib.rs:240-268 | a castling target is offered only with king and rook unmoved, the king unattacked and the path empty and unattacked; the queen side is offered when open, otherwise the king side when open |
| Classify.IsCheckMated | src/lib.rs:409-434 | no piece of the side to move has a legal move after which, on a clone, the recorded king square is unattacked; its meaning is Classify.CheckMatedIffNoLegalMoves |
| Classify.IsStalemate | src/lib.rs:486-498 | no square whose side differs from the side to move has a legal move; its meaning is Classify.StalemateScansOpponent |
| Classify.StalemateScansOpponent | src/lib.rs:486-498 | the stalemate test as written holds exactly when no piece of the other side has a legal move, where those moves are filtered against the recorded king square of the side to move, not the other side's |
| Classify.KingThreat | src/lib.rs:436-446 | the result is Default exactly when the recorded king square is unattacked; otherwise it names the side to move, and is mate exactly when that side has no legal move |
| Classify.GetBoardState | src/lib.rs:452-470 | a check or mate is reported exactly when the recorded king square is attacked and always names the side to move; the 50-move draw only when the counter is 0 |
| Classify.CheckMatedIffNoLegalMoves | src/lib.rs:409-434 | checkmate holds exactly when no piece of the side to move has a legal move |
| Classify.RankHasPawnAsWrittenMissesHFile | src/lib.rs:461-467 | as written, a pawn on h1 is not seen by the promotion test |
| Classify.GetBoardStateMeaning | src/lib.rs:452-470 | the state is mate or check by whether legal moves remain when the recorded king is attacked; otherwise the 50-move draw, then stalemate, then a pawn on rank 1 or rank 8, each both ways |
| Play.LegalMoves | src/lib.rs:388-390 | the result is defined exactly on squares of the board, and every legal target leaves the recorded king square unattacked |
| Play.ShouldResetFifty | src/lib.rs:482-484 | a piece on the target or a pawn on the origin; Play.DoMoveBookkeeping states its effect on the counter |
| Play.FiftyAsWrittenAlwaysResets | src/lib.rs:559-565 | as written, a quiet knight move resets the counter to 50; judged on the board before the move it decrements |
| Play.DoMove | src/lib.rs:559-580 | a move is committed exactly when both squares are on the board, and the game stays well formed; a check or mate is reported exactly when the mover's own recorded king square is attacked after the move, and names the mover; the 50-move draw only when the new counter is 0 |
| Play.DoMoveNeverReportsCheck | src/lib.rs:354-367 | after a legal move, `do_move` reports neither a check nor a mate |
| Play.QueenCoversKingSquares | src/lib.rs:278-281 | a queen on g6 has g7, g8 and h7 among its moves but not h8 |
| Play.QueenEndingNotStalemate | src/lib.rs:486-498 | with White still to move after Qg6, e1 is unattacked and the black king's move to g8 passes the filter, so the stalemate test fails |
| Play.StalemateAfterMoveMissed | src/lib.rs:566-578 | White Ke1 playing Qg5-g6 against a lone Kh8 leaves Black stalemated, yet `do_move` returns Default |
| Play.DoMoveBookkeeping | src/lib.rs:559-580 | one snapshot is appended; the last move is recorded and the turn flips; only the origin's castling flag can change, and only to true; the counter resets exactly on a capture or pawn move and otherwise drops by one; the king squares and pending promotion stay |
| Play.DoMoveBoard | src/lib.rs:535-557 | after a move the origin is empty, the moving piece is on the target, an en-passant pawn's square is empty, a castling rook is beside the king, and every other square is unchanged |
| Play.RequestDraw | src/lib.rs:582-592 | the answer is true exactly when more than two pairs of equal snapshots exist in the history |
| Play.PairsBelowPrefix | src/lib.rs:582-592 | appending a snapshot does not change the pair count over the older ones |
| Play.DrawStaysAvailable | src/lib.rs:571-592 | a move never lowers the pair count, so once a draw may be requested it stays so |
| Play.PairsAreNotThreefold | src/lib.rs:582-592 | three positions seen twice each already give three pairs, though none occurred three times |
| Play.ChoosePromotion | src/lib.rs:472-476 | the choice succeeds exactly when a square is pending; the square then holds the chosen piece of the side to move and nothing else changes |
| Play.PromotionNeverPending | src/lib.rs:472-476 | no square is pending in a new game or after any move, so choosing a promotion piece fails |

## Left out

- `board_pos_to_index` (src/lib.rs:125-140): parsing of algebraic notation. It is partial (it unwraps and has an `unimplemented!` arm) and is not used by the engine.
- src/debugutils.rs and src/main.rs: printing and a demo driver. They are not part of this model.
- The `WhiteLoseByCheckMate`, `BlackLoseByCheckMate`, `WhiteLoseByTime` and `BlackLoseByTime` states are never produced, and there is no clock, so they are left out.
- The boxed closures and `clone()` mechanics: directions are an enum, and a clone is a value copy (`Simulate`).
- The history is one sequence of `(piece, side)` boards instead of two parallel vectors. Two snapshots are equal exactly when both of their arrays are.
- `is_pos_outside_of_board` is the predicate `OutsideBoard` itself (`p > 63 || p < 0`), so it needs no separate lemma.
- Play.DoMove: the fifty-move counter is an unbounded integer. The source's i8 counter keeps falling after it reaches 0 and would overflow below -128; the model does not follow that wrap-around.
- Play.DoMove: requires that the move not leave a white pawn on a1 or a black pawn on h8. On such a board the source's pawn code would later index square -1 or 64 and panic. `ValidBoard` excludes those boards.
- Play.ChoosePromotion: admits only queen, rook, bishop and knight, where the source takes any piece. Because no square is ever pending, the call fails either way.
- Play.LegalMoves: a square outside 0..63 gives `Failure(IndexOutOfRange)`, where the source panics.

## Findings

| source | as written | input that shows it | evidently intended | confidence | as-written member | corrected member |
|---|---|---|---|---|---|---|
| src/lib.rs:289-290 | under the right-edge guard `position >= 15` the jump pushed is `position-17` | knight on square 16 (a3): 16 is not on the right edge, so the engine reads square -1 and panics | push `position-15` (one file right, two ranks down) | high; not executed | Knight.KnightAsWrittenIndexesMinusOne | Knight.KnightCandidates |
| src/lib.rs:284-292 | `+17` is guarded by the left-edge test and `+15` by the right-edge test | knight on 7 (h1) is offered 24 (a4); knight on 8 (a2) is offered 23 (h3) | each jump one file right is guarded by the right edge, one file left by the left edge | high; not executed | Knight.KnightAsWrittenWrapsAcrossEdge | Knight.KnightCandidates |
| src/lib.rs:294-298 | `+10` and `-6` (two files right) are allowed for `position % 8 <= 6` | knight on 6 (g1) is offered 16 (a3); knight on 14 (g2) is offered 8 (a2) | `position % 8 <= 5` | high; not executed | Knight.KnightAsWrittenWrapsFromGFile | Knight.KnightCandidates |
| src/lib.rs:108-123 | diagonal callbacks test the edge even at distance 0 (they are called from src/lib.rs:211) | bishop on 7 (h1): at n = 0 both rays towards the g-file report blocked; line 212 then removes them, so g2 is never offered (the lemma shows the blocked flags; the removal follows from line 212) | report blocked only for n != 0, as the orthogonal callbacks do | high; not executed | Geometry.StepAsWrittenDropsEdgeRays | Geometry.StepZero |
| src/lib.rs:184-191 | White unmoved for 8..17, Black for 47..56 | a white pawn on 16 (a3) counts as unmoved, so by lines 310-313 it is offered 32 when 24 and 32 are empty (the lemma shows the unmoved answer; the push follows from lines 310-313) | unmoved exactly on the starting rank: 8..15 and 48..55 | high; not executed | Pawn.HasPawnMovedAsWrittenMissesThirdRank | Pawn.HasPawnMoved |
| src/lib.rs:504-507 | the king-side rook goes to `king_start-1` | White castles e1 to g1: the h1 rook lands on d1, over the queen's start | `king_start+1` (f1) | high; not executed | Relocate.CastlingRelocAsWrittenMisplacesRook | Relocate.CastlingReloc |
| src/lib.rs:559-565 | `should_reset_fifty_move_rule` reads the board after the relocations | a quiet knight move from b1 to c3: the knight is on c3 afterwards, so the counter resets and the 50-move draw never comes | test the capture and the pawn move on the board before the move | high; not executed | Play.FiftyAsWrittenAlwaysResets | Play.DoMoveBookkeeping |
| src/lib.rs:461-467 | promotion ranks are the slices `[0..7]` and `[56..63]`, seven squares each | a pawn on 7 (h1) or 63 (h8) triggers no promotion state | the full ranks `[0..8]` and `[56..64]` | high; not executed | Classify.RankHasPawnAsWrittenMissesHFile | Classify.GetBoardStateMeaning |
