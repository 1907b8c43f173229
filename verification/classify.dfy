/**
 Position classification: `is_checked_mate`, `get_king_threat_status`,
 `is_stalemate`, `rank_contains_pawn` and `get_board_state` of
 src/lib.rs:409-470 and 486-498.
 */
module Classify {
  import opened Pieces
  import opened State
  import opened Relocate
  import opened Legal
  import opened Legality

  /** The tags `get_board_state` produces. */
  datatype BoardState =
    | Default
    | Checked(side: Side)
    | CheckMated(side: Side)
    | DrawBy50Rule
    | DrawByStaleMate
    | WhitePromotion
    | BlackPromotion

  /** Some legal move of the piece on i leaves the recorded king square of the side to move unattacked. */
  predicate HasEscape(g: Game, i: int)
    requires ValidGame(g) && 0 <= i < 64
  {
    exists t | t in Moves(g, i, true) :: !IsChecked(Simulate(g, i, t), CurrKingPos(g), false)
  }

  /** `is_checked_mate`: no piece of the side to move has a move that escapes the attack. */
  predicate IsCheckMated(g: Game)
    requires ValidGame(g)
  {
    !exists i | 0 <= i < 64 :: g.board[i].side == g.turn && HasEscape(g, i)
  }

  /**
   `is_stalemate` as written: no square whose side differs from `turn` has a
   legal move.  The classification runs before the turn flips, so these are
   the squares of the side about to move (and the empty ones), but their
   moves are filtered against the recorded king square of `turn`, the mover:
   a real stalemate can go unnoticed (see Play.StalemateAfterMoveMissed).
   */
  predicate IsStalemate(g: Game)
    requires ValidGame(g)
  {
    !exists i | 0 <= i < 64 :: g.board[i].side != g.turn && |Moves(g, i, true)| > 0
  }

  /**
   Checkmate is exactly "the side to move has no legal move at all": every
   legal move already passed the same clone test, so the second simulation
   in `is_checked_mate` can never find an escape the filter missed.
   */
  lemma CheckMatedIffNoLegalMoves(g: Game)
    requires ValidGame(g)
    ensures IsCheckMated(g) <==> forall i :: 0 <= i < 64 && g.board[i].side == g.turn ==> Moves(g, i, true) == []
  {
    forall i | 0 <= i < 64
      ensures HasEscape(g, i) <==> Moves(g, i, true) != []
    {
      LegalMovesSafe(g, i);
      if Moves(g, i, true) != [] {
        assert Moves(g, i, true)[0] in Moves(g, i, true);
      }
    }
  }

  /**
   `get_king_threat_status`: nothing unless the recorded king square of the
   side to move is attacked; then mate exactly when that side has no legal
   move, check otherwise.
   */
  function KingThreat(g: Game): (r: BoardState)
    requires ValidGame(g)
    ensures r == Default <==> !IsChecked(g, CurrKingPos(g), false)
    ensures r != Default ==> r == Checked(g.turn) || r == CheckMated(g.turn)
    ensures r == CheckMated(g.turn) <==>
      (IsChecked(g, CurrKingPos(g), false) && forall i :: 0 <= i < 64 && g.board[i].side == g.turn ==> Moves(g, i, true) == [])
  {
    CheckMatedIffNoLegalMoves(g);
    if IsChecked(g, CurrKingPos(g), false) then
      if IsCheckMated(g) then CheckMated(g.turn) else Checked(g.turn)
    else Default
  }

  /**
   `is_stalemate` as written, read over the board: since empty squares have
   no moves, it holds exactly when no piece of the other side has a legal
   move.
   */
  lemma StalemateScansOpponent(g: Game)
    requires ValidGame(g)
    ensures IsStalemate(g) <==> forall i :: 0 <= i < 64 && g.board[i].side == Not(g.turn) ==> Moves(g, i, true) == []
  {
    forall i | 0 <= i < 64 && g.board[i].side != g.turn && g.board[i].side != Not(g.turn)
      ensures Moves(g, i, true) == []
    {
      assert g.board[i].piece == Piece.None;
      assert PseudoMoves(g, i, true) == [];
    }
  }

  /** A pawn on one of the eight squares of the rank starting at `start`. */
  predicate RankHasPawn(b: Board, start: int)
    requires |b| == 64 && start in {0, 56}
  {
    exists i | start <= i < start + 8 :: b[i].piece == Pawn
  }

  /** The slices `[0..7]` and `[56..63]` as written cover only seven squares each. */
  predicate RankHasPawnAsWritten(b: Board, start: int)
    requires |b| == 64 && start in {0, 56}
  {
    exists i | start <= i < start + 7 :: b[i].piece == Pawn
  }

  /** A pawn on h1 or h8 (square 7 or 63) is missed by the slices as written. */
  lemma RankHasPawnAsWrittenMissesHFile()
    ensures var b := seq(64, i => if i == 7 then Square(Pawn, Black) else Empty);
      RankHasPawn(b, 0) && !RankHasPawnAsWritten(b, 0)
  {
    var b := seq(64, i => if i == 7 then Square(Pawn, Black) else Empty);
    assert b[7].piece == Pawn;
  }

  /**
   `get_board_state`: threat, then the 50-move counter, then stalemate, then
   promotion.  A check or mate is always reported for the side to move, and
   exactly when its recorded king square is attacked.
   */
  function GetBoardState(g: Game): (r: BoardState)
    requires ValidGame(g)
    ensures r.Checked? || r.CheckMated? <==> IsChecked(g, CurrKingPos(g), false)
    ensures r.Checked? || r.CheckMated? ==> r.side == g.turn
    ensures r == DrawBy50Rule ==> g.fifty == 0
  {
    var threat := KingThreat(g);
    if threat != Default then threat
    else if g.fifty == 0 then DrawBy50Rule
    else if IsStalemate(g) then DrawByStaleMate
    else if RankHasPawn(g.board, 0) then BlackPromotion
    else if RankHasPawn(g.board, 56) then WhitePromotion
    else Default
  }

  /**
   The precedence of the classification, stated in terms of the position:
   a checked side with no legal move is mated, a checked side with one is in
   check; only an unattacked king lets the counter, then stalemate, then a
   pawn on a back rank, decide.
   */
  lemma GetBoardStateMeaning(g: Game)
    requires ValidGame(g)
    ensures var r := GetBoardState(g);
      var attacked := IsChecked(g, CurrKingPos(g), false);
      var stuck := forall i :: 0 <= i < 64 && g.board[i].side == g.turn ==> Moves(g, i, true) == [];
      && (r == CheckMated(g.turn) <==> attacked && stuck)
      && (r == Checked(g.turn) <==> attacked && !stuck)
      && (r == DrawBy50Rule <==> !attacked && g.fifty == 0)
      && (r == DrawByStaleMate <==> !attacked && g.fifty != 0 && IsStalemate(g))
      && (r == BlackPromotion <==> !attacked && g.fifty != 0 && !IsStalemate(g) && RankHasPawn(g.board, 0))
      && (r == WhitePromotion <==>
            !attacked && g.fifty != 0 && !IsStalemate(g) && !RankHasPawn(g.board, 0) && RankHasPawn(g.board, 56))
  {
    CheckMatedIffNoLegalMoves(g);
  }
}
