/**
 The game record `Game` of src/lib.rs:142-182 and its castling flags
 `CastleInfo` of src/lib.rs:47-55.
 */
module State {
  import opened Geometry
  import opened Pieces

  /** Has-moved flags; "rook one" is the queen-side rook (a-file), "rook two" the king-side rook. */
  datatype CastleInfo = CastleInfo(
    whiteRookOneMoved: bool,
    whiteRookTwoMoved: bool,
    blackRookOneMoved: bool,
    blackRookTwoMoved: bool,
    whiteKingMoved: bool,
    blackKingMoved: bool)

  /** The square whose first move sets flag k (in field order): a1, h1, a8, h8, e1, e8. */
  const TrackedSquare: seq<int> := [0, 7, 56, 63, 4, 60]

  function Flag(c: CastleInfo, k: int): bool
    requires 0 <= k < 6
  {
    match k
    case 0 => c.whiteRookOneMoved
    case 1 => c.whiteRookTwoMoved
    case 2 => c.blackRookOneMoved
    case 3 => c.blackRookTwoMoved
    case 4 => c.whiteKingMoved
    case _ => c.blackKingMoved
  }

  /**
   `update_pieces_has_moved_status` (src/lib.rs:523-533): a move from a
   tracked square sets that square's flag; flags never go back to false and
   no other flag changes.
   */
  function UpdateCastle(c: CastleInfo, origin: int): (r: CastleInfo)
    ensures forall k :: 0 <= k < 6 ==> Flag(r, k) == (Flag(c, k) || origin == TrackedSquare[k])
  {
    match origin
    case 0 => c.(whiteRookOneMoved := true)
    case 7 => c.(whiteRookTwoMoved := true)
    case 56 => c.(blackRookOneMoved := true)
    case 63 => c.(blackRookTwoMoved := true)
    case 4 => c.(whiteKingMoved := true)
    case 60 => c.(blackKingMoved := true)
    case _ => c
  }

  datatype Game = Game(
    board: Board,
    turn: Side,
    castle: CastleInfo,
    fifty: int,
    whiteKingPos: int,
    blackKingPos: int,
    lastOrigin: int,
    lastTarget: int,
    pendingPromotion: int,
    history: seq<Board>)

  ghost predicate ValidGame(g: Game) {
    && ValidBoard(g.board)
    && g.turn != Side.None
    && 0 <= g.whiteKingPos < 64
    && 0 <= g.blackKingPos < 64
  }

  /** `get_curr_turn_king_pos`: the square recorded for the king of the side to move. */
  function CurrKingPos(g: Game): (r: int)
    requires ValidGame(g)
    ensures 0 <= r < 64
  {
    if g.turn == Black then g.blackKingPos else g.whiteKingPos
  }

  /** `Game::new`: the starting position, White to move, nothing moved, counter at 50, no history. */
  function Init(): (g: Game)
    ensures ValidGame(g)
    ensures g.board[g.whiteKingPos] == Square(King, White) && g.board[g.blackKingPos] == Square(King, Black)
    ensures g.pendingPromotion == -1 && g.history == []
  {
    InitialBoardLayout();
    Game(InitialBoard(), White, CastleInfo(false, false, false, false, false, false),
         50, 4, 60, -1, -1, -1, [])
  }
}
