/**
 Pieces, sides and the 64-square board of src/lib.rs:3-31 and 57-77
 (repeated in src/boardutils.rs:1-17 and 43-73).  The source keeps two parallel
 arrays, `board_pieces` and `board_pieces_sides`; here one square holds both.
 */
module Pieces {

  datatype Piece = King | Queen | Rook | Bishop | Knight | Pawn | None

  datatype Side = White | Black | None

  /** `!side` of src/lib.rs:21-31: swaps the two real sides and keeps `None`. */
  function Not(s: Side): (r: Side)
    ensures r == Side.None <==> s == Side.None
    ensures s != Side.None ==> r != s
  {
    match s
    case White => Black
    case Black => White
    case None => Side.None
  }

  /** Negating twice gives the side back. */
  lemma NotInvolution(s: Side)
    ensures Not(Not(s)) == s
  {
  }

  datatype Square = Square(piece: Piece, side: Side)

  const Empty: Square := Square(Piece.None, Side.None)

  type Board = seq<Square>

  /** Every square holds a real piece with a real side, or nothing with no side. */
  ghost predicate Agrees(b: Board)
    requires |b| == 64
  {
    forall i :: 0 <= i < 64 ==> (b[i].piece == Piece.None <==> b[i].side == Side.None)
  }

  /**
   The boards the engine can work on without indexing outside the arrays:
   the pawn code reads the square left of a white pawn and right of a black
   one (src/lib.rs:326 and 345), so a white pawn on a1 or a black pawn on h8
   would make it read square -1 or 64.
   */
  ghost predicate ValidBoard(b: Board) {
    && |b| == 64
    && Agrees(b)
    && b[0] != Square(Pawn, White)
    && b[63] != Square(Pawn, Black)
  }

  const BackRank: seq<Piece> := [Rook, Knight, Bishop, Queen, King, Bishop, Knight, Rook]

  /** The square `i` of the starting position. */
  function InitialSquare(i: int): Square
    requires 0 <= i < 64
  {
    if i < 8 then Square(BackRank[i], White)
    else if i < 16 then Square(Pawn, White)
    else if i < 48 then Empty
    else if i < 56 then Square(Pawn, Black)
    else Square(BackRank[i - 56], Black)
  }

  function InitialBoard(): (b: Board)
    ensures |b| == 64
  {
    seq(64, i requires 0 <= i < 64 => InitialSquare(i))
  }

  /**
   The starting arrays: a piece exactly where there is a side, White on
   squares 0..15, nothing on 16..47, Black on 48..63, kings on e1 and e8.
   */
  lemma InitialBoardLayout()
    ensures ValidBoard(InitialBoard())
    ensures forall i :: 0 <= i < 16 ==> InitialBoard()[i].side == White
    ensures forall i :: 16 <= i < 48 ==> InitialBoard()[i] == Empty
    ensures forall i :: 48 <= i < 64 ==> InitialBoard()[i].side == Black
    ensures InitialBoard()[4] == Square(King, White) && InitialBoard()[60] == Square(King, Black)
  {
    var b := InitialBoard();
    forall i | 0 <= i < 64
      ensures b[i].piece == Piece.None <==> b[i].side == Side.None
    {
      if i < 8 {
        assert BackRank[i] != Piece.None;
      } else if 56 <= i {
        assert BackRank[i - 56] != Piece.None;
      }
    }
  }
}
