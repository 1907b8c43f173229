/**
 Move application on the board: the relocation list built by
 `do_move_internal` (src/lib.rs:535-557) from the primary move, the
 en-passant entry of `get_en_passant_move` (src/lib.rs:512-521) and the rook
 entry of `get_side_castling_move` (src/lib.rs:500-510).  Simulate is the
 clone used by the self-check filter: only the board changes.
 */
module Relocate {
  import opened Wrappers
  import opened Pieces
  import opened State

  /** One entry `[from, to]` of the relocation list. */
  datatype Reloc = Reloc(from: int, to: int)

  /** Moves piece and side together and leaves (None, None) behind; `[s, s]` just empties s. */
  function ApplyReloc(b: Board, m: Reloc): (r: Board)
    requires |b| == 64 && 0 <= m.from < 64 && 0 <= m.to < 64
    ensures |r| == 64
    ensures r[m.from] == Empty
    ensures m.from != m.to ==> r[m.to] == b[m.from]
    ensures forall i :: 0 <= i < 64 && i != m.from && i != m.to ==> r[i] == b[i]
    ensures Agrees(b) ==> Agrees(r)
  {
    b[m.to := b[m.from]][m.from := Empty]
  }

  function ApplyOpt(b: Board, m: Option<Reloc>): (r: Board)
    requires |b| == 64 && (m.Some? ==> 0 <= m.value.from < 64 && 0 <= m.value.to < 64)
    ensures |r| == 64
  {
    if m.Some? then ApplyReloc(b, m.value) else b
  }

  /**
   The en-passant entry: when the last move was a two-square advance across
   t that ended on a pawn one rank beyond t (below t only when White moves,
   above t for either side), that pawn's square is emptied.  The piece
   moving to t is not inspected.
   */
  function EnPassantReloc(g: Game, origin: int, target: int): (r: Option<Reloc>)
    requires ValidGame(g) && 0 <= target < 64
    ensures r.Some? ==> var s := r.value.from;
      && r.value.to == s
      && 0 <= s < 64
      && (s == target - 8 || s == target + 8)
      && g.board[s].piece == Pawn
      && (s == target - 8 ==> g.turn == White)
      && g.lastTarget == s
      && g.lastOrigin + g.lastTarget == 2 * target
    ensures r.None? && g.turn == White && target > 7 && g.board[target - 8].piece == Pawn
      ==> !(g.lastOrigin == target + 8 && g.lastTarget == target - 8)
    ensures r.None? && target < 56 && g.board[target + 8].piece == Pawn
      ==> !(g.lastOrigin == target - 8 && g.lastTarget == target + 8)
  {
    if g.turn == White && target > 7 && g.board[target - 8].piece == Pawn
       && g.lastOrigin == target + 8 && g.lastTarget == target - 8
    then Some(Reloc(target - 8, target - 8))
    else if target < 56 && g.board[target + 8].piece == Pawn
       && g.lastOrigin == target - 8 && g.lastTarget == target + 8
    then Some(Reloc(target + 8, target + 8))
    else Option.None
  }

  /**
   The rook entry for a king starting on ks: present exactly when the unmoved
   king leaves ks for ks-2 or ks+2 and the rook on that side is unmoved; the
   rook comes from that side's corner and lands on the square the king
   crossed.  (The source sends the king-side rook to ks-1; see
   CastlingRelocAsWritten.)
   */
  function CastlingReloc(ks: int, origin: int, target: int, rookOneMoved: bool, rookTwoMoved: bool, kingMoved: bool)
    : (r: Option<Reloc>)
    ensures r.Some? <==>
      (origin == ks && !kingMoved && ((target == ks - 2 && !rookOneMoved) || (target == ks + 2 && !rookTwoMoved)))
    ensures r.Some? ==>
      (r.value.to == (origin + target) / 2 && r.value.from == (if target < origin then ks - 4 else ks + 3))
  {
    if origin == ks && !kingMoved then
      if target == ks - 2 && !rookOneMoved then Some(Reloc(ks - 4, ks - 1))
      else if target == ks + 2 && !rookTwoMoved then Some(Reloc(ks + 3, ks + 1))
      else Option.None
    else Option.None
  }

  function CastlingRelocAsWritten(ks: int, origin: int, target: int, rookOneMoved: bool, rookTwoMoved: bool, kingMoved: bool)
    : Option<Reloc>
  {
    if origin == ks && !kingMoved then
      if target == ks - 2 && !rookOneMoved then Some(Reloc(ks - 4, ks - 1))
      else if target == ks + 2 && !rookTwoMoved then Some(Reloc(ks + 3, ks - 1))
      else Option.None
    else Option.None
  }

  /**
   As written, White castling king-side (e1 to g1) moves the h1 rook to d1,
   not to f1 beside the king; a queen still on d1 is overwritten.
   */
  lemma CastlingRelocAsWrittenMisplacesRook()
    ensures CastlingRelocAsWritten(4, 4, 6, false, false, false) == Some(Reloc(7, 3))
    ensures CastlingReloc(4, 4, 6, false, false, false) == Some(Reloc(7, 5))
    ensures InitialBoard()[3] == Square(Queen, White)
  {
  }

  /**
   The rook entry for the side to move (`do_move_internal`, src/lib.rs:540-545):
   White's king starts on e1 (4), any other side's on e8 (60); the entry
   exists exactly when that king, unmoved, goes two files towards an unmoved
   rook, which comes from its corner to the square the king crossed.
   */
  function CastlingRelocFor(g: Game, origin: int, target: int): (r: Option<Reloc>)
    ensures var c := g.castle;
      var white := g.turn == White;
      var ks := if white then 4 else 60;
      var kingMoved := if white then c.whiteKingMoved else c.blackKingMoved;
      var queenRookMoved := if white then c.whiteRookOneMoved else c.blackRookOneMoved;
      var kingRookMoved := if white then c.whiteRookTwoMoved else c.blackRookTwoMoved;
      r.Some? <==>
        origin == ks && !kingMoved && ((target == ks - 2 && !queenRookMoved) || (target == ks + 2 && !kingRookMoved))
    ensures r.Some? ==>
      (r.value.to == (origin + target) / 2 && r.value.from == (if target < origin then origin - 4 else origin + 3))
  {
    var c := g.castle;
    if g.turn == White then
      CastlingReloc(4, origin, target, c.whiteRookOneMoved, c.whiteRookTwoMoved, c.whiteKingMoved)
    else
      CastlingReloc(60, origin, target, c.blackRookOneMoved, c.blackRookTwoMoved, c.blackKingMoved)
  }

  /** A move that would leave a white pawn on a1 or a black pawn on h8, boards the engine cannot read. */
  ghost predicate SafeMove(b: Board, origin: int, target: int)
    requires |b| == 64 && 0 <= origin < 64
  {
    && !(b[origin] == Square(Pawn, White) && target == 0)
    && !(b[origin] == Square(Pawn, Black) && target == 63)
  }

  /** Square i is the en-passant square or one of the rook's squares of this move. */
  predicate Touched(g: Game, origin: int, target: int, i: int)
    requires ValidGame(g) && 0 <= target < 64
  {
    var ep := EnPassantReloc(g, origin, target);
    var castle := CastlingRelocFor(g, origin, target);
    (ep.Some? && i == ep.value.from) || (castle.Some? && (i == castle.value.from || i == castle.value.to))
  }

  /** The board after the three relocations, applied in list order from the pre-move state. */
  function ApplyMove(g: Game, origin: int, target: int): (r: Board)
    requires ValidGame(g) && 0 <= origin < 64 && 0 <= target < 64
    requires SafeMove(g.board, origin, target)
    ensures ValidBoard(r)
    ensures r[origin] == Empty
    ensures origin != target ==> r[target] == g.board[origin]
    ensures EnPassantReloc(g, origin, target).Some? ==> r[EnPassantReloc(g, origin, target).value.from] == Empty
    ensures CastlingRelocFor(g, origin, target).Some? ==>
      var m := CastlingRelocFor(g, origin, target).value;
      r[m.to] == g.board[m.from] && r[m.from] == Empty
    ensures forall i :: 0 <= i < 64 && i != origin && i != target && !Touched(g, origin, target, i) ==> r[i] == g.board[i]
  {
    var ep := EnPassantReloc(g, origin, target);
    var castle := CastlingRelocFor(g, origin, target);
    var b1 := ApplyReloc(g.board, Reloc(origin, target));
    var b2 := ApplyOpt(b1, ep);
    var b3 := ApplyOpt(b2, castle);
    assert castle.Some? ==> castle.value.to !in {0, 63, target, origin} && castle.value.from != target;
    b3
  }

  /** The clone of `filter_out_moves_causing_self_check`: relocations only, nothing else of the game changes. */
  function Simulate(g: Game, origin: int, target: int): (r: Game)
    requires ValidGame(g) && 0 <= origin < 64 && 0 <= target < 64
    requires SafeMove(g.board, origin, target)
    ensures ValidGame(r)
    ensures r == g.(board := r.board)
    ensures CurrKingPos(r) == CurrKingPos(g)
  {
    g.(board := ApplyMove(g, origin, target))
  }
}
