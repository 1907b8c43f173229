/**
 Move generation with the self-check filter and the attack test, the
 mutually recursive core of src/lib.rs:236-400 and 478-480.  Moves with
 filter = true adds castling targets and filters; castling and the filter
 ask IsChecked with filter = false, which never comes back to them.  The
 first component of every `decreases` is that flag.
 */
module Legal {
  import opened Geometry
  import opened Pieces
  import opened State
  import opened Rays
  import opened Knight
  import opened Pawn
  import opened Relocate

  /** `r` keeps some of the elements of `s`, in their order. */
  predicate IsSubsequence(r: seq<int>, s: seq<int>)
    decreases |s|
  {
    if r == [] then true
    else if s == [] then false
    else (r[0] == s[0] && IsSubsequence(r[1..], s[1..])) || IsSubsequence(r, s[1..])
  }

  /**
   `get_position_possible_movements_internal`: the piece's pattern moves,
   with castling for a king and the self-check filter when `filter` holds.
   */
  function Moves(g: Game, p: int, filter: bool): (r: seq<int>)
    requires ValidGame(g) && 0 <= p < 64
    ensures forall t :: t in r ==> 0 <= t < 64 && SafeMove(g.board, p, t)
    decreases if filter then 1 else 0, 2, 0
  {
    var pseudo := PseudoMoves(g, p, filter);
    if !filter then pseudo else FilterSelfCheck(g, p, pseudo)
  }

  /**
   The per-piece dispatch of src/lib.rs:373-381, with castling for a king
   when `filter` holds (src/lib.rs:270-276).
   */
  function PseudoMoves(g: Game, p: int, filter: bool): (r: seq<int>)
    requires ValidGame(g) && 0 <= p < 64
    ensures forall t :: t in r ==> 0 <= t < 64 && SafeMove(g.board, p, t)
    decreases if filter then 1 else 0, 1, 0
  {
    var base := PatternMoves(g, p);
    if filter && g.board[p].piece == King then
      var castling := CastlingMoves(g);
      assert forall t :: t in castling ==> 0 <= t < 64 && SafeMove(g.board, p, t);
      assert forall t :: t in base + castling ==> t in base || t in castling;
      base + castling
    else base
  }

  /** Pattern moves of the piece on p, without castling. */
  function PatternMoves(g: Game, p: int): (r: seq<int>)
    requires ValidGame(g) && 0 <= p < 64
    ensures forall t :: t in r ==> 0 <= t < 64 && SafeMove(g.board, p, t)
  {
    var b := g.board;
    var side := b[p].side;
    match b[p].piece
    case Pawn =>
      assert side == White ==> p != 0;
      assert side != White ==> p != 63;
      PawnMoves(b, p, side, g.lastOrigin)
    case Rook => Cast(b, Orthogonal, p, side, 0, 8)
    case Knight => KnightMoves(b, p, side)
    case Queen => SlidingMoves(b, p, side, 8)
    case King => SlidingMoves(b, p, side, 2)
    case Bishop => Cast(b, Diagonal, p, side, 0, 8)
    case None => []
  }

  /** Orthogonal rays, then diagonal rays, up to distance len - 1: the queen (8) and the king (2). */
  function SlidingMoves(b: Board, p: int, side: Side, len: nat): (r: seq<int>)
    requires |b| == 64
    ensures forall t :: t in r ==> 0 <= t < 64 && b[t].side != side
  {
    var ortho := Cast(b, Orthogonal, p, side, 0, len);
    var diag := Cast(b, Diagonal, p, side, 0, len);
    assert forall t :: t in ortho + diag ==> t in ortho || t in diag;
    ortho + diag
  }

  /**
   `filter_out_moves_causing_self_check`: keeps the targets after which the
   recorded king square of the side to move is not attacked on the clone.
   */
  function FilterSelfCheck(g: Game, origin: int, targets: seq<int>): (r: seq<int>)
    requires ValidGame(g) && 0 <= origin < 64
    requires forall t :: t in targets ==> 0 <= t < 64 && SafeMove(g.board, origin, t)
    ensures IsSubsequence(r, targets)
    ensures forall t :: t in r ==> t in targets
    decreases 1, 1, |targets|
  {
    if targets == [] then []
    else
      var t := targets[0];
      assert t in targets;
      assert forall u :: u in targets[1..] ==> u in targets;
      var clone := Simulate(g, origin, t);
      var rest := FilterSelfCheck(g, origin, targets[1..]);
      if !IsChecked(clone, CurrKingPos(clone), false) then
        assert ([t] + rest)[1..] == rest;
        [t] + rest
      else rest
  }

  /** `is_checked`: some square not of the side to move has pos among its moves. */
  predicate IsChecked(g: Game, pos: int, filter: bool)
    requires ValidGame(g)
    decreases if filter then 1 else 0, 3, 0
  {
    exists i | 0 <= i < 64 :: g.board[i].side != g.turn && pos in Moves(g, i, filter)
  }

  /**
   `add_castling_moves`: nothing while the recorded king square is attacked,
   otherwise the castling target of the side to move, if any.
   */
  function CastlingMoves(g: Game): (r: seq<int>)
    requires ValidGame(g)
    ensures |r| <= 1
    ensures forall t :: t in r ==> t in {2, 6, 58, 62}
    decreases 1, 0, 2
  {
    var c := g.castle;
    if IsChecked(g, CurrKingPos(g), false) then []
    else if g.turn == White then SideCastling(g, 4, c.whiteKingMoved, c.whiteRookOneMoved, c.whiteRookTwoMoved)
    else if g.turn == Black then SideCastling(g, 60, c.blackKingMoved, c.blackRookOneMoved, c.blackRookTwoMoved)
    else []
  }

  /**
   `add_white_castling_moves` / `add_black_castling_moves` for a king
   starting on ks: queen-side first, king-side only when queen-side fails.
   */
  function SideCastling(g: Game, ks: int, kingMoved: bool, rookOneMoved: bool, rookTwoMoved: bool): (r: seq<int>)
    requires ValidGame(g) && ks in {4, 60}
    ensures |r| <= 1
    ensures forall t :: t in r ==> t == ks - 2 || t == ks + 2
    decreases 1, 0, 1
  {
    if kingMoved then []
    else if !rookOneMoved && PathClear(g, ks - 2, ks - 1) && g.board[ks - 3].piece == Piece.None then [ks - 2]
    else if !rookTwoMoved && PathClear(g, ks + 1, ks + 2) then [ks + 2]
    else []
  }

  /** `can_castle` for a two-square path: both squares empty and not attacked. */
  predicate PathClear(g: Game, a: int, c: int)
    requires ValidGame(g) && 0 <= a < 64 && 0 <= c < 64
    decreases 1, 0, 0
  {
    g.board[a].piece == Piece.None && !IsChecked(g, a, false)
    && g.board[c].piece == Piece.None && !IsChecked(g, c, false)
  }
}

/** What the self-check filter and castling guarantee, stated over the recursion above. */
module Legality {
  import opened Geometry
  import opened Pieces
  import opened Rays
  import opened State
  import opened Relocate
  import opened Legal

  /** A target survives the filter exactly when the clone leaves the recorded king square unattacked. */
  lemma {:induction false} FilterKeeps(g: Game, origin: int, targets: seq<int>, t: int)
    requires ValidGame(g) && 0 <= origin < 64
    requires forall u :: u in targets ==> 0 <= u < 64 && SafeMove(g.board, origin, u)
    ensures t in FilterSelfCheck(g, origin, targets) <==>
      t in targets && !IsChecked(Simulate(g, origin, t), CurrKingPos(g), false)
    decreases |targets|
  {
    if targets != [] {
      assert forall u :: u in targets[1..] ==> u in targets;
      FilterKeeps(g, origin, targets[1..], t);
      assert targets == [targets[0]] + targets[1..];
    }
  }

  /**
   The legal moves of a square are a subsequence of its pattern moves (with
   castling), and after each of them, simulated on a copy, the recorded king
   square of the side to move is not attacked; every pattern move with that
   property is kept.
   */
  lemma LegalMovesSafe(g: Game, p: int)
    requires ValidGame(g) && 0 <= p < 64
    ensures IsSubsequence(Moves(g, p, true), PseudoMoves(g, p, true))
    ensures forall t :: t in Moves(g, p, true) <==>
      t in PseudoMoves(g, p, true) && !IsChecked(Simulate(g, p, t), CurrKingPos(g), false)
  {
    forall t ensures t in Moves(g, p, true) <==>
      t in PseudoMoves(g, p, true) && !IsChecked(Simulate(g, p, t), CurrKingPos(g), false)
    {
      FilterKeeps(g, p, PseudoMoves(g, p, true), t);
    }
  }

  /**
   The attack test with filter = false: some square holds a piece of the
   other side whose pattern moves include pos.  Empty squares also pass the
   side test of `is_checked`, but they have no moves.
   */
  lemma CheckedMeansAttacked(g: Game, pos: int)
    requires ValidGame(g)
    ensures IsChecked(g, pos, false) <==>
      exists i | 0 <= i < 64 :: g.board[i].side == Not(g.turn) && pos in PatternMoves(g, i)
  {
    forall i | 0 <= i < 64
      ensures (g.board[i].side != g.turn && pos in Moves(g, i, false)) <==>
        (g.board[i].side == Not(g.turn) && pos in PatternMoves(g, i))
    {
      assert Moves(g, i, false) == PatternMoves(g, i);
      if g.board[i].side != g.turn && g.board[i].side != Not(g.turn) {
        assert g.board[i].piece == Piece.None;
        assert PatternMoves(g, i) == [];
      }
    }
  }

  /**
   The attack test reads only the board, the side to move and the origin of
   the last move (which the pawn's en-passant test looks at); the counter,
   the history, the castling flags and the recorded king squares play no part.
   */
  lemma CheckedReadsOnlyPosition(g: Game, h: Game, pos: int)
    requires ValidGame(g) && ValidGame(h)
    requires g.board == h.board && g.turn == h.turn && g.lastOrigin == h.lastOrigin
    ensures IsChecked(g, pos, false) <==> IsChecked(h, pos, false)
  {
    forall i | 0 <= i < 64
      ensures Moves(g, i, false) == Moves(h, i, false)
    {
      assert Moves(g, i, false) == PatternMoves(g, i);
      assert Moves(h, i, false) == PatternMoves(h, i);
    }
  }

  /** A king's pattern moves (rays of length 2) are one step away along one of the eight rays. */
  lemma KingMovesOneStep(b: Board, p: int, side: Side)
    requires |b| == 64
    ensures forall t :: t in SlidingMoves(b, p, side, 2) ==> exists d: Dir :: Step(d, p, 1).target == t
  {
    forall t | t in SlidingMoves(b, p, side, 2)
      ensures exists d: Dir :: Step(d, p, 1).target == t
    {
      if t in Cast(b, Orthogonal, p, side, 0, 2) {
        CastSound(b, Orthogonal, p, side, 0, 2, t);
      } else {
        CastSound(b, Diagonal, p, side, 0, 2, t);
      }
    }
  }

  /** The unmoved-flags of the king starting on ks and of the rook on the side of t. */
  function KingMovedFlag(c: CastleInfo, ks: int): bool {
    if ks == 4 then c.whiteKingMoved else c.blackKingMoved
  }

  function RookMovedFlag(c: CastleInfo, ks: int, t: int): bool {
    if ks == 4 then (if t < ks then c.whiteRookOneMoved else c.whiteRookTwoMoved)
    else (if t < ks then c.blackRookOneMoved else c.blackRookTwoMoved)
  }

  /**
   Castling from ks to t is open: king and rook unmoved, the king's square
   not attacked, every square the king crosses or lands on empty and not
   attacked, and on the queen side the b-file square empty too.
   */
  ghost predicate CastleOpen(g: Game, ks: int, t: int)
    requires ValidGame(g) && ks in {4, 60} && t in {ks - 2, ks + 2}
  {
    var step := if t < ks then -1 else 1;
    && !KingMovedFlag(g.castle, ks)
    && !RookMovedFlag(g.castle, ks, t)
    && !IsChecked(g, CurrKingPos(g), false)
    && g.board[ks + step].piece == Piece.None && !IsChecked(g, ks + step, false)
    && g.board[t].piece == Piece.None && !IsChecked(g, t, false)
    && (t < ks ==> g.board[ks - 3].piece == Piece.None)
  }

  /** The king start of the side to move. */
  function KingStart(g: Game): int {
    if g.turn == White then 4 else 60
  }

  /**
   Castling offers at most one target, one of the side to move's two, and
   only an open one; the queen side wins when both are open.
   */
  lemma CastlingRule(g: Game)
    requires ValidGame(g)
    ensures |CastlingMoves(g)| <= 1
    ensures forall t :: t in CastlingMoves(g) ==>
      (t == KingStart(g) - 2 || t == KingStart(g) + 2) && CastleOpen(g, KingStart(g), t)
    ensures CastleOpen(g, KingStart(g), KingStart(g) - 2) ==> CastlingMoves(g) == [KingStart(g) - 2]
    ensures !CastleOpen(g, KingStart(g), KingStart(g) - 2) && CastleOpen(g, KingStart(g), KingStart(g) + 2)
      ==> CastlingMoves(g) == [KingStart(g) + 2]
  {
    var ks := KingStart(g);
    var c := g.castle;
    var kp := CurrKingPos(g);
    if IsChecked(g, kp, false) {
      assert CastlingMoves(g) == [];
    } else {
      var kingMoved := KingMovedFlag(c, ks);
      var rookOne := RookMovedFlag(c, ks, ks - 2);
      var rookTwo := RookMovedFlag(c, ks, ks + 2);
      assert CastlingMoves(g) == SideCastling(g, ks, kingMoved, rookOne, rookTwo);
      assert CastleOpen(g, ks, ks - 2) <==>
        !kingMoved && !rookOne && PathClear(g, ks - 2, ks - 1) && g.board[ks - 3].piece == Piece.None;
      assert CastleOpen(g, ks, ks + 2) <==> !kingMoved && !rookTwo && PathClear(g, ks + 1, ks + 2);
    }
  }
}
