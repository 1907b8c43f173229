/**
 Pawn moves, `has_pawn_moved` and `get_pawn_possible_movements` of
 src/lib.rs:184-191 and 305-352: single and double pushes, diagonal captures,
 and the en-passant test, which looks only at the origin of the last move.
 */
module Pawn {
  import opened Geometry
  import opened Pieces

  /** A pawn off its starting rank (rank 2 for White, rank 7 for Black) has moved. */
  function HasPawnMoved(p: int, side: Side): (r: bool)
    requires 0 <= p < 64
    ensures side == White ==> (!r <==> Rank(p) == 1)
    ensures side != White ==> (!r <==> Rank(p) == 6)
  {
    if side == White then p < 8 || p > 15 else p < 48 || p > 55
  }

  /** The ranges as written: they also count squares 16 and 17 (White) and 47 and 56 (Black) as unmoved. */
  function HasPawnMovedAsWritten(p: int, side: Side): bool {
    if side == White then p < 8 || p > 17 else p < 47 || p > 56
  }

  /**
   A white pawn that has already stepped to a3 counts as unmoved and may
   push two squares again; so may a black pawn on h6.
   */
  lemma HasPawnMovedAsWrittenMissesThirdRank()
    ensures !HasPawnMovedAsWritten(16, White) && Rank(16) == 2
    ensures !HasPawnMovedAsWritten(47, Black) && Rank(47) == 5
  {
  }

  /** Targets of a white pawn on p, rule by rule. */
  function WhitePawnMoves(b: Board, p: int, lastOrigin: int): (r: seq<int>)
    requires |b| == 64 && 0 < p < 64
    ensures forall t :: t in r ==> 0 <= t < 64 && t in {p + 7, p + 8, p + 9, p + 16}
    ensures p >= 56 ==> r == []
    ensures p < 56 ==> (p + 8 in r <==> b[p + 8].piece == Piece.None)
    ensures p < 48 ==> (p + 16 in r <==>
      Rank(p) == 1 && b[p + 8].piece == Piece.None && b[p + 16].piece == Piece.None)
    ensures p < 56 ==> (p + 7 in r <==>
      (File(p) != 0 && b[p + 7].side == Black) || (p < 45 && b[p - 1].piece == Pawn && lastOrigin == p + 15))
    ensures p < 56 ==> (p + 9 in r <==>
      (File(p) != 7 && b[p + 9].side == Black) || (p < 47 && b[p + 1].piece == Pawn && lastOrigin == p + 17))
  {
    if p < 56 then
      var pushes := WhitePushes(b, p);
      var captures := WhiteCaptures(b, p, lastOrigin);
      assert forall t :: t in pushes + captures <==> t in pushes || t in captures;
      pushes + captures
    else []
  }

  /** Lines 310-315: one square ahead if empty, then two from the starting rank if that is empty too. */
  function WhitePushes(b: Board, p: int): (r: seq<int>)
    requires |b| == 64 && 0 < p < 56
    ensures forall t :: t in r ==> t == p + 8 || (t == p + 16 && t < 64)
    ensures p + 8 in r <==> b[p + 8].piece == Piece.None
    ensures p < 48 ==> (p + 16 in r <==>
      Rank(p) == 1 && b[p + 8].piece == Piece.None && b[p + 16].piece == Piece.None)
  {
    if b[p + 8].piece == Piece.None then
      [p + 8] + (if !HasPawnMoved(p, White) && b[p + 16].piece == Piece.None then [p + 16] else [])
    else []
  }

  /** Lines 316-328: diagonal captures of black pieces, and the en-passant squares. */
  function WhiteCaptures(b: Board, p: int, lastOrigin: int): (r: seq<int>)
    requires |b| == 64 && 0 < p < 56
    ensures forall t :: t in r ==> 0 <= t < 64 && (t == p + 7 || t == p + 9)
    ensures p + 7 in r <==>
      (File(p) != 0 && b[p + 7].side == Black) || (p < 45 && b[p - 1].piece == Pawn && lastOrigin == p + 15)
    ensures p + 9 in r <==>
      (File(p) != 7 && b[p + 9].side == Black) || (p < 47 && b[p + 1].piece == Pawn && lastOrigin == p + 17)
  {
    EdgeFiles(p);
    (if !LeftEdge(p) && b[p + 7].side == Black then [p + 7] else [])
    + (if !RightEdge(p) && p != 55 && b[p + 9].side == Black then [p + 9] else [])
    + (if p < 47 && b[p + 1].piece == Pawn && lastOrigin == p + 17 then [p + 9] else [])
    + (if p < 45 && b[p - 1].piece == Pawn && lastOrigin == p + 15 then [p + 7] else [])
  }

  /** Targets of a black pawn (or of a pawn of no side, which takes the same branch) on p. */
  function BlackPawnMoves(b: Board, p: int, lastOrigin: int): (r: seq<int>)
    requires |b| == 64 && 0 <= p < 63
    ensures forall t :: t in r ==> 0 <= t < 64 && t in {p - 7, p - 8, p - 9, p - 16}
    ensures p <= 7 ==> r == []
    ensures p > 7 ==> (p - 8 in r <==> b[p - 8].piece == Piece.None)
    ensures p > 15 ==> (p - 16 in r <==>
      Rank(p) == 6 && b[p - 8].piece == Piece.None && b[p - 16].piece == Piece.None)
    ensures p > 7 ==> (p - 7 in r <==>
      (File(p) != 7 && b[p - 7].side == White) || (p > 14 && b[p + 1].piece == Pawn && lastOrigin == p - 15))
    ensures p > 8 ==> (p - 9 in r <==>
      (File(p) != 0 && b[p - 9].side == White) || (p > 16 && b[p - 1].piece == Pawn && lastOrigin == p - 17))
  {
    if p > 7 then
      var pushes := BlackPushes(b, p);
      var captures := BlackCaptures(b, p, lastOrigin);
      assert forall t :: t in pushes + captures <==> t in pushes || t in captures;
      pushes + captures
    else []
  }

  /** Lines 332-337. */
  function BlackPushes(b: Board, p: int): (r: seq<int>)
    requires |b| == 64 && 7 < p < 63
    ensures forall t :: t in r ==> t == p - 8 || (t == p - 16 && 0 <= t)
    ensures p - 8 in r <==> b[p - 8].piece == Piece.None
    ensures p > 15 ==> (p - 16 in r <==>
      Rank(p) == 6 && b[p - 8].piece == Piece.None && b[p - 16].piece == Piece.None)
  {
    if b[p - 8].piece == Piece.None then
      [p - 8] + (if !HasPawnMoved(p, Black) && b[p - 16].piece == Piece.None then [p - 16] else [])
    else []
  }

  /** Lines 338-350. */
  function BlackCaptures(b: Board, p: int, lastOrigin: int): (r: seq<int>)
    requires |b| == 64 && 7 < p < 63
    ensures forall t :: t in r ==> 0 <= t < 64 && (t == p - 7 || t == p - 9)
    ensures p - 7 in r <==>
      (File(p) != 7 && b[p - 7].side == White) || (p > 14 && b[p + 1].piece == Pawn && lastOrigin == p - 15)
    ensures p > 8 ==> (p - 9 in r <==>
      (File(p) != 0 && b[p - 9].side == White) || (p > 16 && b[p - 1].piece == Pawn && lastOrigin == p - 17))
  {
    EdgeFiles(p);
    (if !RightEdge(p) && b[p - 7].side == White then [p - 7] else [])
    + (if !LeftEdge(p) && p != 8 && b[p - 9].side == White then [p - 9] else [])
    + (if p > 14 && b[p + 1].piece == Pawn && lastOrigin == p - 15 then [p - 7] else [])
    + (if p > 16 && b[p - 1].piece == Pawn && lastOrigin == p - 17 then [p - 9] else [])
  }

  /** The pawn dispatch of src/lib.rs:308-351: a white pawn only moves up the board, any other only down. */
  function PawnMoves(b: Board, p: int, side: Side, lastOrigin: int): (r: seq<int>)
    requires |b| == 64 && 0 <= p < 64
    requires side == White ==> p != 0
    requires side != White ==> p != 63
    ensures forall t :: t in r ==> 0 <= t < 64
    ensures side == White ==> forall t :: t in r ==> t > p
    ensures side != White ==> forall t :: t in r ==> t < p
  {
    if side == White then WhitePawnMoves(b, p, lastOrigin) else BlackPawnMoves(b, p, lastOrigin)
  }
}
