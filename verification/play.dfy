/**
 The public operations of `Game`: `get_position_possible_movements`,
 `do_move` with `do_move_internal` and `should_reset_fifty_move_rule`,
 `choose_promotion_piece` and `request_draw` (src/lib.rs:388-390, 472-484,
 535-592).  Square arguments outside 0..63, which the source would index
 with and panic on, give `IndexOutOfRange`.
 */
module Play {
  import opened Wrappers
  import opened Geometry
  import opened Pieces
  import opened State
  import opened Relocate
  import opened Legal
  import opened Legality
  import opened Rays
  import opened Classify

  datatype Error = IndexOutOfRange

  /** The game after a committed move and the tag `do_move` returns. */
  datatype Played = Played(game: Game, state: BoardState)

  /** `get_position_possible_movements`: the legal targets of the piece on p. */
  function LegalMoves(g: Game, p: int): (r: Result<seq<int>, Error>)
    requires ValidGame(g)
    ensures r.Success? <==> 0 <= p < 64
    ensures r.Success? ==> forall t :: t in r.value ==>
      0 <= t < 64 && SafeMove(g.board, p, t) && !IsChecked(Simulate(g, p, t), CurrKingPos(g), false)
  {
    if 0 <= p < 64 then
      LegalMovesSafe(g, p);
      Success(Moves(g, p, true))
    else Failure(IndexOutOfRange)
  }

  /** `should_reset_fifty_move_rule` on a board: a piece on the target or a pawn on the origin. */
  predicate ShouldResetFifty(b: Board, origin: int, target: int)
    requires |b| == 64 && 0 <= origin < 64 && 0 <= target < 64
  {
    b[target].piece != Piece.None || b[origin].piece == Pawn
  }

  /** The counter after a move: 50 after a capture or a pawn move, one less otherwise, judged on the board before the move. */
  function FiftyAfter(g: Game, origin: int, target: int): int
    requires ValidGame(g) && 0 <= origin < 64 && 0 <= target < 64
  {
    if ShouldResetFifty(g.board, origin, target) then 50 else g.fifty - 1
  }

  /** The counter as written: the test reads the board after the relocations. */
  function FiftyAfterAsWritten(g: Game, origin: int, target: int): int
    requires ValidGame(g) && 0 <= origin < 64 && 0 <= target < 64
    requires SafeMove(g.board, origin, target)
  {
    if ShouldResetFifty(ApplyMove(g, origin, target), origin, target) then 50 else g.fifty - 1
  }

  /**
   As written, any move of a real piece to another square finds that piece
   on the target afterwards and resets the counter, so a quiet knight move
   resets it too and the 50-move draw can never arise.
   */
  lemma FiftyAsWrittenAlwaysResets(g: Game, origin: int, target: int)
    requires ValidGame(g) && 0 <= origin < 64 && 0 <= target < 64 && origin != target
    requires g.board[origin].piece == Knight && g.board[target].piece == Piece.None
    ensures FiftyAfterAsWritten(g, origin, target) == 50
    ensures FiftyAfter(g, origin, target) == g.fifty - 1
  {
  }

  /**
   `do_move`: the pre-move board is appended to the history, the
   relocations are applied, the counter updated, the position classified
   while the mover is still `turn`, and only then the castling flags, the
   last move and the turn change.  The recorded king squares and the pending
   promotion square are left as they are.  Because the mover is still `turn`
   when the position is classified, a check or mate is about the mover's own
   recorded king square.
   */
  function DoMove(g: Game, origin: int, target: int): (r: Result<Played, Error>)
    requires ValidGame(g)
    requires 0 <= origin < 64 && 0 <= target < 64 ==> SafeMove(g.board, origin, target)
    ensures r.Success? <==> 0 <= origin < 64 && 0 <= target < 64
    ensures r.Success? ==> ValidGame(r.value.game)
    ensures r.Success? ==> var s := r.value.state;
      && (s.Checked? || s.CheckMated? <==> IsChecked(Simulate(g, origin, target), CurrKingPos(g), false))
      && (s.Checked? || s.CheckMated? ==> s.side == g.turn)
      && (s == DrawBy50Rule ==> r.value.game.fifty == 0)
  {
    if !(0 <= origin < 64 && 0 <= target < 64) then Failure(IndexOutOfRange)
    else
      var moved := g.(history := g.history + [g.board],
                      board := ApplyMove(g, origin, target),
                      fifty := FiftyAfter(g, origin, target));
      CheckedReadsOnlyPosition(moved, Simulate(g, origin, target), CurrKingPos(g));
      var state := GetBoardState(moved);
      var next := moved.(castle := UpdateCastle(g.castle, origin),
                         lastOrigin := origin,
                         lastTarget := target,
                         turn := Not(g.turn));
      Success(Played(next, state))
  }

  /**
   Commit bookkeeping: one snapshot appended (the board before the move),
   the last move recorded, the turn flipped, castling flags only switched on
   and only the origin's, the counter reset exactly on a capture or pawn move
   and otherwise one less, king squares and pending promotion untouched.
   */
  lemma DoMoveBookkeeping(g: Game, origin: int, target: int)
    requires ValidGame(g) && 0 <= origin < 64 && 0 <= target < 64
    requires SafeMove(g.board, origin, target)
    ensures var h := DoMove(g, origin, target).value.game;
      && h.history == g.history + [g.board]
      && |h.history| == |g.history| + 1
      && h.lastOrigin == origin && h.lastTarget == target
      && h.turn == Not(g.turn) && h.turn != g.turn
      && (forall k :: 0 <= k < 6 ==> (Flag(g.castle, k) ==> Flag(h.castle, k)))
      && (forall k :: 0 <= k < 6 && TrackedSquare[k] != origin ==> Flag(h.castle, k) == Flag(g.castle, k))
      && (g.board[target].piece != Piece.None || g.board[origin].piece == Pawn ==> h.fifty == 50)
      && (g.board[target].piece == Piece.None && g.board[origin].piece != Pawn ==> h.fifty == g.fifty - 1)
      && h.whiteKingPos == g.whiteKingPos && h.blackKingPos == g.blackKingPos
      && h.pendingPromotion == g.pendingPromotion
  {
  }

  /**
   The committed board: the origin is emptied, the moving piece (with its
   side) is on the target, an en-passant capture empties the captured pawn's
   square, a castling move also brings the rook next to the king, and no
   other square changes.
   */
  lemma DoMoveBoard(g: Game, origin: int, target: int)
    requires ValidGame(g) && 0 <= origin < 64 && 0 <= target < 64 && origin != target
    requires SafeMove(g.board, origin, target)
    ensures var b := DoMove(g, origin, target).value.game.board;
      && b[origin] == Empty
      && b[target] == g.board[origin]
      && (EnPassantReloc(g, origin, target).Some? ==> b[EnPassantReloc(g, origin, target).value.from] == Empty)
      && (CastlingRelocFor(g, origin, target).Some? ==>
            var m := CastlingRelocFor(g, origin, target).value;
            b[m.to] == g.board[m.from] && b[m.from] == Empty)
      && (forall i :: 0 <= i < 64 && i != origin && i != target && !Touched(g, origin, target, i) ==> b[i] == g.board[i])
  {
  }

  /**
   The position is classified before the turn flips, so the check test looks
   at the mover's own recorded king square, which the self-check filter has
   just shown to be safe: after a legal move `do_move` never reports a check
   or a mate.
   */
  lemma DoMoveNeverReportsCheck(g: Game, origin: int)
    requires ValidGame(g) && 0 <= origin < 64
    ensures forall t :: t in Moves(g, origin, true) ==>
      DoMove(g, origin, t).Success? && !DoMove(g, origin, t).value.state.Checked? && !DoMove(g, origin, t).value.state.CheckMated?
  {
    LegalMovesSafe(g, origin);
  }

  /** White king on e1, a white queen on q, the black king on h8, nothing else. */
  function QueenEnding(q: int): Board
    requires 0 <= q < 64 && q != 4 && q != 63
  {
    seq(64, i => if i == 4 then Square(King, White) else if i == q then Square(Queen, White)
                 else if i == 63 then Square(King, Black) else Empty)
  }

  /** With White to move and a lone black king on k, e1 is attacked only when it is one step from k. */
  lemma LoneBlackKingSparesE1(g: Game, k: int)
    requires ValidGame(g) && g.turn == White && 0 <= k < 64
    requires g.board[k] == Square(King, Black)
    requires forall i :: 0 <= i < 64 && i != k ==> g.board[i].side != Black
    requires forall d: Dir :: Step(d, k, 1).target != 4
    ensures !IsChecked(g, 4, false)
  {
    CheckedMeansAttacked(g, 4);
    if 4 in PatternMoves(g, k) {
      KingMovesOneStep(g.board, k, Black);
    }
  }

  /** The ending is a board the engine can work on, and h8 holds the only black piece. */
  lemma QueenEndingShape(q: int)
    requires 0 <= q < 64 && q != 4 && q != 63
    ensures ValidBoard(QueenEnding(q))
    ensures forall i :: 0 <= i < 64 && i != 63 ==> QueenEnding(q)[i].side != Black
    ensures forall i :: 0 <= i < 64 ==> QueenEnding(q)[i].piece != Pawn
  {
  }

  /** The black king's step from h8 to g8 leaves e1 unattacked on the clone. */
  lemma KingToG8Safe(h: Game)
    requires ValidGame(h) && h.board == QueenEnding(46) && h.turn == White
    ensures !IsChecked(Simulate(h, 63, 62), 4, false)
  {
    QueenEndingShape(46);
    assert EnPassantReloc(h, 63, 62).None?;
    assert CastlingRelocFor(h, 63, 62).None?;
    var clone := Simulate(h, 63, 62);
    assert clone.board == QueenEnding(46)[63 := Empty][62 := Square(King, Black)];
    LoneBlackKingSparesE1(clone, 62);
  }

  /**
   On the board after the queen reached g6, the queen covers every square
   next to h8 (g8, g7, h7) but not h8 itself: by the rules of chess Black,
   to move, is stalemated.
   */
  lemma QueenCoversKingSquares(h: Game)
    requires ValidGame(h) && h.board == QueenEnding(46)
    ensures 54 in PatternMoves(h, 46) && 55 in PatternMoves(h, 46) && 62 in PatternMoves(h, 46)
    ensures 63 !in PatternMoves(h, 46)
  {
    var b := h.board;
    assert b[46] == Square(Queen, White);
    assert PatternMoves(h, 46) == SlidingMoves(b, 46, White, 8);
    QueenReachesNeighbours(b);
    QueenMissesH8(b, Orthogonal);
    QueenMissesH8(b, Diagonal);
  }

  /** From g6 the queen's rays reach g7 and g8 (down the file) and h7 (the diagonal). */
  lemma QueenReachesNeighbours(b: Board)
    requires b == QueenEnding(46)
    ensures 54 in Cast(b, Orthogonal, 46, White, 0, 8) && 62 in Cast(b, Orthogonal, 46, White, 0, 8)
    ensures 55 in Cast(b, Diagonal, 46, White, 0, 8)
  {
    QueenReachesG7(b);
    QueenReachesG8(b);
    QueenReachesH7(b);
  }

  lemma QueenReachesG7(b: Board)
    requires b == QueenEnding(46)
    ensures 54 in Cast(b, Orthogonal, 46, White, 0, 8)
  {
    assert b[54] == Empty;
    assert Passable(b, Down, 46, White, 0);
    CastComplete(b, Orthogonal, 46, White, 0, 8, Down, 1, 54);
  }

  lemma QueenReachesG8(b: Board)
    requires b == QueenEnding(46)
    ensures 62 in Cast(b, Orthogonal, 46, White, 0, 8)
  {
    assert b[54] == Empty && b[62] == Empty;
    assert Passable(b, Down, 46, White, 0) && Passable(b, Down, 46, White, 1);
    assert Emits(b, Down, 46, White, 2);
    assert Reaches(b, Down, 46, White, 0, 2, 62) by {
      forall k | 0 <= k < 2
        ensures Passable(b, Down, 46, White, k)
      {
        assert k == 0 || k == 1;
      }
    }
    CastComplete(b, Orthogonal, 46, White, 0, 8, Down, 2, 62);
  }

  lemma QueenReachesH7(b: Board)
    requires b == QueenEnding(46)
    ensures 55 in Cast(b, Diagonal, 46, White, 0, 8)
  {
    assert b[55] == Empty;
    assert Passable(b, BottomLeft, 46, White, 0);
    CastComplete(b, Diagonal, 46, White, 0, 8, BottomLeft, 1, 55);
  }

  /** No ray from g6 ever lands on h8. */
  lemma QueenMissesH8(b: Board, dirs: seq<Dir>)
    requires |b| == 64
    ensures 63 !in Cast(b, dirs, 46, White, 0, 8)
  {
    if 63 in Cast(b, dirs, 46, White, 0, 8) {
      CastSound(b, dirs, 46, White, 0, 8, 63);
      var d, m :| d in dirs && m < 8 && Reaches(b, d, 46, White, 0, m, 63);
      G6RaysMissH8(d, m);
    }
  }

  lemma G6RaysMissH8(d: Dir, m: int)
    requires 0 <= m < 8
    ensures Step(d, 46, m).target != 63
  {
    match d
    case Right =>
    case Left =>
    case Up =>
    case Down =>
    case TopRight =>
    case TopLeft =>
    case BottomRight =>
    case BottomLeft =>
  }

  /**
   With White to move on the board after the queen reached g6, e1 is not
   attacked and the black king on h8 still has a move (to g8) that passes
   the filter, so the position is not read as a stalemate.
   */
  lemma QueenEndingNotStalemate(h: Game)
    requires ValidGame(h) && h.board == QueenEnding(46) && h.turn == White && h.whiteKingPos == 4
    ensures !IsChecked(h, 4, false)
    ensures 62 in Moves(h, 63, true)
    ensures !IsStalemate(h)
  {
    QueenEndingShape(46);
    LoneBlackKingSparesE1(h, 63);
    CastComplete(h.board, Orthogonal, 63, Black, 0, 2, Left, 1, 62);
    assert PatternMoves(h, 63) == SlidingMoves(h.board, 63, Black, 2);
    KingToG8Safe(h);
    LegalMovesSafe(h, 63);
  }

  /**
   White king e1, the queen goes from g5 to g6, black king h8.  Black, to
   move, is stalemated: g8, g7 and h7 are all among the queen's moves and h8
   is not.  Yet `do_move` reports `Default`: the stalemate test runs with
   White still to move and filters the black king's moves against White's
   recorded square e1, which a king on g8 does not attack.
   */
  lemma StalemateAfterMoveMissed()
    ensures var g := Game(QueenEnding(38), White, CastleInfo(true, true, true, true, true, true), 40, 4, 60, 62, 63, -1, []);
      && ValidGame(g)
      && DoMove(g, 38, 46).value.game.board == QueenEnding(46)
      && DoMove(g, 38, 46).value.game.turn == Black
      && DoMove(g, 38, 46).value.state == Default
    ensures var g := Game(QueenEnding(38), White, CastleInfo(true, true, true, true, true, true), 40, 4, 60, 62, 63, -1, []);
      var h := DoMove(g, 38, 46).value.game;
      && 54 in PatternMoves(h, 46) && 55 in PatternMoves(h, 46) && 62 in PatternMoves(h, 46)
      && 63 !in PatternMoves(h, 46)
  {
    var b := QueenEnding(38);
    var after := QueenEnding(46);
    QueenEndingShape(38);
    QueenEndingShape(46);
    var g := Game(b, White, CastleInfo(true, true, true, true, true, true), 40, 4, 60, 62, 63, -1, []);
    assert EnPassantReloc(g, 38, 46).None?;
    assert CastlingRelocFor(g, 38, 46).None?;
    assert ApplyMove(g, 38, 46) == after;
    var moved := g.(history := g.history + [g.board], board := after, fifty := FiftyAfter(g, 38, 46));
    assert moved.fifty == 39;
    QueenEndingNotStalemate(moved);
    assert !RankHasPawn(after, 0) && !RankHasPawn(after, 56);
    GetBoardStateMeaning(moved);
    QueenCoversKingSquares(DoMove(g, 38, 46).value.game);
  }

  /** Number of j < i with h[j] == h[i], counting j from 0 up to bound. */
  function MatchesBefore(h: seq<Board>, i: nat, bound: nat): nat
    requires bound <= i < |h|
  {
    if bound == 0 then 0
    else MatchesBefore(h, i, bound - 1) + (if h[bound - 1] == h[i] then 1 else 0)
  }

  /** Number of pairs j < i < n with equal snapshots. */
  function PairsBelow(h: seq<Board>, n: nat): nat
    requires n <= |h|
  {
    if n == 0 then 0 else PairsBelow(h, n - 1) + MatchesBefore(h, n - 1, n - 1)
  }

  /** `request_draw`: more than two equal pairs among the history snapshots. */
  method RequestDraw(g: Game) returns (draw: bool)
    ensures draw <==> PairsBelow(g.history, |g.history|) > 2
  {
    var h := g.history;
    var count := 0;
    var i := 0;
    while i < |h|
      invariant 0 <= i <= |h|
      invariant count == PairsBelow(h, i)
    {
      var j := 0;
      while j < i
        invariant 0 <= j <= i
        invariant count == PairsBelow(h, i) + MatchesBefore(h, i, j)
      {
        if h[i] == h[j] {
          count := count + 1;
        }
        j := j + 1;
      }
      i := i + 1;
    }
    draw := count > 2;
  }

  /** Appending a snapshot leaves the counts over the older snapshots unchanged. */
  lemma {:induction false} PairsBelowPrefix(h: seq<Board>, b: Board, n: nat)
    requires n <= |h|
    ensures PairsBelow(h + [b], n) == PairsBelow(h, n)
  {
    if n > 0 {
      PairsBelowPrefix(h, b, n - 1);
      MatchesBeforePrefix(h, b, n - 1, n - 1);
    }
  }

  lemma {:induction false} MatchesBeforePrefix(h: seq<Board>, b: Board, i: nat, bound: nat)
    requires bound <= i < |h|
    ensures MatchesBefore(h + [b], i, bound) == MatchesBefore(h, i, bound)
  {
    if bound > 0 {
      MatchesBeforePrefix(h, b, i, bound - 1);
    }
  }

  /** History only grows, so the pair count never drops: once a draw may be requested, it stays so. */
  lemma DrawStaysAvailable(g: Game, origin: int, target: int)
    requires ValidGame(g) && 0 <= origin < 64 && 0 <= target < 64
    requires SafeMove(g.board, origin, target)
    ensures var h := DoMove(g, origin, target).value.game.history;
      PairsBelow(g.history, |g.history|) <= PairsBelow(h, |h|)
  {
    var h := g.history + [g.board];
    PairsBelowPrefix(g.history, g.board, |g.history|);
    assert PairsBelow(h, |h|) == PairsBelow(h, |g.history|) + MatchesBefore(h, |g.history|, |g.history|);
  }

  /**
   The count is over pairs, not occurrences: three different positions seen
   twice each already exceed the threshold, although none occurred three
   times.
   */
  lemma PairsAreNotThreefold(a: Board, b: Board, c: Board)
    requires a != b && b != c && a != c
    ensures PairsBelow([a, a, b, b, c, c], 6) == 3
  {
    var h := [a, a, b, b, c, c];
    assert MatchesBefore(h, 1, 1) == 1;
    assert MatchesBefore(h, 2, 1) == 0;
    assert MatchesBefore(h, 2, 2) == 0;
    assert MatchesBefore(h, 3, 1) == 0;
    assert MatchesBefore(h, 3, 2) == 0;
    assert MatchesBefore(h, 3, 3) == 1;
    assert MatchesBefore(h, 4, 1) == 0;
    assert MatchesBefore(h, 4, 2) == 0;
    assert MatchesBefore(h, 4, 3) == 0;
    assert MatchesBefore(h, 4, 4) == 0;
    assert MatchesBefore(h, 5, 1) == 0;
    assert MatchesBefore(h, 5, 2) == 0;
    assert MatchesBefore(h, 5, 3) == 0;
    assert MatchesBefore(h, 5, 4) == 0;
    assert MatchesBefore(h, 5, 5) == 1;
    assert PairsBelow(h, 1) == 0;
    assert PairsBelow(h, 2) == 1;
    assert PairsBelow(h, 3) == 1;
    assert PairsBelow(h, 4) == 2;
    assert PairsBelow(h, 5) == 2;
    assert PairsBelow(h, 6) == 3;
  }

  /**
   `choose_promotion_piece`: puts the piece, owned by the side to move, on the
   pending square and classifies.  The source takes any piece; only the four
   promotion pieces are admitted here.
   */
  function ChoosePromotion(g: Game, piece: Piece): (r: Result<Played, Error>)
    requires ValidGame(g) && piece in {Queen, Rook, Bishop, Knight}
    ensures r.Success? <==> 0 <= g.pendingPromotion < 64
    ensures r.Success? ==> ValidGame(r.value.game)
    ensures r.Success? ==> var b := r.value.game.board;
      && b[g.pendingPromotion] == Square(piece, g.turn)
      && (forall i :: 0 <= i < 64 && i != g.pendingPromotion ==> b[i] == g.board[i])
  {
    var p := g.pendingPromotion;
    if !(0 <= p < 64) then Failure(IndexOutOfRange)
    else
      var h := g.(board := g.board[p := Square(piece, g.turn)]);
      Success(Played(h, GetBoardState(h)))
  }

  /**
   The pending square starts at -1 and no move changes it, so in every game
   played from the start choosing a promotion piece fails.
   */
  lemma PromotionNeverPending(g: Game, origin: int, target: int, piece: Piece)
    requires ValidGame(g) && 0 <= origin < 64 && 0 <= target < 64
    requires SafeMove(g.board, origin, target)
    requires g.pendingPromotion == -1 && piece in {Queen, Rook, Bishop, Knight}
    ensures Init().pendingPromotion == -1
    ensures DoMove(g, origin, target).value.game.pendingPromotion == -1
    ensures ChoosePromotion(g, piece).Failure?
  {
  }
}
