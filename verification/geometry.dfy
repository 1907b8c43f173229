/**
 Square arithmetic of the 8x8 board: squares are numbered 0 (a1) to 63 (h8),
 rank-major.  Models the bound and file-edge predicates and the eight direction
 steppers of src/lib.rs:79-123, repeated in src/boardutils.rs:75-123.
 */
module Geometry {

  /** Rust's `a % 8` on a signed integer: the remainder takes the sign of the dividend. */
  function RustRem8(a: int): int {
    if a >= 0 then a % 8 else -((-a) % 8)
  }

  /** Rust's remainder has the dividend's sign and is zero exactly when Dafny's Euclidean one is. */
  lemma RustRem8Sign(a: int)
    ensures -8 < RustRem8(a) < 8
    ensures a >= 0 ==> 0 <= RustRem8(a) && RustRem8(a) == a % 8
    ensures a < 0 ==> RustRem8(a) <= 0
    ensures RustRem8(a) == 0 <==> a % 8 == 0
  {
  }

  predicate OutsideBoard(p: int) {
    p > 63 || p < 0
  }

  predicate RightEdge(p: int) {
    RustRem8(p + 1) == 0
  }

  predicate LeftEdge(p: int) {
    RustRem8(p) == 0
  }

  function File(p: int): int { p % 8 }

  function Rank(p: int): int { p / 8 }

  function Abs(x: int): nat { if x < 0 then -x else x }

  /** The edge predicates pick out the h-file and the a-file of the board. */
  lemma EdgeFiles(p: int)
    requires 0 <= p < 64
    ensures OutsideBoard(p) == false
    ensures RightEdge(p) <==> File(p) == 7
    ensures LeftEdge(p) <==> File(p) == 0
  {
  }

  /**
   The eight rays, named as the source names its callbacks: `Up` and "top"
   go towards rank 1 (smaller squares); `Right` goes towards the h-file, but
   the diagonal "right" (`TopRight`, `BottomRight`) goes towards the a-file.
   */
  datatype Dir = Right | Left | Up | Down | TopRight | TopLeft | BottomRight | BottomLeft {
    predicate IsDiagonal() {
      TopRight? || TopLeft? || BottomRight? || BottomLeft?
    }
  }

  const Orthogonal: seq<Dir> := [Right, Left, Up, Down]
  const Diagonal: seq<Dir> := [TopRight, TopLeft, BottomRight, BottomLeft]

  /** The square `n` steps away, and whether that step wrapped around a file edge. */
  datatype Stepped = Stepped(target: int, blocked: bool)

  /**
   The stepper the engine uses.  The diagonal cases report a wrap only for
   n != 0, like the orthogonal callbacks do; everywhere else it agrees with
   the callbacks as written.
   */
  function Step(d: Dir, p: int, n: int): (r: Stepped)
    ensures n != 0 || !d.IsDiagonal() ==> r == StepAsWritten(d, p, n)
    ensures r.target == StepAsWritten(d, p, n).target
  {
    match d
    case Right => Stepped(p + n, RightEdge(p + n - 1) && n != 0)
    case Left => Stepped(p - n, LeftEdge(p - n + 1) && n != 0)
    case Up => Stepped(p - n * 8, OutsideBoard(p - n * 8))
    case Down => Stepped(p + n * 8, OutsideBoard(p + n * 8))
    case TopRight => Stepped(p - n * 9, RightEdge(p - n * 9) && n != 0)
    case TopLeft => Stepped(p - n * 7, LeftEdge(p - n * 7) && n != 0)
    case BottomRight => Stepped(p + n * 7, RightEdge(p + n * 7) && n != 0)
    case BottomLeft => Stepped(p + n * 9, LeftEdge(p + n * 9) && n != 0)
  }

  /** The eight callbacks exactly as written: the diagonal ones test the edge even for n == 0. */
  function StepAsWritten(d: Dir, p: int, n: int): Stepped {
    match d
    case Right => Stepped(p + n, RightEdge(p + n - 1) && n != 0)
    case Left => Stepped(p - n, LeftEdge(p - n + 1) && n != 0)
    case Up => Stepped(p - n * 8, OutsideBoard(p - n * 8))
    case Down => Stepped(p + n * 8, OutsideBoard(p + n * 8))
    case TopRight => Stepped(p - n * 9, RightEdge(p - n * 9))
    case TopLeft => Stepped(p - n * 7, LeftEdge(p - n * 7))
    case BottomRight => Stepped(p + n * 7, RightEdge(p + n * 7))
    case BottomLeft => Stepped(p + n * 9, LeftEdge(p + n * 9))
  }

  /** With n = 0 every stepper returns the origin, unblocked, for any square of the board. */
  lemma StepZero(d: Dir, p: int)
    requires 0 <= p < 64
    ensures Step(d, p, 0) == Stepped(p, false)
  {
  }

  /** One step right or left is unblocked exactly when it stays on the same rank, one file over. */
  lemma StepOneSideways(p: int)
    requires 0 <= p < 64
    ensures !Step(Right, p, 1).blocked <==> (Step(Right, p, 1).target < 64 && Rank(p + 1) == Rank(p))
    ensures !Step(Right, p, 1).blocked ==> File(p + 1) == File(p) + 1
    ensures !Step(Left, p, 1).blocked <==> (0 <= Step(Left, p, 1).target && Rank(p - 1) == Rank(p))
    ensures !Step(Left, p, 1).blocked ==> File(p - 1) == File(p) - 1
  {
  }

  /** Up and down keep the file, move n ranks, and are blocked exactly when they leave the board. */
  lemma StepVertical(p: int, n: nat)
    requires 0 <= p < 64
    ensures var s := Step(Up, p, n);
      (!s.blocked <==> n <= Rank(p)) && (!s.blocked ==> File(s.target) == File(p) && Rank(s.target) == Rank(p) - n)
    ensures var s := Step(Down, p, n);
      (!s.blocked <==> Rank(p) + n <= 7) && (!s.blocked ==> File(s.target) == File(p) && Rank(s.target) == Rank(p) + n)
  {
  }

  /** Diagonal neighbours: one rank and one file away. */
  predicate DiagonalNeighbour(p: int, q: int) {
    0 <= q < 64 && Abs(Rank(q) - Rank(p)) == 1 && Abs(File(q) - File(p)) == 1
  }

  /** One diagonal step that stays on the board unblocked lands on a diagonal neighbour. */
  lemma StepOneDiagonal(p: int)
    requires 0 <= p < 64
    ensures forall d: Dir ::
      (d.IsDiagonal() && !OutsideBoard(Step(d, p, 1).target) && !Step(d, p, 1).blocked)
      ==> DiagonalNeighbour(p, Step(d, p, 1).target)
  {
  }

  /** Every diagonal neighbour is reached by one unblocked diagonal step. */
  lemma DiagonalNeighbourReached(p: int)
    requires 0 <= p < 64
    ensures forall q :: DiagonalNeighbour(p, q) ==>
      exists d: Dir :: d.IsDiagonal() && Step(d, p, 1) == Stepped(q, false)
  {
    forall q | DiagonalNeighbour(p, q)
      ensures exists d: Dir :: d.IsDiagonal() && Step(d, p, 1) == Stepped(q, false)
    {
      var dr := Rank(q) - Rank(p);
      var df := File(q) - File(p);
      assert q == p + 8 * dr + df;
      if dr == -1 && df == -1 {
        assert Step(TopRight, p, 1) == Stepped(q, false);
      } else if dr == -1 && df == 1 {
        assert Step(TopLeft, p, 1) == Stepped(q, false);
      } else if dr == 1 && df == -1 {
        assert Step(BottomRight, p, 1) == Stepped(q, false);
      } else {
        assert Step(BottomLeft, p, 1) == Stepped(q, false);
      }
    }
  }

  /**
   As written, a diagonal callback at n = 0 reports "blocked" when the origin
   itself is on the edge it tests, so the whole ray is dropped before its
   first step: a piece on the h-file loses both rays towards the g-file, a
   piece on the a-file both rays towards the b-file, although those
   neighbours exist (g2 is a diagonal neighbour of h1).
   */
  lemma StepAsWrittenDropsEdgeRays(p: int)
    requires 0 <= p < 64
    ensures File(p) == 7 ==> StepAsWritten(BottomRight, p, 0).blocked && StepAsWritten(TopRight, p, 0).blocked
    ensures File(p) == 0 ==> StepAsWritten(BottomLeft, p, 0).blocked && StepAsWritten(TopLeft, p, 0).blocked
  {
  }

  /** For on-board origins and n < 8 every stepper target fits Rust's i8. */
  lemma StepFitsI8(d: Dir, p: int, n: int)
    requires 0 <= p < 64 && 0 <= n < 8
    ensures -128 <= Step(d, p, n).target <= 127
  {
  }
}
