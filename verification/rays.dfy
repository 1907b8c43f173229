/**
 Ray casting for rooks, bishops, queens and kings: `push_pos_if_non_ally` and
 `get_directions_movements` of src/lib.rs:193-216.  The source keeps a vector
 of live direction callbacks, visits it from the back at every distance n,
 and removes a direction once it leaves the board, wraps, or meets a piece.
 */
module Rays {
  import opened Geometry
  import opened Pieces

  /** What one distance contributes: squares pushed, directions still live (in their order). */
  datatype LevelOut = LevelOut(out: seq<int>, kept: seq<Dir>)

  /** Direction d survives distance k: on the board, not wrapped, and (past the origin) an empty square. */
  predicate Passable(b: Board, d: Dir, p: int, side: Side, k: int)
    requires |b| == 64
  {
    var s := Step(d, p, k);
    !OutsideBoard(s.target) && !s.blocked
    && (k == 0 || (b[s.target].side != side && b[s.target].side == Side.None))
  }

  /** Direction d offers its square at distance m: a real step, on the board, not wrapped, no ally there. */
  predicate Emits(b: Board, d: Dir, p: int, side: Side, m: int)
    requires |b| == 64
  {
    var s := Step(d, p, m);
    m != 0 && !OutsideBoard(s.target) && !s.blocked && b[s.target].side != side
  }

  /** Square t is reached along d at distance m, every distance from n up to m having been passed. */
  predicate Reaches(b: Board, d: Dir, p: int, side: Side, n: int, m: int, t: int)
    requires |b| == 64
  {
    && n <= m
    && (forall k :: n <= k < m ==> Passable(b, d, p, side, k))
    && Emits(b, d, p, side, m)
    && Step(d, p, m).target == t
  }

  /** One pass of the inner loop at distance n over the live directions, last one first. */
  function Level(b: Board, dirs: seq<Dir>, p: int, side: Side, n: int): (r: LevelOut)
    requires |b| == 64
    ensures forall t :: t in r.out <==> exists d :: d in dirs && Emits(b, d, p, side, n) && Step(d, p, n).target == t
    ensures forall d :: d in r.kept <==> d in dirs && Passable(b, d, p, side, n)
    decreases |dirs|
  {
    if dirs == [] then LevelOut([], [])
    else
      var d := dirs[|dirs| - 1];
      var rest := Level(b, dirs[..|dirs| - 1], p, side, n);
      assert dirs == dirs[..|dirs| - 1] + [d];
      var s := Step(d, p, n);
      if OutsideBoard(s.target) || s.blocked then rest
      else if n == 0 then LevelOut(rest.out, rest.kept + [d])
      else if b[s.target].side == side then rest
      else if b[s.target].side == Side.None then LevelOut([s.target] + rest.out, rest.kept + [d])
      else LevelOut([s.target] + rest.out, rest.kept)
  }

  /** The outer loop `for n in 0..allowedLength`: every square offered lies on the board and holds no ally. */
  function Cast(b: Board, dirs: seq<Dir>, p: int, side: Side, n: nat, len: nat): (r: seq<int>)
    requires |b| == 64
    ensures forall t :: t in r ==> 0 <= t < 64 && b[t].side != side
    decreases len - n
  {
    if n >= len then []
    else
      var level := Level(b, dirs, p, side, n);
      level.out + Cast(b, level.kept, p, side, n + 1, len)
  }

  /**
   Cast offers exactly the squares some direction reaches before its ray is
   cut: every square strictly between the origin and the offered square is
   empty, so nothing past the first occupied square is ever offered, and the
   first occupied square is offered only when it holds no ally.
   */
  lemma CastReaches(b: Board, dirs: seq<Dir>, p: int, side: Side, n: nat, len: nat, t: int)
    requires |b| == 64
    ensures t in Cast(b, dirs, p, side, n, len) <==>
      exists d, m :: d in dirs && m < len && Reaches(b, d, p, side, n, m, t)
  {
    if t in Cast(b, dirs, p, side, n, len) {
      CastSound(b, dirs, p, side, n, len, t);
    }
    if exists d, m :: d in dirs && m < len && Reaches(b, d, p, side, n, m, t) {
      var d, m :| d in dirs && m < len && Reaches(b, d, p, side, n, m, t);
      CastComplete(b, dirs, p, side, n, len, d, m, t);
    }
  }

  /** Every square Cast offers is reached along one of the directions. */
  lemma {:induction false} CastSound(b: Board, dirs: seq<Dir>, p: int, side: Side, n: nat, len: nat, t: int)
    requires |b| == 64
    requires t in Cast(b, dirs, p, side, n, len)
    ensures exists d, m :: d in dirs && m < len && Reaches(b, d, p, side, n, m, t)
    decreases len - n
  {
    var level := Level(b, dirs, p, side, n);
    assert Cast(b, dirs, p, side, n, len) == level.out + Cast(b, level.kept, p, side, n + 1, len);
    if t in level.out {
      var d :| d in dirs && Emits(b, d, p, side, n) && Step(d, p, n).target == t;
      assert Reaches(b, d, p, side, n, n, t);
    } else {
      CastSound(b, level.kept, p, side, n + 1, len, t);
      var d, m :| d in level.kept && m < len && Reaches(b, d, p, side, n + 1, m, t);
      ReachesExtend(b, d, p, side, n, m, t);
    }
  }

  /** A direction passable at n that reaches t from n + 1 reaches it from n. */
  lemma ReachesExtend(b: Board, d: Dir, p: int, side: Side, n: int, m: int, t: int)
    requires |b| == 64
    requires Passable(b, d, p, side, n) && Reaches(b, d, p, side, n + 1, m, t)
    ensures Reaches(b, d, p, side, n, m, t)
  {
  }

  /** Every square reached along a direction within the length is offered by Cast. */
  lemma {:induction false} CastComplete(b: Board, dirs: seq<Dir>, p: int, side: Side, n: nat, len: nat, d: Dir, m: int, t: int)
    requires |b| == 64
    requires d in dirs && m < len && Reaches(b, d, p, side, n, m, t)
    ensures t in Cast(b, dirs, p, side, n, len)
    decreases len - n
  {
    var level := Level(b, dirs, p, side, n);
    assert Cast(b, dirs, p, side, n, len) == level.out + Cast(b, level.kept, p, side, n + 1, len);
    if m == n {
      assert Emits(b, d, p, side, n) && Step(d, p, n).target == t;
      assert t in level.out;
    } else {
      assert Passable(b, d, p, side, n);
      assert d in level.kept;
      assert Reaches(b, d, p, side, n + 1, m, t);
      CastComplete(b, level.kept, p, side, n + 1, len, d, m, t);
    }
  }
}
