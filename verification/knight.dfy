/**
 Knight moves, `get_knight_possible_movements` of src/lib.rs:283-299.  The
 engine uses KnightCandidates, whose guards pair each offset with the file
 test it needs; KnightCandidatesAsWritten lists the squares the source code
 would visit, including the ones its guards let through by mistake.
 */
module Knight {
  import opened Geometry
  import opened Pieces

  /** A knight's jump: two ranks and one file, or one rank and two files. */
  predicate KnightJump(p: int, t: int) {
    var dr := Abs(Rank(t) - Rank(p));
    var df := Abs(File(t) - File(p));
    (dr == 2 && df == 1) || (dr == 1 && df == 2)
  }

  function KnightCandidates(p: int): (r: seq<int>)
    requires 0 <= p < 64
    ensures forall t :: t in r ==> 0 <= t < 64 && KnightJump(p, t)
  {
    var r := EdgeGuardedJumps(p) + FileGuardedJumps(p);
    assert forall t :: t in r ==> t in EdgeGuardedJumps(p) || t in FileGuardedJumps(p);
    r
  }

  /** The jumps one file over, guarded by the edge tests of src/lib.rs:284-292. */
  function EdgeGuardedJumps(p: int): (r: seq<int>)
    requires 0 <= p < 64
    ensures forall t :: t in r ==> 0 <= t < 64 && KnightJump(p, t)
  {
    EdgeFiles(p);
    (if !LeftEdge(p) then
       (if p >= 17 then [p - 17] else []) + (if p <= 48 then [p + 15] else [])
     else [])
    + (if !RightEdge(p) then
         (if p >= 15 then [p - 15] else []) + (if p <= 46 then [p + 17] else [])
       else [])
  }

  /** The jumps two files over, guarded by `position % 8` as in src/lib.rs:294-298. */
  function FileGuardedJumps(p: int): (r: seq<int>)
    requires 0 <= p < 64
    ensures forall t :: t in r ==> 0 <= t < 64 && KnightJump(p, t)
  {
    (if p >= 10 && p % 8 >= 2 then [p - 10] else [])
    + (if p <= 53 && p % 8 <= 5 then [p + 10] else [])
    + (if p >= 6 && p % 8 <= 5 then [p - 6] else [])
    + (if p <= 57 && p % 8 >= 2 then [p + 6] else [])
  }

  /** Every knight jump that stays on the board is a candidate. */
  lemma KnightCandidatesComplete(p: int, t: int)
    requires 0 <= p < 64 && 0 <= t < 64 && KnightJump(p, t)
    ensures t in KnightCandidates(p)
  {
    EdgeFiles(p);
    assert KnightCandidates(p) == EdgeGuardedJumps(p) + FileGuardedJumps(p);
    var dr := Rank(t) - Rank(p);
    var df := File(t) - File(p);
    assert t - p == 8 * dr + df;
  }

  /** The squares pushed: candidates not held by the knight's own side, in candidate order. */
  function KnightMoves(b: Board, p: int, side: Side): (r: seq<int>)
    requires |b| == 64 && 0 <= p < 64
    ensures forall t :: t in r <==> 0 <= t < 64 && KnightJump(p, t) && b[t].side != side
  {
    var cands := KnightCandidates(p);
    forall t | 0 <= t < 64 && KnightJump(p, t) ensures t in cands {
      KnightCandidatesComplete(p, t);
    }
    NonAlly(b, cands, side)
  }

  /** `push_pos_if_non_ally` applied to each candidate in turn; its "blocked" answer is unused here. */
  function NonAlly(b: Board, cands: seq<int>, side: Side): (r: seq<int>)
    requires |b| == 64 && forall t :: t in cands ==> 0 <= t < 64
    ensures forall t :: t in r <==> t in cands && b[t].side != side
  {
    if cands == [] then []
    else
      assert cands[0] in cands;
      assert forall t :: t in cands[1..] ==> t in cands;
      (if b[cands[0]].side != side then [cands[0]] else []) + NonAlly(b, cands[1..], side)
  }

  /** The candidate squares exactly as src/lib.rs:284-298 computes them. */
  function KnightCandidatesAsWritten(p: int): seq<int>
    requires 0 <= p < 64
  {
    (if !LeftEdge(p) then
       (if p >= 17 then [p - 17] else []) + (if p <= 46 then [p + 17] else [])
     else [])
    + (if !RightEdge(p) then
         (if p >= 15 then [p - 17] else []) + (if p <= 48 then [p + 15] else [])
       else [])
    + (if p >= 10 && p % 8 >= 2 then [p - 10] else [])
    + (if p <= 53 && p % 8 <= 6 then [p + 10] else [])
    + (if p >= 6 && p % 8 <= 6 then [p - 6] else [])
    + (if p <= 57 && p % 8 >= 2 then [p + 6] else [])
  }

  /** Line 290: a knight on a3 (square 16) makes the source index square -1. */
  lemma KnightAsWrittenIndexesMinusOne()
    ensures -1 in KnightCandidatesAsWritten(16)
  {
    assert !RightEdge(16);
  }

  /** Lines 286 and 291: the +17 and +15 jumps sit under the wrong edge test and wrap around the board. */
  lemma KnightAsWrittenWrapsAcrossEdge()
    ensures 24 in KnightCandidatesAsWritten(7) && !KnightJump(7, 24)
    ensures 23 in KnightCandidatesAsWritten(8) && !KnightJump(8, 23)
  {
    assert !LeftEdge(7) && !RightEdge(8);
  }

  /** Lines 295 and 297: `% 8 <= 6` lets a knight on the g-file jump two files right, onto the a-file. */
  lemma KnightAsWrittenWrapsFromGFile()
    ensures 16 in KnightCandidatesAsWritten(6) && !KnightJump(6, 16)
    ensures 8 in KnightCandidatesAsWritten(14) && !KnightJump(14, 8)
  {
  }
}
