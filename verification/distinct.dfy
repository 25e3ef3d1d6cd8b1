/** No two moves of `getAllPossibleMoves` share both their squares, hence no
    two share an id. This is what lets `getValidMoves` remove `moves[i]` with
    `list.remove`, which drops the FIRST element equal to it: the first such
    element is `moves[i]` itself. */
module Distinctness {
  import opened Chessboard
  import opened Moves
  import opened Generation
  import opened GenerationFacts

  /** No two moves of `ms` go to the same square. */
  ghost predicate DistinctEnds(ms: seq<Move>) {
    forall i, j :: 0 <= i < j < |ms| ==> ms[i].end != ms[j].end
  }

  /** No two moves of `ms` have the same start and the same end. */
  ghost predicate DistinctSquares(ms: seq<Move>) {
    forall i, j :: 0 <= i < j < |ms| ==> ms[i].start != ms[j].start || ms[i].end != ms[j].end
  }

  /** No two moves of `ms` are equal in the sense of `Move.__eq__`. */
  ghost predicate DistinctIds(ms: seq<Move>) {
    forall i, j :: 0 <= i < j < |ms| ==> Id(ms[i]) != Id(ms[j])
  }

  ghost predicate NoDuplicates<T>(xs: seq<T>) {
    forall i, j :: 0 <= i < j < |xs| ==> xs[i] != xs[j]
  }

  lemma DistinctEndsAppend(a: seq<Move>, c: seq<Move>)
    requires DistinctEnds(a) && DistinctEnds(c)
    requires forall x, y :: x in a && y in c ==> x.end != y.end
    ensures DistinctEnds(a + c)
  {
    var ac := a + c;
    forall i, j | 0 <= i < j < |ac|
      ensures ac[i].end != ac[j].end
    {
      if j < |a| {
        assert ac[i] == a[i] && ac[j] == a[j];
      } else if i >= |a| {
        assert ac[i] == c[i - |a|] && ac[j] == c[j - |a|];
      } else {
        assert ac[i] in a && ac[j] in c;
      }
    }
  }

  lemma DistinctSquaresAppend(a: seq<Move>, c: seq<Move>)
    requires DistinctSquares(a) && DistinctSquares(c)
    requires forall x, y :: x in a && y in c ==> x.start != y.start || x.end != y.end
    ensures DistinctSquares(a + c)
  {
    var ac := a + c;
    forall i, j | 0 <= i < j < |ac|
      ensures ac[i].start != ac[j].start || ac[i].end != ac[j].end
    {
      if j < |a| {
        assert ac[i] == a[i] && ac[j] == a[j];
      } else if i >= |a| {
        assert ac[i] == c[i - |a|] && ac[j] == c[j - |a|];
      } else {
        assert ac[i] in a && ac[j] in c;
      }
    }
  }

  /** Two steps from one square along unit directions meet only when they
      are the same number of steps in the same direction. */
  lemma AlongInjective(from: Square, d1: Dir, k1: int, d2: Dir, k2: int)
    requires UnitDir(d1) && UnitDir(d2) && 1 <= k1 && 1 <= k2
    ensures Along(from, d1, k1) == Along(from, d2, k2) <==> d1 == d2 && k1 == k2
  {
  }

  lemma RayDistinct(b: Board, from: Square, color: Color, d: Dir)
    requires OnBoard(from) && UnitDir(d)
    ensures DistinctEnds(Ray(b, from, color, d, 1))
    ensures forall m :: m in Ray(b, from, color, d, 1) ==> exists k :: 1 <= k && m.end == Along(from, d, k)
  {
    var ms := Ray(b, from, color, d, 1);
    RayShape(b, from, color, d, 1);
    forall i, j | 0 <= i < j < |ms|
      ensures ms[i].end != ms[j].end
    {
      AlongInjective(from, d, 1 + i, d, 1 + j);
    }
    forall m | m in ms
      ensures exists k :: 1 <= k && m.end == Along(from, d, k)
    {
      var i :| 0 <= i < |ms| && ms[i] == m;
      assert m.end == Along(from, d, 1 + i);
    }
  }

  lemma {:induction false} SlidesDistinct(b: Board, from: Square, color: Color, dirs: seq<Dir>)
    requires OnBoard(from) && AllUnit(dirs) && NoDuplicates(dirs)
    ensures DistinctEnds(Slides(b, from, color, dirs))
    ensures forall m :: m in Slides(b, from, color, dirs) ==>
      exists i, k :: 0 <= i < |dirs| && 1 <= k && m.end == Along(from, dirs[i], k)
  {
    if dirs != [] {
      var first := Ray(b, from, color, dirs[0], 1);
      var rest := Slides(b, from, color, dirs[1..]);
      RayDistinct(b, from, color, dirs[0]);
      SlidesDistinct(b, from, color, dirs[1..]);
      forall x, y | x in first && y in rest
        ensures x.end != y.end
      {
        var k1 :| 1 <= k1 && x.end == Along(from, dirs[0], k1);
        var i, k2 :| 0 <= i < |dirs[1..]| && 1 <= k2 && y.end == Along(from, dirs[1..][i], k2);
        assert dirs[1..][i] == dirs[i + 1] != dirs[0];
        AlongInjective(from, dirs[0], k1, dirs[1..][i], k2);
      }
      DistinctEndsAppend(first, rest);
      forall m | m in Slides(b, from, color, dirs)
        ensures exists i, k :: 0 <= i < |dirs| && 1 <= k && m.end == Along(from, dirs[i], k)
      {
        if m in first {
          var k :| 1 <= k && m.end == Along(from, dirs[0], k);
          assert 0 <= 0 < |dirs| && m.end == Along(from, dirs[0], k);
        } else {
          assert m in rest;
          var i, k :| 0 <= i < |dirs[1..]| && 1 <= k && m.end == Along(from, dirs[1..][i], k);
          assert dirs[1..][i] == dirs[i + 1];
        }
      }
    }
  }

  lemma {:induction false} StepsDistinct(b: Board, from: Square, color: Color, offs: seq<Dir>)
    requires OnBoard(from) && NoDuplicates(offs)
    ensures DistinctEnds(Steps(b, from, color, offs))
  {
    if offs != [] {
      var t := Shift(from, offs[0]);
      var first := if OnBoard(t) && Enterable(At(b, t), color) then [Build(from, t, b)] else [];
      var rest := Steps(b, from, color, offs[1..]);
      StepsDistinct(b, from, color, offs[1..]);
      StepsShape(b, from, color, offs[1..]);
      forall x, y | x in first && y in rest
        ensures x.end != y.end
      {
        assert y.end in Targets(rest);
        var i :| 0 <= i < |offs[1..]| && y.end == Shift(from, offs[1..][i]);
        assert offs[1..][i] == offs[i + 1];
      }
      DistinctEndsAppend(first, rest);
    }
  }

  lemma PawnDistinct(b: Board, whiteToMove: bool, from: Square)
    requires OnBoard(from)
    ensures DistinctEnds(PawnMoves(b, whiteToMove, from))
  {
  }

  lemma MovesAtDistinct(b: Board, whiteToMove: bool, sq: Square)
    requires OnBoard(sq)
    ensures DistinctEnds(MovesAt(b, whiteToMove, sq))
  {
    var p := At(b, sq);
    if Owned(p, SideOf(whiteToMove)) {
      match p.kind
      case Pawn => PawnDistinct(b, whiteToMove, sq);
      case Rook => SlidesDistinct(b, sq, p.color, RookDirs);
      case Knight => StepsDistinct(b, sq, p.color, KnightJumps);
      case Bishop => SlidesDistinct(b, sq, p.color, BishopDirs);
      case Queen => SlidesDistinct(b, sq, p.color, QueenDirs);
      case King => StepsDistinct(b, sq, p.color, KingSteps);
    }
  }

  /** Moves leaving one square with distinct ends have distinct squares. */
  lemma OneStartDistinct(ms: seq<Move>, sq: Square)
    requires DistinctEnds(ms)
    requires forall m :: m in ms ==> m.start == sq
    ensures DistinctSquares(ms)
  {
  }

  lemma {:induction false} ScanRowDistinct(b: Board, whiteToMove: bool, r: int, c: int)
    requires 0 <= r < 8 && 0 <= c <= 8
    ensures DistinctSquares(ScanRow(b, whiteToMove, r, c))
    decreases 8 - c
  {
    if c < 8 {
      var here := MovesAt(b, whiteToMove, Sq(r, c));
      MovesAtSound(b, whiteToMove, Sq(r, c));
      MovesAtDistinct(b, whiteToMove, Sq(r, c));
      OneStartDistinct(here, Sq(r, c));
      ScanRowDistinct(b, whiteToMove, r, c + 1);
      ScanRowMembers(b, whiteToMove, r, c + 1);
      DistinctSquaresAppend(here, ScanRow(b, whiteToMove, r, c + 1));
    }
  }

  lemma {:induction false} ScanRowsDistinct(b: Board, whiteToMove: bool, r: int)
    requires 0 <= r <= 8
    ensures DistinctSquares(ScanRows(b, whiteToMove, r))
    decreases 8 - r
  {
    if r < 8 {
      ScanRowDistinct(b, whiteToMove, r, 0);
      ScanRowMembers(b, whiteToMove, r, 0);
      ScanRowsDistinct(b, whiteToMove, r + 1);
      ScanRowsMembers(b, whiteToMove, r + 1);
      DistinctSquaresAppend(ScanRow(b, whiteToMove, r, 0), ScanRows(b, whiteToMove, r + 1));
    }
  }

  /** No two moves of `getAllPossibleMoves` are equal under `Move.__eq__`. */
  lemma PseudoMovesDistinctIds(b: Board, whiteToMove: bool)
    ensures DistinctIds(PseudoMoves(b, whiteToMove))
  {
    var ms := PseudoMoves(b, whiteToMove);
    ScanRowsDistinct(b, whiteToMove, 0);
    PseudoMovesExact(b, whiteToMove);
    forall i, j | 0 <= i < j < |ms|
      ensures Id(ms[i]) != Id(ms[j])
    {
      assert ms[i] in ms && ms[j] in ms;
      SameMoveIffSameSquares(ms[i], ms[j]);
    }
  }
}
