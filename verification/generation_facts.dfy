/** What the generators produce: every move is read off the board, leaves an
    on-board square of the side to move and lands on an empty or opponent
    square; rays are runs of empty squares closed by at most one capture;
    knight, king and pawn targets are exactly the ones their rules allow; the
    scan visits the squares in row-major order. */
module GenerationFacts {
  import opened Chessboard
  import opened Moves
  import opened Generation

  /** A move a generator for a piece of colour `color` standing on `from` may
      emit: built from the board, leaving `from`, inside the id range, and
      landing on an empty or opponent square. */
  predicate Sound(b: Board, color: Color, from: Square, m: Move) {
    m.start == from && BuiltFrom(m, b) && IdRange(m) && Enterable(At(b, m.end), color)
  }

  /** `ms` is the ray from `from` in direction `d` read from step `k` on:
      the squares `k`, `k+1`, ... in order, all empty but the last, the last
      empty or an opponent's, and, when the last is empty or there is none, the
      square after it is off the board or holds an own piece. */
  ghost predicate IsRay(b: Board, from: Square, color: Color, d: Dir, k: int, ms: seq<Move>)
    requires OnBoard(from)
  {
    && (forall i :: 0 <= i < |ms| ==>
          ms[i].end == Along(from, d, k + i) && OnBoard(ms[i].end) && ms[i] == Build(from, ms[i].end, b))
    && (forall i :: 0 <= i < |ms| - 1 ==> ms[i].pieceCaptured == Empty)
    && (|ms| > 0 ==> Enterable(ms[|ms| - 1].pieceCaptured, color))
    && ((|ms| == 0 || ms[|ms| - 1].pieceCaptured == Empty) ==>
          var next := Along(from, d, k + |ms|);
          !OnBoard(next) || Owned(At(b, next), color))
  }

  lemma {:induction false} RayShape(b: Board, from: Square, color: Color, d: Dir, k: int)
    requires OnBoard(from) && UnitDir(d) && 1 <= k
    ensures IsRay(b, from, color, d, k, Ray(b, from, color, d, k))
    decreases 8 - k
  {
    var t := Along(from, d, k);
    if OnBoard(t) && At(b, t) == Empty {
      AlongBound(from, d, k);
      var rest := Ray(b, from, color, d, k + 1);
      RayShape(b, from, color, d, k + 1);
      assert Ray(b, from, color, d, k) == [Build(from, t, b)] + rest;
      RayExtend(b, from, color, d, k, rest);
    } else if OnBoard(t) && Owned(At(b, t), Opponent(color)) {
      assert Ray(b, from, color, d, k) == [Build(from, t, b)];
      RayCaptures(b, from, color, d, k);
    } else {
      assert Ray(b, from, color, d, k) == [];
      assert !OnBoard(t) || Owned(At(b, t), color);
      RayStops(b, from, color, d, k);
    }
  }

  /** A ray whose square `k` is off the board or holds an own piece is
      empty. */
  lemma RayStops(b: Board, from: Square, color: Color, d: Dir, k: int)
    requires OnBoard(from) && UnitDir(d) && 1 <= k
    requires !OnBoard(Along(from, d, k)) || Owned(At(b, Along(from, d, k)), color)
    ensures IsRay(b, from, color, d, k, [])
  {
    assert Along(from, d, k + 0) == Along(from, d, k);
  }

  /** A ray whose square `k` holds an opponent's piece is that one capture. */
  lemma RayCaptures(b: Board, from: Square, color: Color, d: Dir, k: int)
    requires OnBoard(from) && UnitDir(d) && 1 <= k
    requires OnBoard(Along(from, d, k)) && Owned(At(b, Along(from, d, k)), Opponent(color))
    ensures IsRay(b, from, color, d, k, [Build(from, Along(from, d, k), b)])
  {
    assert Along(from, d, k + 0) == Along(from, d, k);
  }

  /** An empty square in front of a ray read from step `k + 1` extends it to
      a ray read from step `k`. */
  lemma RayExtend(b: Board, from: Square, color: Color, d: Dir, k: int, rest: seq<Move>)
    requires OnBoard(from) && 1 <= k
    requires OnBoard(Along(from, d, k)) && At(b, Along(from, d, k)) == Empty
    requires IsRay(b, from, color, d, k + 1, rest)
    ensures IsRay(b, from, color, d, k, [Build(from, Along(from, d, k), b)] + rest)
  {
    var ms := [Build(from, Along(from, d, k), b)] + rest;
    forall i | 0 <= i < |ms|
      ensures ms[i].end == Along(from, d, k + i) && OnBoard(ms[i].end) && ms[i] == Build(from, ms[i].end, b)
    {
      if i == 0 {
        assert k + i == k;
      } else {
        assert ms[i] == rest[i - 1];
        assert k + 1 + (i - 1) == k + i;
      }
    }
    if |rest| > 0 {
      assert ms[|ms| - 1] == rest[|rest| - 1];
      assert k + 1 + |rest| == k + |ms|;
    }
  }

  lemma RaySound(b: Board, from: Square, color: Color, d: Dir)
    requires OnBoard(from) && UnitDir(d)
    ensures forall m :: m in Ray(b, from, color, d, 1) ==> Sound(b, color, from, m) && OnBoard(m.end)
  {
    RayShape(b, from, color, d, 1);
    RayShapeSound(b, from, color, d, 1, Ray(b, from, color, d, 1));
  }

  lemma RayShapeSound(b: Board, from: Square, color: Color, d: Dir, k: int, ms: seq<Move>)
    requires OnBoard(from) && IsRay(b, from, color, d, k, ms)
    ensures forall m :: m in ms ==> Sound(b, color, from, m) && OnBoard(m.end)
  {
    forall i | 0 <= i < |ms|
      ensures Sound(b, color, from, ms[i]) && OnBoard(ms[i].end)
    {
      var m := ms[i];
      assert m == Build(from, m.end, b) && OnBoard(m.end);
      if i < |ms| - 1 {
        assert m.pieceCaptured == Empty;
      } else {
        assert Enterable(m.pieceCaptured, color);
      }
    }
  }



  lemma {:induction false} SlidesSound(b: Board, from: Square, color: Color, dirs: seq<Dir>)
    requires OnBoard(from) && AllUnit(dirs)
    ensures forall m :: m in Slides(b, from, color, dirs) ==> Sound(b, color, from, m) && OnBoard(m.end)
  {
    if dirs != [] {
      RaySound(b, from, color, dirs[0]);
      SlidesSound(b, from, color, dirs[1..]);
    }
  }

  /** Sliding along two lists of directions is sliding along the first, then
      along the second. */
  lemma {:induction false} SlidesAppend(b: Board, from: Square, color: Color, d1: seq<Dir>, d2: seq<Dir>)
    requires OnBoard(from) && AllUnit(d1) && AllUnit(d2)
    ensures AllUnit(d1 + d2)
    ensures Slides(b, from, color, d1 + d2) == Slides(b, from, color, d1) + Slides(b, from, color, d2)
  {
    if d1 != [] {
      assert (d1 + d2)[1..] == d1[1..] + d2;
      SlidesAppend(b, from, color, d1[1..], d2);
    } else {
      assert d1 + d2 == d2;
    }
  }

  /** The queen's moves are the bishop's moves followed by the rook's, so its
      targets are the union of theirs. */
  lemma QueenIsBishopThenRook(b: Board, from: Square)
    requires OnBoard(from) && At(b, from).Pc?
    ensures QueenMoves(b, from) == BishopMoves(b, from) + RookMoves(b, from)
    ensures Targets(QueenMoves(b, from)) == Targets(BishopMoves(b, from)) + Targets(RookMoves(b, from))
  {
    assert QueenDirs == BishopDirs + RookDirs;
    SlidesAppend(b, from, At(b, from).color, BishopDirs, RookDirs);
  }

  /** Knight and king generators: each offset is tried on its own, and a
      target is produced exactly when the offset lands on the board on an
      empty or opponent square. */
  lemma {:induction false} StepsShape(b: Board, from: Square, color: Color, offs: seq<Dir>)
    requires OnBoard(from)
    ensures forall m :: m in Steps(b, from, color, offs) ==> Sound(b, color, from, m) && OnBoard(m.end)
    ensures forall t :: t in Targets(Steps(b, from, color, offs)) <==>
      OnBoard(t) && Enterable(At(b, t), color) && exists i :: 0 <= i < |offs| && t == Shift(from, offs[i])
  {
    if offs != [] {
      StepsShape(b, from, color, offs[1..]);
      var rest := Steps(b, from, color, offs[1..]);
      forall t
        ensures t in Targets(Steps(b, from, color, offs)) <==>
          OnBoard(t) && Enterable(At(b, t), color) && exists i :: 0 <= i < |offs| && t == Shift(from, offs[i])
      {
        if OnBoard(t) && Enterable(At(b, t), color) && exists i :: 0 <= i < |offs| && t == Shift(from, offs[i]) {
          var i :| 0 <= i < |offs| && t == Shift(from, offs[i]);
          if i > 0 {
            assert offs[1..][i - 1] == offs[i];
            assert t in Targets(rest);
          }
        }
        if t in Targets(rest) {
          var i :| 0 <= i < |offs[1..]| && t == Shift(from, offs[1..][i]);
          assert offs[i + 1] == offs[1..][i];
        }
      }
    }
  }

  function Abs(x: int): nat {
    if x < 0 then -x else x
  }

  /** A knight's jump: two squares one way and one the other. */
  ghost predicate KnightJump(from: Square, t: Square) {
    var dr, dc := Abs(t.row - from.row), Abs(t.col - from.col);
    (dr == 1 && dc == 2) || (dr == 2 && dc == 1)
  }

  /** A king's step: to one of the eight neighbouring squares. */
  ghost predicate KingStep(from: Square, t: Square) {
    t != from && Abs(t.row - from.row) <= 1 && Abs(t.col - from.col) <= 1
  }

  lemma KnightJumpsExact(from: Square, t: Square)
    ensures (exists i :: 0 <= i < |KnightJumps| && t == Shift(from, KnightJumps[i])) <==> KnightJump(from, t)
  {
    var dr, dc := t.row - from.row, t.col - from.col;
    if KnightJump(from, t) {
      var i := if dr == -2 && dc == 1 then 0
        else if dr == -2 && dc == -1 then 1
        else if dr == 2 && dc == 1 then 2
        else if dr == 2 && dc == -1 then 3
        else if dr == -1 && dc == 2 then 4
        else if dr == 1 && dc == 2 then 5
        else if dr == -1 && dc == -2 then 6
        else 7;
      assert t == Shift(from, KnightJumps[i]);
    }
  }

  lemma KingStepsExact(from: Square, t: Square)
    ensures (exists i :: 0 <= i < |KingSteps| && t == Shift(from, KingSteps[i])) <==> KingStep(from, t)
  {
    var dr, dc := t.row - from.row, t.col - from.col;
    if KingStep(from, t) {
      var i := if dr == 1 && dc == 1 then 0
        else if dr == -1 && dc == 1 then 1
        else if dr == 1 && dc == -1 then 2
        else if dr == -1 && dc == -1 then 3
        else if dr == 1 && dc == 0 then 4
        else if dr == -1 && dc == 0 then 5
        else if dr == 0 && dc == 1 then 6
        else 7;
      assert t == Shift(from, KingSteps[i]);
    }
  }

  /** `getKnightMoves` targets exactly the on-board knight jumps that land on
      an empty or opponent square. */
  lemma KnightTargets(b: Board, from: Square)
    requires OnBoard(from) && At(b, from).Pc?
    ensures forall m :: m in KnightMoves(b, from) ==> Sound(b, At(b, from).color, from, m) && OnBoard(m.end)
    ensures forall t :: t in Targets(KnightMoves(b, from)) <==>
      OnBoard(t) && KnightJump(from, t) && Enterable(At(b, t), At(b, from).color)
  {
    StepsShape(b, from, At(b, from).color, KnightJumps);
    forall t {
      KnightJumpsExact(from, t);
    }
  }

  /** `getKingMoves` targets exactly the on-board neighbouring squares that
      are empty or hold an opponent's piece. */
  lemma KingTargets(b: Board, from: Square)
    requires OnBoard(from) && At(b, from).Pc?
    ensures forall m :: m in KingMoves(b, from) ==> Sound(b, At(b, from).color, from, m) && OnBoard(m.end)
    ensures forall t :: t in Targets(KingMoves(b, from)) <==>
      OnBoard(t) && KingStep(from, t) && Enterable(At(b, t), At(b, from).color)
  {
    StepsShape(b, from, At(b, from).color, KingSteps);
    forall t {
      KingStepsExact(from, t);
    }
  }

  /** The pawn rules as the engine applies them for the side to move. */
  ghost predicate PawnRule(b: Board, whiteToMove: bool, from: Square, t: Square)
    requires OnBoard(from)
  {
    var fwd := if whiteToMove then -1 else 1;
    var home := if whiteToMove then 6 else 1;
    var r, c := from.row, from.col;
    // only the black branch checks that the row ahead exists
    (whiteToMove || r + 1 < 8)
    && (
      // one square ahead, onto an empty square
      || (t == Sq(r + fwd, c) && At(b, t) == Empty)
      // two squares ahead from the home row, both squares empty
      || (r == home && t == Sq(r + 2 * fwd, c) && At(b, Sq(r + fwd, c)) == Empty && At(b, t) == Empty)
      // one square diagonally ahead, onto an opponent's piece
      || (t.row == r + fwd && (t.col == c - 1 || t.col == c + 1) && 0 <= t.col < 8
          && Owned(At(b, t), Opponent(SideOf(whiteToMove)))))
  }

  /** `getPawnMoves` targets exactly what the pawn rules allow; its moves land
      on the board except for the row -1 of a white pawn standing on row 0. */
  lemma PawnTargets(b: Board, whiteToMove: bool, from: Square)
    requires OnBoard(from)
    ensures forall m :: m in PawnMoves(b, whiteToMove, from) ==>
      Sound(b, SideOf(whiteToMove), from, m)
      && (OnBoard(m.end) || (whiteToMove && from.row == 0 && m.end.row == -1))
    ensures forall t :: t in Targets(PawnMoves(b, whiteToMove, from)) <==> PawnRule(b, whiteToMove, from, t)
  {
    PawnSound(b, whiteToMove, from);
    forall t
      ensures t in Targets(PawnMoves(b, whiteToMove, from)) <==> PawnRule(b, whiteToMove, from, t)
    {
      if whiteToMove {
        WhitePawnTargets(b, from, t);
      } else {
        BlackPawnTargets(b, from, t);
      }
    }
  }

  lemma PawnSound(b: Board, whiteToMove: bool, from: Square)
    requires OnBoard(from)
    ensures forall m :: m in PawnMoves(b, whiteToMove, from) ==>
      Sound(b, SideOf(whiteToMove), from, m)
      && (OnBoard(m.end) || (whiteToMove && from.row == 0 && m.end.row == -1))
  {
    if whiteToMove {
      WhitePawnSound(b, from);
    } else {
      BlackPawnSound(b, from);
    }
  }

  lemma WhitePawnSound(b: Board, from: Square)
    requires OnBoard(from)
    ensures forall m :: m in PawnMoves(b, true, from) ==>
      Sound(b, White, from, m) && (OnBoard(m.end) || (from.row == 0 && m.end.row == -1))
  {
    var r, c := from.row, from.col;
    forall m | m in PawnMoves(b, true, from)
      ensures Sound(b, White, from, m) && (OnBoard(m.end) || (from.row == 0 && m.end.row == -1))
    {
      assert m.start == from;
      assert m.end in {Sq(r - 1, c), Sq(r - 2, c), Sq(r - 1, c - 1), Sq(r - 1, c + 1)};
      if m.end == Sq(r - 2, c) {
        assert r == 6;
      }
    }
  }

  lemma BlackPawnSound(b: Board, from: Square)
    requires OnBoard(from)
    ensures forall m :: m in PawnMoves(b, false, from) ==> Sound(b, Black, from, m) && OnBoard(m.end)
  {
    var r, c := from.row, from.col;
    forall m | m in PawnMoves(b, false, from)
      ensures Sound(b, Black, from, m) && OnBoard(m.end)
    {
      assert m.start == from;
      assert m.end in {Sq(r + 1, c), Sq(r + 2, c), Sq(r + 1, c - 1), Sq(r + 1, c + 1)};
      if m.end == Sq(r + 2, c) {
        assert r == 1;
      }
    }
  }


  lemma WhitePawnTargets(b: Board, from: Square, t: Square)
    requires OnBoard(from)
    ensures t in Targets(PawnMoves(b, true, from)) <==> PawnRule(b, true, from, t)
  {
  }

  lemma BlackPawnTargets(b: Board, from: Square, t: Square)
    requires OnBoard(from)
    ensures t in Targets(PawnMoves(b, false, from)) <==> PawnRule(b, false, from, t)
  {
  }

  /** What `getAllPossibleMoves` may contain besides the generators' own
      promises: a move leaves a square of the side to move, and it lands on
      the board unless it is a white pawn stepping off row 0. */
  predicate Pseudo(b: Board, whiteToMove: bool, m: Move) {
    Sound(b, SideOf(whiteToMove), m.start, m)
    && Owned(m.pieceMoved, SideOf(whiteToMove))
    && (OnBoard(m.end) || (whiteToMove && m.pieceMoved == Pc(White, Pawn) && m.start.row == 0 && m.end.row == -1))
  }

  /** The dispatch on the piece kind: only pieces of the side to move produce
      moves, and every move they produce is `Pseudo`. */
  lemma MovesAtSound(b: Board, whiteToMove: bool, sq: Square)
    requires OnBoard(sq)
    ensures MovesAt(b, whiteToMove, sq) != [] ==> Owned(At(b, sq), SideOf(whiteToMove))
    ensures forall m :: m in MovesAt(b, whiteToMove, sq) ==> m.start == sq && Pseudo(b, whiteToMove, m)
  {
    var p := At(b, sq);
    if Owned(p, SideOf(whiteToMove)) {
      match p.kind
      case Pawn => PawnSound(b, whiteToMove, sq);
      case Rook => SlidesSound(b, sq, p.color, RookDirs);
      case Knight => KnightTargets(b, sq);
      case Bishop => SlidesSound(b, sq, p.color, BishopDirs);
      case Queen => SlidesSound(b, sq, p.color, QueenDirs);
      case King => KingTargets(b, sq);
    }
  }

  /** Every move of `MovesAt` leaves the square it was asked about. */
  lemma MovesAtStart(b: Board, whiteToMove: bool, sq: Square)
    requires OnBoard(sq)
    ensures forall m :: m in MovesAt(b, whiteToMove, sq) ==> m.start == sq
  {
    MovesAtSound(b, whiteToMove, sq);
  }

  lemma {:induction false} ScanRowMembers(b: Board, whiteToMove: bool, r: int, c: int)
    requires 0 <= r < 8 && 0 <= c <= 8
    ensures forall m :: m in ScanRow(b, whiteToMove, r, c) <==>
      m.start.row == r && c <= m.start.col < 8 && m in MovesAt(b, whiteToMove, m.start)
    decreases 8 - c
  {
    if c < 8 {
      MovesAtStart(b, whiteToMove, Sq(r, c));
      ScanRowMembers(b, whiteToMove, r, c + 1);
      forall m
        ensures m in ScanRow(b, whiteToMove, r, c) <==>
          m.start.row == r && c <= m.start.col < 8 && m in MovesAt(b, whiteToMove, m.start)
      {
        if m.start == Sq(r, c) {
          assert m.start.col == c;
        }
      }
    }
  }

  lemma {:induction false} ScanRowsMembers(b: Board, whiteToMove: bool, r: int)
    requires 0 <= r <= 8
    ensures forall m :: m in ScanRows(b, whiteToMove, r) <==>
      r <= m.start.row < 8 && 0 <= m.start.col < 8 && m in MovesAt(b, whiteToMove, m.start)
    decreases 8 - r
  {
    if r < 8 {
      ScanRowMembers(b, whiteToMove, r, 0);
      ScanRowsMembers(b, whiteToMove, r + 1);
    }
  }

  /** `getAllPossibleMoves` holds exactly the moves the generators produce for
      the pieces of the side to move, and each of them is `Pseudo`. */
  lemma PseudoMovesExact(b: Board, whiteToMove: bool)
    ensures forall m :: m in PseudoMoves(b, whiteToMove) <==>
      OnBoard(m.start) && Owned(At(b, m.start), SideOf(whiteToMove)) && m in MovesAt(b, whiteToMove, m.start)
    ensures forall m :: m in PseudoMoves(b, whiteToMove) ==> Pseudo(b, whiteToMove, m)
  {
    ScanRowsMembers(b, whiteToMove, 0);
    forall m | m in PseudoMoves(b, whiteToMove)
      ensures Owned(At(b, m.start), SideOf(whiteToMove)) && Pseudo(b, whiteToMove, m)
    {
      GeneratedIsPseudo(b, whiteToMove, m);
    }
  }

  lemma GeneratedIsPseudo(b: Board, whiteToMove: bool, m: Move)
    requires OnBoard(m.start) && m in MovesAt(b, whiteToMove, m.start)
    ensures Owned(At(b, m.start), SideOf(whiteToMove)) && Pseudo(b, whiteToMove, m)
  {
    MovesAtSound(b, whiteToMove, m.start);
  }

  /** The position of a square in the engine's row-major scan. */
  function ScanIndex(sq: Square): int {
    8 * sq.row + sq.col
  }

  /** The moves of `ms` leave their squares in row-major order. */
  ghost predicate RowMajor(ms: seq<Move>) {
    forall i, j :: 0 <= i <= j < |ms| ==> ScanIndex(ms[i].start) <= ScanIndex(ms[j].start)
  }

  lemma RowMajorAppend(a: seq<Move>, c: seq<Move>)
    requires RowMajor(a) && RowMajor(c)
    requires forall x, y :: x in a && y in c ==> ScanIndex(x.start) <= ScanIndex(y.start)
    ensures RowMajor(a + c)
  {
    var ac := a + c;
    forall i, j | 0 <= i <= j < |ac|
      ensures ScanIndex(ac[i].start) <= ScanIndex(ac[j].start)
    {
      if j < |a| {
        assert ac[i] == a[i] && ac[j] == a[j];
      } else if i >= |a| {
        assert ac[i] == c[i - |a|] && ac[j] == c[j - |a|];
      } else {
        assert ac[i] in a && ac[j] in c;
      }
    }
  }

  lemma {:induction false} ScanRowOrder(b: Board, whiteToMove: bool, r: int, c: int)
    requires 0 <= r < 8 && 0 <= c <= 8
    ensures RowMajor(ScanRow(b, whiteToMove, r, c))
    decreases 8 - c
  {
    if c < 8 {
      MovesAtStart(b, whiteToMove, Sq(r, c));
      ScanRowOrder(b, whiteToMove, r, c + 1);
      ScanRowMembers(b, whiteToMove, r, c + 1);
      RowMajorAppend(MovesAt(b, whiteToMove, Sq(r, c)), ScanRow(b, whiteToMove, r, c + 1));
    }
  }

  lemma {:induction false} ScanRowsOrder(b: Board, whiteToMove: bool, r: int)
    requires 0 <= r <= 8
    ensures RowMajor(ScanRows(b, whiteToMove, r))
    decreases 8 - r
  {
    if r < 8 {
      ScanRowOrder(b, whiteToMove, r, 0);
      ScanRowMembers(b, whiteToMove, r, 0);
      ScanRowsOrder(b, whiteToMove, r + 1);
      ScanRowsMembers(b, whiteToMove, r + 1);
      RowMajorAppend(ScanRow(b, whiteToMove, r, 0), ScanRows(b, whiteToMove, r + 1));
    }
  }

  /** `getAllPossibleMoves` lists the moves square by square in row-major
      order. */
  lemma PseudoMovesRowMajor(b: Board, whiteToMove: bool)
    ensures RowMajor(PseudoMoves(b, whiteToMove))
  {
    ScanRowsOrder(b, whiteToMove, 0);
  }
}
