/** The game state of the engine and the two operations that change it:
    `makeMove`, which plays a move without checking it, and `undoMove`, which
    pops the history stack and puts the two squares back. */
module Game {
  import opened Chessboard
  import opened Moves

  datatype GameState = GameState(
    board: Board,
    whiteToMove: bool,
    whiteKingLocation: Square,
    blackKingLocation: Square,
    moveHistory: seq<Move>,
    checkmate: bool,
    stalemate: bool)

  const WhiteKing := Pc(White, King)
  const BlackKing := Pc(Black, King)

  /** Rook, knight, bishop, queen, king, bishop, knight, rook. */
  function BackRank(c: Color): seq<Piece> {
    [Pc(c, Rook), Pc(c, Knight), Pc(c, Bishop), Pc(c, Queen), Pc(c, King), Pc(c, Bishop), Pc(c, Knight), Pc(c, Rook)]
  }

  function PawnRank(c: Color): seq<Piece> {
    seq(8, _ => Pc(c, Pawn))
  }

  const EmptyRank: seq<Piece> := seq(8, _ => Empty)

  /** The standard starting position, black on rows 0-1, white on rows 6-7. */
  const InitialBoard: Board :=
    [BackRank(Black), PawnRank(Black), EmptyRank, EmptyRank, EmptyRank, EmptyRank, PawnRank(White), BackRank(White)]

  /** `GameState.__init__`. */
  const Initial: GameState :=
    GameState(InitialBoard, true, Sq(7, 4), Sq(0, 4), [], false, false)

  /** Both squares of `m` can be used as grid indices. */
  predicate Playable(m: Move) {
    Indexable(m.start) && Indexable(m.end)
  }

  /** `makeMove`: empty the start square, put the moved piece on the end
      square, push the move, pass the turn, and follow a moving king. No
      legality check is made. */
  function MakeMove(s: GameState, m: Move): (s': GameState)
    requires Playable(m)
    ensures forall q :: OnBoard(q) ==>
      At(s'.board, q) == (if q == Cell(m.end) then m.pieceMoved else if q == Cell(m.start) then Empty else At(s.board, q))
    ensures s'.moveHistory == s.moveHistory + [m] && s'.whiteToMove == !s.whiteToMove
    ensures s'.whiteKingLocation == if m.pieceMoved == WhiteKing then m.end else s.whiteKingLocation
    ensures s'.blackKingLocation == if m.pieceMoved == BlackKing then m.end else s.blackKingLocation
    ensures s'.checkmate == s.checkmate && s'.stalemate == s.stalemate
  {
    var b := SetAt(SetAt(s.board, m.start, Empty), m.end, m.pieceMoved);
    s.(board := b,
       moveHistory := s.moveHistory + [m],
       whiteToMove := !s.whiteToMove,
       whiteKingLocation := if m.pieceMoved == WhiteKing then m.end else s.whiteKingLocation,
       blackKingLocation := if m.pieceMoved == BlackKing then m.end else s.blackKingLocation)
  }

  /** The most recent move, if any, can be undone. */
  predicate Undoable(s: GameState) {
    s.moveHistory == [] || Playable(s.moveHistory[|s.moveHistory| - 1])
  }

  /** `undoMove`: nothing on an empty history; otherwise pop the last move,
      put the moved piece back on its start and the captured piece back on
      its end, pass the turn back, and move a king's location back. */
  function UndoMove(s: GameState): (s': GameState)
    requires Undoable(s)
    ensures s.moveHistory == [] ==> s' == s
    ensures s.moveHistory != [] ==>
      var m := s.moveHistory[|s.moveHistory| - 1];
      && s'.moveHistory == s.moveHistory[..|s.moveHistory| - 1]
      && s'.whiteToMove == !s.whiteToMove
      && (forall q :: OnBoard(q) ==>
            At(s'.board, q) == (if q == Cell(m.end) then m.pieceCaptured else if q == Cell(m.start) then m.pieceMoved else At(s.board, q)))
      && s'.whiteKingLocation == (if m.pieceMoved == WhiteKing then m.start else s.whiteKingLocation)
      && s'.blackKingLocation == (if m.pieceMoved == BlackKing then m.start else s.blackKingLocation)
    ensures s'.checkmate == s.checkmate && s'.stalemate == s.stalemate
  {
    if |s.moveHistory| == 0 then s
    else
      var m := s.moveHistory[|s.moveHistory| - 1];
      var b := SetAt(SetAt(s.board, m.start, m.pieceMoved), m.end, m.pieceCaptured);
      s.(board := b,
         moveHistory := s.moveHistory[..|s.moveHistory| - 1],
         whiteToMove := !s.whiteToMove,
         whiteKingLocation := if m.pieceMoved == WhiteKing then m.start else s.whiteKingLocation,
         blackKingLocation := if m.pieceMoved == BlackKing then m.start else s.blackKingLocation)
  }

  /** Undoing a move built from the current board right after making it gives
      back the state exactly, provided a moving king left the square its
      location field names. */
  lemma MakeUndoRoundTrip(s: GameState, m: Move)
    requires BuiltFrom(m, s.board)
    requires m.pieceMoved == WhiteKing ==> s.whiteKingLocation == m.start
    requires m.pieceMoved == BlackKing ==> s.blackKingLocation == m.start
    ensures UndoMove(MakeMove(s, m)) == s
  {
    var s1 := MakeMove(s, m);
    var s2 := UndoMove(s1);
    assert s1.moveHistory[|s1.moveHistory| - 1] == m;
    assert s1.moveHistory[..|s1.moveHistory| - 1] == s.moveHistory;
    forall q | OnBoard(q)
      ensures At(s2.board, q) == At(s.board, q)
    {
      if q == Cell(m.end) {
        assert m.pieceCaptured == At(s.board, m.end);
        assert At(s.board, m.end) == At(s.board, q);
      } else if q == Cell(m.start) {
        assert At(s.board, m.start) == At(s.board, q);
      }
    }
    BoardExtensionality(s2.board, s.board);
  }

  /** Every king on the board stands on the square its location field names
      (the engine keeps the fields in step with every king move). */
  ghost predicate KingsPlaced(s: GameState) {
    forall q :: OnBoard(q) ==>
      (At(s.board, q) == WhiteKing ==> q == s.whiteKingLocation)
      && (At(s.board, q) == BlackKing ==> q == s.blackKingLocation)
  }

  /** The location fields point at the kings, and each colour has its king
      on that square and nowhere else. */
  ghost predicate KingsTracked(s: GameState) {
    forall q :: OnBoard(q) ==>
      (At(s.board, q) == WhiteKing <==> q == s.whiteKingLocation)
      && (At(s.board, q) == BlackKing <==> q == s.blackKingLocation)
  }

  lemma InitialKingsTracked()
    ensures KingsTracked(Initial)
  {
    forall q | OnBoard(q)
      ensures (At(InitialBoard, q) == WhiteKing <==> q == Sq(7, 4))
      ensures (At(InitialBoard, q) == BlackKing <==> q == Sq(0, 4))
    {
      assert InitialBoard[q.row] == [BackRank(Black), PawnRank(Black), EmptyRank, EmptyRank,
        EmptyRank, EmptyRank, PawnRank(White), BackRank(White)][q.row];
    }
  }

  /** On a state whose kings are placed, every move built from the board that
      leaves an on-board square comes back undone. */
  lemma RoundTripWhenKingsPlaced(s: GameState, m: Move)
    requires KingsPlaced(s) && BuiltFrom(m, s.board) && OnBoard(m.start)
    ensures UndoMove(MakeMove(s, m)) == s
  {
    MakeUndoRoundTrip(s, m);
  }

  /** A king moved onto the board keeps every king on its location field. */
  lemma MakeMoveKeepsKingsPlaced(s: GameState, m: Move)
    requires KingsPlaced(s) && BuiltFrom(m, s.board) && OnBoard(m.start)
    requires m.pieceMoved.Pc? && m.pieceMoved.kind == King ==> OnBoard(m.end)
    ensures KingsPlaced(MakeMove(s, m))
  {
  }

  /** The stronger invariant survives every move built from the board that
      does not capture a king. */
  lemma MakeMoveKeepsKingsTracked(s: GameState, m: Move)
    requires KingsTracked(s) && BuiltFrom(m, s.board) && OnBoard(m.start)
    requires m.pieceMoved.Pc? && m.pieceMoved.kind == King ==> OnBoard(m.end)
    requires !(m.pieceCaptured.Pc? && m.pieceCaptured.kind == King)
    ensures KingsTracked(MakeMove(s, m))
  {
    var s' := MakeMove(s, m);
    forall q | OnBoard(q)
      ensures (At(s'.board, q) == WhiteKing <==> q == s'.whiteKingLocation)
      ensures (At(s'.board, q) == BlackKing <==> q == s'.blackKingLocation)
    {
      assert At(s.board, Cell(m.end)) == m.pieceCaptured;
    }
  }
}
