/** The `Move` value of the engine: two squares, snapshots of the moved and
    captured pieces, the integer id that decides equality, and the rank/file
    notation. */
module Moves {
  import opened Chessboard
  import opened Wrappers

  datatype Move = Move(start: Square, end: Square, pieceMoved: Piece, pieceCaptured: Piece)

  /** `Move(start, end, board)`: no validation, the two pieces are read off
      the board as it is when the move is built. */
  function Build(start: Square, end: Square, b: Board): Move
    requires Indexable(start) && Indexable(end)
  {
    Move(start, end, At(b, start), At(b, end))
  }

  /** `m` is what `Build` would make of its own two squares on board `b`. */
  predicate BuiltFrom(m: Move, b: Board) {
    Indexable(m.start) && Indexable(m.end) && m == Build(m.start, m.end, b)
  }

  /** `moveID`. */
  function Id(m: Move): int {
    m.start.row * 1000 + m.start.col * 100 + m.end.row * 10 + m.end.col
  }

  /** `Move.__eq__`: equality is equality of ids, pieces play no part. */
  predicate SameMove(a: Move, b: Move) {
    Id(a) == Id(b)
  }

  /** The coordinates a generated move can have: the start is on the board,
      the end column too, and the end row is on the board or is the -1 of a
      white pawn standing on row 0. */
  predicate IdRange(m: Move) {
    OnBoard(m.start) && -1 <= m.end.row < 8 && 0 <= m.end.col < 8
  }

  /** On that range the id encodes the four coordinates without collision, so
      two moves are equal exactly when their squares are, whatever pieces
      they carry. */
  lemma SameMoveIffSameSquares(a: Move, b: Move)
    requires IdRange(a) && IdRange(b)
    ensures SameMove(a, b) <==> a.start == b.start && a.end == b.end
  {
    if SameMove(a, b) {
      var ua, ub := a.start.row * 10 + a.start.col, b.start.row * 10 + b.start.col;
      var ta, tb := a.end.row * 10 + a.end.col, b.end.row * 10 + b.end.col;
      assert 100 * ua + ta == 100 * ub + tb;
      assert -10 <= ta <= 77 && -10 <= tb <= 77;
      assert ua == ub;
      assert ta == tb;
    }
  }

  /** `ranksToRows`. */
  const RanksToRows: map<char, int> :=
    map['1' := 7, '2' := 6, '3' := 5, '4' := 4, '5' := 3, '6' := 2, '7' := 1, '8' := 0]

  /** `rowsToRanks`. The engine builds it by swapping the pairs of
      `ranksToRows`; it is written out here and `RankTablesInvert` shows it is
      that swap. */
  const RowsToRanks: map<int, char> :=
    map[7 := '1', 6 := '2', 5 := '3', 4 := '4', 3 := '5', 2 := '6', 1 := '7', 0 := '8']

  /** `filesToCols`. */
  const FilesToCols: map<char, int> :=
    map['a' := 0, 'b' := 1, 'c' := 2, 'd' := 3, 'e' := 4, 'f' := 5, 'g' := 6, 'h' := 7]

  /** `colsToFiles`, the swap of `filesToCols`, written out likewise
      (`FileTablesInvert`). */
  const ColsToFiles: map<int, char> :=
    map[0 := 'a', 1 := 'b', 2 := 'c', 3 := 'd', 4 := 'e', 5 := 'f', 6 := 'g', 7 := 'h']

  /** `rowsToRanks` is defined on exactly the on-board rows and is the
      two-sided inverse of `ranksToRows`. */
  lemma RankTablesInvert()
    ensures forall r :: r in RowsToRanks <==> 0 <= r < 8
    ensures forall r :: r in RowsToRanks ==> RowsToRanks[r] in RanksToRows && RanksToRows[RowsToRanks[r]] == r
    ensures forall ch :: ch in RanksToRows ==> RanksToRows[ch] in RowsToRanks && RowsToRanks[RanksToRows[ch]] == ch
  {
    assert RowsToRanks.Keys == {0, 1, 2, 3, 4, 5, 6, 7};
    assert RanksToRows.Keys == {'1', '2', '3', '4', '5', '6', '7', '8'};
  }

  /** `colsToFiles` is defined on exactly the on-board columns and is the
      two-sided inverse of `filesToCols`. */
  lemma FileTablesInvert()
    ensures forall c :: c in ColsToFiles <==> 0 <= c < 8
    ensures forall c :: c in ColsToFiles ==> ColsToFiles[c] in FilesToCols && FilesToCols[ColsToFiles[c]] == c
    ensures forall ch :: ch in FilesToCols ==> FilesToCols[ch] in ColsToFiles && ColsToFiles[FilesToCols[ch]] == ch
  {
    assert ColsToFiles.Keys == {0, 1, 2, 3, 4, 5, 6, 7};
    assert FilesToCols.Keys == {'a', 'b', 'c', 'd', 'e', 'f', 'g', 'h'};
  }

  /** `getRankFile`: file letter then rank digit; a coordinate missing from
      the tables is the engine's KeyError, here `None`. */
  function RankFile(sq: Square): Option<string> {
    if sq.col in ColsToFiles && sq.row in RowsToRanks then
      Some([ColsToFiles[sq.col], RowsToRanks[sq.row]])
    else
      None
  }

  /** `getChessNotation`. */
  function ChessNotation(m: Move): Option<string> {
    match (RankFile(m.start), RankFile(m.end))
    case (Some(s), Some(e)) => Some(s + e)
    case _ => None
  }

  /** Reads a file letter and a rank digit back with `filesToCols` and
      `ranksToRows`. */
  function ParseSquare(s: string): Option<Square>
    requires |s| == 2
  {
    if s[0] in FilesToCols && s[1] in RanksToRows then
      Some(Sq(RanksToRows[s[1]], FilesToCols[s[0]]))
    else
      None
  }

  /** Reads a four-character notation back into its start and end squares. */
  function ParseNotation(s: string): Option<(Square, Square)> {
    if |s| != 4 then None
    else
      match (ParseSquare(s[..2]), ParseSquare(s[2..]))
      case (Some(a), Some(b)) => Some((a, b))
      case _ => None
  }

  /** Notation exists exactly for moves whose two squares are on the board,
      and it then reads back to those squares. */
  lemma NotationRoundTrip(m: Move)
    ensures ChessNotation(m).Some? <==> OnBoard(m.start) && OnBoard(m.end)
    ensures ChessNotation(m).Some? ==> ParseNotation(ChessNotation(m).value) == Some((m.start, m.end))
  {
    RankTablesInvert();
    FileTablesInvert();
    if OnBoard(m.start) && OnBoard(m.end) {
      var s := ChessNotation(m).value;
      assert s[..2] == RankFile(m.start).value;
      assert s[2..] == RankFile(m.end).value;
    }
  }
}
