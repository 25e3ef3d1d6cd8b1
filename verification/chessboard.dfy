/** Pieces, squares and the 8x8 board of the chess engine.

    The engine stores the board as an 8x8 grid of two-character strings
    ("wK", "bp", ...) with "--" for an empty square. Here a square holds a
    `Piece`, and `Empty` stands for "--".

    Board coordinates are plain integers, because the engine indexes its grid
    the way Python does: an index in [-8, 0) counts from the far end, so row
    -1 is row 7. The white pawn generator really does produce such an index
    (it has no row bound), so `At` and `SetAt` accept any index in [-8, 8). */
module Chessboard {

  datatype Color = White | Black

  datatype Kind = Pawn | Rook | Knight | Bishop | Queen | King

  datatype Piece = Empty | Pc(color: Color, kind: Kind)

  /** The colour a piece of colour `c` captures (`opponentDict`). */
  function Opponent(c: Color): Color {
    if c == White then Black else White
  }

  /** The colour whose turn the flag `whiteToMove` announces. */
  function SideOf(whiteToMove: bool): Color {
    if whiteToMove then White else Black
  }

  /** `p` is a piece of colour `c` (the engine tests the first character). */
  predicate Owned(p: Piece, c: Color) {
    p.Pc? && p.color == c
  }

  /** A square a piece of colour `c` may step onto: empty, or an opponent's. */
  predicate Enterable(p: Piece, c: Color) {
    p == Empty || Owned(p, Opponent(c))
  }

  datatype Square = Sq(row: int, col: int)

  predicate OnBoard(sq: Square) {
    0 <= sq.row < 8 && 0 <= sq.col < 8
  }

  /** The indices Python accepts on an axis of length 8. */
  predicate Indexable(sq: Square) {
    -8 <= sq.row < 8 && -8 <= sq.col < 8
  }

  /** Python's reading of a possibly negative index on an axis of length 8. */
  function Wrap(i: int): (j: int)
    requires -8 <= i < 8
    ensures 0 <= j < 8
    ensures 0 <= i ==> j == i
  {
    if i < 0 then i + 8 else i
  }

  /** The on-board square that an indexable square actually addresses. */
  function Cell(sq: Square): (c: Square)
    requires Indexable(sq)
    ensures OnBoard(c)
    ensures OnBoard(sq) ==> c == sq
  {
    Sq(Wrap(sq.row), Wrap(sq.col))
  }

  predicate IsGrid(b: seq<seq<Piece>>) {
    |b| == 8 && forall r :: 0 <= r < 8 ==> |b[r]| == 8
  }

  type Board = b: seq<seq<Piece>> | IsGrid(b) witness seq(8, _ => seq(8, _ => Empty))

  /** `board[row][col]`. */
  function At(b: Board, sq: Square): Piece
    requires Indexable(sq)
  {
    b[Wrap(sq.row)][Wrap(sq.col)]
  }

  /** `board[row][col] = p`. */
  function SetAt(b: Board, sq: Square, p: Piece): (b': Board)
    requires Indexable(sq)
    ensures forall q :: Indexable(q) ==> At(b', q) == if Cell(q) == Cell(sq) then p else At(b, q)
  {
    var r := Wrap(sq.row);
    b[r := b[r][Wrap(sq.col) := p]]
  }

  /** Two boards that agree on every square are the same board. */
  lemma BoardExtensionality(b1: Board, b2: Board)
    requires forall sq :: OnBoard(sq) ==> At(b1, sq) == At(b2, sq)
    ensures b1 == b2
  {
    forall r | 0 <= r < 8
      ensures b1[r] == b2[r]
    {
      forall c | 0 <= c < 8
        ensures b1[r][c] == b2[r][c]
      {
        assert At(b1, Sq(r, c)) == At(b2, Sq(r, c));
      }
    }
  }
}
