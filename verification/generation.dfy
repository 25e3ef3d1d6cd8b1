/** Pseudo-legal move generation: the six per-piece generators and the
    row-major scan that collects the moves of the side to move. A pseudo-legal
    move obeys the piece's geometry and the occupancy of the board, but may
    leave the mover's own king attacked. */
module Generation {
  import opened Chessboard
  import opened Moves

  /** A direction (sliding pieces) or a fixed offset (knight, king). */
  datatype Dir = Dir(dr: int, dc: int)

  /** A one-square step: each component in -1..1, not both zero. */
  predicate UnitDir(d: Dir) {
    -1 <= d.dr <= 1 && -1 <= d.dc <= 1 && (d.dr != 0 || d.dc != 0)
  }

  /** `k * u` for a component `u` in -1..1, written without a product. */
  function Scale(k: int, u: int): int {
    if u == 0 then 0 else if u > 0 then k else -k
  }

  /** The square `k` steps from `sq` in direction `d`: the engine's
      `(row + dr, col + dc)` once `dr` and `dc` have been bumped `k` times. */
  function Along(sq: Square, d: Dir, k: int): Square {
    Sq(sq.row + Scale(k, d.dr), sq.col + Scale(k, d.dc))
  }

  /** The square one offset `o` away from `sq` (knight and king). */
  function Shift(sq: Square, o: Dir): Square {
    Sq(sq.row + o.dr, sq.col + o.dc)
  }

  /** No ray from an on-board square stays on the board for 8 steps. */
  lemma AlongBound(from: Square, d: Dir, k: int)
    requires OnBoard(from) && UnitDir(d) && 1 <= k && OnBoard(Along(from, d, k))
    ensures k <= 7
  {
    if d.dr == 1 {
      assert from.row + k <= 7;
    } else if d.dr == -1 {
      assert from.row - k >= 0;
    } else if d.dc == 1 {
      assert from.col + k <= 7;
    } else {
      assert d.dc == -1;
      assert from.col - k >= 0;
    }
  }

  /** Rook directions in the engine's order: row+1, row-1, col+1, col-1. */
  const RookDirs: seq<Dir> := [Dir(1, 0), Dir(-1, 0), Dir(0, 1), Dir(0, -1)]

  /** Bishop directions in the engine's order: (+,+), (-,+), (+,-), (-,-). */
  const BishopDirs: seq<Dir> := [Dir(1, 1), Dir(-1, 1), Dir(1, -1), Dir(-1, -1)]

  /** Queen directions: the four diagonals, then the four orthogonals. */
  const QueenDirs: seq<Dir> :=
    [Dir(1, 1), Dir(-1, 1), Dir(1, -1), Dir(-1, -1), Dir(1, 0), Dir(-1, 0), Dir(0, 1), Dir(0, -1)]

  /** Knight offsets in the engine's order. */
  const KnightJumps: seq<Dir> :=
    [Dir(-2, 1), Dir(-2, -1), Dir(2, 1), Dir(2, -1), Dir(-1, 2), Dir(1, 2), Dir(-1, -2), Dir(1, -2)]

  /** King offsets in the engine's order (the queen's eight directions). */
  const KingSteps: seq<Dir> :=
    [Dir(1, 1), Dir(-1, 1), Dir(1, -1), Dir(-1, -1), Dir(1, 0), Dir(-1, 0), Dir(0, 1), Dir(0, -1)]

  predicate AllUnit(dirs: seq<Dir>) {
    forall i :: 0 <= i < |dirs| ==> UnitDir(dirs[i])
  }

  /** The squares the moves of `ms` go to. */
  function Targets(ms: seq<Move>): set<Square> {
    set m | m in ms :: m.end
  }

  /** One ray of a sliding piece of colour `color` standing on `from`, starting
      at step `k`: empty squares are taken and the ray goes on, an opponent's
      piece is taken and the ray ends, an own piece or the edge ends it. */
  function Ray(b: Board, from: Square, color: Color, d: Dir, k: int): seq<Move>
    requires OnBoard(from) && UnitDir(d) && 1 <= k
    decreases 8 - k
  {
    var t := Along(from, d, k);
    if !OnBoard(t) then []
    else
      AlongBound(from, d, k);
      if At(b, t) == Empty then [Build(from, t, b)] + Ray(b, from, color, d, k + 1)
      else if Owned(At(b, t), Opponent(color)) then [Build(from, t, b)]
      else []
  }

  /** The rays along `dirs`, one after the other. */
  function Slides(b: Board, from: Square, color: Color, dirs: seq<Dir>): seq<Move>
    requires OnBoard(from) && AllUnit(dirs)
  {
    if dirs == [] then []
    else Ray(b, from, color, dirs[0], 1) + Slides(b, from, color, dirs[1..])
  }

  /** One step along each offset of `offs` that lands on the board on an empty
      or opponent square; an offset that does not is skipped. */
  function Steps(b: Board, from: Square, color: Color, offs: seq<Dir>): seq<Move>
    requires OnBoard(from)
  {
    if offs == [] then []
    else
      var t := Shift(from, offs[0]);
      (if OnBoard(t) && Enterable(At(b, t), color) then [Build(from, t, b)] else [])
      + Steps(b, from, color, offs[1..])
  }

  /** `getPawnMoves`. The direction and the colour captured follow the side to
      move. The white branch has no row bound: a white pawn on row 0 looks at
      row -1, which Python reads as row 7. */
  function PawnMoves(b: Board, whiteToMove: bool, from: Square): seq<Move>
    requires OnBoard(from)
  {
    var r, c := from.row, from.col;
    if whiteToMove then
      var one, two := Sq(r - 1, c), Sq(r - 2, c);
      (if At(b, one) == Empty then
         [Build(from, one, b)]
         + (if r == 6 && At(b, two) == Empty then [Build(from, two, b)] else [])
       else [])
      + (if c - 1 >= 0 && Owned(At(b, Sq(r - 1, c - 1)), Black) then [Build(from, Sq(r - 1, c - 1), b)] else [])
      + (if c + 1 <= 7 && Owned(At(b, Sq(r - 1, c + 1)), Black) then [Build(from, Sq(r - 1, c + 1), b)] else [])
    else if r + 1 < 8 then
      var one, two := Sq(r + 1, c), Sq(r + 2, c);
      (if At(b, one) == Empty then
         [Build(from, one, b)]
         + (if r == 1 && At(b, two) == Empty then [Build(from, two, b)] else [])
       else [])
      + (if c - 1 >= 0 && Owned(At(b, Sq(r + 1, c - 1)), White) then [Build(from, Sq(r + 1, c - 1), b)] else [])
      + (if c + 1 <= 7 && Owned(At(b, Sq(r + 1, c + 1)), White) then [Build(from, Sq(r + 1, c + 1), b)] else [])
    else
      []
  }

  /** `getRookMoves`; the colour is read off the rook's own square. */
  function RookMoves(b: Board, from: Square): seq<Move>
    requires OnBoard(from) && At(b, from).Pc?
  {
    Slides(b, from, At(b, from).color, RookDirs)
  }

  /** `getBishopMoves`. */
  function BishopMoves(b: Board, from: Square): seq<Move>
    requires OnBoard(from) && At(b, from).Pc?
  {
    Slides(b, from, At(b, from).color, BishopDirs)
  }

  /** `getQueenMoves`. */
  function QueenMoves(b: Board, from: Square): seq<Move>
    requires OnBoard(from) && At(b, from).Pc?
  {
    Slides(b, from, At(b, from).color, QueenDirs)
  }

  /** `getKnightMoves`. */
  function KnightMoves(b: Board, from: Square): seq<Move>
    requires OnBoard(from) && At(b, from).Pc?
  {
    Steps(b, from, At(b, from).color, KnightJumps)
  }

  /** `getKingMoves`. */
  function KingMoves(b: Board, from: Square): seq<Move>
    requires OnBoard(from) && At(b, from).Pc?
  {
    Steps(b, from, At(b, from).color, KingSteps)
  }

  /** The moves of the piece on `sq` if it belongs to the side to move (the
      `moveFunctions` dispatch of `getAllPossibleMoves`), else none. */
  function MovesAt(b: Board, whiteToMove: bool, sq: Square): seq<Move>
    requires OnBoard(sq)
  {
    var p := At(b, sq);
    if !Owned(p, SideOf(whiteToMove)) then []
    else
      match p.kind
      case Pawn => PawnMoves(b, whiteToMove, sq)
      case Rook => RookMoves(b, sq)
      case Knight => KnightMoves(b, sq)
      case Bishop => BishopMoves(b, sq)
      case Queen => QueenMoves(b, sq)
      case King => KingMoves(b, sq)
  }

  /** The inner loop of `getAllPossibleMoves`: columns `c`..7 of row `r`. */
  function ScanRow(b: Board, whiteToMove: bool, r: int, c: int): seq<Move>
    requires 0 <= r < 8 && 0 <= c <= 8
    decreases 8 - c
  {
    if c == 8 then []
    else MovesAt(b, whiteToMove, Sq(r, c)) + ScanRow(b, whiteToMove, r, c + 1)
  }

  /** The outer loop of `getAllPossibleMoves`: rows `r`..7. */
  function ScanRows(b: Board, whiteToMove: bool, r: int): seq<Move>
    requires 0 <= r <= 8
    decreases 8 - r
  {
    if r == 8 then []
    else ScanRow(b, whiteToMove, r, 0) + ScanRows(b, whiteToMove, r + 1)
  }

  /** `getAllPossibleMoves` for the side `whiteToMove` names. */
  function PseudoMoves(b: Board, whiteToMove: bool): seq<Move> {
    ScanRows(b, whiteToMove, 0)
  }
}
