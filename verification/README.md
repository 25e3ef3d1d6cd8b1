# Chess rules engine, modelled in Dafny

This project models the rules engine of a small Python chess program
(`engine.py`). There are two classes.

- `GameState` holds an 8x8 board, the side to move, the two king-location
  fields, a history stack and the `checkmate`/`stalemate` flags. It offers:
  - `makeMove` and `undoMove`;
  - six pseudo-legal generators and the row-major scan `getAllPossibleMoves`;
  - attack detection with `isAttacking` and `inCheck`;
  - the legality filter `getValidMoves`.
- `Move` holds two squares, snapshots of the moved and captured pieces, the
  integer `moveID` that decides equality, and rank/file notation.

The Python probes positions by mutating the state and restoring it. The model
states this with pure functions on an immutable `GameState` value. The
make/undo round trip (`Game.RoundTripWhenKingsPlaced`) shows that every probe
gives the state back, so `getValidMoves` can be written as a method whose loop
keeps one unchanged state. The loop follows the code:
- it walks the generated list from the back;
- for each move it plays the move, hands the turn back, asks `inCheck`, hands
  the turn on again and undoes;
- it removes a failing move with `list.remove`, which drops the first move
  whose id is equal.

The result is proved equal to an order-preserving filter. That filter keeps
exactly the generated moves after which no opponent move reaches the square
the mover's king field names. When the king fields name the kings' squares,
that is the square holding the mover's king (`Legality.LegalIffKingSafe`).

Files:
- `wrappers.dfy`: `Option`.
- `chessboard.dfy`: pieces, squares, the board, and Python's negative-index
  reading.
- `move.dfy`: `Move`, `moveID`, and the notation tables.
- `generation.dfy`: the six generators and the scan.
- `generation_facts.dfy`: what the generators produce.
- `distinct.dfy`: no two generated moves are equal.
- `game.dfy`: the state, `makeMove`, `undoMove`, and the king-field invariants.
- `legality.dfy`: `isAttacking`, `inCheck` and `getValidMoves`.

Two behaviours of the code are easy to miss.

- **The white pawn on row 0.** The white pawn branch has no row bound. A white
  pawn that reaches row 0 looks at row `-1`, which Python reads as row 7. The
  model keeps this. Squares are unbounded integers, board access wraps indices
  in [-8, 0) as Python does, and such a pawn produces moves whose end row is
  -1. Every "lands on the board" property carves this case out.
- **The terminal flags.** An empty result sets one flag and leaves the other
  as it was (engine.py:59-66), so the two flags can both be true. Only a
  non-empty result clears both. `Legality.GetValidMoves` states this.

## Model

| member | source | states |
|---|---|---|
| Chessboard.SetAt | engine.py:28-29 | writing one grid cell changes the piece on exactly the square that index addresses, negative indices wrapping as in Python, and on no other square |
| Moves.SameMoveIffSameSquares | engine.py:320-326 | for coordinates a generated move can have, two moves are equal under `__eq__` exactly when their start and end squares agree, whatever pieces they carry |
| Moves.RankTablesInvert | engine.py:306-308 | `rowsToRanks` is defined on exactly rows 0..7 and is the two-sided inverse of `ranksToRows` |
| Moves.FileTablesInvert | engine.py:309-311 | `colsToFiles` is defined on exactly columns 0..7 and is the two-sided inverse of `filesToCols` |
| Moves.NotationRoundTrip | engine.py:328-332 | `getChessNotation` succeeds exactly when both squares are on the board (otherwise the table lookup fails), and reading the four characters back with the inverse tables gives the two squares |
| Generation.AlongBound | engine.py:141-142 | a ray from an on-board square leaves the board within 7 steps, so the `while True` loops end |
| GenerationFacts.RayShape | engine.py:129-151 | one ray is the run of consecutive empty squares in its direction, closed by at most one opponent-occupied square; it stops before an own piece or the edge |
| GenerationFacts.RayStops | engine.py:141-142 | a ray whose next square is off the board or holds an own piece ends there with no move |
| GenerationFacts.RayCaptures | engine.py:146-149 | a ray whose next square holds an opponent's piece ends with that one capture |
| GenerationFacts.RayExtend | engine.py:143-145 | an empty square extends the ray by a quiet move and the ray goes on |
| GenerationFacts.RaySound | engine.py:125-151 | every ray move is built from the board, leaves the piece's square, lands on the board, and lands on an empty or opponent square |
| GenerationFacts.RayShapeSound | engine.py:143-149 | every move of a ray shape lands on the board on an empty or opponent square |
| GenerationFacts.SlidesSound | engine.py:153-183 | every move of a sliding piece is built from the board, lands on the board, and never on an own piece |
| GenerationFacts.SlidesAppend | engine.py:231-254 | sliding along two direction lists is sliding along the first, then the second |
| GenerationFacts.QueenIsBishopThenRook | engine.py:227-265 | the queen's moves are the bishop's moves followed by the rook's, so its targets are the union of theirs |
| GenerationFacts.StepsShape | engine.py:218-225 | a fixed-offset generator targets exactly the offsets that land on the board on an empty or opponent square, and its moves are sound |
| GenerationFacts.KnightJumpsExact | engine.py:194-217 | the eight knight offsets are exactly the squares two away on one axis and one away on the other |
| GenerationFacts.KingStepsExact | engine.py:274-293 | the eight king offsets are exactly the neighbouring squares |
| GenerationFacts.KnightTargets | engine.py:187-225 | the knight targets exactly the on-board knight jumps onto empty or opponent squares |
| GenerationFacts.KingTargets | engine.py:267-301 | the king targets exactly the on-board neighbours that are empty or hold an opponent's piece |
| GenerationFacts.PawnTargets | engine.py:95-123 | pawn targets are exactly the pawn rules: a single push onto an empty square; a double push from the home row over two empty squares; a diagonal step onto an opponent's piece; nothing for a black pawn on row 7 |
| GenerationFacts.WhitePawnTargets | engine.py:96-108 | the white half of the pawn rules, with no row bound |
| GenerationFacts.BlackPawnTargets | engine.py:109-123 | the black half of the pawn rules, guarded by the row bound |
| GenerationFacts.PawnSound | engine.py:95-123 | pawn moves are built from the board and never land on an own piece; they land on the board except a white pawn on row 0 stepping to row -1 |
| GenerationFacts.WhitePawnSound | engine.py:96-108 | white pawn moves are sound, and land on the board unless the pawn stands on row 0 |
| GenerationFacts.BlackPawnSound | engine.py:109-123 | black pawn moves are sound and always land on the board |
| GenerationFacts.MovesAtSound | engine.py:89-92 | only a piece of the side to move yields moves; each leaves that square and is pseudo-legal |
| GenerationFacts.MovesAtStart | engine.py:89-92 | every move the dispatch yields for a square starts on that square |
| GenerationFacts.ScanRowMembers | engine.py:88-92 | the column loop yields exactly the moves of the own pieces in columns c..7 of its row |
| GenerationFacts.ScanRowsMembers | engine.py:87-92 | the row loop yields exactly the moves of the own pieces in rows r..7 |
| GenerationFacts.PseudoMovesExact | engine.py:85-93 | `getAllPossibleMoves` holds exactly the moves the generators produce for pieces of the side to move, each pseudo-legal |
| GenerationFacts.GeneratedIsPseudo | engine.py:89-92 | a move the dispatch yields for its own start square comes from a piece of the side to move and is pseudo-legal |
| GenerationFacts.ScanRowOrder | engine.py:88-92 | the column loop lists moves by ascending start column |
| GenerationFacts.ScanRowsOrder | engine.py:87-92 | the row loop lists moves in row-major order of their start squares |
| GenerationFacts.PseudoMovesRowMajor | engine.py:85-93 | `getAllPossibleMoves` lists moves in row-major order of their start squares |
| Distinctness.RayDistinct | engine.py:129-151 | the moves of one ray go to distinct squares, each some number of steps along the direction |
| Distinctness.SlidesDistinct | engine.py:129-151 | the moves of a sliding piece go to distinct squares |
| Distinctness.StepsDistinct | engine.py:191-225 | distinct fixed offsets give moves to distinct squares |
| Distinctness.PawnDistinct | engine.py:95-123 | the moves of one pawn go to distinct squares |
| Distinctness.MovesAtDistinct | engine.py:89-92 | the moves of any one piece go to distinct squares |
| Distinctness.ScanRowDistinct | engine.py:88-92 | no two moves of one row share both start and end |
| Distinctness.ScanRowsDistinct | engine.py:87-92 | no two moves of the scan share both start and end |
| Distinctness.PseudoMovesDistinctIds | engine.py:85-93 | no two moves of `getAllPossibleMoves` are equal under `__eq__`, so `list.remove` of a listed move removes that very move |
| Game.MakeMove | engine.py:27-35 | the start square is emptied and the end square gets the moved piece, no other square changes; one history entry is pushed; the side flips; a king field changes only when that king moves; the flags are untouched; no legality check is made |
| Game.UndoMove | engine.py:37-46 | an empty history changes nothing; otherwise the last entry is popped, the side flips back, the two squares get back the moved and captured pieces, and a moved king's field goes back to the start square while the other field stays; the flags are untouched |
| Game.MakeUndoRoundTrip | engine.py:27-46 | undoing right after making a move built from the current board restores the whole state, when a moving king started on its location field |
| Game.InitialKingsTracked | engine.py:7-25 | in the starting position each king field names the one square holding that king |
| Game.RoundTripWhenKingsPlaced | engine.py:27-46 | when every king stands on its location field, make-then-undo of a move built from the board that starts on the board, as every generated move does, restores the state |
| Game.MakeMoveKeepsKingsPlaced | engine.py:27-35 | making a move built from the board that starts on the board and whose king move lands on the board, as every generated move does, keeps every king on its location field |
| Game.MakeMoveKeepsKingsTracked | engine.py:27-35 | a move built from the board that starts on the board, whose king move lands on the board and which captures no king, as every generated non-king-capturing move is, keeps each king field naming the one square holding that king |
| Legality.AllPossibleMovesFacts | engine.py:85-93 | the generated moves of a state are exactly the generators' moves for the side to move, each pseudo-legal, in row-major order, with no two equal |
| Legality.EndsAt | engine.py:80-83 | the search answers true exactly when some listed move ends on the square |
| Legality.IsAttackingProbe | engine.py:76-83 | the square is attacked exactly when some move the opponent could generate ends on it, and the state comes back unchanged |
| Legality.InCheck | engine.py:70-74 | the side to move is in check exactly when an opponent move reaches the square its king field names |
| Legality.LegalIffKingSafe | engine.py:48-57 | when the king fields name the kings' squares, a pseudo-legal move (every generated move is one) passes the engine's test exactly when, after it, no opponent move reaches any square holding the mover's king |
| Legality.LeavesInCheckIffIllegal | engine.py:52-54 | playing a move, handing the turn back and asking `inCheck` is exactly the test that the mover's king is attacked after the move |
| Legality.FilterMembers | engine.py:51-57 | the moves kept are exactly the listed moves that pass the test |
| Legality.FilterEmbeds | engine.py:51-57 | the moves kept appear in their original order |
| Legality.EmbedsKeepsOrder | engine.py:51-57 | keeping a selection in order preserves row-major order and distinct ids |
| Legality.ValidMovesExact | engine.py:48-68 | a move is valid exactly when it is generated and does not leave the mover in check; the valid moves keep the scan order and no two are equal |
| Legality.RemoveFirst | engine.py:55 | `list.remove` takes out exactly one element |
| Legality.RemoveFirstDeletes | engine.py:55 | when position i holds the first move equal to x, `list.remove(x)` deletes position i and keeps the rest in order |
| Legality.FilterStep | engine.py:51-57 | filtering from position i is the test on move i followed by filtering from i+1 |
| Legality.KeepStep | engine.py:54-55 | a move that passes stays in place |
| Legality.DropStep | engine.py:55 | a failing move is the first of its id, so removing it deletes exactly its position |
| Legality.FirstOfItsId | engine.py:55 | while the list agrees with the distinct generated list up to i, no earlier move is equal to move i |
| Legality.Probe | engine.py:52-57 | the make, flip, test, flip, undo sequence answers "illegal" exactly when the reference test fails, and gives the state back, when every king stands on its location field and the move is built from the board and starts on it |
| Legality.Settle | engine.py:54-55 | one conditional removal moves the kept list from index i to index i-1 |
| Legality.RemoveIllegal | engine.py:51-57 | when every king stands on its location field, and the moves walked are built from the board, start on it and have distinct ids (as the generated moves do), the backward loop with removal yields exactly the order-preserving filter of those moves |
| Legality.Iteration | engine.py:52-57 | under the same conditions as the loop, one iteration probes the move at i and keeps or removes it, taking the kept list from index i to index i-1 |
| Legality.GetValidMoves | engine.py:48-68 | the result is the legal moves in generation order; board, side, history and king fields are unchanged; an empty result sets checkmate when in check and stalemate otherwise, leaving the other flag as it was; a non-empty result clears both |
| Legality.InitialKingsPlaced | engine.py:22-23 | the starting state meets the king-field condition `getValidMoves` relies on |

## Left out

- numpy (engine.py:1, 8-17): the board is a sequence of rows of `Piece` values. `Empty` stands for the `"--"` string.
- The `moveFunctions` dictionary of bound methods: an exhaustive match on the piece kind replaces it.
- main.py is not part of this model. It holds the window, image loading, drawing and the event loop, and no rules logic.
- The `__main__` print block of engine.py: it is output only.
- Castling, en passant and promotion: the engine does not implement them.
- Move counts such as the twenty opening moves: no code states them.
- Legality.RemoveFirst: the ValueError Python raises when no element is equal is a precondition. The engine only removes a move it has just read from the list.
- Legality.GetValidMoves: it requires every king on the board to stand on its location field. The engine keeps this from the start: the starting state meets it (`Legality.InitialKingsPlaced`), making a move that is built from the board, starts on the board and whose king move lands on the board, as every generated move does, keeps it (`Game.MakeMoveKeepsKingsPlaced`), and undoing such a move right after making it returns to the earlier state that met it (`Game.RoundTripWhenKingsPlaced`). Without it, undoing a king move would not restore the field.
- Game.MakeMoveKeepsKingsTracked: it excludes moves that capture a king. Such a capture removes that king from the board while its field still names the square.
- Game.MakeUndoRoundTrip: it needs the move built from the current board and a moving king on its field. These are what the engine guarantees for its own probes. A move built on another board need not round-trip.
- Moves.Build, Chessboard.At, Chessboard.SetAt, Game.MakeMove and Game.UndoMove require board indices in [-8, 8). Outside that range `Move.__init__` and the grid writes of `makeMove` and `undoMove` raise IndexError; the model does not have that error path. No call the engine makes reaches it: generated squares lie in that range, and `makeMove` raises before it appends, so an unplayable move never enters the history.
- Generation.RookMoves, Generation.BishopMoves, Generation.QueenMoves, Generation.KnightMoves and Generation.KingMoves require a piece on the start square. On an empty square the engine's `opponentDict` lookup would raise KeyError; the model does not have that error path. The scan calls a generator only for a piece of the side to move, so the engine never reaches it.
- Probes leave no trace in the model. The Python mutates shared fields during a probe, and concurrent observation of that is out of scope.
