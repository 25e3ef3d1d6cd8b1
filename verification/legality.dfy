/** Check detection and the legal-move filter: `getAllPossibleMoves` on a
    state, `isAttacking`, `inCheck` and `getValidMoves`, next to a reference
    definition of a legal move stated without the engine's turn flips. */
module Legality {
  import opened Chessboard
  import opened Moves
  import opened Generation
  import opened GenerationFacts
  import opened Distinctness
  import opened Game

  /** `getAllPossibleMoves` on a state: the generated moves of the side to
      move. */
  function AllPossibleMoves(s: GameState): seq<Move> {
    PseudoMoves(s.board, s.whiteToMove)
  }

  /** Every move of `getAllPossibleMoves` comes from a piece of the side to
      move and is built from the board; the list is in scan order and no two
      of its moves are equal under `Move.__eq__`. */
  lemma AllPossibleMovesFacts(s: GameState)
    ensures forall m :: m in AllPossibleMoves(s) <==>
      OnBoard(m.start) && Owned(At(s.board, m.start), SideOf(s.whiteToMove)) && m in MovesAt(s.board, s.whiteToMove, m.start)
    ensures forall m :: m in AllPossibleMoves(s) ==> Pseudo(s.board, s.whiteToMove, m)
    ensures DistinctIds(AllPossibleMoves(s)) && RowMajor(AllPossibleMoves(s))
  {
    PseudoMovesExact(s.board, s.whiteToMove);
    PseudoMovesDistinctIds(s.board, s.whiteToMove);
    PseudoMovesRowMajor(s.board, s.whiteToMove);
  }

  /** Some move the side `byWhite` could generate on `b` ends on `sq`. */
  ghost predicate Attacked(b: Board, byWhite: bool, sq: Square) {
    exists m :: m in PseudoMoves(b, byWhite) && m.end == sq
  }

  /** The `for move in moves` search of `isAttacking`. */
  function EndsAt(ms: seq<Move>, row: int, col: int): (r: bool)
    ensures r <==> exists m :: m in ms && m.end == Sq(row, col)
  {
    if ms == [] then false
    else if ms[0].end.row == row && ms[0].end.col == col then true
    else
      assert forall m :: m in ms[1..] ==> m in ms;
      assert forall m :: m in ms && m != ms[0] ==> m in ms[1..];
      EndsAt(ms[1..], row, col)
  }

  /** `isAttacking(row, col)`: the turn is handed to the opponent, the
      opponent's moves are generated, the turn is handed back, and the
      square is attacked when one of those moves ends on it. The second
      component is the state the probe leaves behind. */
  function IsAttackingProbe(s: GameState, row: int, col: int): (r: (bool, GameState))
    ensures r.1 == s
    ensures r.0 <==> Attacked(s.board, !s.whiteToMove, Sq(row, col))
  {
    var flipped := s.(whiteToMove := !s.whiteToMove);
    var moves := AllPossibleMoves(flipped);
    var back := flipped.(whiteToMove := !flipped.whiteToMove);
    (EndsAt(moves, row, col), back)
  }

  /** The location field of the king of the side to move. */
  function KingOf(s: GameState): Square {
    if s.whiteToMove then s.whiteKingLocation else s.blackKingLocation
  }

  /** `inCheck`: the king of the side to move is attacked by the opponent. */
  function InCheck(s: GameState): (r: bool)
    ensures r <==> Attacked(s.board, !s.whiteToMove, KingOf(s))
  {
    IsAttackingProbe(s, KingOf(s).row, KingOf(s).col).0
  }

  /** Reference legality: once `m` is played, no move of the opponent ends on
      the square of the mover's king. */
  ghost predicate Legal(s: GameState, m: Move)
    requires Playable(m)
  {
    var after := MakeMove(s, m);
    !Attacked(after.board, !s.whiteToMove, if s.whiteToMove then after.whiteKingLocation else after.blackKingLocation)
  }

  /** On a state whose king fields name the squares of the kings, the
      reference test reads the board itself: a generated move (every one is
      `Pseudo`, `AllPossibleMovesFacts`) is legal exactly when no opponent
      move reaches any square holding the mover's king afterwards. */
  lemma LegalIffKingSafe(s: GameState, m: Move)
    requires KingsTracked(s) && OnBoard(s.whiteKingLocation) && OnBoard(s.blackKingLocation)
    requires Pseudo(s.board, s.whiteToMove, m)
    ensures Playable(m)
    ensures Legal(s, m) <==>
      forall q :: OnBoard(q) && At(MakeMove(s, m).board, q) == Pc(SideOf(s.whiteToMove), King) ==>
        !Attacked(MakeMove(s, m).board, !s.whiteToMove, q)
  {
    var after := MakeMove(s, m);
    var king := if s.whiteToMove then after.whiteKingLocation else after.blackKingLocation;
    if m.pieceMoved == Pc(SideOf(s.whiteToMove), King) {
      assert OnBoard(m.end);
    }
    assert At(after.board, Cell(m.end)) == m.pieceMoved;
    forall q | OnBoard(q)
      ensures At(after.board, q) == Pc(SideOf(s.whiteToMove), King) <==> q == king
    {
      assert At(s.board, Cell(m.end)) == m.pieceCaptured;
    }
  }

  /** The engine's test inside `getValidMoves`: play `m`, give the turn back
      to the mover, ask `inCheck`. */
  function LeavesInCheck(s: GameState, m: Move): bool
    requires Playable(m)
  {
    InCheck(MakeMove(s, m).(whiteToMove := s.whiteToMove))
  }

  /** The double flip of `getValidMoves` asks exactly the reference question. */
  lemma LeavesInCheckIffIllegal(s: GameState, m: Move)
    requires Playable(m)
    ensures LeavesInCheck(s, m) <==> !Legal(s, m)
  {
  }

  /** The elements of `ms` that `keep` accepts, in their order. */
  ghost function Filter(ms: seq<Move>, keep: Move -> bool): seq<Move> {
    if ms == [] then []
    else (if keep(ms[0]) then [ms[0]] else []) + Filter(ms[1..], keep)
  }

  lemma {:induction false} FilterMembers(ms: seq<Move>, keep: Move -> bool)
    ensures forall m :: m in Filter(ms, keep) <==> m in ms && keep(m)
  {
    if ms != [] {
      FilterMembers(ms[1..], keep);
      assert ms == [ms[0]] + ms[1..];
    }
  }

  /** `r` is `ms` with some elements left out, the rest in their order: `idx`
      names the position in `ms` of each element of `r`. */
  ghost predicate Embeds(r: seq<Move>, ms: seq<Move>, idx: seq<int>) {
    && |idx| == |r|
    && (forall k :: 0 <= k < |idx| ==> 0 <= idx[k] < |ms| && r[k] == ms[idx[k]])
    && (forall k, l :: 0 <= k < l < |idx| ==> idx[k] < idx[l])
  }

  lemma {:induction false} FilterEmbeds(ms: seq<Move>, keep: Move -> bool) returns (idx: seq<int>)
    ensures Embeds(Filter(ms, keep), ms, idx)
  {
    if ms == [] {
      idx := [];
    } else {
      var rest := Filter(ms[1..], keep);
      var tail := FilterEmbeds(ms[1..], keep);
      idx := ShiftIndices(rest, ms, tail);
      if keep(ms[0]) {
        assert Filter(ms, keep) == [ms[0]] + rest;
        PrependIndex(rest, ms, idx);
        idx := [0] + idx;
      } else {
        assert Filter(ms, keep) == rest;
      }
    }
  }


  /** Positions in `ms[1..]` are positions in `ms` plus one. */
  lemma ShiftIndices(r: seq<Move>, ms: seq<Move>, tail: seq<int>) returns (idx: seq<int>)
    requires ms != [] && Embeds(r, ms[1..], tail)
    ensures Embeds(r, ms, idx)
    ensures forall k :: 0 <= k < |idx| ==> 1 <= idx[k]
  {
    idx := seq(|tail|, k requires 0 <= k < |tail| => tail[k] + 1);
    forall k | 0 <= k < |idx|
      ensures 1 <= idx[k] < |ms| && r[k] == ms[idx[k]]
    {
      assert ms[1..][tail[k]] == ms[tail[k] + 1];
    }
  }

  lemma PrependIndex(r: seq<Move>, ms: seq<Move>, idx: seq<int>)
    requires ms != [] && Embeds(r, ms, idx)
    requires forall k :: 0 <= k < |idx| ==> 1 <= idx[k]
    ensures Embeds([ms[0]] + r, ms, [0] + idx)
  {
    var r', idx' := [ms[0]] + r, [0] + idx;
    forall k | 0 <= k < |idx'|
      ensures 0 <= idx'[k] < |ms| && r'[k] == ms[idx'[k]]
    {
      if k > 0 {
        assert idx'[k] == idx[k - 1] && r'[k] == r[k - 1];
      }
    }
    forall k, l | 0 <= k < l < |idx'|
      ensures idx'[k] < idx'[l]
    {
      assert idx'[l] == idx[l - 1];
      if k > 0 {
        assert idx'[k] == idx[k - 1];
      }
    }
  }

  /** An order-preserving selection keeps row-major order and distinct ids. */
  lemma EmbedsKeepsOrder(r: seq<Move>, ms: seq<Move>, idx: seq<int>)
    requires Embeds(r, ms, idx) && RowMajor(ms) && DistinctIds(ms)
    ensures RowMajor(r) && DistinctIds(r)
  {
    forall k, l | 0 <= k <= l < |r|
      ensures ScanIndex(r[k].start) <= ScanIndex(r[l].start)
    {
      assert r[k] == ms[idx[k]] && r[l] == ms[idx[l]];
      assert k == l || idx[k] < idx[l];
    }
  }

  /** The reference test as a value for `Filter`. */
  ghost function LegalTest(s: GameState): Move -> bool {
    m => Playable(m) && Legal(s, m)
  }

  /** What `getValidMoves` returns, as a value: the legal moves among
      `getAllPossibleMoves`, in generation order. */
  ghost function ValidMoves(s: GameState): seq<Move> {
    Filter(AllPossibleMoves(s), LegalTest(s))
  }

  /** A move is valid exactly when it is generated and the engine's own
      `inCheck` test after it fails; the valid moves keep the scan order and
      no two are equal. */
  lemma ValidMovesExact(s: GameState)
    ensures forall m :: m in ValidMoves(s) <==>
      m in AllPossibleMoves(s) && Playable(m) && !LeavesInCheck(s, m)
    ensures RowMajor(ValidMoves(s)) && DistinctIds(ValidMoves(s))
  {
    var all := AllPossibleMoves(s);
    AllPossibleMovesFacts(s);
    FilterMembers(all, LegalTest(s));
    var idx := FilterEmbeds(all, LegalTest(s));
    EmbedsKeepsOrder(ValidMoves(s), all, idx);
  }

  /** `list.remove(x)`: drop the first element equal to `x` under
      `Move.__eq__`. Python raises ValueError when there is none; the engine
      never asks for that. */
  function RemoveFirst(ms: seq<Move>, x: Move): (r: seq<Move>)
    requires exists i :: 0 <= i < |ms| && SameMove(ms[i], x)
    ensures |r| == |ms| - 1
  {
    if SameMove(ms[0], x) then ms[1..]
    else
      var i :| 0 <= i < |ms| && SameMove(ms[i], x);
      assert ms[1..][i - 1] == ms[i];
      [ms[0]] + RemoveFirst(ms[1..], x)
  }

  /** When `ms[i]` is the first element equal to `x`, removing `x` deletes
      position `i` and keeps the rest in order. */
  lemma {:induction false} RemoveFirstDeletes(ms: seq<Move>, x: Move, i: int)
    requires 0 <= i < |ms| && SameMove(ms[i], x)
    requires forall j :: 0 <= j < i ==> !SameMove(ms[j], x)
    ensures RemoveFirst(ms, x) == ms[..i] + ms[i + 1..]
  {
    if i > 0 {
      assert ms[1..][i - 1] == ms[i];
      RemoveFirstDeletes(ms[1..], x, i - 1);
      assert ms[..i] == [ms[0]] + ms[1..][..i - 1];
      assert ms[i + 1..] == ms[1..][i..];
    }
  }

  /** One step of a filter read from the back. */
  lemma FilterStep(all: seq<Move>, keep: Move -> bool, i: int)
    requires 0 <= i < |all|
    ensures Filter(all[i..], keep) == (if keep(all[i]) then [all[i]] else []) + Filter(all[i + 1..], keep)
  {
    assert all[i..][1..] == all[i + 1..];
  }

  /** A kept `all[i]` stays where it is. */
  lemma KeepStep(all: seq<Move>, keep: Move -> bool, i: int)
    requires 0 <= i < |all| && keep(all[i])
    ensures all[..i + 1] + Filter(all[i + 1..], keep) == all[..i] + Filter(all[i..], keep)
  {
    FilterStep(all, keep, i);
    assert all[..i + 1] == all[..i] + [all[i]];
  }

  /** A dropped `all[i]` is the first element equal to itself when ids are
      distinct, so `list.remove` takes out exactly position `i`. */
  lemma DropStep(all: seq<Move>, keep: Move -> bool, moves: seq<Move>, i: int)
    requires 0 <= i < |all| && DistinctIds(all) && !keep(all[i])
    requires moves == all[..i + 1] + Filter(all[i + 1..], keep)
    ensures i < |moves| && moves[i] == all[i]
    ensures RemoveFirst(moves, moves[i]) == all[..i] + Filter(all[i..], keep)
  {
    var rest := Filter(all[i + 1..], keep);
    assert moves[..i] == all[..i] && moves[i + 1..] == rest;
    assert RemoveFirst(moves, moves[i]) == moves[..i] + moves[i + 1..] by {
      assert forall j :: 0 <= j <= i ==> moves[j] == all[j];
      FirstOfItsId(all, moves, i);
      RemoveFirstDeletes(moves, moves[i], i);
    }
    assert Filter(all[i..], keep) == rest by {
      FilterStep(all, keep, i);
    }
  }


  /** With distinct ids in `all`, a list that agrees with `all` up to `i`
      has no element before `i` equal to its element `i`. */
  lemma FirstOfItsId(all: seq<Move>, moves: seq<Move>, i: int)
    requires 0 <= i < |all| && i < |moves| && DistinctIds(all)
    requires forall j :: 0 <= j <= i ==> moves[j] == all[j]
    ensures forall j :: 0 <= j < i ==> !SameMove(moves[j], moves[i])
  {
  }


  /** The body of the loop of `getValidMoves` for one move: play it, hand the
      turn back to the mover, ask `inCheck`, hand the turn on again, undo.
      The answer is the reference question and the state comes back. */
  method Probe(s: GameState, m: Move) returns (illegal: bool, s': GameState)
    requires KingsPlaced(s) && BuiltFrom(m, s.board) && OnBoard(m.start)
    ensures Playable(m) && (illegal <==> !Legal(s, m))
    ensures s' == s
  {
    LeavesInCheckIffIllegal(s, m);
    RoundTripWhenKingsPlaced(s, m);
    s' := MakeMove(s, m);
    s' := s'.(whiteToMove := !s'.whiteToMove);
    illegal := InCheck(s');
    s' := s'.(whiteToMove := !s'.whiteToMove);
    s' := UndoMove(s');
  }

  /** The `if self.inCheck(): moves.remove(moves[i])` of one iteration. */
  method Settle(all: seq<Move>, ghost keep: Move -> bool, moves: seq<Move>, i: int, illegal: bool)
    returns (moves': seq<Move>)
    requires 0 <= i < |all| && DistinctIds(all) && (illegal <==> !keep(all[i]))
    requires moves == all[..i + 1] + Filter(all[i + 1..], keep)
    ensures moves' == all[..i] + Filter(all[i..], keep)
  {
    if illegal {
      DropStep(all, keep, moves, i);
      moves' := RemoveFirst(moves, moves[i]);
    } else {
      KeepStep(all, keep, i);
      moves' := moves;
    }
  }

  /** What the loop of `getValidMoves` needs of the state and of the moves
      it walks: kings on their fields, moves built from the board and leaving
      an on-board square, no two equal. */
  ghost predicate LoopReady(s: GameState, all: seq<Move>) {
    && KingsPlaced(s)
    && DistinctIds(all)
    && (forall m :: m in all ==> BuiltFrom(m, s.board) && OnBoard(m.start))
  }

  /** `keep` answers the reference question on `s` for every playable move. */
  ghost predicate Decides(s: GameState, keep: Move -> bool) {
    forall m {:trigger Legal(s, m)} :: Playable(m) ==> (keep(m) <==> Legal(s, m))
  }

  lemma LegalTestDecides(s: GameState)
    ensures Decides(s, LegalTest(s))
  {
  }

  /** The moves kept so far when the loop has reached index `i`: the ones not
      yet probed, then the survivors among the ones probed. */
  ghost function Kept(all: seq<Move>, keep: Move -> bool, i: int): seq<Move>
    requires -1 <= i < |all|
  {
    all[..i + 1] + Filter(all[i + 1..], keep)
  }

  /** The loop of `getValidMoves` over the generated moves `all`: from the
      last to the first, a move whose probe finds the mover in check is
      removed with `list.remove`. Every probe hands back the state it was
      given, so each iteration starts from `s`. */
  method RemoveIllegal(s: GameState, all: seq<Move>, ghost keep: Move -> bool) returns (moves: seq<Move>)
    requires LoopReady(s, all) && Decides(s, keep)
    ensures moves == Filter(all, keep)
  {
    moves := all;
    var i := |all| - 1;
    assert Kept(all, keep, i) == all by {
      assert all[..i + 1] == all && all[i + 1..] == [];
    }
    while i >= 0
      invariant -1 <= i < |all|
      invariant moves == Kept(all, keep, i)
      decreases i
    {
      moves := Iteration(s, all, keep, moves, i);
      i := i - 1;
    }
    assert Kept(all, keep, -1) == Filter(all, keep) by {
      assert all[..0] == [] && all[0..] == all;
    }
  }

  /** Iteration `i` of that loop: probe `moves[i]`, which is `all[i]`, and
      remove it if the probe found the mover in check. */
  method Iteration(s: GameState, all: seq<Move>, ghost keep: Move -> bool, moves: seq<Move>, i: int)
    returns (moves': seq<Move>)
    requires LoopReady(s, all) && Decides(s, keep) && 0 <= i < |all| && moves == Kept(all, keep, i)
    ensures moves' == Kept(all, keep, i - 1)
  {
    assert all[i] in all;
    assert moves[i] == all[i];
    var illegal, _ := Probe(s, moves[i]);
    moves' := Settle(all, keep, moves, i, illegal);
  }

  /** `getValidMoves`: the legal moves, then the flags. An empty result sets
      `checkmate` or `stalemate` and leaves the other as it was; a non-empty
      one clears both. The kings must be on their location fields, which the
      engine maintains. */
  method GetValidMoves(s: GameState) returns (moves: seq<Move>, s': GameState)
    requires KingsPlaced(s)
    ensures moves == ValidMoves(s)
    ensures s'.board == s.board && s'.whiteToMove == s.whiteToMove && s'.moveHistory == s.moveHistory
    ensures s'.whiteKingLocation == s.whiteKingLocation && s'.blackKingLocation == s.blackKingLocation
    ensures moves != [] ==> !s'.checkmate && !s'.stalemate
    ensures moves == [] && InCheck(s) ==> s'.checkmate && s'.stalemate == s.stalemate
    ensures moves == [] && !InCheck(s) ==> s'.stalemate && s'.checkmate == s.checkmate
  {
    var all := AllPossibleMoves(s);
    AllPossibleMovesFacts(s);
    LegalTestDecides(s);
    moves := RemoveIllegal(s, all, LegalTest(s));
    s' := s;
    if |moves| == 0 {
      if InCheck(s') {
        s' := s'.(checkmate := true);
      } else {
        s' := s'.(stalemate := true);
      }
    } else {
      s' := s'.(checkmate := false, stalemate := false);
    }
  }

  /** The engine starts from a state the legal-move filter accepts. */
  lemma InitialKingsPlaced()
    ensures KingsPlaced(Initial)
  {
    InitialKingsTracked();
  }
}
