// The game state of the engine: the board, its padded buffer and the
// kings' squares, updated in place.

module Game {
  import opened Pieces
  import opened Board
  import opened Rules
  import opened Check

  /** Both kings' squares are recorded and on the board. */
  predicate KingsKnown(kingPos: map<Side, Pos>) {
    forall s: Side :: s in kingPos && InBoard(kingPos[s])
  }

  /** The recorded squares seen from the other side of the board. */
  function FlipKings(kingPos: map<Side, Pos>): (r: map<Side, Pos>)
    requires KingsKnown(kingPos)
    ensures KingsKnown(r)
  {
    var r := kingPos[White := Flip(kingPos[White])][Black := Flip(kingPos[Black])];
    assert KingsKnown(r) by {
      forall s: Side ensures s in r && InBoard(r[s]) {
        if s == White { } else { }
      }
    }
    r
  }

  /** `switch_sides` done twice restores the board, the buffer and the
      kings' squares. */
  lemma {:induction false} SwitchTwice(board: Grid, buff: Grid, kingPos: map<Side, Pos>)
    requires Synced(board, buff) && KingsKnown(kingPos)
    ensures Rotated(Rotated(board)) == board && Rotated(Rotated(buff)) == buff
    ensures FlipKings(FlipKings(kingPos)) == kingPos
  {
    RotatedTwice(board, 8, 8);
    RotatedTwice(buff, 12, 12);
    var twice := FlipKings(FlipKings(kingPos));
    forall s: Side ensures s in twice && twice[s] == kingPos[s] {
      if s == White { } else { }
    }
    assert twice.Keys == kingPos.Keys;
  }

  /** The kings' squares of a new game. */
  function StartKings(): (r: map<Side, Pos>)
    ensures KingsKnown(r)
  {
    var r := map[White := (7, 4), Black := (0, 4)];
    assert KingsKnown(r) by {
      forall s: Side ensures s in r && InBoard(r[s]) {
        if s == White { } else { }
      }
    }
    r
  }

  class Chess {
    var board: Grid
    var buffBoard: Grid
    var kingPos: map<Side, Pos>

    /** The buffer is the board inside two rings of empty squares, and both
        kings' squares are known. */
    predicate Valid()
      reads this
    {
      Synced(board, buffBoard) && KingsKnown(kingPos)
    }

    /** `Chess(board)`: the kings start on (7, 4) and (0, 4), and the board
        is the given one, or the opening layout when none is given. */
    constructor(b: Grid)
      requires |b| == 0 || Shape8(b)
      ensures Valid()
      ensures board == (if |b| == 0 then DefaultBoard() else b) && buffBoard == Pad(board)
      ensures kingPos == StartKings()
    {
      kingPos := StartKings();
      new;
      ResetBoard(b);
    }

    /** `reset_board`: install the given board, or the opening layout when
        it is empty, and rebuild the buffer around it; the kings' squares
        are left as they were. */
    method ResetBoard(b: Grid)
      requires |b| == 0 || Shape8(b)
      modifies this
      ensures board == (if |b| == 0 then DefaultBoard() else b) && buffBoard == Pad(board)
      ensures Synced(board, buffBoard)
      ensures kingPos == old(kingPos)
    {
      board := if |b| == 0 then DefaultBoard() else b;
      buffBoard := Pad(board);
      PadExact(board, buffBoard);
    }

    /** `get_piece`: the board and the buffer agree on every square. */
    function GetPiece(pos: Pos): (p: Piece)
      reads this
      requires Valid() && InBoard(pos)
      ensures p == At(buffBoard, pos)
    {
      board[pos.0][pos.1]
    }

    /** `place_piece`: write the square in the board and in the buffer;
        nothing else changes and the buffer stays in sync. */
    method PlacePiece(pos: Pos, piece: Piece)
      requires Valid() && InBoard(pos)
      modifies this
      ensures Valid()
      ensures board == Place(old(board), pos, piece)
      ensures buffBoard == Place(old(buffBoard), (2 + pos.0, 2 + pos.1), piece)
      ensures kingPos == old(kingPos)
    {
      board := Place(board, pos, piece);
      buffBoard := Place(buffBoard, (2 + pos.0, 2 + pos.1), piece);
    }

    /** `move`: the target receives the piece and the origin is emptied, in
        that order; the buffer follows and the kings' squares stay. */
    method Move(pos: Pos, target: Pos)
      requires Valid() && InBoard(pos) && InBoard(target)
      modifies this
      ensures Valid()
      ensures board == Moved(old(board), pos, target) && buffBoard == Pad(board)
      ensures kingPos == old(kingPos)
    {
      var piece := GetPiece(pos);
      PlacePiece(target, piece);
      PlacePiece(pos, Empty);
      PadExact(board, buffBoard);
    }

    /** `switch_sides`: both grids turned half a circle and both kings'
        squares mirrored, keeping the state valid. */
    method SwitchSides()
      requires Valid()
      modifies this
      ensures Valid()
      ensures board == Rotated(old(board)) && buffBoard == Rotated(old(buffBoard))
      ensures kingPos == FlipKings(old(kingPos))
    {
      RotatedSynced(board, buffBoard);
      board := Rotated(board);
      buffBoard := Rotated(buffBoard);
      kingPos := kingPos[White := Flip(kingPos[White])];
      kingPos := kingPos[Black := Flip(kingPos[Black])];
    }

    /** `in_check(color, pos)`, where a missing `pos` means the king's
        recorded square: a square is reported exactly when that square is
        attacked by the other side. */
    function InCheckAt(color: Side, pos: Option<Pos>): (r: Option<Pos>)
      reads this
      requires Valid() && (pos.Some? ==> CheckDomain(pos.value))
      ensures r.Some? <==> Attacked(buffBoard, color, if pos.None? then kingPos[color] else pos.value)
    {
      var target := if pos.None? then kingPos[color] else pos.value;
      InCheckIffAttacked(buffBoard, color, target);
      InCheck(buffBoard, color, target)
    }

    /** The body of one trial of `in_checkmate`'s loop: move the piece
        from `kp` to `m` and ask whether `color` is then out of check on
        `m`. */
    method MoveAndTest(color: Side, kp: Pos, m: Pos) returns (escaped: bool)
      requires Valid() && InBoard(kp) && InBoard(m)
      modifies this
      ensures Valid() && kingPos == old(kingPos)
      ensures board == Moved(old(board), kp, m) && buffBoard == Pad(board)
      ensures escaped == Escapes(old(board), color, kp, m)
    {
      Move(kp, m);
      var after := InCheckAt(color, Some(m));
      escaped := after.None?;
    }

    /** One trial of `in_checkmate`'s loop: snapshot the board, move the
        piece from `kp` to `m`, and restore the snapshot unless `color` is
        then out of check. */
    method TryKingMove(color: Side, kp: Pos, m: Pos) returns (escaped: bool)
      requires Valid() && InBoard(kp) && InBoard(m)
      modifies this
      ensures Valid() && kingPos == old(kingPos) && buffBoard == Pad(board)
      ensures escaped == Escapes(old(board), color, kp, m)
      ensures board == if escaped then Moved(old(board), kp, m) else old(board)
    {
      var snapshot := board;
      escaped := MoveAndTest(color, kp, m);
      if !escaped {
        ResetBoard(snapshot);
      }
    }

    /** `in_checkmate(color)`: each move of the piece on the king's recorded
        square is tried on the board and undone from a snapshot unless it
        escapes, in which case it stays; then `in_check` for the other side
        asks whether `color`'s own pieces attack the checking square. */
    method InCheckmate(color: Side) returns (r: Option<bool>)
      requires Valid() && CheckmateDomain(board, kingPos[color])
      modifies this
      ensures Valid() && kingPos == old(kingPos) && buffBoard == Pad(board)
      ensures CheckmateDomain(old(board), kingPos[color]) && (r, board) == Checkmate(old(board), color, kingPos[color])
    {
      PadExact(board, buffBoard);
      var checked := InCheckAt(color, None);
      if checked.None? {
        return None;
      }
      var kp := kingPos[color];
      var king := GetPiece(kp);
      var moves := ValidMoves(king, kp, buffBoard);
      assert moves == Trials(board, kp);
      ghost var start := board;
      var i := 0;
      while i < |moves|
        invariant 0 <= i <= |moves|
        invariant Valid() && board == start && buffBoard == old(buffBoard) && kingPos == old(kingPos)
        invariant FirstEscape(start, color, kp, moves) >= i
      {
        var escaped := TryKingMove(color, kp, moves[i]);
        if escaped {
          FirstEscapeAt(start, color, kp, moves, i);
          CheckmateEscape(start, color, kp, moves[i]);
          return Some(false);
        }
        i := i + 1;
      }
      NoEscapeTaken(board, color, kp);
      var capture := InCheckAt(Negate(color), Some(checked.value));
      r := Some(capture.None?);
    }
  }
}
