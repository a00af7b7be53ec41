// The 8x8 board, its 12x12 padded buffer (two rings of empty squares around
// the board) and the pure transformations the game state goes through.

module Board {
  import opened Pieces

  type Grid = seq<seq<Piece>>

  predicate InBoard(p: Pos) {
    0 <= p.0 <= 7 && 0 <= p.1 <= 7
  }

  /** The logical squares whose buffer cell `buff[2 + r][2 + c]` exists. */
  predicate InBuffer(p: Pos) {
    -2 <= p.0 <= 9 && -2 <= p.1 <= 9
  }

  predicate Rect(g: Grid, rows: nat, cols: nat) {
    |g| == rows && forall i :: 0 <= i < rows ==> |g[i]| == cols
  }

  predicate Shape8(b: Grid) { Rect(b, 8, 8) }

  predicate Shape12(buff: Grid) { Rect(buff, 12, 12) }

  /** The buffer cell of logical square (r, c). */
  function At(buff: Grid, p: Pos): Piece
    requires Shape12(buff) && InBuffer(p)
  {
    buff[2 + p.0][2 + p.1]
  }

  /** The outer two rings of the buffer hold only empty squares. */
  predicate Padded(buff: Grid) {
    Shape12(buff) &&
    forall i, j :: 0 <= i < 12 && 0 <= j < 12 && (i < 2 || 10 <= i || j < 2 || 10 <= j) ==>
      buff[i][j] == Empty
  }

  /** In a padded buffer only board squares can be occupied. */
  lemma OccupiedInBoard(buff: Grid, p: Pos)
    requires Padded(buff) && InBuffer(p) && At(buff, p).Piece?
    ensures InBoard(p)
  {
  }

  /** The buffer's inner 8x8 block is the board. */
  predicate Mirrors(b: Grid, buff: Grid)
    requires Shape8(b) && Shape12(buff)
  {
    forall r, c :: 0 <= r < 8 && 0 <= c < 8 ==> buff[2 + r][2 + c] == b[r][c]
  }

  /** The buffer invariant of the game state. */
  predicate Synced(b: Grid, buff: Grid) {
    Shape8(b) && Padded(buff) && Mirrors(b, buff)
  }

  function EmptyRow(n: nat): (r: seq<Piece>)
    ensures |r| == n && forall j :: 0 <= j < n ==> r[j] == Empty
  {
    seq(n, _ => Empty)
  }

  /** The buffer `reset_board` builds: two empty rows, each board row with
      two empty cells on either side, two empty rows. */
  function Pad(b: Grid): (r: Grid)
    requires Shape8(b)
    ensures Shape12(r)
  {
    var r := [EmptyRow(12), EmptyRow(12)]
      + seq(8, i requires 0 <= i < 8 => EmptyRow(2) + b[i] + EmptyRow(2))
      + [EmptyRow(12), EmptyRow(12)];
    assert Shape12(r) by {
      forall i | 0 <= i < 12 ensures |r[i]| == 12 {
        if 2 <= i < 10 { assert r[i] == EmptyRow(2) + b[i - 2] + EmptyRow(2); }
      }
    }
    r
  }

  /** The padded image of a board is the only buffer in sync with it. */
  lemma {:induction false} PadExact(b: Grid, buff: Grid)
    requires Shape8(b)
    ensures Synced(b, Pad(b))
    ensures Synced(b, buff) <==> buff == Pad(b)
  {
    var p := Pad(b);
    assert Shape12(p) by {
      forall i | 0 <= i < 12 ensures |p[i]| == 12 {
        if 2 <= i < 10 { assert p[i] == EmptyRow(2) + b[i - 2] + EmptyRow(2); }
      }
    }
    forall i, j | 0 <= i < 12 && 0 <= j < 12
      ensures p[i][j] == if 2 <= i < 10 && 2 <= j < 10 then b[i - 2][j - 2] else Empty
    {
      if 2 <= i < 10 { assert p[i] == EmptyRow(2) + b[i - 2] + EmptyRow(2); }
    }
    if Synced(b, buff) {
      forall i | 0 <= i < 12 ensures buff[i] == p[i] {
        forall j | 0 <= j < 12 ensures buff[i][j] == p[i][j] {
          if 2 <= i < 10 && 2 <= j < 10 {
            assert buff[2 + (i - 2)][2 + (j - 2)] == b[i - 2][j - 2];
          }
        }
      }
    }
  }

  /** The board with `piece` written at `pos`. */
  function Place(g: Grid, pos: Pos, piece: Piece): (r: Grid)
    requires 0 <= pos.0 < |g| && 0 <= pos.1 < |g[pos.0]|
    ensures |r| == |g| && forall i :: 0 <= i < |g| ==> |r[i]| == |g[i]|
    ensures r[pos.0][pos.1] == piece
    ensures forall i, j :: 0 <= i < |g| && 0 <= j < |g[i]| && (i, j) != pos ==> r[i][j] == g[i][j]
  {
    g[pos.0 := g[pos.0][pos.1 := piece]]
  }

  /** The board after `move(pos, target)`: the piece at `pos` is written to
      `target`, then `pos` is emptied. Exactly two squares change: the
      target receives the mover and the origin is left empty; moving a
      square onto itself empties it. */
  function Moved(b: Grid, pos: Pos, target: Pos): (r: Grid)
    requires Shape8(b) && InBoard(pos) && InBoard(target)
    ensures Shape8(r)
    ensures forall row, col :: 0 <= row < 8 && 0 <= col < 8 ==>
      r[row][col] ==
        if (row, col) == pos then Empty
        else if (row, col) == target then b[pos.0][pos.1]
        else b[row][col]
  {
    Place(Place(b, target, b[pos.0][pos.1]), pos, Empty)
  }

  function Reversed<T>(s: seq<T>): (r: seq<T>)
    ensures |r| == |s|
  {
    seq(|s|, i requires 0 <= i < |s| => s[|s| - 1 - i])
  }

  /** The grid turned half a circle: rows reversed, then each row reversed
      (`board[::-1]` followed by `[row[::-1] for row in board]`). */
  function Rotated(g: Grid): (r: Grid)
    ensures |r| == |g|
    ensures forall i :: 0 <= i < |g| ==> |r[i]| == |g[|g| - 1 - i]|
  {
    var rows := Reversed(g);
    seq(|rows|, i requires 0 <= i < |rows| => Reversed(rows[i]))
  }

  lemma RotatedAt(g: Grid, rows: nat, cols: nat)
    requires Rect(g, rows, cols)
    ensures Rect(Rotated(g), rows, cols)
    ensures forall i, j :: 0 <= i < rows && 0 <= j < cols ==>
      Rotated(g)[i][j] == g[rows - 1 - i][cols - 1 - j]
  {
  }

  /** Turning a rectangular grid twice restores it. */
  lemma {:induction false} RotatedTwice(g: Grid, rows: nat, cols: nat)
    requires Rect(g, rows, cols)
    ensures Rotated(Rotated(g)) == g
  {
    RotatedAt(g, rows, cols);
    RotatedAt(Rotated(g), rows, cols);
    var h := Rotated(Rotated(g));
    forall i | 0 <= i < rows ensures h[i] == g[i] {
      assert |h[i]| == |g[i]| == cols;
      forall j | 0 <= j < cols ensures h[i][j] == g[i][j] {
        assert h[i][j] == Rotated(g)[rows - 1 - i][cols - 1 - j];
      }
    }
  }

  /** Turning the board and its buffer together keeps them in sync. */
  lemma {:induction false} RotatedSynced(b: Grid, buff: Grid)
    requires Synced(b, buff)
    ensures Synced(Rotated(b), Rotated(buff))
  {
    RotatedAt(b, 8, 8);
    RotatedAt(buff, 12, 12);
    var rb, rbuff := Rotated(b), Rotated(buff);
    forall r, c | 0 <= r < 8 && 0 <= c < 8 ensures rbuff[2 + r][2 + c] == rb[r][c] {
      assert rbuff[2 + r][2 + c] == buff[2 + (7 - r)][2 + (7 - c)];
    }
    forall i, j | 0 <= i < 12 && 0 <= j < 12 && (i < 2 || 10 <= i || j < 2 || 10 <= j)
      ensures rbuff[i][j] == Empty
    {
      assert rbuff[i][j] == buff[11 - i][11 - j];
    }
  }

  /** The square (r, c) seen from the other side of the board. */
  function Flip(p: Pos): (r: Pos)
    ensures InBoard(p) <==> InBoard(r)
    ensures r.0 + p.0 == 7 && r.1 + p.1 == 7
  {
    (7 - p.0, 7 - p.1)
  }

  /** The opening layout of `reset_board`: Black (-1) on rows 0-1, White (1)
      on rows 6-7, rows 2-5 empty. */
  function BackRank(s: Side): seq<Piece> {
    [MakePiece(Rook, s), MakePiece(Knight, s), MakePiece(Bishop, s), MakePiece(Queen, s),
     MakePiece(King, s), MakePiece(Bishop, s), MakePiece(Knight, s), MakePiece(Rook, s)]
  }

  function PawnRow(s: Side): seq<Piece> {
    seq(8, _ => MakePiece(Pawn, s))
  }

  function DefaultBoard(): (b: Grid)
    ensures Shape8(b)
  {
    [BackRank(Black), PawnRow(Black), EmptyRow(8), EmptyRow(8),
     EmptyRow(8), EmptyRow(8), PawnRow(White), BackRank(White)]
  }

  /** The opening layout: rows 0-1 hold Black pieces, rows 6-7 White pieces
      with the same kind on the same file, rows 2-5 are empty, and the kings
      stand on (0, 4) and (7, 4). */
  lemma DefaultLayout()
    ensures forall r, c :: 0 <= r < 8 && 0 <= c < 8 ==>
      var p := DefaultBoard()[r][c];
      (2 <= r <= 5 <==> p.Empty?) &&
      (r <= 1 ==> p.color == Black && p == Recolored(DefaultBoard()[7 - r][c])) &&
      (r >= 6 ==> p.color == White)
    ensures DefaultBoard()[0][4] == MakePiece(King, Black)
    ensures DefaultBoard()[7][4] == MakePiece(King, White)
  {
  }
}
