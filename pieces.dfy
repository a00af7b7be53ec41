// Pieces of the chess engine: the two sides, the colour sentinel carried by
// an empty square, the six piece kinds, and the material value table.

module Pieces {

  datatype Option<T> = None | Some(value: T)

  /** A board coordinate (row, column); row 0 is the far side's back rank. */
  type Pos = (int, int)

  /** The two sides; White is the colour 1 of the source, Black is -1. */
  datatype Side = White | Black

  /** The colour of a square's occupant: a real side, or the "infinite"
      colour of an empty square, which equals no side. */
  datatype Color = Of(side: Side) | Infinity

  datatype Kind = Pawn | Knight | Bishop | Rook | Queen | King

  /** A square's content. Only a pawn ever reads `prevMove` (the square of
      its last move, used by en passant); every constructor in the engine
      leaves it `None`. */
  datatype Piece = Empty | Piece(kind: Kind, color: Side, prevMove: Option<Pos>)

  /** `-1 * color` for a real side. */
  function Negate(s: Side): (r: Side)
    ensures r != s
  {
    if s == White then Black else White
  }

  /** The integer colour of a side, used as the sign of its material. */
  function Sign(s: Side): (r: int)
    ensures r == 1 || r == -1
    ensures r == 1 <==> s == White
  {
    if s == White then 1 else -1
  }

  /** The `color` attribute of a square's occupant. */
  function ColorOf(p: Piece): (r: Color)
    ensures r == Infinity <==> p.Empty?
  {
    match p
    case Empty => Infinity
    case Piece(_, s, _) => Of(s)
  }

  /** A fresh piece of the given kind and side, as the engine's
      constructors build it (a pawn starts with no previous move). */
  function MakePiece(k: Kind, s: Side): (r: Piece)
    ensures r.Piece? && r.kind == k && r.color == s && r.prevMove == None
  {
    Piece(k, s, None)
  }

  /** The `piece_values` table: the empty square and the king are worth
      nothing, every other piece something, and the queen the most. */
  function PieceValue(p: Piece): (r: nat)
    ensures r == 0 <==> p.Empty? || p.kind == King
    ensures r <= 9 && (p.Piece? && p.kind == Queen <==> r == 9)
  {
    match p
    case Empty => 0
    case Piece(k, _, _) =>
      match k
      case Pawn => 1
      case Knight => 3
      case Bishop => 3
      case Rook => 5
      case Queen => 9
      case King => 0
  }

  /** The same piece with its side swapped. */
  function Recolored(p: Piece): (r: Piece)
    ensures r.Empty? <==> p.Empty?
    ensures p.Piece? ==> r.kind == p.kind && r.color == Negate(p.color)
  {
    match p
    case Empty => Empty
    case Piece(k, s, m) => Piece(k, Negate(s), m)
  }
}
