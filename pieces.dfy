/** Colours, piece types and the contents of one square. */
module Pieces {

  datatype Color = White | Black

  /** The other side. */
  function Opponent(c: Color): (o: Color)
    ensures o != c
  {
    if c == White then Black else White
  }

  datatype PieceType = Rook | Knight | Bishop | Queen | King | Pawn

  /** What a square holds; `Empty` stands for a piece whose type and colour are both blank. */
  datatype Piece = Empty | Piece(kind: PieceType, color: Color)

  /** The square holds a piece of colour `c` (an empty square has no colour). */
  predicate HasColor(p: Piece, c: Color)
  {
    p.Piece? && p.color == c
  }

  /** How many pieces of type `t` each side starts the game with. */
  function StartingCount(t: PieceType): nat
  {
    match t
    case Rook | Knight | Bishop => 2
    case Queen | King => 1
    case Pawn => 8
  }
}
