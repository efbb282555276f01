/** The 8x8 board: row 0 is black's back rank, row 7 white's; columns 0..7 are files a..h. */
module Board {
  import opened Pieces

  /** A (row, column) pair, as the coordinate tuples of the candidate lists. */
  datatype Square = Square(row: int, col: int)

  type Grid = seq<seq<Piece>>

  predicate OnBoard(s: Square)
  {
    0 <= s.row <= 7 && 0 <= s.col <= 7
  }

  predicate IsGrid(g: Grid)
  {
    |g| == 8 && forall r :: 0 <= r < 8 ==> |g[r]| == 8
  }

  function At(g: Grid, s: Square): Piece
    requires IsGrid(g) && OnBoard(s)
  {
    g[s.row][s.col]
  }

  /** The board with square `s` replaced by `p` (one assignment `board[r][c] = p`). */
  function SetCell(g: Grid, s: Square, p: Piece): (h: Grid)
    requires IsGrid(g) && OnBoard(s)
    ensures IsGrid(h)
    ensures At(h, s) == p
    ensures forall r, c :: 0 <= r < 8 && 0 <= c < 8 && Square(r, c) != s ==> h[r][c] == g[r][c]
  {
    g[s.row := g[s.row][s.col := p]]
  }

  function BackRank(c: Color): seq<Piece>
  {
    [Piece(Rook, c), Piece(Knight, c), Piece(Bishop, c), Piece(Queen, c),
     Piece(King, c), Piece(Bishop, c), Piece(Knight, c), Piece(Rook, c)]
  }

  function PawnRank(c: Color): seq<Piece>
  {
    [Piece(Pawn, c), Piece(Pawn, c), Piece(Pawn, c), Piece(Pawn, c),
     Piece(Pawn, c), Piece(Pawn, c), Piece(Pawn, c), Piece(Pawn, c)]
  }

  function EmptyRank(): seq<Piece>
  {
    [Empty, Empty, Empty, Empty, Empty, Empty, Empty, Empty]
  }

  /** The standard set-up. */
  function InitialBoard(): (g: Grid)
    ensures IsGrid(g)
    ensures g[0] == BackRank(Black) && g[1] == PawnRank(Black) && g[6] == PawnRank(White) && g[7] == BackRank(White)
    ensures g[2] == EmptyRank() && g[3] == EmptyRank() && g[4] == EmptyRank() && g[5] == EmptyRank()
  {
    [BackRank(Black), PawnRank(Black), EmptyRank(), EmptyRank(),
     EmptyRank(), EmptyRank(), PawnRank(White), BackRank(White)]
  }

  /** Number of occurrences of `p` in one row. */
  function CountRow(row: seq<Piece>, p: Piece): nat
  {
    if row == [] then 0 else (if row[0] == p then 1 else 0) + CountRow(row[1..], p)
  }

  /** Number of squares of the board holding exactly `p`. */
  function Count(g: seq<seq<Piece>>, p: Piece): nat
  {
    if g == [] then 0 else CountRow(g[0], p) + Count(g[1..], p)
  }

  lemma {:induction false} CountRowUpdate(row: seq<Piece>, i: int, v: Piece, p: Piece)
    requires 0 <= i < |row|
    ensures CountRow(row[i := v], p)
            == CountRow(row, p) - (if row[i] == p then 1 else 0) + (if v == p then 1 else 0)
  {
    if i > 0 {
      CountRowUpdate(row[1..], i - 1, v, p);
      assert row[i := v][1..] == row[1..][i - 1 := v];
    } else {
      assert row[i := v][1..] == row[1..];
    }
  }

  lemma {:induction false} CountUpdate(g: seq<seq<Piece>>, r: int, row: seq<Piece>, p: Piece)
    requires 0 <= r < |g|
    ensures Count(g[r := row], p) == Count(g, p) - CountRow(g[r], p) + CountRow(row, p)
  {
    if r > 0 {
      CountUpdate(g[1..], r - 1, row, p);
      assert g[r := row][1..] == g[1..][r - 1 := row];
    } else {
      assert g[r := row][1..] == g[1..];
    }
  }

  /** Writing `v` on square `s` removes one occurrence of the old content and adds one of `v`. */
  lemma SetCellCount(g: Grid, s: Square, v: Piece, p: Piece)
    requires IsGrid(g) && OnBoard(s)
    ensures Count(SetCell(g, s, v), p)
            == Count(g, p) - (if At(g, s) == p then 1 else 0) + (if v == p then 1 else 0)
  {
    CountRowUpdate(g[s.row], s.col, v, p);
    CountUpdate(g, s.row, g[s.row][s.col := v], p);
  }

  function Ind(q: Piece, p: Piece): nat
  {
    if q == p then 1 else 0
  }

  lemma CountRowStep(row: seq<Piece>, k: int, p: Piece)
    requires 0 <= k < |row|
    ensures CountRow(row[k..], p) == Ind(row[k], p) + CountRow(row[k + 1..], p)
  {
    assert row[k..][1..] == row[k + 1..];
  }

  /** A row of eight squares, counted square by square. */
  lemma CountRow8(row: seq<Piece>, p: Piece)
    requires |row| == 8
    ensures CountRow(row, p) == Ind(row[0], p) + Ind(row[1], p) + Ind(row[2], p) + Ind(row[3], p)
                              + Ind(row[4], p) + Ind(row[5], p) + Ind(row[6], p) + Ind(row[7], p)
  {
    assert row[0..] == row;
    CountRowStep(row, 0, p);
    CountRowStep(row, 1, p);
    CountRowStep(row, 2, p);
    CountRowStep(row, 3, p);
    CountRowStep(row, 4, p);
    CountRowStep(row, 5, p);
    CountRowStep(row, 6, p);
    CountRowStep(row, 7, p);
    assert row[8..] == [];
  }

  lemma BackRankCount(c: Color, t: PieceType, d: Color)
    ensures CountRow(BackRank(c), Piece(t, d)) == if c == d && t != Pawn then StartingCount(t) else 0
  {
    if c == d {
      BackRankOwn(c, t);
    } else {
      OtherColorRow(BackRank(c), c, Piece(t, d));
    }
  }

  /** A back rank holds its own side's pieces other than pawns, as many as the side starts with. */
  lemma BackRankOwn(c: Color, t: PieceType)
    ensures CountRow(BackRank(c), Piece(t, c)) == if t != Pawn then StartingCount(t) else 0
  {
    var row := BackRank(c);
    CountRow8(row, Piece(t, c));
    BackRankSum(row[0], row[1], row[2], row[3], row[4], row[5], row[6], row[7], c, t);
  }

  lemma BackRankSum(a: Piece, b: Piece, d: Piece, q: Piece, k: Piece, e: Piece, f: Piece, h: Piece, c: Color, t: PieceType)
    requires a == h == Piece(Rook, c) && b == f == Piece(Knight, c) && d == e == Piece(Bishop, c)
    requires q == Piece(Queen, c) && k == Piece(King, c)
    ensures Ind(a, Piece(t, c)) + Ind(b, Piece(t, c)) + Ind(d, Piece(t, c)) + Ind(q, Piece(t, c))
            + Ind(k, Piece(t, c)) + Ind(e, Piece(t, c)) + Ind(f, Piece(t, c)) + Ind(h, Piece(t, c))
            == if t != Pawn then StartingCount(t) else 0
  {
    match t
    case Rook =>
    case Knight =>
    case Bishop =>
    case Queen =>
    case King =>
    case Pawn =>
  }

  /** A row holding only pieces of colour `c` holds none of the other colour. */
  lemma {:induction false} OtherColorRow(row: seq<Piece>, c: Color, p: Piece)
    requires forall i :: 0 <= i < |row| ==> HasColor(row[i], c)
    requires p.Piece? && p.color != c
    ensures CountRow(row, p) == 0
  {
    if row != [] {
      OtherColorRow(row[1..], c, p);
    }
  }

  /** A pawn rank holds its side's eight pawns and nothing else. */
  lemma PawnRankCount(row: seq<Piece>, c: Color, t: PieceType, d: Color)
    requires row == PawnRank(c)
    ensures CountRow(row, Piece(t, d)) == if c == d && t == Pawn then StartingCount(t) else 0
  {
    CountRow8(row, Piece(t, d));
    assert forall i :: 0 <= i < 8 ==> row[i] == Piece(Pawn, c);
  }

  lemma EmptyRankCount(p: Piece)
    requires p != Empty
    ensures CountRow(EmptyRank(), p) == 0
  {
    CountRow8(EmptyRank(), p);
  }

  /** The two back ranks together hold the set-up's pieces other than pawns. */
  lemma BackRanksCount(g: Grid, t: PieceType, c: Color)
    requires |g| == 8 && g[0] == BackRank(Black) && g[7] == BackRank(White)
    ensures CountRow(g[0], Piece(t, c)) + CountRow(g[7], Piece(t, c))
            == if t != Pawn then StartingCount(t) else 0
  {
    BackRankCount(Black, t, c);
    BackRankCount(White, t, c);
  }

  /** The two pawn ranks together hold the set-up's pawns. */
  lemma PawnRanksCount(g: Grid, t: PieceType, c: Color)
    requires |g| == 8 && g[1] == PawnRank(Black) && g[6] == PawnRank(White)
    ensures CountRow(g[1], Piece(t, c)) + CountRow(g[6], Piece(t, c))
            == if t == Pawn then StartingCount(t) else 0
  {
    PawnRankCount(g[1], Black, t, c);
    PawnRankCount(g[6], White, t, c);
  }

  /** The four middle ranks hold no piece. */
  lemma MiddleRanksCount(g: Grid, p: Piece)
    requires p != Empty
    requires |g| == 8 && g[2] == EmptyRank() && g[3] == EmptyRank() && g[4] == EmptyRank() && g[5] == EmptyRank()
    ensures CountRow(g[2], p) + CountRow(g[3], p) + CountRow(g[4], p) + CountRow(g[5], p) == 0
  {
    EmptyRankCount(p);
  }

  /** Each side starts with `StartingCount(t)` pieces of each type `t`. */
  lemma InitialCount(t: PieceType, c: Color)
    ensures Count(InitialBoard(), Piece(t, c)) == StartingCount(t)
  {
    SetupCount(InitialBoard(), t, c);
  }

  /** `g` is laid out rank by rank as the set-up. */
  predicate SetupRanks(g: Grid)
  {
    && |g| == 8 && g[0] == BackRank(Black) && g[1] == PawnRank(Black)
    && g[2] == EmptyRank() && g[3] == EmptyRank() && g[4] == EmptyRank() && g[5] == EmptyRank()
    && g[6] == PawnRank(White) && g[7] == BackRank(White)
  }

  /** What the set-up holds on the pawn ranks and the middle ranks. */
  lemma SetupSquare(g: Grid, r: int, c: int)
    requires SetupRanks(g) && 1 <= r <= 6 && 0 <= c < 8
    ensures At(g, Square(r, c)) == if r == 1 then Piece(Pawn, Black) else if r == 6 then Piece(Pawn, White) else Empty
  {
  }

  /** A board laid out rank by rank as the set-up holds `StartingCount(t)` pieces `Piece(t, c)`. */
  lemma SetupCount(g: Grid, t: PieceType, c: Color)
    requires SetupRanks(g)
    ensures Count(g, Piece(t, c)) == StartingCount(t)
  {
    BackRanksCount(g, t, c);
    PawnRanksCount(g, t, c);
    MiddleRanksCount(g, Piece(t, c));
    RankSums(g, t, c);
  }

  /** The per-rank counts of the set-up add up to `StartingCount(t)`. */
  lemma RankSums(g: Grid, t: PieceType, c: Color)
    requires |g| == 8
    requires CountRow(g[0], Piece(t, c)) + CountRow(g[7], Piece(t, c)) == if t != Pawn then StartingCount(t) else 0
    requires CountRow(g[1], Piece(t, c)) + CountRow(g[6], Piece(t, c)) == if t == Pawn then StartingCount(t) else 0
    requires CountRow(g[2], Piece(t, c)) + CountRow(g[3], Piece(t, c))
             + CountRow(g[4], Piece(t, c)) + CountRow(g[5], Piece(t, c)) == 0
    ensures Count(g, Piece(t, c)) == StartingCount(t)
  {
    Count8(g, Piece(t, c));
  }

  lemma CountStep(g: seq<seq<Piece>>, k: int, p: Piece)
    requires 0 <= k < |g|
    ensures Count(g[k..], p) == CountRow(g[k], p) + Count(g[k + 1..], p)
  {
    assert g[k..][1..] == g[k + 1..];
  }

  /** A board of eight rows, counted row by row. */
  lemma Count8(g: seq<seq<Piece>>, p: Piece)
    requires |g| == 8
    ensures Count(g, p) == CountRow(g[0], p) + CountRow(g[1], p) + CountRow(g[2], p) + CountRow(g[3], p)
                         + CountRow(g[4], p) + CountRow(g[5], p) + CountRow(g[6], p) + CountRow(g[7], p)
  {
    assert g[0..] == g;
    CountStep(g, 0, p);
    CountStep(g, 1, p);
    CountStep(g, 2, p);
    CountStep(g, 3, p);
    CountStep(g, 4, p);
    CountStep(g, 5, p);
    CountStep(g, 6, p);
    CountStep(g, 7, p);
    assert g[8..] == [];
  }
}
