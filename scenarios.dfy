/**
 * Short games played on the rules: an opening pawn move, a pawn move that is too
 * long, and a side winning on its second knight capture.
 */
module Scenarios {
  import opened Pieces
  import opened Board
  import opened Movement
  import opened Rules

  /** From the set-up, white's e-pawn (row 6, column 4) advances two squares to e4 and the turn passes to black. */
  lemma OpeningDoubleStep(s: Game)
    requires s == Initial()
    ensures var r := TryMove(s, Square(6, 4), Square(4, 4));
      && r.Applied?
      && At(r.next.board, Square(4, 4)) == Piece(Pawn, White)
      && At(r.next.board, Square(6, 4)) == Empty
      && r.next.current == Black
      && r.next.state == Unfinished
  {
    InitialConsistent();
    SetupSquare(s.board, 6, 4);
    SetupSquare(s.board, 4, 4);
    DoubleStep(s, 4);
  }

  /** A white pawn on its start row with an empty square two ahead may advance two squares; nothing is captured. */
  lemma DoubleStep(s: Game, col: int)
    requires Consistent(s) && 0 <= col < 8
    requires s.state == Unfinished && s.current == White
    requires At(s.board, Square(6, col)) == Piece(Pawn, White) && At(s.board, Square(4, col)) == Empty
    ensures var r := TryMove(s, Square(6, col), Square(4, col));
      && r.Applied?
      && At(r.next.board, Square(4, col)) == Piece(Pawn, White)
      && At(r.next.board, Square(6, col)) == Empty
      && r.next.current == Black
      && r.next.state == Unfinished
      && r.next.white == s.white && r.next.black == s.black
  {
    var from, to := Square(6, col), Square(4, col);
    PawnLegal(s, from, to);
    AppliedMove(s, from, to);
    var t := TryMove(s, from, to).next;
    assert Captures(t, White) == Captures(s, White);
  }

  /** A white pawn that has left its start row cannot advance two rows, nor three. */
  lemma PawnTooFar(s: Game, r: int, col: int, k: int)
    requires WellFormed(s) && 0 <= r < 8 && r != 6 && 0 <= col < 8 && 2 <= k <= 3 && 0 <= r - k
    requires s.state == Unfinished && s.current == White
    requires At(s.board, Square(r, col)) == Piece(Pawn, White)
    ensures TryMove(s, Square(r, col), Square(r - k, col)) == Rejected
  {
    PawnLegal(s, Square(r, col), Square(r - k, col));
  }

  /** White takes one knight while nothing else is at its threshold: one knight is tallied and play goes on. */
  lemma FirstKnightCapture(s: Game, from: Square, to: Square)
    requires Consistent(s) && OnBoard(from) && OnBoard(to)
    requires s.current == White && Captures(s, White)[Knight] == 0
    requires At(s.board, to) == Piece(Knight, Black)
    requires TryMove(s, from, to).Applied?
    ensures var t := TryMove(s, from, to).next;
      Captures(t, White)[Knight] == 1 && t.state == Unfinished && t.current == Black
  {
    AppliedMove(s, from, to);
    var t := TryMove(s, from, to).next;
    forall k ensures Captures(t, White)[k] != StartingCount(k) {
      if k != Knight {
        assert Captures(t, White)[k] == Captures(s, White)[k];
      }
    }
  }

  /** White takes a second knight: the tally reaches the threshold and white wins on that very move. */
  lemma SecondKnightCaptureWins(s: Game, from: Square, to: Square)
    requires Consistent(s) && OnBoard(from) && OnBoard(to)
    requires s.current == White && Captures(s, White)[Knight] == 1
    requires At(s.board, to) == Piece(Knight, Black)
    requires TryMove(s, from, to).Applied?
    ensures var t := TryMove(s, from, to).next;
      Captures(t, White)[Knight] == 2 && t.state == WhiteWon
  {
    AppliedMove(s, from, to);
    var t := TryMove(s, from, to).next;
    assert Captures(t, White)[Knight] == StartingCount(Knight);
  }
}

/** The same opening played on a game object: a new game, then e2-e4 through MakeMove. */
module Playthrough {
  import opened Pieces
  import opened Board
  import opened Rules
  import opened Engine
  import opened Scenarios

  /**
   * A freshly created game accepts white's e2-e4: e4 holds the white pawn, e2 is empty,
   * black is to move, and the game still satisfies its invariant, so play can go on.
   */
  method OpenWithKingsPawn() returns (game: ChessVar, ok: bool)
    ensures ok
    ensures game.Valid()
    ensures At(game.board, Square(4, 4)) == Piece(Pawn, White) && At(game.board, Square(6, 4)) == Empty
    ensures game.currentPlayer.color == Black && game.gameState == Unfinished
  {
    game := new ChessVar();
    ghost var s := game.State();
    OpeningDoubleStep(s);
    ok := game.MakeMove(4, 6, 4, 4);
  }
}
