/**
 * The game object and its players, as classes whose fields the moves update in
 * place. `MakeMove` is proved to follow the rules in `Rules`: the state of a
 * `ChessVar` after a call is the game value `TryMove` computes from the state
 * before it. The validators it dispatches to follow `Validate` and `PawnMove`,
 * and `FinishMove` follows the win test and the turn change.
 */
module Engine {
  import opened Pieces
  import opened Board
  import opened Movement
  import opened Rules

  /** One side: its colour and how many of the opponent's pieces of each type it has taken. */
  class Player {
    const color: Color
    var capturedPieces: Tally

    ghost predicate Valid()
      reads this
    {
      IsTally(capturedPieces)
    }

    /** A new player has captured nothing. */
    constructor (color: Color)
      ensures this.color == color
      ensures Valid() && capturedPieces == NoCaptures()
    {
      this.color := color;
      capturedPieces := NoCaptures();
    }

    /** The tally of captures, by piece type. */
    function GetCapturedPieces(): (m: Tally)
      requires Valid()
      reads this
      ensures IsTally(m) && m == capturedPieces
    {
      capturedPieces
    }

    /** One more piece of type `t` captured; the other counters keep their values. */
    method AddCapturedPiece(t: PieceType)
      requires Valid()
      modifies this
      ensures Valid()
      ensures capturedPieces[t] == old(capturedPieces[t]) + 1
      ensures forall k :: k != t ==> capturedPieces[k] == old(capturedPieces[k])
      ensures capturedPieces == old(capturedPieces)[t := old(capturedPieces[t]) + 1]
    {
      capturedPieces := capturedPieces[t := capturedPieces[t] + 1];
    }
  }

  /** Every piece type, in the order a player's tally lists them. */
  const PieceTypes: seq<PieceType> := [Rook, Knight, Bishop, Queen, King, Pawn]

  lemma AllPieceTypes(t: PieceType)
    ensures t in PieceTypes
  {
    match t
    case Rook =>
    case Knight =>
    case Bishop =>
    case Queen =>
    case King =>
    case Pawn =>
  }

  /** A game in progress: the board, the two players, whose turn it is and the outcome so far. */
  class ChessVar {
    var board: Grid
    var gameState: GameState
    const whitePlayer: Player
    const blackPlayer: Player
    var currentPlayer: Player

    /** The two players are distinct objects of the right colours, and the current player is one of them. */
    ghost predicate Shaped()
      reads this, whitePlayer, blackPlayer
    {
      && whitePlayer != blackPlayer
      && whitePlayer.color == White && blackPlayer.color == Black
      && (currentPlayer == whitePlayer || currentPlayer == blackPlayer)
      && whitePlayer.Valid() && blackPlayer.Valid()
      && IsGrid(board)
    }

    /** The object's fields, read as a game value. */
    ghost function State(): Game
      reads this, whitePlayer, blackPlayer
    {
      Game(board, whitePlayer.capturedPieces, blackPlayer.capturedPieces, currentPlayer.color, gameState)
    }

    /**
     * The class invariant: well shaped, and the game it holds accounts for every piece.
     * The constructor and MakeMove keep it; the validators, called on their own, keep only Shaped().
     */
    ghost predicate Valid()
      reads this, whitePlayer, blackPlayer
    {
      Shaped() && Consistent(State())
    }

    /** A new game: the standard set-up, no captures, white to move, unfinished. */
    constructor ()
      ensures Valid() && State() == Initial()
      ensures currentPlayer == whitePlayer
      ensures fresh(whitePlayer) && fresh(blackPlayer)
    {
      board := InitialBoard();
      gameState := Unfinished;
      var white := new Player(White);
      var black := new Player(Black);
      whitePlayer := white;
      blackPlayer := black;
      currentPlayer := white;
      new;
      assert State() == Initial();
      InitialConsistent();
    }

    /**
     * The common end of every non-pawn validator: the move is made exactly when `to`
     * is in the candidate list and does not hold one of the mover's pieces; an
     * opponent's piece on `to` is credited to the mover's captures; the piece is
     * written on `to` and `from` is emptied.
     */
    method ValidateCoordinatesList(coordinatesList: seq<Square>, columnFrom: int, rowFrom: int,
                                   columnTo: int, rowTo: int, pieceType: PieceType) returns (ok: bool)
      requires Shaped()
      requires OnBoard(Square(rowFrom, columnFrom)) && OnBoard(Square(rowTo, columnTo))
      modifies this, whitePlayer, blackPlayer
      ensures Shaped() && currentPlayer == old(currentPlayer)
      ensures var outcome := Validate(old(State()), coordinatesList, Square(rowFrom, columnFrom), Square(rowTo, columnTo), pieceType);
        && ok == outcome.Applied?
        && State() == (if ok then outcome.next else old(State()))
    {
      var to := Square(rowTo, columnTo);
      if to in coordinatesList {
        var capturedPiece := board[rowTo][columnTo];
        if HasColor(capturedPiece, currentPlayer.color) {
          return false;
        }
        if currentPlayer.color == White {
          if capturedPiece != Empty {
            whitePlayer.AddCapturedPiece(capturedPiece.kind);
          }
        } else {
          if capturedPiece != Empty {
            blackPlayer.AddCapturedPiece(capturedPiece.kind);
          }
        }
        board := SetCell(board, to, Piece(pieceType, currentPlayer.color));
        board := SetCell(board, Square(rowFrom, columnFrom), Empty);
        return true;
      }
      return false;
    }

    /** King: the on-board squares one step away in the eight directions, then the common validation. */
    method IsValidMoveKing(columnFrom: int, rowFrom: int, columnTo: int, rowTo: int) returns (ok: bool)
      requires Shaped()
      requires OnBoard(Square(rowFrom, columnFrom)) && OnBoard(Square(rowTo, columnTo))
      modifies this, whitePlayer, blackPlayer
      ensures Shaped() && currentPlayer == old(currentPlayer)
      ensures var outcome := Validate(old(State()), KingTargets(Square(rowFrom, columnFrom)),
                                      Square(rowFrom, columnFrom), Square(rowTo, columnTo), King);
        && ok == outcome.Applied?
        && State() == (if ok then outcome.next else old(State()))
    {
      var coordinatesList := KingCoordinates(columnFrom, rowFrom);
      assert coordinatesList == KingTargets(Square(rowFrom, columnFrom));
      ok := ValidateCoordinatesList(coordinatesList, columnFrom, rowFrom, columnTo, rowTo, King);
    }

    /** Knight: the on-board squares two and one away, jumping whatever stands between, then the common validation. */
    method IsValidMoveKnight(columnFrom: int, rowFrom: int, columnTo: int, rowTo: int) returns (ok: bool)
      requires Shaped()
      requires OnBoard(Square(rowFrom, columnFrom)) && OnBoard(Square(rowTo, columnTo))
      modifies this, whitePlayer, blackPlayer
      ensures Shaped() && currentPlayer == old(currentPlayer)
      ensures var outcome := Validate(old(State()), KnightTargets(Square(rowFrom, columnFrom)),
                                      Square(rowFrom, columnFrom), Square(rowTo, columnTo), Knight);
        && ok == outcome.Applied?
        && State() == (if ok then outcome.next else old(State()))
    {
      var coordinatesList := KnightCoordinates(columnFrom, rowFrom);
      assert coordinatesList == KnightTargets(Square(rowFrom, columnFrom));
      ok := ValidateCoordinatesList(coordinatesList, columnFrom, rowFrom, columnTo, rowTo, Knight);
    }

    /** Rook: the four straight rays, then the common validation. */
    method IsValidMoveRook(columnFrom: int, rowFrom: int, columnTo: int, rowTo: int) returns (ok: bool)
      requires Shaped()
      requires OnBoard(Square(rowFrom, columnFrom)) && OnBoard(Square(rowTo, columnTo))
      modifies this, whitePlayer, blackPlayer
      ensures Shaped() && currentPlayer == old(currentPlayer)
      ensures var outcome := Validate(old(State()), RookTargets(old(board), old(currentPlayer.color), Square(rowFrom, columnFrom)),
                                      Square(rowFrom, columnFrom), Square(rowTo, columnTo), Rook);
        && ok == outcome.Applied?
        && State() == (if ok then outcome.next else old(State()))
    {
      var from := Square(rowFrom, columnFrom);
      var mover := currentPlayer.color;
      var coordinatesList: seq<Square> := [];
      coordinatesList := AppendRay(board, mover, from, Left, coordinatesList);
      coordinatesList := AppendRay(board, mover, from, Right, coordinatesList);
      coordinatesList := AppendRay(board, mover, from, Up, coordinatesList);
      coordinatesList := AppendRay(board, mover, from, Down, coordinatesList);
      RookList(board, mover, from);
      ok := ValidateCoordinatesList(coordinatesList, columnFrom, rowFrom, columnTo, rowTo, Rook);
    }

    /** Bishop: the four diagonal rays, then the common validation. */
    method IsValidMoveBishop(columnFrom: int, rowFrom: int, columnTo: int, rowTo: int) returns (ok: bool)
      requires Shaped()
      requires OnBoard(Square(rowFrom, columnFrom)) && OnBoard(Square(rowTo, columnTo))
      modifies this, whitePlayer, blackPlayer
      ensures Shaped() && currentPlayer == old(currentPlayer)
      ensures var outcome := Validate(old(State()), BishopTargets(old(board), old(currentPlayer.color), Square(rowFrom, columnFrom)),
                                      Square(rowFrom, columnFrom), Square(rowTo, columnTo), Bishop);
        && ok == outcome.Applied?
        && State() == (if ok then outcome.next else old(State()))
    {
      var from := Square(rowFrom, columnFrom);
      var mover := currentPlayer.color;
      var coordinatesList: seq<Square> := [];
      coordinatesList := AppendRay(board, mover, from, UpLeft, coordinatesList);
      coordinatesList := AppendRay(board, mover, from, DownLeft, coordinatesList);
      coordinatesList := AppendRay(board, mover, from, DownRight, coordinatesList);
      coordinatesList := AppendRay(board, mover, from, UpRight, coordinatesList);
      BishopList(board, mover, from);
      ok := ValidateCoordinatesList(coordinatesList, columnFrom, rowFrom, columnTo, rowTo, Bishop);
    }

    /** Queen: the four straight rays and the four diagonal ones, then the common validation. */
    method IsValidMoveQueen(columnFrom: int, rowFrom: int, columnTo: int, rowTo: int) returns (ok: bool)
      requires Shaped()
      requires OnBoard(Square(rowFrom, columnFrom)) && OnBoard(Square(rowTo, columnTo))
      modifies this, whitePlayer, blackPlayer
      ensures Shaped() && currentPlayer == old(currentPlayer)
      ensures var outcome := Validate(old(State()), QueenTargets(old(board), old(currentPlayer.color), Square(rowFrom, columnFrom)),
                                      Square(rowFrom, columnFrom), Square(rowTo, columnTo), Queen);
        && ok == outcome.Applied?
        && State() == (if ok then outcome.next else old(State()))
    {
      var from := Square(rowFrom, columnFrom);
      var mover := currentPlayer.color;
      var coordinatesList: seq<Square> := [];
      coordinatesList := AppendRay(board, mover, from, Left, coordinatesList);
      coordinatesList := AppendRay(board, mover, from, Right, coordinatesList);
      coordinatesList := AppendRay(board, mover, from, Up, coordinatesList);
      coordinatesList := AppendRay(board, mover, from, Down, coordinatesList);
      coordinatesList := AppendRay(board, mover, from, UpLeft, coordinatesList);
      coordinatesList := AppendRay(board, mover, from, DownLeft, coordinatesList);
      coordinatesList := AppendRay(board, mover, from, DownRight, coordinatesList);
      coordinatesList := AppendRay(board, mover, from, UpRight, coordinatesList);
      QueenList(board, mover, from);
      ok := ValidateCoordinatesList(coordinatesList, columnFrom, rowFrom, columnTo, rowTo, Queen);
    }

    /**
     * Pawn: forward candidates (two steps from the start row, one step while on the
     * board) allowed only onto an empty square; diagonal candidates only where an
     * opponent's piece stands, which is then credited to the mover.
     */
    method IsValidMovePawn(columnFrom: int, rowFrom: int, columnTo: int, rowTo: int) returns (ok: bool)
      requires Shaped()
      requires OnBoard(Square(rowFrom, columnFrom)) && OnBoard(Square(rowTo, columnTo))
      modifies this, whitePlayer, blackPlayer
      ensures Shaped() && currentPlayer == old(currentPlayer)
      ensures var outcome := PawnMove(old(State()), Square(rowFrom, columnFrom), Square(rowTo, columnTo));
        && ok == outcome.Applied?
        && State() == (if ok then outcome.next else old(State()))
    {
      var from := Square(rowFrom, columnFrom);
      var to := Square(rowTo, columnTo);
      var currentColor := currentPlayer.color;
      var coordinatesListForMove, coordinatesListForCapture := PawnCoordinates(board, currentColor, columnFrom, rowFrom);
      if to in coordinatesListForMove {
        var piece := board[rowTo][columnTo];
        if piece != Empty {
          return false;
        }
        board := SetCell(board, to, Piece(Pawn, currentColor));
        board := SetCell(board, from, Empty);
      } else if to in coordinatesListForCapture {
        var capturedPiece := board[rowTo][columnTo];
        if currentColor == White {
          whitePlayer.AddCapturedPiece(capturedPiece.kind);
        } else {
          blackPlayer.AddCapturedPiece(capturedPiece.kind);
        }
        board := SetCell(board, to, Piece(Pawn, currentColor));
        board := SetCell(board, from, Empty);
      } else {
        return false;
      }
      return true;
    }

    /**
     * The win test on the current player's captures, type by type in the order of
     * the tally: rooks, knights and bishops at 2, queen and king at 1, pawns at 8.
     */
    method CheckIfWinner() returns (won: bool)
      requires Shaped()
      ensures won <==> exists t :: currentPlayer.capturedPieces[t] == StartingCount(t)
    {
      var captured := currentPlayer.GetCapturedPieces();
      var i := 0;
      while i < |PieceTypes|
        invariant 0 <= i <= |PieceTypes|
        invariant forall j :: 0 <= j < i ==> captured[PieceTypes[j]] != StartingCount(PieceTypes[j])
      {
        var key := PieceTypes[i];
        var value := captured[key];
        if key == Rook || key == Knight || key == Bishop {
          if value == 2 {
            return true;
          }
        } else if key == Queen || key == King {
          if value == 1 {
            return true;
          }
        } else {
          if value == 8 {
            return true;
          }
        }
        i := i + 1;
      }
      forall t: PieceType
        ensures captured[t] != StartingCount(t)
      {
        AllPieceTypes(t);
      }
      return false;
    }

    /**
     * The end of a successful move: when the win test passes, the game is won by the
     * player who moved; then the turn passes to the other player. Called by `MakeMove`
     * only, right after a move has been applied.
     */
    method FinishMove()
      requires Shaped()
      modifies this
      ensures Shaped()
      ensures State() == old(State()).(
                state := if IsWinner(old(currentPlayer.capturedPieces)) then WonBy(old(currentPlayer.color)) else old(gameState),
                current := Opponent(old(currentPlayer.color)))
    {
      var won := CheckIfWinner();
      if won {
        if currentPlayer.color == White {
          gameState := WhiteWon;
        } else {
          gameState := BlackWon;
        }
      }
      if currentPlayer == whitePlayer {
        currentPlayer := blackPlayer;
      } else {
        currentPlayer := whitePlayer;
      }
    }

    /**
     * An attempted move from (rowFrom, columnFrom) to (rowTo, columnTo): refused when
     * the origin is empty, holds the opponent's piece or the game is over; otherwise
     * the validator of the piece's type decides, and after a move the win test runs
     * and the turn passes to the other player.
     */
    method MakeMove(columnFrom: int, rowFrom: int, columnTo: int, rowTo: int) returns (ok: bool)
      requires Valid()
      requires OnBoard(Square(rowFrom, columnFrom)) && OnBoard(Square(rowTo, columnTo))
      modifies this, whitePlayer, blackPlayer
      ensures Valid()
      ensures var outcome := TryMove(old(State()), Square(rowFrom, columnFrom), Square(rowTo, columnTo));
        && ok == outcome.Applied?
        && State() == (if ok then outcome.next else old(State()))
    {
      ghost var s := State();
      ghost var from, to := Square(rowFrom, columnFrom), Square(rowTo, columnTo);
      var pieceBeingMoved := board[rowFrom][columnFrom];
      if pieceBeingMoved == Empty {
        return false;
      }
      if pieceBeingMoved.color != currentPlayer.color {
        return false;
      }
      if gameState != Unfinished {
        FinishedGameRejects(s, from, to);
        return false;
      }
      ghost var d := Dispatch(s, from, to, pieceBeingMoved.kind);
      var moveWasMade: bool;
      match pieceBeingMoved.kind {
        case King =>
          moveWasMade := IsValidMoveKing(columnFrom, rowFrom, columnTo, rowTo);
          assert Candidates(s.board, s.current, from, King) == KingTargets(from);
        case Queen =>
          moveWasMade := IsValidMoveQueen(columnFrom, rowFrom, columnTo, rowTo);
          assert Candidates(s.board, s.current, from, Queen) == QueenTargets(s.board, s.current, from);
        case Rook =>
          moveWasMade := IsValidMoveRook(columnFrom, rowFrom, columnTo, rowTo);
          assert Candidates(s.board, s.current, from, Rook) == RookTargets(s.board, s.current, from);
        case Bishop =>
          moveWasMade := IsValidMoveBishop(columnFrom, rowFrom, columnTo, rowTo);
          assert Candidates(s.board, s.current, from, Bishop) == BishopTargets(s.board, s.current, from);
        case Knight =>
          moveWasMade := IsValidMoveKnight(columnFrom, rowFrom, columnTo, rowTo);
          assert Candidates(s.board, s.current, from, Knight) == KnightTargets(from);
        case Pawn =>
          moveWasMade := IsValidMovePawn(columnFrom, rowFrom, columnTo, rowTo);
      }
      assert moveWasMade == d.Applied? && State() == (if moveWasMade then d.next else s);
      TryMoveSteps(s, from, to, d);
      if !moveWasMade {
        return false;
      }
      FinishMove();
      TryMovePreservesConsistency(s, from, to);
      return true;
    }
  }

  /** The king's candidate list: the eight neighbouring squares, in the order they are tried, kept when on the board. */
  method KingCoordinates(columnFrom: int, rowFrom: int) returns (coordinatesList: seq<Square>)
    requires OnBoard(Square(rowFrom, columnFrom))
    ensures coordinatesList == KingSquares(rowFrom, columnFrom)
  {
    coordinatesList := [];
    if 0 <= columnFrom - 1 <= 7 {
      coordinatesList := coordinatesList + [Square(rowFrom, columnFrom - 1)];
    }
    if 0 <= columnFrom + 1 <= 7 {
      coordinatesList := coordinatesList + [Square(rowFrom, columnFrom + 1)];
    }
    if 0 <= rowFrom - 1 <= 7 {
      coordinatesList := coordinatesList + [Square(rowFrom - 1, columnFrom)];
    }
    if 0 <= rowFrom + 1 <= 7 {
      coordinatesList := coordinatesList + [Square(rowFrom + 1, columnFrom)];
    }
    if 0 <= columnFrom - 1 <= 7 && 0 <= rowFrom - 1 <= 7 {
      coordinatesList := coordinatesList + [Square(rowFrom - 1, columnFrom - 1)];
    }
    if 0 <= columnFrom - 1 <= 7 && 0 <= rowFrom + 1 <= 7 {
      coordinatesList := coordinatesList + [Square(rowFrom + 1, columnFrom - 1)];
    }
    if 0 <= columnFrom + 1 <= 7 && 0 <= rowFrom + 1 <= 7 {
      coordinatesList := coordinatesList + [Square(rowFrom + 1, columnFrom + 1)];
    }
    if 0 <= columnFrom + 1 <= 7 && 0 <= rowFrom - 1 <= 7 {
      coordinatesList := coordinatesList + [Square(rowFrom - 1, columnFrom + 1)];
    }
  }

  /** The knight's candidate list: the eight jumps, in the order they are tried, kept when on the board. */
  method KnightCoordinates(columnFrom: int, rowFrom: int) returns (coordinatesList: seq<Square>)
    requires OnBoard(Square(rowFrom, columnFrom))
    ensures coordinatesList == KnightSquares(rowFrom, columnFrom)
  {
    coordinatesList := [];
    if 0 <= columnFrom - 1 <= 7 && 0 <= rowFrom - 2 <= 7 {
      coordinatesList := coordinatesList + [Square(rowFrom - 2, columnFrom - 1)];
    }
    if 0 <= columnFrom + 1 <= 7 && 0 <= rowFrom - 2 <= 7 {
      coordinatesList := coordinatesList + [Square(rowFrom - 2, columnFrom + 1)];
    }
    if 0 <= columnFrom - 1 <= 7 && 0 <= rowFrom + 2 <= 7 {
      coordinatesList := coordinatesList + [Square(rowFrom + 2, columnFrom - 1)];
    }
    if 0 <= columnFrom + 1 <= 7 && 0 <= rowFrom + 2 <= 7 {
      coordinatesList := coordinatesList + [Square(rowFrom + 2, columnFrom + 1)];
    }
    if 0 <= columnFrom - 2 <= 7 && 0 <= rowFrom - 1 <= 7 {
      coordinatesList := coordinatesList + [Square(rowFrom - 1, columnFrom - 2)];
    }
    if 0 <= columnFrom + 2 <= 7 && 0 <= rowFrom - 1 <= 7 {
      coordinatesList := coordinatesList + [Square(rowFrom - 1, columnFrom + 2)];
    }
    if 0 <= columnFrom - 2 <= 7 && 0 <= rowFrom + 1 <= 7 {
      coordinatesList := coordinatesList + [Square(rowFrom + 1, columnFrom - 2)];
    }
    if 0 <= columnFrom + 2 <= 7 && 0 <= rowFrom + 1 <= 7 {
      coordinatesList := coordinatesList + [Square(rowFrom + 1, columnFrom + 2)];
    }
  }

  /**
   * The pawn's two candidate lists: the forward squares (two ahead from the start row,
   * then one ahead while on the board) and the forward diagonals holding an opponent's piece.
   */
  method PawnCoordinates(g: Grid, mover: Color, columnFrom: int, rowFrom: int)
    returns (coordinatesListForMove: seq<Square>, coordinatesListForCapture: seq<Square>)
    requires IsGrid(g) && OnBoard(Square(rowFrom, columnFrom))
    ensures coordinatesListForMove == PawnMoveTargets(mover, Square(rowFrom, columnFrom))
    ensures coordinatesListForCapture == PawnCaptureTargets(g, mover, Square(rowFrom, columnFrom))
  {
    coordinatesListForMove := [];
    coordinatesListForCapture := [];
    if mover == White {
      if rowFrom == 6 {
        coordinatesListForMove := coordinatesListForMove + [Square(rowFrom - 2, columnFrom)];
      }
      if 0 <= rowFrom - 1 <= 7 {
        coordinatesListForMove := coordinatesListForMove + [Square(rowFrom - 1, columnFrom)];
      }
      if 0 <= rowFrom - 1 <= 7 && 0 <= columnFrom - 1 <= 7 {
        var leftDiagonalPiece := g[rowFrom - 1][columnFrom - 1];
        if HasColor(leftDiagonalPiece, Black) {
          coordinatesListForCapture := coordinatesListForCapture + [Square(rowFrom - 1, columnFrom - 1)];
        }
      }
      if 0 <= rowFrom - 1 <= 7 && 0 <= columnFrom + 1 <= 7 {
        var rightDiagonalPiece := g[rowFrom - 1][columnFrom + 1];
        if HasColor(rightDiagonalPiece, Black) {
          coordinatesListForCapture := coordinatesListForCapture + [Square(rowFrom - 1, columnFrom + 1)];
        }
      }
    } else {
      if rowFrom == 1 {
        coordinatesListForMove := coordinatesListForMove + [Square(rowFrom + 2, columnFrom)];
      }
      if 0 <= rowFrom + 1 <= 7 {
        coordinatesListForMove := coordinatesListForMove + [Square(rowFrom + 1, columnFrom)];
      }
      if 0 <= rowFrom + 1 <= 7 && 0 <= columnFrom - 1 <= 7 {
        var leftDiagonalPiece := g[rowFrom + 1][columnFrom - 1];
        if HasColor(leftDiagonalPiece, White) {
          coordinatesListForCapture := coordinatesListForCapture + [Square(rowFrom + 1, columnFrom - 1)];
        }
      }
      if 0 <= rowFrom + 1 <= 7 && 0 <= columnFrom + 1 <= 7 {
        var rightDiagonalPiece := g[rowFrom + 1][columnFrom + 1];
        if HasColor(rightDiagonalPiece, White) {
          coordinatesListForCapture := coordinatesListForCapture + [Square(rowFrom + 1, columnFrom + 1)];
        }
      }
    }
  }

  /** Four rays, one after the other: the order in which the list builders append them. */
  lemma Rays4(g: Grid, mover: Color, from: Square, dirs: seq<Dir>)
    requires IsGrid(g) && |dirs| == 4
    ensures Rays(g, mover, from, dirs)
            == PieceRay(g, mover, from, dirs[0]) + PieceRay(g, mover, from, dirs[1])
             + PieceRay(g, mover, from, dirs[2]) + PieceRay(g, mover, from, dirs[3])
  {
    var d1 := dirs[1..];
    var d2 := d1[1..];
    var d3 := d2[1..];
    RaysHead(g, mover, from, dirs);
    RaysHead(g, mover, from, d1);
    RaysHead(g, mover, from, d2);
    RaysHead(g, mover, from, d3);
    assert d3[1..] == [];
    Assoc4(PieceRay(g, mover, from, dirs[0]), PieceRay(g, mover, from, dirs[1]),
           PieceRay(g, mover, from, dirs[2]), PieceRay(g, mover, from, dirs[3]));
  }

  /** One ray taken off the front of a list of rays. */
  lemma RaysHead(g: Grid, mover: Color, from: Square, dirs: seq<Dir>)
    requires IsGrid(g) && dirs != []
    ensures Rays(g, mover, from, dirs) == PieceRay(g, mover, from, dirs[0]) + Rays(g, mover, from, dirs[1..])
  {
  }

  /** Regrouping four appended lists. */
  lemma Assoc4(a: seq<Square>, b: seq<Square>, c: seq<Square>, d: seq<Square>)
    ensures a + (b + (c + (d + []))) == a + b + c + d
  {
    assert d + [] == d;
  }

  lemma RookList(g: Grid, mover: Color, from: Square)
    requires IsGrid(g)
    ensures RookTargets(g, mover, from)
            == PieceRay(g, mover, from, Left) + PieceRay(g, mover, from, Right)
             + PieceRay(g, mover, from, Up) + PieceRay(g, mover, from, Down)
  {
    Rays4(g, mover, from, RookDirs);
  }

  lemma BishopList(g: Grid, mover: Color, from: Square)
    requires IsGrid(g)
    ensures BishopTargets(g, mover, from)
            == PieceRay(g, mover, from, UpLeft) + PieceRay(g, mover, from, DownLeft)
             + PieceRay(g, mover, from, DownRight) + PieceRay(g, mover, from, UpRight)
  {
    Rays4(g, mover, from, BishopDirs);
  }

  lemma QueenList(g: Grid, mover: Color, from: Square)
    requires IsGrid(g)
    ensures QueenTargets(g, mover, from)
            == PieceRay(g, mover, from, Left) + PieceRay(g, mover, from, Right)
             + PieceRay(g, mover, from, Up) + PieceRay(g, mover, from, Down)
             + PieceRay(g, mover, from, UpLeft) + PieceRay(g, mover, from, DownLeft)
             + PieceRay(g, mover, from, DownRight) + PieceRay(g, mover, from, UpRight)
  {
    QueenIsRookPlusBishop(g, mover, from);
    RookList(g, mover, from);
    BishopList(g, mover, from);
  }
}
