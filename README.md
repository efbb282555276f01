# Chess variant rules engine, modelled in Dafny

`ChessGame.py` implements a chess variant on the standard 8×8 board with the standard
set-up and standard piece movement. There is no check, checkmate, castling, en passant or
promotion. A player wins by capturing every opponent piece of some single type: both rooks,
both knights, both bishops, the queen, the king or all eight pawns.

The model follows the program's own structure:

- `pieces.dfy` (module `Pieces`): colours, piece types, and the contents of a square.
  - A blank `Piece()` is `Empty`.
  - The starting count of each type is the win threshold.
- `board.dfy` (module `Board`): the board as a sequence of eight rows.
  - Square-level update (`SetCell`) and the standard set-up.
  - Counting of pieces on the board.
- `movement.dfy` (module `Movement`): the candidate lists the validators build.
  - Sliding rays walked square by square, with a loop method `AppendRay` for one ray.
  - The king's and knight's eight guarded offsets.
  - The pawn's forward and diagonal lists.
  - For each list, an independent geometric description and a lemma that the list matches it.
- `rules.dfy` (module `Rules`): the whole game as a value `Game`.
  - An attempted move is a function `TryMove` returning `Rejected` or `Applied(next)`.
  - Lemmas about single moves, and an invariant (`Consistent`) that every move preserves.
- `engine.dfy` (module `Engine`): the classes `Player` and `ChessVar`, whose methods update
  fields in place as the program does.
  - Each method is proved against `Rules`: after `MakeMove`, the object holds exactly the game
    value `TryMove` computes from the state before the call, and `ok` says whether the move was applied.
  - The board is a field reassigned cell by cell.
  - The capture dictionaries are `map` fields.
  - The current player is a reference to one of the two player objects.
- `scenarios.dfy` (modules `Scenarios` and `Playthrough`): short games, stated on game values and, for the opening, played on a new game object.
  - The opening double step of a pawn.
  - A pawn move that is too long.
  - A side winning on the move that takes the opponent's second knight.

Coordinates are (row, column) with row 0 black's back rank and row 7 white's, as in the program.

Conservation invariant (`Rules.Conserved`): for every colour and type, the pieces of that kind
still on the board plus those the other side has captured equal the starting count. From it
follow two results:

- no capture tally ever exceeds its threshold (`Rules.CapturesBounded`);
- passing the win test means the opponent has no piece of that type left (`Rules.WinnerWipedOutAType`).

The pawn's two-square advance checks only the destination square. The square it passes over is
never examined, so a pawn may jump over a piece on its first move. The model keeps this behaviour
(`Movement.PawnMoveTargets`, `Rules.PawnLegal`).

## Model

| member | source | states |
|---|---|---|
| Engine.Player.constructor | ChessGame.py:1061-1063 | a new player has its colour and a zero counter for each of the six piece types |
| Engine.Player.GetCapturedPieces | ChessGame.py:1073-1080 | returns the player's tally, which has a counter for every piece type |
| Engine.Player.AddCapturedPiece | ChessGame.py:1081-1091 | the counter of the given type goes up by one and every other counter keeps its value |
| Engine.ChessVar.constructor | ChessGame.py:99-123 | the new game is the standard set-up with no captures, unfinished, white to move (the current player is the white player object), and it satisfies the class invariant; both player objects are newly created, so the caller may go on to call MakeMove |
| Rules.InitialConsistent | ChessGame.py:99-123 | the starting game is consistent: every piece is on the board, no tally is at a threshold, and the game is unfinished |
| Board.InitialCount | ChessGame.py:100-119 | the set-up holds, for each side, exactly 2 rooks, knights and bishops, 1 queen, 1 king and 8 pawns |
| Engine.ChessVar.ValidateCoordinatesList | ChessGame.py:894-945 | the move is made iff the target is in the list and does not hold a piece of the mover's colour; then an opponent's piece on the target is credited to the mover, the piece is written to the target and the origin emptied; otherwise nothing changes |
| Rules.NonPawnLegal | ChessGame.py:922-927 | a king, queen, rook, bishop or knight move is applied iff the target is one of its candidates and does not hold one of the mover's pieces |
| Rules.ApplyEffect | ChessGame.py:929-942 | applying a move puts the moving piece on the target and empties the origin, leaves every other square alone, and adds one to the mover's counter of the taken type exactly when the target was occupied |
| Rules.Credit | ChessGame.py:929-936 | crediting a capture adds one to one counter of the capturing side only; the board, the other side's tally and the turn are unchanged |
| Engine.ChessVar.IsValidMoveKing | ChessGame.py:253-306 | the king's move is the common validation over the king's candidate list; the new state is the one `Validate` describes |
| Engine.KingCoordinates | ChessGame.py:278-304 | the king's list is the eight neighbours in the program's order, each kept only when on the board |
| Movement.KingTargetsExact | ChessGame.py:278-304 | a square is a king candidate iff it is on the board, differs from the origin, and is at most one row and one column away |
| Rules.KingLegal | ChessGame.py:253-306 | a king move is applied iff the target is a neighbouring square not holding one of the mover's pieces |
| Engine.ChessVar.IsValidMoveKnight | ChessGame.py:695-779 | the knight's move is the common validation over the knight's candidate list |
| Engine.KnightCoordinates | ChessGame.py:721-777 | the knight's list is the eight jumps in the program's order, each kept only when on the board |
| Movement.KnightTargetsExact | ChessGame.py:721-777 | a square is a knight candidate iff it is on the board and two rows and one column away, or one row and two columns away |
| Rules.KnightLegal | ChessGame.py:695-779 | a knight move is applied iff the target is a knight's jump away, whatever stands in between, and does not hold one of the mover's pieces |
| Movement.AppendRay | ChessGame.py:516-531 | the loop over one direction appends exactly that direction's ray: empty squares, then the first opponent's piece, stopping before the mover's own piece or the edge |
| Movement.RayExact | ChessGame.py:516-531 | the square k steps along a direction is on the ray iff it is on the board, does not hold the mover's piece, and every square before it is empty |
| Movement.RayStopsAtCapture | ChessGame.py:524-528 | the first opponent's piece on a direction is on the ray and nothing beyond it is |
| Movement.RaysExact | ChessGame.py:513-587 | a square is in the list of several rays iff it is reachable along one of their directions |
| Movement.SliderTargetsSafe | ChessGame.py:513-587 | every sliding candidate is on the board, differs from the origin, does not hold the mover's piece, and has only empty squares between it and the origin |
| Engine.ChessVar.IsValidMoveRook | ChessGame.py:488-587 | the rook's four loops build the rook's candidate list (left, right, up, down) and the move is the common validation over it |
| Engine.ChessVar.IsValidMoveBishop | ChessGame.py:589-692 | the bishop's four loops build the bishop's candidate list (the four diagonals) and the move is the common validation over it |
| Engine.ChessVar.IsValidMoveQueen | ChessGame.py:310-485 | the queen's eight loops build the queen's candidate list and the move is the common validation over it |
| Movement.QueenIsRookPlusBishop | ChessGame.py:335-483 | the queen's candidate list is the rook's list followed by the bishop's, so a square is a queen candidate iff it is a rook or a bishop candidate |
| Rules.SliderLegal | ChessGame.py:488-587 | a rook, bishop or queen move is applied iff the target is along one of its directions, on the board, not holding one of its own pieces, with an empty path |
| Engine.ChessVar.IsValidMovePawn | ChessGame.py:782-892 | a forward candidate is taken only onto an empty square, a diagonal candidate always, with the captured piece credited to the mover; anything else is refused with no change |
| Engine.PawnCoordinates | ChessGame.py:814-858 | the pawn's two lists: two squares ahead from row 6 (white) or row 1 (black) plus one square ahead when on the board, and each forward diagonal holding an opponent's piece |
| Movement.PawnMoveTargetsExact | ChessGame.py:823-848 | a forward candidate is in the pawn's column, one row ahead, or two rows ahead when the pawn is on its start row |
| Movement.PawnCaptureTargetsExact | ChessGame.py:830-858 | a capture candidate is one row ahead and one column aside, on the board, and holds an opponent's piece |
| Rules.PawnLegal | ChessGame.py:782-892 | a pawn move is applied iff it goes straight ahead onto an empty square (one row, or two from the start row, the square in between not examined) or diagonally ahead onto an opponent's piece |
| Engine.ChessVar.CheckIfWinner | ChessGame.py:965-989 | the result is true iff some counter of the current player equals its threshold: 2 for rook, knight and bishop, 1 for queen and king, 8 for pawn |
| Rules.NoCapturesNoWinner | ChessGame.py:965-989 | a tally of zeros never passes the win test |
| Engine.ChessVar.FinishMove | ChessGame.py:235-250 | after a move the game is won by the mover exactly when the mover's tally passes the win test, and the current player becomes the other player |
| Engine.ChessVar.MakeMove | ChessGame.py:153-250 | the new state is exactly `TryMove` of the old one (refused with nothing changed for an empty origin, an opponent's piece or a finished game; otherwise the piece's validator decides, then the win test and the turn change), and the class invariant is kept |
| Rules.FinishedGameRejects | ChessGame.py:201-202 | once the game is won, every attempted move is refused |
| Rules.AppliedMove | ChessGame.py:153-250 | an applied move: the origin held the mover's piece and the game was unfinished; the piece now stands on the target and the origin is empty; no other square changed; the mover's counter of a type rose by one exactly when the target held an opponent's piece of that type; the opponent's tally is unchanged; the game is won by the mover iff the mover's tally passes the win test; the turn passes |
| Rules.AppliedCounts | ChessGame.py:929-942 | an applied move removes from the board only the captured piece: each kind of piece keeps its count, except that the taken kind loses one |
| Board.SetCellCount | ChessGame.py:938-940 | overwriting one square changes a piece's count by the piece removed and the piece written |
| Board.SetCell | ChessGame.py:938-940 | writing a square changes that square only |
| Rules.TryMovePreservesConsistency | ChessGame.py:153-250 | every applied move keeps the game consistent: pieces on the board plus captures stay equal to the starting counts, and the recorded outcome agrees with the tallies |
| Rules.CapturesBounded | ChessGame.py:1081-1091 | in a consistent game no capture counter exceeds its type's starting count |
| Rules.WinnerWipedOutAType | ChessGame.py:965-989 | in a consistent game a player's tally passes the win test iff the opponent has no piece of some type left on the board |
| Scenarios.OpeningDoubleStep | ChessGame.py:823-826 | from the set-up, white's pawn e2-e4 is applied, leaves e2 empty, passes the turn to black and does not end the game |
| Playthrough.OpenWithKingsPawn | ChessGame.py:99-123 | a newly created game accepts e2-e4 through MakeMove: e4 holds the white pawn, e2 is empty, black is to move, the game is unfinished and still satisfies the class invariant |
| Scenarios.DoubleStep | ChessGame.py:823-826 | a white pawn on its start row with the square two ahead empty may advance two rows, capturing nothing |
| Scenarios.PawnTooFar | ChessGame.py:823-829 | a white pawn off its start row is refused an advance of two or three rows, from any row and column |
| Scenarios.FirstKnightCapture | ChessGame.py:975-989 | taking one knight with no threshold reached records one knight and the game goes on |
| Scenarios.SecondKnightCaptureWins | ChessGame.py:975-989 | taking the second knight raises the knight counter to 2 and the capturing side wins on that very move |

## Left out

- `display_board` (ChessGame.py:948-963) prints the board; output is not modelled.
- Algebraic notation (ChessGame.py:124-127, 174-184) is not modelled. `make_move` turns strings such as `'e2'` into indices through `_reference_dict`.
  - `MakeMove` takes the four indices directly.
  - They are required to lie in 0..7, the range the dictionary produces.
  - Every value the dictionary yields is in 0..7, so the on-board requirement covers every index `make_move` can reach.
  - Malformed strings are not modelled. A string shorter than two characters raises `IndexError`. A character outside the dictionary's keys raises `KeyError`. Some malformed strings are read as squares without error, because letters and digits share one dictionary: `'aa'` is row 0, column 0, and `'a1x'` is a1.
- The setters and getters (`get_game_state`, `set_game_state`, `set_current_player`, `get_color`, `get_type`) are plain field reads and writes. The setters are inlined where `make_move` calls them.
- The `Piece` class is a datatype value. A blank `Piece()` is `Empty`; a piece with only one of type and colour blank never occurs in the program and is not represented.
- The board is a list of lists updated in place. It is modelled as a sequence field rebuilt by `SetCell`; the program never shares a row between boards, so aliasing is not modelled.
- Capture-dictionary keys are the six piece types. A string key outside them, which would raise `KeyError` in `add_captured_piece`, cannot be expressed.
- Engine.ChessVar.MakeMove requires the class invariant `Valid()`, which the program never checks. The constructor establishes it and `MakeMove` keeps it.
  - The validators (`IsValidMoveKing` … `IsValidMovePawn`, `ValidateCoordinatesList`) and `FinishMove` keep only `Shaped()`, the well-formedness of the fields.
  - The program lets a client call the validators on their own. Such a call can break `Valid()`: `IsValidMoveKing` from an empty square writes a second king of the mover's colour.
  - After such a call `MakeMove`'s contract no longer applies, although the program's `make_move` still runs.
- Engine.ChessVar.FinishMove is the tail of `make_move` (ChessGame.py:235-250) as a method of its own: the same win test and the same change of turn, in the same order. It has no counterpart in the program's interface: only `MakeMove` calls it, right after an applied move. A client that called it on its own would pass the turn without a move, which the program cannot do.
- The order in which `check_if_winner` visits the dictionary is the insertion order rook, knight, bishop, queen, king, pawn. The result does not depend on it, which `CheckIfWinner`'s contract states.
