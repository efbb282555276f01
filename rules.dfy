/**
 * The rules of the variant as functions on a game value: the move applier, the
 * per-piece dispatch, the win test and the turn change. The class `ChessVar` is
 * proved to follow `TryMove`.
 */
module Rules {
  import opened Pieces
  import opened Board
  import opened Movement

  datatype GameState = Unfinished | WhiteWon | BlackWon

  /** Captures made by one player, by the type of the captured piece. */
  type Tally = map<PieceType, nat>

  /** Every piece type has an entry. */
  predicate IsTally(m: Tally)
  {
    forall t: PieceType :: t in m
  }

  /** A map that has the six piece types as keys is a tally. */
  lemma SixKeys(m: Tally)
    requires Rook in m && Knight in m && Bishop in m && Queen in m && King in m && Pawn in m
    ensures IsTally(m)
  {
    forall t: PieceType
      ensures t in m
    {
      match t
      case Rook =>
      case Knight =>
      case Bishop =>
      case Queen =>
      case King =>
      case Pawn =>
    }
  }

  /** The captures of a new player: zero of every type. */
  function NoCaptures(): (m: Tally)
    ensures IsTally(m) && forall t :: m[t] == 0
  {
    var m := map[Rook := 0, Knight := 0, Bishop := 0, Queen := 0, King := 0, Pawn := 0];
    SixKeys(m);
    m
  }

  /** One game: the board, the captures of each player, whose turn it is, and the outcome so far. */
  datatype Game = Game(board: Grid, white: Tally, black: Tally, current: Color, state: GameState)

  predicate WellFormed(s: Game)
  {
    IsGrid(s.board) && IsTally(s.white) && IsTally(s.black)
  }

  /** The captures made by player `c`. */
  function Captures(s: Game, c: Color): Tally
  {
    if c == White then s.white else s.black
  }

  /** Player `c` is credited with one more capture of type `t`; nothing else changes. */
  function Credit(s: Game, c: Color, t: PieceType): (s': Game)
    requires WellFormed(s)
    ensures WellFormed(s')
    ensures Captures(s', c) == Captures(s, c)[t := Captures(s, c)[t] + 1]
    ensures Captures(s', Opponent(c)) == Captures(s, Opponent(c))
    ensures s'.board == s.board && s'.current == s.current && s'.state == s.state
  {
    if c == White then s.(white := s.white[t := s.white[t] + 1])
    else s.(black := s.black[t := s.black[t] + 1])
  }

  function WonBy(c: Color): GameState
  {
    if c == White then WhiteWon else BlackWon
  }

  /** The win test on a player's captures: some type captured exactly as often as the opponent had it. */
  predicate IsWinner(m: Tally)
    requires IsTally(m)
  {
    exists t :: m[t] == StartingCount(t)
  }

  /** A new game: the standard set-up, no captures, white to move. */
  function Initial(): Game
  {
    Game(InitialBoard(), NoCaptures(), NoCaptures(), White, Unfinished)
  }

  /** What an attempted move yields: nothing, or the next state. */
  datatype Outcome = Rejected | Applied(next: Game)

  /**
   * The move applier: when the destination is occupied the mover is credited with the
   * captured type; then the moving piece is written on the destination and the origin
   * is emptied, in that order.
   */
  function Apply(s: Game, from: Square, to: Square, kind: PieceType): Game
    requires WellFormed(s) && OnBoard(from) && OnBoard(to)
  {
    var target := At(s.board, to);
    var credited := if target != Empty then Credit(s, s.current, target.kind) else s;
    credited.(board := SetCell(SetCell(s.board, to, Piece(kind, s.current)), from, Empty))
  }

  /** A move to `to` for a non-pawn: `to` must be a candidate and must not hold one of the mover's pieces. */
  function Validate(s: Game, coords: seq<Square>, from: Square, to: Square, kind: PieceType): Outcome
    requires WellFormed(s) && OnBoard(from) && OnBoard(to)
  {
    if to !in coords then Rejected
    else if HasColor(At(s.board, to), s.current) then Rejected
    else Applied(Apply(s, from, to, kind))
  }

  /** A pawn move: a forward candidate onto an empty square, or a capture candidate. */
  function PawnMove(s: Game, from: Square, to: Square): Outcome
    requires WellFormed(s) && OnBoard(from) && OnBoard(to)
  {
    if to in PawnMoveTargets(s.current, from) then
      if At(s.board, to) != Empty then Rejected else Applied(Apply(s, from, to, Pawn))
    else if to in PawnCaptureTargets(s.board, s.current, from) then
      Applied(Apply(s, from, to, Pawn))
    else
      Rejected
  }

  /**
   * Candidate list of a piece of type `kind` standing on `from`. `Dispatch` uses it for
   * the non-pawn types only; pawns go through `PawnMove`, which keeps the two lists apart.
   */
  function Candidates(g: Grid, mover: Color, from: Square, kind: PieceType): seq<Square>
    requires IsGrid(g)
  {
    match kind
    case King => KingTargets(from)
    case Queen => QueenTargets(g, mover, from)
    case Rook => RookTargets(g, mover, from)
    case Bishop => BishopTargets(g, mover, from)
    case Knight => KnightTargets(from)
    case Pawn => PawnMoveTargets(mover, from) + PawnCaptureTargets(g, mover, from)
  }

  /** The per-piece dispatch of an attempted move. */
  function Dispatch(s: Game, from: Square, to: Square, kind: PieceType): Outcome
    requires WellFormed(s) && OnBoard(from) && OnBoard(to)
  {
    if kind == Pawn then PawnMove(s, from, to)
    else Validate(s, Candidates(s.board, s.current, from, kind), from, to, kind)
  }

  /**
   * An attempted move: refused for an empty origin, a piece of the wrong colour or a
   * finished game; otherwise dispatched on the piece type, and after an applied move
   * the win test runs on the mover's captures and the turn passes.
   */
  function TryMove(s: Game, from: Square, to: Square): Outcome
    requires WellFormed(s) && OnBoard(from) && OnBoard(to)
  {
    var p := At(s.board, from);
    if p == Empty then Rejected
    else if p.color != s.current then Rejected
    else if s.state != Unfinished then Rejected
    else match Dispatch(s, from, to, p.kind)
      case Rejected => Rejected
      case Applied(t) =>
        Applied(t.(state := if IsWinner(Captures(t, s.current)) then WonBy(s.current) else t.state,
                   current := Opponent(s.current)))
  }

  // ---------------------------------------------------------------------------
  // Properties of a single move
  // ---------------------------------------------------------------------------

  /** Once the game is over, every attempted move is refused. */
  lemma FinishedGameRejects(s: Game, from: Square, to: Square)
    requires WellFormed(s) && OnBoard(from) && OnBoard(to)
    requires s.state != Unfinished
    ensures TryMove(s, from, to) == Rejected
  {
  }

  /** The move applier, cell by cell and counter by counter. */
  lemma ApplyEffect(s: Game, from: Square, to: Square, kind: PieceType)
    requires WellFormed(s) && OnBoard(from) && OnBoard(to) && from != to
    ensures var t := Apply(s, from, to, kind);
      && WellFormed(t)
      && At(t.board, to) == Piece(kind, s.current)
      && At(t.board, from) == Empty
      && (forall r, c :: 0 <= r < 8 && 0 <= c < 8 && Square(r, c) != from && Square(r, c) != to
            ==> t.board[r][c] == s.board[r][c])
      && Captures(t, s.current)
         == (if At(s.board, to) == Empty then Captures(s, s.current)
             else Captures(s, s.current)[At(s.board, to).kind := Captures(s, s.current)[At(s.board, to).kind] + 1])
      && Captures(t, Opponent(s.current)) == Captures(s, Opponent(s.current))
      && t.current == s.current && t.state == s.state
  {
  }

  /**
   * An applied move: the moving piece now stands on `to`, `from` is empty, every other
   * square is unchanged; the mover gains one capture of the taken type exactly when
   * `to` held an opponent's piece, the opponent's captures do not change; the game is
   * won by the mover exactly when the mover's captures pass the win test; and the
   * turn passes to the opponent.
   */
  lemma AppliedMove(s: Game, from: Square, to: Square)
    requires WellFormed(s) && OnBoard(from) && OnBoard(to)
    requires TryMove(s, from, to).Applied?
    ensures var t := TryMove(s, from, to).next;
      var mover := s.current;
      && WellFormed(t)
      && s.state == Unfinished
      && HasColor(At(s.board, from), mover)
      && !HasColor(At(s.board, to), mover)
      && At(t.board, to) == Piece(At(s.board, from).kind, mover)
      && At(t.board, from) == Empty
      && (forall r, c :: 0 <= r < 8 && 0 <= c < 8 && Square(r, c) != from && Square(r, c) != to
            ==> t.board[r][c] == s.board[r][c])
      && (forall k :: Captures(t, mover)[k] == Captures(s, mover)[k] + (if At(s.board, to) == Piece(k, Opponent(mover)) then 1 else 0))
      && Captures(t, Opponent(mover)) == Captures(s, Opponent(mover))
      && t.state == (if IsWinner(Captures(t, mover)) then WonBy(mover) else Unfinished)
      && t.current == Opponent(mover)
  {
    var p := At(s.board, from);
    var mover := s.current;
    var target := At(s.board, to);
    assert !HasColor(target, mover) by {
      if p.kind == Pawn {
        if to !in PawnMoveTargets(mover, from) {
          PawnCaptureTargetsExact(s.board, mover, from, to);
        }
      }
    }
    assert from != to;
    ApplyEffect(s, from, to, p.kind);
    assert target != Empty ==> target.color == Opponent(mover);
  }

  /** A non-pawn move is applied exactly when the destination is a candidate not holding one of the mover's pieces. */
  lemma NonPawnLegal(s: Game, from: Square, to: Square)
    requires WellFormed(s) && OnBoard(from) && OnBoard(to)
    requires s.state == Unfinished && HasColor(At(s.board, from), s.current)
    requires At(s.board, from).kind != Pawn
    ensures TryMove(s, from, to).Applied?
            <==> to in Candidates(s.board, s.current, from, At(s.board, from).kind)
                 && !HasColor(At(s.board, to), s.current)
  {
  }

  /** A king moves one square in any direction, onto any square but one of its own side's. */
  lemma KingLegal(s: Game, from: Square, to: Square)
    requires WellFormed(s) && OnBoard(from) && OnBoard(to)
    requires s.state == Unfinished && At(s.board, from) == Piece(King, s.current)
    ensures TryMove(s, from, to).Applied?
            <==> to != from && Abs(to.row - from.row) <= 1 && Abs(to.col - from.col) <= 1
                 && !HasColor(At(s.board, to), s.current)
  {
    KingTargetsExact(from, to);
  }

  /** A knight jumps two and one, whatever stands in between, onto any square but one of its own side's. */
  lemma KnightLegal(s: Game, from: Square, to: Square)
    requires WellFormed(s) && OnBoard(from) && OnBoard(to)
    requires s.state == Unfinished && At(s.board, from) == Piece(Knight, s.current)
    ensures TryMove(s, from, to).Applied?
            <==> ((Abs(to.row - from.row) == 2 && Abs(to.col - from.col) == 1)
                  || (Abs(to.row - from.row) == 1 && Abs(to.col - from.col) == 2))
                 && !HasColor(At(s.board, to), s.current)
  {
    KnightTargetsExact(from, to);
  }

  /** The directions a sliding piece moves along. */
  function SliderDirs(kind: PieceType): seq<Dir>
  {
    match kind
    case Rook => RookDirs
    case Bishop => BishopDirs
    case _ => QueenDirs
  }

  /**
   * A rook, bishop or queen reaches exactly the squares along its directions whose
   * path is empty and which do not hold one of its own side's pieces.
   */
  lemma SliderLegal(s: Game, from: Square, to: Square)
    requires WellFormed(s) && OnBoard(from) && OnBoard(to)
    requires s.state == Unfinished && HasColor(At(s.board, from), s.current)
    requires At(s.board, from).kind in {Rook, Bishop, Queen}
    ensures var dirs := SliderDirs(At(s.board, from).kind);
      TryMove(s, from, to).Applied?
      <==> exists d, k :: d in dirs && to == Step(from, d, k) && Reachable(s.board, s.current, from, d, k)
  {
    var kind := At(s.board, from).kind;
    RaysExact(s.board, s.current, from, SliderDirs(kind), to);
    if to in Candidates(s.board, s.current, from, kind) {
      SliderTargetsSafe(s.board, s.current, from, SliderDirs(kind), to);
    }
  }

  /**
   * A pawn moves straight ahead onto an empty square, one step or two from its start
   * row (the square in between is not looked at), or diagonally forward onto an
   * opponent's piece.
   */
  lemma PawnLegal(s: Game, from: Square, to: Square)
    requires WellFormed(s) && OnBoard(from) && OnBoard(to)
    requires s.state == Unfinished && At(s.board, from) == Piece(Pawn, s.current)
    ensures var mover := s.current;
      TryMove(s, from, to).Applied?
      <==> || (to.col == from.col && At(s.board, to) == Empty
               && (to.row == from.row + Forward(mover)
                   || (from.row == StartRow(mover) && to.row == from.row + 2 * Forward(mover))))
           || (to.row == from.row + Forward(mover) && Abs(to.col - from.col) == 1
               && HasColor(At(s.board, to), Opponent(mover)))
  {
    PawnMoveTargetsExact(s.current, from, to);
    PawnCaptureTargetsExact(s.board, s.current, from, to);
  }

  // ---------------------------------------------------------------------------
  // Invariants of a game
  // ---------------------------------------------------------------------------

  /**
   * No piece is created or lost unaccounted: for every colour and type, the pieces of
   * that kind still on the board plus the ones the other player has captured make up
   * the starting count.
   */
  predicate Conserved(s: Game)
    requires WellFormed(s)
  {
    forall c: Color, t: PieceType :: Captures(s, Opponent(c))[t] + Count(s.board, Piece(t, c)) == StartingCount(t)
  }

  /** The recorded outcome agrees with the captures. */
  predicate OutcomeAgrees(s: Game)
    requires WellFormed(s)
  {
    && (s.state == Unfinished ==> !IsWinner(s.white) && !IsWinner(s.black))
    && (s.state == WhiteWon ==> IsWinner(s.white))
    && (s.state == BlackWon ==> IsWinner(s.black))
  }

  predicate Consistent(s: Game)
  {
    WellFormed(s) && Conserved(s) && OutcomeAgrees(s)
  }

  /** A new game is consistent. */
  lemma InitialConsistent()
    ensures Consistent(Initial())
  {
    InitialConserved(Initial());
  }

  /** Before any capture, a board holding each side's full set is conserved, and nobody has won. */
  lemma InitialConserved(s: Game)
    requires IsGrid(s.board) && s.white == NoCaptures() && s.black == NoCaptures() && s.state == Unfinished
    requires SetupRanks(s.board)
    ensures Consistent(s)
  {
    forall c: Color, t: PieceType
      ensures Captures(s, Opponent(c))[t] + Count(s.board, Piece(t, c)) == StartingCount(t)
    {
      SetupCount(s.board, t, c);
    }
    NoCapturesNoWinner();
  }

  /** An empty tally has not reached any threshold. */
  lemma NoCapturesNoWinner()
    ensures !IsWinner(NoCaptures())
  {
    forall t ensures NoCaptures()[t] != StartingCount(t) {
      assert StartingCount(t) > 0;
    }
  }

  /** An applied move is the move applier run on the piece standing on `from`. */
  lemma AppliedIsApply(s: Game, from: Square, to: Square)
    requires WellFormed(s) && OnBoard(from) && OnBoard(to)
    requires TryMove(s, from, to).Applied?
    ensures At(s.board, from).Piece?
    ensures TryMove(s, from, to).next.board == Apply(s, from, to, At(s.board, from).kind).board
  {
    var p := At(s.board, from);
    assert Dispatch(s, from, to, p.kind) == Applied(Apply(s, from, to, p.kind));
  }

  /** The counts after an applied move: of all pieces, only the captured one leaves the board. */
  lemma AppliedCounts(s: Game, from: Square, to: Square, q: Piece)
    requires WellFormed(s) && OnBoard(from) && OnBoard(to) && q != Empty
    requires TryMove(s, from, to).Applied?
    ensures Count(TryMove(s, from, to).next.board, q)
            == Count(s.board, q) - (if At(s.board, to) == q then 1 else 0)
  {
    var p := At(s.board, from);
    var g1 := SetCell(s.board, to, Piece(p.kind, s.current));
    AppliedMove(s, from, to);
    AppliedIsApply(s, from, to);
    SetCellCount(s.board, to, Piece(p.kind, s.current), q);
    SetCellCount(g1, from, Empty, q);
    assert At(g1, from) == p;
    assert p == Piece(p.kind, s.current);
  }

  /** A move by the side to play in an unfinished game: the dispatch decides, then the win test and the turn change. */
  lemma TryMoveSteps(s: Game, from: Square, to: Square, d: Outcome)
    requires WellFormed(s) && OnBoard(from) && OnBoard(to)
    requires At(s.board, from).Piece? && At(s.board, from).color == s.current && s.state == Unfinished
    requires d == Dispatch(s, from, to, At(s.board, from).kind)
    ensures d.Rejected? ==> TryMove(s, from, to) == Rejected
    ensures d.Applied? ==> TryMove(s, from, to) == Applied(d.next.(
              state := if IsWinner(Captures(d.next, s.current)) then WonBy(s.current) else d.next.state,
              current := Opponent(s.current)))
  {
  }

  /** Every applied move keeps a consistent game consistent. */
  lemma TryMovePreservesConsistency(s: Game, from: Square, to: Square)
    requires Consistent(s) && OnBoard(from) && OnBoard(to)
    ensures TryMove(s, from, to).Applied? ==> Consistent(TryMove(s, from, to).next)
  {
    if TryMove(s, from, to).Applied? {
      var t := TryMove(s, from, to).next;
      var mover := s.current;
      AppliedMove(s, from, to);
      forall c: Color, k: PieceType
        ensures Captures(t, Opponent(c))[k] + Count(t.board, Piece(k, c)) == StartingCount(k)
      {
        AppliedCounts(s, from, to, Piece(k, c));
      }
      assert Captures(t, Opponent(mover)) == Captures(s, Opponent(mover));
    }
  }

  /** Captures never exceed what the opponent started with. */
  lemma CapturesBounded(s: Game, c: Color, t: PieceType)
    requires Consistent(s)
    ensures Captures(s, c)[t] <= StartingCount(t)
  {
    assert Opponent(Opponent(c)) == c;
    assert Captures(s, Opponent(Opponent(c)))[t] + Count(s.board, Piece(t, Opponent(c))) == StartingCount(t);
  }

  /**
   * The variant's rule, restated on the board: a player passes the win test exactly
   * when the opponent has no piece of some type left.
   */
  lemma WinnerWipedOutAType(s: Game, c: Color)
    requires Consistent(s)
    ensures IsWinner(Captures(s, c)) <==> exists t :: Count(s.board, Piece(t, Opponent(c))) == 0
  {
    assert Opponent(Opponent(c)) == c;
    assert forall t :: Captures(s, c)[t] + Count(s.board, Piece(t, Opponent(c))) == StartingCount(t);
  }
}
