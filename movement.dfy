/**
 * Candidate destinations for each kind of piece: the lists that `is_valid_move_*`
 * build before handing them to the move applier.
 */
module Movement {
  import opened Pieces
  import opened Board

  // ---------------------------------------------------------------------------
  // Sliding pieces: rays walked square by square
  // ---------------------------------------------------------------------------

  /** The eight ray directions; "up" decreases the row index, "left" the column index. */
  datatype Dir = Left | Right | Up | Down | UpLeft | DownLeft | DownRight | UpRight

  /** The square `k` steps from `s` along `d`. */
  function Step(s: Square, d: Dir, k: int): Square
  {
    match d
    case Left => Square(s.row, s.col - k)
    case Right => Square(s.row, s.col + k)
    case Up => Square(s.row - k, s.col)
    case Down => Square(s.row + k, s.col)
    case UpLeft => Square(s.row - k, s.col - k)
    case DownLeft => Square(s.row + k, s.col - k)
    case DownRight => Square(s.row + k, s.col + k)
    case UpRight => Square(s.row - k, s.col + k)
  }

  /** Squares left before the edge of the board along `d` (positive while `s` is on the board). */
  function Remaining(s: Square, d: Dir): int
  {
    match d
    case Left => s.col + 1
    case Right => 8 - s.col
    case Up | UpLeft | UpRight => s.row + 1
    case Down | DownLeft | DownRight => 8 - s.row
  }

  /**
   * The walk of one ray from square `s` on, for a piece of colour `mover`: stop at the
   * edge, stop before a piece of the mover's colour, take an opponent's piece and stop,
   * take an empty square and go on.
   */
  function Ray(g: Grid, mover: Color, s: Square, d: Dir): seq<Square>
    requires IsGrid(g)
    decreases Remaining(s, d)
  {
    if !OnBoard(s) then []
    else if HasColor(At(g, s), mover) then []
    else if At(g, s) != Empty then [s]
    else [s] + Ray(g, mover, Step(s, d, 1), d)
  }

  /** The ray of a piece standing on `from`: the walk starts one step away. */
  function PieceRay(g: Grid, mover: Color, from: Square, d: Dir): seq<Square>
    requires IsGrid(g)
  {
    Ray(g, mover, Step(from, d, 1), d)
  }

  /** The rays along `dirs`, one after the other, as the candidate list collects them. */
  function Rays(g: Grid, mover: Color, from: Square, dirs: seq<Dir>): seq<Square>
    requires IsGrid(g)
  {
    if dirs == [] then [] else PieceRay(g, mover, from, dirs[0]) + Rays(g, mover, from, dirs[1..])
  }

  const RookDirs: seq<Dir> := [Left, Right, Up, Down]
  const BishopDirs: seq<Dir> := [UpLeft, DownLeft, DownRight, UpRight]
  const QueenDirs: seq<Dir> := [Left, Right, Up, Down, UpLeft, DownLeft, DownRight, UpRight]

  function RookTargets(g: Grid, mover: Color, from: Square): seq<Square>
    requires IsGrid(g)
  {
    Rays(g, mover, from, RookDirs)
  }

  function BishopTargets(g: Grid, mover: Color, from: Square): seq<Square>
    requires IsGrid(g)
  {
    Rays(g, mover, from, BishopDirs)
  }

  function QueenTargets(g: Grid, mover: Color, from: Square): seq<Square>
    requires IsGrid(g)
  {
    Rays(g, mover, from, QueenDirs)
  }

  /** Every square from step `m` up to (not including) step `k` along `d` is on the board and empty. */
  predicate Clear(g: Grid, from: Square, d: Dir, m: int, k: int)
    requires IsGrid(g)
  {
    forall j :: m <= j < k ==> OnBoard(Step(from, d, j)) && At(g, Step(from, d, j)) == Empty
  }

  /**
   * Independent description of a slider's reach: the square `k >= 1` steps along `d`
   * is on the board, does not hold a piece of the mover's colour, and every square
   * strictly between `from` and it is empty.
   */
  predicate Reachable(g: Grid, mover: Color, from: Square, d: Dir, k: int)
    requires IsGrid(g)
  {
    && k >= 1
    && OnBoard(Step(from, d, k))
    && !HasColor(At(g, Step(from, d, k)), mover)
    && Clear(g, from, d, 1, k)
  }

  lemma StepShift(s: Square, d: Dir, k: int)
    ensures Step(Step(s, d, k), d, 1) == Step(s, d, k + 1)
  {
  }

  lemma StepInjective(s: Square, d: Dir, k: int, k': int)
    requires Step(s, d, k) == Step(s, d, k')
    ensures k == k'
  {
  }

  lemma ClearSplit(g: Grid, from: Square, d: Dir, m: int, k: int)
    requires IsGrid(g) && m < k
    ensures Clear(g, from, d, m, k)
            <==> OnBoard(Step(from, d, m)) && At(g, Step(from, d, m)) == Empty && Clear(g, from, d, m + 1, k)
  {
    if OnBoard(Step(from, d, m)) && At(g, Step(from, d, m)) == Empty && Clear(g, from, d, m + 1, k) {
      forall j | m <= j < k
        ensures OnBoard(Step(from, d, j)) && At(g, Step(from, d, j)) == Empty
      {
        if j > m {
          assert m + 1 <= j < k;
        }
      }
    }
  }

  /** The walk from step `m` lists the steps m, m+1, ... in order. */
  lemma {:induction false} RayFromSteps(g: Grid, mover: Color, from: Square, d: Dir, m: int)
    requires IsGrid(g)
    ensures forall i :: 0 <= i < |Ray(g, mover, Step(from, d, m), d)| ==>
                          Ray(g, mover, Step(from, d, m), d)[i] == Step(from, d, m + i)
    decreases Remaining(Step(from, d, m), d)
  {
    var s := Step(from, d, m);
    var ray := Ray(g, mover, s, d);
    if OnBoard(s) && At(g, s) == Empty {
      StepShift(from, d, m);
      var rest := Ray(g, mover, Step(from, d, m + 1), d);
      assert ray == [s] + rest;
      RayFromSteps(g, mover, from, d, m + 1);
      forall i | 0 <= i < |ray|
        ensures ray[i] == Step(from, d, m + i)
      {
        if i > 0 {
          assert rest[i - 1] == Step(from, d, (m + 1) + (i - 1));
        }
      }
    }
  }

  /** The walk from step `m` gets to step `k` exactly when the path from step `m` to it is open. */
  lemma {:induction false} RayFromReach(g: Grid, mover: Color, from: Square, d: Dir, m: int, k: int)
    requires IsGrid(g) && m <= k
    ensures k < m + |Ray(g, mover, Step(from, d, m), d)|
            <==> OnBoard(Step(from, d, k)) && !HasColor(At(g, Step(from, d, k)), mover) && Clear(g, from, d, m, k)
    decreases Remaining(Step(from, d, m), d)
  {
    var s := Step(from, d, m);
    var ray := Ray(g, mover, s, d);
    if m < k {
      ClearSplit(g, from, d, m, k);
    }
    if !OnBoard(s) || At(g, s) != Empty {
      assert |ray| <= 1;
    } else if m < k {
      StepShift(from, d, m);
      var rest := Ray(g, mover, Step(from, d, m + 1), d);
      assert ray == [s] + rest;
      RayFromReach(g, mover, from, d, m + 1, k);
    }
  }

  /**
   * A slider's ray, described without the walk: the square `k` steps along `d` is
   * listed exactly when it is reachable, and nothing else is listed.
   */
  lemma RayExact(g: Grid, mover: Color, from: Square, d: Dir)
    requires IsGrid(g)
    ensures forall k :: Step(from, d, k) in PieceRay(g, mover, from, d) <==> Reachable(g, mover, from, d, k)
    ensures forall s :: s in PieceRay(g, mover, from, d) ==> exists k :: s == Step(from, d, k) && k >= 1
  {
    var ray := PieceRay(g, mover, from, d);
    assert ray == Ray(g, mover, Step(from, d, 1), d);
    RayFromSteps(g, mover, from, d, 1);
    forall k
      ensures Step(from, d, k) in ray <==> Reachable(g, mover, from, d, k)
    {
      if Step(from, d, k) in ray {
        var i :| 0 <= i < |ray| && ray[i] == Step(from, d, k);
        StepInjective(from, d, k, 1 + i);
        RayFromReach(g, mover, from, d, 1, k);
      }
      if Reachable(g, mover, from, d, k) {
        RayFromReach(g, mover, from, d, 1, k);
        assert ray[k - 1] == Step(from, d, k);
      }
    }
    forall s | s in ray
      ensures exists k :: s == Step(from, d, k) && k >= 1
    {
      var i :| 0 <= i < |ray| && ray[i] == s;
      assert s == Step(from, d, 1 + i);
    }
  }

  /** The candidates of a slider moving along `dirs` are exactly its reachable squares. */
  lemma {:induction false} RaysExact(g: Grid, mover: Color, from: Square, dirs: seq<Dir>, s: Square)
    requires IsGrid(g)
    ensures s in Rays(g, mover, from, dirs)
            <==> exists d, k :: d in dirs && s == Step(from, d, k) && Reachable(g, mover, from, d, k)
  {
    if dirs != [] {
      var d0 := dirs[0];
      RayExact(g, mover, from, d0);
      RaysExact(g, mover, from, dirs[1..], s);
      if s in PieceRay(g, mover, from, d0) {
        var k :| s == Step(from, d0, k) && k >= 1;
        assert d0 in dirs && Reachable(g, mover, from, d0, k);
      }
      if exists d, k :: d in dirs && s == Step(from, d, k) && Reachable(g, mover, from, d, k) {
        var d, k :| d in dirs && s == Step(from, d, k) && Reachable(g, mover, from, d, k);
        if d != d0 {
          assert d in dirs[1..];
        }
      }
    }
  }

  /**
   * What every sliding candidate satisfies: it is on the board, it is not the origin,
   * it does not hold a piece of the mover's colour, and the squares before it on its
   * ray are empty.
   */
  lemma SliderTargetsSafe(g: Grid, mover: Color, from: Square, dirs: seq<Dir>, s: Square)
    requires IsGrid(g)
    requires s in Rays(g, mover, from, dirs)
    ensures OnBoard(s) && s != from && !HasColor(At(g, s), mover)
    ensures exists d, k :: d in dirs && s == Step(from, d, k) && k >= 1 && Clear(g, from, d, 1, k)
  {
    RaysExact(g, mover, from, dirs, s);
    var d, k :| d in dirs && s == Step(from, d, k) && Reachable(g, mover, from, d, k);
    if s == from {
      StepInjective(from, d, k, 0);
    }
  }

  /** A ray includes the first opponent's piece it meets and nothing beyond it. */
  lemma RayStopsAtCapture(g: Grid, mover: Color, from: Square, d: Dir, k: int)
    requires IsGrid(g)
    requires Clear(g, from, d, 1, k) && k >= 1
    requires OnBoard(Step(from, d, k)) && HasColor(At(g, Step(from, d, k)), Opponent(mover))
    ensures Step(from, d, k) in PieceRay(g, mover, from, d)
    ensures forall k' :: k' > k ==> Step(from, d, k') !in PieceRay(g, mover, from, d)
  {
    RayExact(g, mover, from, d);
  }

  lemma {:induction false} RaysConcat(g: Grid, mover: Color, from: Square, dirs1: seq<Dir>, dirs2: seq<Dir>)
    requires IsGrid(g)
    ensures Rays(g, mover, from, dirs1 + dirs2) == Rays(g, mover, from, dirs1) + Rays(g, mover, from, dirs2)
  {
    if dirs1 == [] {
      assert dirs1 + dirs2 == dirs2;
    } else {
      assert (dirs1 + dirs2)[1..] == dirs1[1..] + dirs2;
      RaysConcat(g, mover, from, dirs1[1..], dirs2);
    }
  }

  /** The queen's candidate list is the rook's followed by the bishop's. */
  lemma QueenIsRookPlusBishop(g: Grid, mover: Color, from: Square)
    requires IsGrid(g)
    ensures QueenTargets(g, mover, from) == RookTargets(g, mover, from) + BishopTargets(g, mover, from)
    ensures forall s :: s in QueenTargets(g, mover, from)
                        <==> s in RookTargets(g, mover, from) || s in BishopTargets(g, mover, from)
  {
    assert QueenDirs == RookDirs + BishopDirs;
    RaysConcat(g, mover, from, RookDirs, BishopDirs);
  }

  /** The walk of one ray, square by square until it leaves the board or meets a piece, appended to `coords`. */
  method AppendRay(g: Grid, mover: Color, from: Square, d: Dir, coords: seq<Square>) returns (out: seq<Square>)
    requires IsGrid(g)
    ensures out == coords + PieceRay(g, mover, from, d)
  {
    out := coords;
    var s := Step(from, d, 1);
    while OnBoard(s)
      invariant out + Ray(g, mover, s, d) == coords + PieceRay(g, mover, from, d)
      decreases Remaining(s, d)
    {
      if HasColor(g[s.row][s.col], mover) {
        break;
      } else if g[s.row][s.col] != Empty {
        out := out + [s];
        break;
      }
      out := out + [s];
      assert Ray(g, mover, s, d) == [s] + Ray(g, mover, Step(s, d, 1), d);
      s := Step(s, d, 1);
    }
  }

  // ---------------------------------------------------------------------------
  // King and knight: fixed neighbours kept when they land on the board
  // ---------------------------------------------------------------------------

  /** `list` with `s` appended when `s` is on the board: one guarded append of a candidate list. */
  function Extend(list: seq<Square>, s: Square): seq<Square>
  {
    if OnBoard(s) then list + [s] else list
  }

  /** What a guarded append holds: the old list, and the new square when it is on the board. */
  lemma InExtend(list: seq<Square>, x: Square, s: Square)
    ensures s in Extend(list, x) <==> s in list || (OnBoard(x) && s == x)
  {
  }

  /**
   * The king's eight neighbours of (r, c), in the order the list is built (left, right,
   * up, down, then the four diagonals), each appended when on the board.
   */
  function KingSquares(r: int, c: int): seq<Square>
  {
    var l1 := Extend([], Square(r, c - 1));
    var l2 := Extend(l1, Square(r, c + 1));
    var l3 := Extend(l2, Square(r - 1, c));
    var l4 := Extend(l3, Square(r + 1, c));
    var l5 := Extend(l4, Square(r - 1, c - 1));
    var l6 := Extend(l5, Square(r + 1, c - 1));
    var l7 := Extend(l6, Square(r + 1, c + 1));
    var l8 := Extend(l7, Square(r - 1, c + 1));
    l8
  }

  /** The knight's eight jumps from (r, c), in the order the list is built, each appended when on the board. */
  function KnightSquares(r: int, c: int): seq<Square>
  {
    var l1 := Extend([], Square(r - 2, c - 1));
    var l2 := Extend(l1, Square(r - 2, c + 1));
    var l3 := Extend(l2, Square(r + 2, c - 1));
    var l4 := Extend(l3, Square(r + 2, c + 1));
    var l5 := Extend(l4, Square(r - 1, c - 2));
    var l6 := Extend(l5, Square(r - 1, c + 2));
    var l7 := Extend(l6, Square(r + 1, c - 2));
    var l8 := Extend(l7, Square(r + 1, c + 2));
    l8
  }

  function KingTargets(from: Square): seq<Square>
  {
    KingSquares(from.row, from.col)
  }

  function KnightTargets(from: Square): seq<Square>
  {
    KnightSquares(from.row, from.col)
  }

  function Abs(x: int): nat
  {
    if x < 0 then -x else x
  }

  /** The king's list holds exactly its on-board neighbours. */
  lemma KingMembers(r: int, c: int, s: Square)
    ensures s in KingSquares(r, c)
            <==> OnBoard(s) && (|| (s.row == r && s.col == c - 1)
                      || (s.row == r && s.col == c + 1)
                      || (s.row == r - 1 && s.col == c)
                      || (s.row == r + 1 && s.col == c)
                      || (s.row == r - 1 && s.col == c - 1)
                      || (s.row == r + 1 && s.col == c - 1)
                      || (s.row == r + 1 && s.col == c + 1)
                      || (s.row == r - 1 && s.col == c + 1))
  {
    var l1 := Extend([], Square(r, c - 1));
    InExtend([], Square(r, c - 1), s);
    var l2 := Extend(l1, Square(r, c + 1));
    InExtend(l1, Square(r, c + 1), s);
    var l3 := Extend(l2, Square(r - 1, c));
    InExtend(l2, Square(r - 1, c), s);
    var l4 := Extend(l3, Square(r + 1, c));
    InExtend(l3, Square(r + 1, c), s);
    var l5 := Extend(l4, Square(r - 1, c - 1));
    InExtend(l4, Square(r - 1, c - 1), s);
    var l6 := Extend(l5, Square(r + 1, c - 1));
    InExtend(l5, Square(r + 1, c - 1), s);
    var l7 := Extend(l6, Square(r + 1, c + 1));
    InExtend(l6, Square(r + 1, c + 1), s);
    var l8 := Extend(l7, Square(r - 1, c + 1));
    InExtend(l7, Square(r - 1, c + 1), s);
  }

  /** King candidates: exactly the squares on the board at distance one in rows, columns or both. */
  lemma KingTargetsExact(from: Square, s: Square)
    ensures s in KingTargets(from)
            <==> OnBoard(s) && s != from && Abs(s.row - from.row) <= 1 && Abs(s.col - from.col) <= 1
  {
    KingMembers(from.row, from.col, s);
  }

  /** The knight's list holds exactly its on-board jumps. */
  lemma KnightMembers(r: int, c: int, s: Square)
    ensures s in KnightSquares(r, c)
            <==> OnBoard(s) && (|| (s.row == r - 2 && s.col == c - 1)
                      || (s.row == r - 2 && s.col == c + 1)
                      || (s.row == r + 2 && s.col == c - 1)
                      || (s.row == r + 2 && s.col == c + 1)
                      || (s.row == r - 1 && s.col == c - 2)
                      || (s.row == r - 1 && s.col == c + 2)
                      || (s.row == r + 1 && s.col == c - 2)
                      || (s.row == r + 1 && s.col == c + 2))
  {
    var l1 := Extend([], Square(r - 2, c - 1));
    InExtend([], Square(r - 2, c - 1), s);
    var l2 := Extend(l1, Square(r - 2, c + 1));
    InExtend(l1, Square(r - 2, c + 1), s);
    var l3 := Extend(l2, Square(r + 2, c - 1));
    InExtend(l2, Square(r + 2, c - 1), s);
    var l4 := Extend(l3, Square(r + 2, c + 1));
    InExtend(l3, Square(r + 2, c + 1), s);
    var l5 := Extend(l4, Square(r - 1, c - 2));
    InExtend(l4, Square(r - 1, c - 2), s);
    var l6 := Extend(l5, Square(r - 1, c + 2));
    InExtend(l5, Square(r - 1, c + 2), s);
    var l7 := Extend(l6, Square(r + 1, c - 2));
    InExtend(l6, Square(r + 1, c - 2), s);
    var l8 := Extend(l7, Square(r + 1, c + 2));
    InExtend(l7, Square(r + 1, c + 2), s);
  }

  /** Knight candidates: exactly the on-board squares two away one way and one away the other. */
  lemma KnightTargetsExact(from: Square, s: Square)
    ensures s in KnightTargets(from)
            <==> OnBoard(s) && ((Abs(s.row - from.row) == 2 && Abs(s.col - from.col) == 1)
                                || (Abs(s.row - from.row) == 1 && Abs(s.col - from.col) == 2))
  {
    KnightMembers(from.row, from.col, s);
  }

  // ---------------------------------------------------------------------------
  // Pawns: forward squares and capture diagonals, depending on colour
  // ---------------------------------------------------------------------------

  /** Row direction of a pawn: white moves toward row 0, black toward row 7. */
  function Forward(c: Color): int
  {
    if c == White then -1 else 1
  }

  /** The row a pawn of colour `c` starts on, from where it may also advance two squares. */
  function StartRow(c: Color): int
  {
    if c == White then 6 else 1
  }

  /**
   * Forward candidates: two squares ahead from the start row (the square in between is
   * not looked at), then one square ahead when that is on the board.
   */
  function PawnMoveTargets(mover: Color, from: Square): seq<Square>
  {
    var one := Square(from.row + Forward(mover), from.col);
    (if from.row == StartRow(mover) then [Square(from.row + 2 * Forward(mover), from.col)] else [])
    + (if OnBoard(one) then [one] else [])
  }

  /** Capture candidates: each forward diagonal on the board that holds an opponent's piece. */
  function PawnCaptureTargets(g: Grid, mover: Color, from: Square): seq<Square>
    requires IsGrid(g)
  {
    var left := Square(from.row + Forward(mover), from.col - 1);
    var right := Square(from.row + Forward(mover), from.col + 1);
    (if OnBoard(left) && HasColor(At(g, left), Opponent(mover)) then [left] else [])
    + (if OnBoard(right) && HasColor(At(g, right), Opponent(mover)) then [right] else [])
  }

  /** Forward candidates stay in the pawn's column, ahead of it, on the board. */
  lemma PawnMoveTargetsExact(mover: Color, from: Square, s: Square)
    requires OnBoard(from)
    ensures s in PawnMoveTargets(mover, from)
            <==> OnBoard(s) && s.col == from.col
                 && (s.row == from.row + Forward(mover)
                     || (from.row == StartRow(mover) && s.row == from.row + 2 * Forward(mover)))
  {
  }

  /** Capture candidates are exactly the forward diagonals that hold an opponent's piece. */
  lemma PawnCaptureTargetsExact(g: Grid, mover: Color, from: Square, s: Square)
    requires IsGrid(g)
    ensures s in PawnCaptureTargets(g, mover, from)
            <==> OnBoard(s) && s.row == from.row + Forward(mover) && Abs(s.col - from.col) == 1
                 && HasColor(At(g, s), Opponent(mover))
  {
  }
}
