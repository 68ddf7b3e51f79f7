/**
 * The tic-tac-toe rules of the `TicTacToe` class: the empty board, placing a
 * mark, winner and draw detection, and the list of free cells.
 *
 * The rules are generic in the mark type `M`: the rules class and the socket
 * handlers place "X"/"O", the legacy socket manager places a player's colour.
 * Every draft scans the same eight lines in the same order, so the line logic
 * is defined here once.
 */
module TicTacToeRules {
  import opened Common

  datatype Mark = X | O

  /** The other mark. */
  function Opponent(m: Mark): Mark {
    if m == X then O else X
  }

  const BoardSize: nat := 9

  /** A board: nine cells, each empty (JavaScript null) or holding a mark. */
  type Board<M> = b: seq<Option<M>> | |b| == 9
    witness [None, None, None, None, None, None, None, None, None]

  /** The k-th winning line, in the order the source lists them: rows, columns, diagonals. */
  function Line(k: int): (l: (int, int, int))
    requires 0 <= k < 8
    ensures 0 <= l.0 < 9 && 0 <= l.1 < 9 && 0 <= l.2 < 9
    ensures l.0 != l.1 && l.1 != l.2 && l.0 != l.2
  {
    if k == 0 then (0, 1, 2)
    else if k == 1 then (3, 4, 5)
    else if k == 2 then (6, 7, 8)
    else if k == 3 then (0, 3, 6)
    else if k == 4 then (1, 4, 7)
    else if k == 5 then (2, 5, 8)
    else if k == 6 then (0, 4, 8)
    else (2, 4, 6)
  }

  predicate OnLine(k: int, i: int)
    requires 0 <= k < 8
  {
    var l := Line(k); i == l.0 || i == l.1 || i == l.2
  }

  /** The three cells of line k hold the same mark. */
  predicate LineComplete<M(==)>(b: Board<M>, k: int)
    requires 0 <= k < 8
  {
    var l := Line(k);
    b[l.0].Some? && b[l.0] == b[l.1] && b[l.0] == b[l.2]
  }

  predicate HasLine<M(==)>(b: Board<M>) {
    exists k :: 0 <= k < 8 && LineComplete(b, k)
  }

  /** No cell is empty (`!board.includes(null)`). */
  predicate IsFull<M>(b: Board<M>) {
    forall i :: 0 <= i < 9 ==> b[i].Some?
  }

  /** The first complete line at or after `from`, scanning in the source's order. */
  function FirstCompleteLine<M(==)>(b: Board<M>, from: int): (r: Option<int>)
    requires 0 <= from <= 8
    ensures r.Some? ==> from <= r.value < 8 && LineComplete(b, r.value)
    ensures r.Some? ==> forall j :: from <= j < r.value ==> !LineComplete(b, j)
    ensures r.None? ==> forall j :: from <= j < 8 ==> !LineComplete(b, j)
    decreases 8 - from
  {
    if from == 8 then None
    else if LineComplete(b, from) then Some(from)
    else FirstCompleteLine(b, from + 1)
  }

  /** What `checkWinner` reports: a mark, 'draw', or null. */
  datatype Verdict<M> = Winner(mark: M) | Draw | NoResult

  /**
   * The winner is the mark of the first complete line; a draw is a full board
   * without a complete line; otherwise the game goes on. The line check comes
   * first, so a full board with a line reports its mark.
   */
  function CheckWinner<M(==)>(b: Board<M>): (v: Verdict<M>)
    ensures v.Winner? <==> HasLine(b)
    ensures v.Draw? <==> !HasLine(b) && IsFull(b)
    ensures v.NoResult? <==> !HasLine(b) && !IsFull(b)
    ensures v.Winner? ==> exists k :: 0 <= k < 8 && LineComplete(b, k) && b[Line(k).0] == Some(v.mark)
                                      && forall j :: 0 <= j < k ==> !LineComplete(b, j)
  {
    match FirstCompleteLine(b, 0)
    case Some(k) => Winner(b[Line(k).0].value)
    case None => if IsFull(b) then Draw else NoResult
  }

  /** The empty board (`getInitialState`). */
  function InitialState<M>(): (b: Board<M>)
    ensures forall i :: 0 <= i < 9 ==> b[i] == None
  {
    [None, None, None, None, None, None, None, None, None]
  }

  datatype MoveError = InvalidPosition | PositionTaken

  datatype MoveOutcome<M> = MoveOutcome(board: Board<M>, winner: Verdict<M>)

  /** The board with `player` placed at `position`. */
  function Place<M>(b: Board<M>, position: int, player: M): (r: Board<M>)
    requires 0 <= position < 9
    ensures r[position] == Some(player)
    ensures forall i :: 0 <= i < 9 && i != position ==> r[i] == b[i]
  {
    b[position := Some(player)]
  }

  /**
   * `makeMove`: rejects a position outside 0..8, then an occupied cell;
   * otherwise returns a new board that differs from the old one only at
   * `position`, and the verdict on the new board.
   */
  function MakeMove<M(==)>(b: Board<M>, position: int, player: M): (r: Result<MoveOutcome<M>, MoveError>)
    ensures (position < 0 || position >= 9) ==> r == Err(InvalidPosition)
    ensures 0 <= position < 9 && b[position].Some? ==> r == Err(PositionTaken)
    ensures 0 <= position < 9 && b[position].None? ==> r.Ok?
    ensures r.Ok? ==> 0 <= position < 9 && r.value.board[position] == Some(player)
    ensures r.Ok? ==> forall i :: 0 <= i < 9 && i != position ==> r.value.board[i] == b[i]
    ensures r.Ok? ==> r.value.winner == CheckWinner(r.value.board)
  {
    if position < 0 || position >= BoardSize as int then Err(InvalidPosition)
    else if b[position].Some? then Err(PositionTaken)
    else
      var nb := Place(b, position, player);
      Ok(MoveOutcome(nb, CheckWinner(nb)))
  }

  /** `isValidMove`: true exactly when `makeMove` would not throw, whoever moves. */
  function IsValidMove<M(==,!new)>(b: Board<M>, position: int): (ok: bool)
    ensures forall player: M :: ok <==> MakeMove(b, position, player).Ok?
  {
    0 <= position < 9 && b[position] == None
  }

  /** The free cells at index `from` or later, in ascending order. */
  function AvailableFrom<M>(b: Board<M>, from: int): (r: seq<int>)
    requires 0 <= from <= 9
    ensures forall x :: x in r <==> from <= x < 9 && b[x].None?
    ensures forall i, j :: 0 <= i < j < |r| ==> r[i] < r[j]
    decreases 9 - from
  {
    if from == 9 then []
    else
      var rest := AvailableFrom(b, from + 1);
      assert forall x :: x in rest ==> from < x;
      if b[from].None? then
        var r := [from] + rest;
        assert forall i :: 1 <= i < |r| ==> r[i] == rest[i - 1] && r[i] in rest;
        r
      else rest
  }

  /** `getAvailableMoves`: exactly the empty cells, ascending. */
  function GetAvailableMoves<M>(b: Board<M>): (r: seq<int>)
    ensures forall x :: x in r <==> 0 <= x < 9 && b[x].None?
    ensures forall i, j :: 0 <= i < j < |r| ==> r[i] < r[j]
    ensures r == [] <==> IsFull(b)
  {
    AvailableFrom(b, 0)
  }

  /**
   * A mark placed on an empty cell of a board without a complete line can only
   * complete a line through that cell, so if the new board has a line, its
   * mark is the one just placed.
   */
  lemma NewLineBelongsToMover<M>(b: Board<M>, position: int, player: M)
    requires 0 <= position < 9 && b[position].None? && !HasLine(b)
    ensures HasLine(Place(b, position, player)) ==> CheckWinner(Place(b, position, player)) == Winner(player)
  {
    var nb := Place(b, position, player);
    if HasLine(nb) {
      var v := CheckWinner(nb);
      var k :| 0 <= k < 8 && LineComplete(nb, k) && nb[Line(k).0] == Some(v.mark);
      forall j | 0 <= j < 8 && !OnLine(j, position)
        ensures LineComplete(nb, j) == LineComplete(b, j)
      {
      }
      assert OnLine(k, position);
    }
  }
}
