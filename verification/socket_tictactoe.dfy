/**
 * The tic-tac-toe room handlers of the TypeScript socket server:
 * `game:move` and `game:forfeit`. The two seats are fixed when the handlers
 * are attached (`match.game.players.X` and `.O`); every event re-reads the
 * stored match, checks it, and writes the new state back.
 */
module SocketTicTacToe {
  import opened Common
  import TTT = TicTacToeRules
  import LiveMatch

  type Status = LiveMatch.MatchStatus

  datatype MoveError = InvalidMove

  class Room {
    const playerX: string
    const playerO: string
    /** `gameState.board`, `.currentPlayer`, `.winner` and `.status`. */
    var board: TTT.Board<TTT.Mark>
    var currentPlayer: string
    var stateWinner: Option<string>
    var stateStatus: Status
    /** The match's own `status`, `winner` and `endTime`. */
    var status: Status
    var winner: Option<string>
    var endTime: Option<Time>

    /** A room whose game has just started: empty board, X to move. */
    constructor Start(playerX: string, playerO: string)
      ensures this.playerX == playerX && this.playerO == playerO
      ensures board == TTT.InitialState() && currentPlayer == playerX
      ensures stateWinner.None? && stateStatus == LiveMatch.Active
      ensures status == LiveMatch.Active && winner.None? && endTime.None?
    {
      this.playerX := playerX;
      this.playerO := playerO;
      board := TTT.InitialState();
      currentPlayer := playerX;
      stateWinner := None;
      stateStatus := LiveMatch.Active;
      status := LiveMatch.Active;
      winner := None;
      endTime := None;
    }

    /** The checks of `game:move`: a position on the board, an empty cell, and the mover's turn. */
    predicate Acceptable(userId: UserId, position: int)
      reads this
    {
      0 <= position < 9 && board[position].None? && currentPlayer == userId
    }

    /**
     * `game:move` as written: any failed check answers "Invalid move" and
     * changes nothing; the status of the game is not looked at.
     */
    method Move(userId: UserId, position: int, now: Time) returns (r: Result<(), MoveError>)
      modifies this
      ensures r.Ok? <==> old(Acceptable(userId, position))
      ensures r.Err? ==> unchanged(this)
      ensures r.Ok? ==> Applied(old(board), old(currentPlayer), old(status), old(winner), old(endTime), userId, position, now)
    {
      if position < 0 || position > 8 || board[position].Some? || currentPlayer != userId {
        return Err(InvalidMove);
      }
      Apply(userId, position, now);
      return Ok(());
    }

    /**
     * `game:move` with the evidently intended extra check that the game is
     * still active; a finished game refuses every move and keeps its result.
     */
    method MoveWhileActive(userId: UserId, position: int, now: Time) returns (r: Result<(), MoveError>)
      modifies this
      ensures r.Ok? <==> old(Acceptable(userId, position)) && old(stateStatus) == LiveMatch.Active
      ensures r.Err? ==> unchanged(this)
      ensures r.Ok? ==> Applied(old(board), old(currentPlayer), old(status), old(winner), old(endTime), userId, position, now)
      ensures old(stateStatus) != LiveMatch.Active ==> winner == old(winner) && stateWinner == old(stateWinner)
    {
      if stateStatus != LiveMatch.Active {
        return Err(InvalidMove);
      }
      r := Move(userId, position, now);
    }

    /**
     * The new room after an accepted move: the mover's symbol placed (X for
     * the X seat, O for anyone else), the mover as winner exactly when a line
     * is complete, the status "completed" on a win, "draw" on a full board
     * without a line and "active" otherwise, the turn with the other seat, the
     * match winner written only on a win and the end time only when the game
     * is no longer active.
     */
    ghost predicate Applied(oldBoard: TTT.Board<TTT.Mark>, oldCurrent: string, oldStatus: Status,
                            oldWinner: Option<string>, oldEnd: Option<Time>, userId: UserId, position: int, now: Time)
      reads this
    {
      && 0 <= position < 9
      && board == TTT.Place(oldBoard, position, if playerX == userId then TTT.X else TTT.O)
      && (stateWinner.Some? <==> TTT.HasLine(board))
      && (stateWinner.Some? ==> stateWinner.value == userId)
      && stateStatus == (if TTT.HasLine(board) then LiveMatch.Completed
                         else if TTT.IsFull(board) then LiveMatch.Drawn
                         else LiveMatch.Active)
      && status == stateStatus
      && currentPlayer == (if playerX == oldCurrent then playerO else playerX)
      && winner == (if stateWinner.Some? then stateWinner else oldWinner)
      && endTime == (if stateStatus != LiveMatch.Active then Some(now) else oldEnd)
    }

    method Apply(userId: UserId, position: int, now: Time)
      requires Acceptable(userId, position)
      modifies this
      ensures Applied(old(board), old(currentPlayer), old(status), old(winner), old(endTime), userId, position, now)
    {
      var symbol := if playerX == userId then TTT.X else TTT.O;
      board := board[position := Some(symbol)];

      var found: Option<string> := None;
      var k := 0;
      while k < 8 && found.None?
        invariant 0 <= k <= 8
        invariant found.None? ==> forall j :: 0 <= j < k ==> !TTT.LineComplete(board, j)
        invariant found.Some? ==> found.value == userId && TTT.HasLine(board)
      {
        if TTT.LineComplete(board, k) {
          found := Some(userId);
        }
        k := k + 1;
      }
      var isDraw := found.None? && TTT.IsFull(board);
      var nextPlayer := if playerX == currentPlayer then playerO else playerX;
      var newStatus := if found.Some? then LiveMatch.Completed else if isDraw then LiveMatch.Drawn else LiveMatch.Active;

      currentPlayer := nextPlayer;
      stateWinner := found;
      stateStatus := newStatus;
      status := newStatus;
      if found.Some? {
        winner := found;
      }
      if newStatus != LiveMatch.Active {
        endTime := Some(now);
      }
    }

    /**
     * `game:forfeit`: no check at all; the seat opposite the requester (the X
     * seat for anyone who is not X) wins and the game is completed.
     */
    method Forfeit(userId: UserId, now: Time)
      modifies this
      ensures var w := if playerX == userId then playerO else playerX;
        && winner == Some(w) && stateWinner == Some(w)
        && status == LiveMatch.Completed && stateStatus == LiveMatch.Completed && endTime == Some(now)
      ensures board == old(board) && currentPlayer == old(currentPlayer)
    {
      var w := if playerX == userId then playerO else playerX;
      status := LiveMatch.Completed;
      winner := Some(w);
      endTime := Some(now);
      stateStatus := LiveMatch.Completed;
      stateWinner := Some(w);
    }
  }

  /**
   * After X completes the top row, the handler as written still accepts O's
   * next move and names O the winner, because the completed row is found
   * again on the new board.
   */
  method WinnerOverwrittenAfterWin() returns (first: Option<string>, last: Option<string>)
    ensures first == Some("x") && last == Some("o")
  {
    var room := new Room.Start("x", "o");
    var r := room.Move("x", 0, 1);
    r := room.Move("o", 3, 2);
    r := room.Move("x", 1, 3);
    r := room.Move("o", 4, 4);
    r := room.Move("x", 2, 5);
    assert TTT.LineComplete(room.board, 0);
    first := room.winner;
    assert room.currentPlayer == "o" && room.board[5].None?;
    r := room.Move("o", 5, 6);
    assert TTT.LineComplete(room.board, 0);
    last := room.winner;
  }

  /** With the status check, the same game keeps X as the winner and O's extra move is refused. */
  method WinnerKeptWhenChecked() returns (first: Option<string>, last: Option<string>)
    ensures first == Some("x") && last == Some("x")
  {
    var room := new Room.Start("x", "o");
    var r := room.MoveWhileActive("x", 0, 1);
    r := room.MoveWhileActive("o", 3, 2);
    r := room.MoveWhileActive("x", 1, 3);
    r := room.MoveWhileActive("o", 4, 4);
    r := room.MoveWhileActive("x", 2, 5);
    assert TTT.LineComplete(room.board, 0);
    first := room.winner;
    r := room.MoveWhileActive("o", 5, 6);
    last := room.winner;
  }
}
