/**
 * The chess room handlers of the TypeScript socket server: `game:move`,
 * `game:forfeit` and `game:accept-draw`. The white and black seats are fixed
 * when the handlers are attached. A move checks only the turn, that a piece
 * stands on the source square and that it has the mover's colour; it does not
 * use the `Chess` rules, so a piece may land on a square of its own side.
 */
module SocketChess {
  import opened Common
  import opened ChessRules
  import LiveMatch

  type Status = LiveMatch.MatchStatus

  datatype MoveError =
    | NotYourTurn
    | NoPieceAtStart
    | OpponentsPiece
    /** "Failed to process move": a row index outside the board makes the handler throw. */
    | FailedToProcess

  class Room {
    const playerWhite: string
    const playerBlack: string
    /** `gameState`: board, whose turn, the captured pieces by colour and the three flags. */
    var board: ChessBoard
    var currentPlayer: string
    var capturedWhite: seq<char>
    var capturedBlack: seq<char>
    var check: bool
    var checkmate: bool
    var draw: bool
    /** `gameState.status` and `gameState.winner`, absent until a forfeit or a draw writes them. */
    var stateStatus: Option<Status>
    var stateWinner: Option<string>
    /** The match's own `status`, `winner` and `endTime`. */
    var status: Status
    var winner: Option<string>
    var endTime: Option<Time>

    /** A room whose game has just started from the initial position, white to move. */
    constructor Start(playerWhite: string, playerBlack: string)
      ensures this.playerWhite == playerWhite && this.playerBlack == playerBlack
      ensures board == InitialState() && currentPlayer == playerWhite
      ensures capturedWhite == [] && capturedBlack == [] && !check && !checkmate && !draw
      ensures stateStatus.None? && stateWinner.None?
      ensures status == LiveMatch.Active && winner.None? && endTime.None?
    {
      this.playerWhite := playerWhite;
      this.playerBlack := playerBlack;
      board := InitialState();
      currentPlayer := playerWhite;
      capturedWhite := [];
      capturedBlack := [];
      check := false;
      checkmate := false;
      draw := false;
      stateStatus := None;
      stateWinner := None;
      status := LiveMatch.Active;
      winner := None;
      endTime := None;
    }

    /**
     * `game:move`. The checks run in the source's order: the turn, a row of
     * the source square outside the board (the handler throws), a column
     * outside the board or an empty square ("No piece at starting position"),
     * the piece's colour against the mover's seat, and a destination row
     * outside the board (the handler throws). Each leaves the room as it was.
     */
    method Move(userId: UserId, from: Coord, to: Coord) returns (r: Result<(), MoveError>)
      modifies this
      ensures old(currentPlayer) != userId <==> r == Err(NotYourTurn)
      ensures old(currentPlayer) == userId && !(0 <= from.row < 8) ==> r == Err(FailedToProcess)
      ensures old(currentPlayer) == userId && 0 <= from.row < 8 && !(InBounds(from) && At(old(board), from).Some?)
              ==> r == Err(NoPieceAtStart)
      ensures old(currentPlayer) == userId && InBounds(from) && At(old(board), from).Some?
              && IsWhitePiece(At(old(board), from).value) != (playerWhite == userId)
              ==> r == Err(OpponentsPiece)
      ensures r.Ok? ==> InBounds(from) && At(old(board), from).Some?
                        && IsWhitePiece(At(old(board), from).value) == (playerWhite == userId)
      ensures r.Ok? <==> old(currentPlayer) == userId && InBounds(from) && InBounds(to) && At(old(board), from).Some?
                         && IsWhitePiece(At(old(board), from).value) == (playerWhite == userId)
      ensures r.Err? ==> unchanged(this)
      ensures r.Ok? ==>
                && board == Relocate(old(board), from, to)
                && (At(old(board), to).None? ==> capturedWhite == old(capturedWhite) && capturedBlack == old(capturedBlack))
                && (At(old(board), to).Some? && IsWhitePiece(At(old(board), to).value) ==>
                      capturedWhite == old(capturedWhite) + [At(old(board), to).value] && capturedBlack == old(capturedBlack))
                && (At(old(board), to).Some? && !IsWhitePiece(At(old(board), to).value) ==>
                      capturedBlack == old(capturedBlack) + [At(old(board), to).value] && capturedWhite == old(capturedWhite))
                && currentPlayer == (if playerWhite == old(currentPlayer) then playerBlack else playerWhite)
                && !check && !checkmate && !draw && stateStatus.None? && stateWinner.None?
      ensures status == old(status) && winner == old(winner) && endTime == old(endTime)
    {
      if currentPlayer != userId {
        return Err(NotYourTurn);
      }
      if from.row < 0 || from.row >= 8 {
        return Err(FailedToProcess);
      }
      if from.col < 0 || from.col >= 8 || At(board, from).None? {
        return Err(NoPieceAtStart);
      }
      var piece := At(board, from).value;
      if IsWhitePiece(piece) != (playerWhite == userId) {
        return Err(OpponentsPiece);
      }
      if !InBounds(to) {
        return Err(FailedToProcess);
      }
      Commit(from, to);
      return Ok(());
    }

    /** The accepted move: the captured piece is filed by its colour, the piece moves and the turn passes. */
    method Commit(from: Coord, to: Coord)
      requires InBounds(from) && InBounds(to)
      modifies this
      ensures board == Relocate(old(board), from, to)
      ensures At(old(board), to).None? ==> capturedWhite == old(capturedWhite) && capturedBlack == old(capturedBlack)
      ensures At(old(board), to).Some? && IsWhitePiece(At(old(board), to).value) ==>
                capturedWhite == old(capturedWhite) + [At(old(board), to).value] && capturedBlack == old(capturedBlack)
      ensures At(old(board), to).Some? && !IsWhitePiece(At(old(board), to).value) ==>
                capturedBlack == old(capturedBlack) + [At(old(board), to).value] && capturedWhite == old(capturedWhite)
      ensures currentPlayer == (if playerWhite == old(currentPlayer) then playerBlack else playerWhite)
      ensures !check && !checkmate && !draw && stateStatus.None? && stateWinner.None?
      ensures status == old(status) && winner == old(winner) && endTime == old(endTime)
    {
      var captured := At(board, to);
      if captured.Some? {
        if IsWhitePiece(captured.value) {
          capturedWhite := capturedWhite + [captured.value];
        } else {
          capturedBlack := capturedBlack + [captured.value];
        }
      }
      board := Relocate(board, from, to);
      currentPlayer := if playerWhite == currentPlayer then playerBlack else playerWhite;
      check, checkmate, draw := false, false, false;
      stateStatus, stateWinner := None, None;
    }

    /** `game:forfeit`: no check; the seat opposite the requester wins and the game is completed. */
    method Forfeit(userId: UserId, now: Time)
      modifies this
      ensures var w := if playerWhite == userId then playerBlack else playerWhite;
        && winner == Some(w) && stateWinner == Some(w)
        && status == LiveMatch.Completed && stateStatus == Some(LiveMatch.Completed) && endTime == Some(now)
      ensures board == old(board) && currentPlayer == old(currentPlayer) && draw == old(draw)
      ensures capturedWhite == old(capturedWhite) && capturedBlack == old(capturedBlack)
      ensures check == old(check) && checkmate == old(checkmate)
    {
      var w := if playerWhite == userId then playerBlack else playerWhite;
      status := LiveMatch.Completed;
      winner := Some(w);
      endTime := Some(now);
      stateStatus := Some(LiveMatch.Completed);
      stateWinner := Some(w);
    }

    /** `game:accept-draw`: no check; the match and its game state become a draw. */
    method AcceptDraw(now: Time)
      modifies this
      ensures status == LiveMatch.Drawn && stateStatus == Some(LiveMatch.Drawn) && draw && endTime == Some(now)
      ensures board == old(board) && currentPlayer == old(currentPlayer) && winner == old(winner)
      ensures stateWinner == old(stateWinner)
      ensures capturedWhite == old(capturedWhite) && capturedBlack == old(capturedBlack)
      ensures check == old(check) && checkmate == old(checkmate)
    {
      status := LiveMatch.Drawn;
      endTime := Some(now);
      stateStatus := Some(LiveMatch.Drawn);
      draw := true;
    }
  }

  /**
   * Unlike the `Chess` rules, the room lets white's rook at a1 take white's
   * own knight at b1, and files the knight among the captured white pieces.
   */
  method OwnCaptureAccepted() returns (accepted: bool, capturedWhite: seq<char>)
    ensures accepted && capturedWhite == ['N']
    ensures !IsValidMove(InitialState(), Coord(7, 0), Coord(7, 1), "white")
  {
    var room := new Room.Start("w", "b");
    var r := room.Move("w", Coord(7, 0), Coord(7, 1));
    accepted := r.Ok?;
    capturedWhite := room.capturedWhite;
  }
}
