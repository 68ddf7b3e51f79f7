/**
 * The tic-tac-toe board of the game page in the browser: the local board,
 * whose symbol is to move, the viewer's own symbol, the page status
 * ("waiting", "playing", "won", "lost", "draw") and the winning symbol.
 */
module GamePlay {
  import opened Common
  import TTT = TicTacToeRules

  function Flip(m: TTT.Mark): (r: TTT.Mark)
    ensures r != m
  {
    if m == TTT.X then TTT.O else TTT.X
  }

  class TicTacToeView {
    var board: TTT.Board<TTT.Mark>
    var currentPlayer: TTT.Mark
    var playerSymbol: TTT.Mark
    var gameStatus: string
    var winner: Option<TTT.Mark>

    /** The page as it first renders: an empty board, X to move, waiting for an opponent. */
    constructor ()
      ensures board == TTT.InitialState() && currentPlayer == TTT.X && playerSymbol == TTT.X
      ensures gameStatus == "waiting" && winner.None?
    {
      board := TTT.InitialState();
      currentPlayer := TTT.X;
      playerSymbol := TTT.X;
      gameStatus := "waiting";
      winner := None;
    }

    /** The start of play, with the viewer's symbol drawn by the caller. */
    method Begin(symbol: TTT.Mark)
      modifies this
      ensures playerSymbol == symbol && gameStatus == "playing"
      ensures board == old(board) && currentPlayer == old(currentPlayer) && winner == old(winner)
    {
      playerSymbol := symbol;
      gameStatus := "playing";
    }

    /**
     * `checkGameEnd`: the first complete line in the fixed order names the
     * winner, and the page is "won" when it is the viewer's symbol and "lost"
     * otherwise; with no line, a full board is a draw, and anything else
     * leaves the page as it is.
     */
    method CheckGameEnd(b: TTT.Board<TTT.Mark>)
      modifies this
      ensures board == old(board) && currentPlayer == old(currentPlayer) && playerSymbol == old(playerSymbol)
      ensures match TTT.CheckWinner(b)
        case Winner(m) => winner == Some(m) && gameStatus == (if m == playerSymbol then "won" else "lost")
        case Draw => winner == old(winner) && gameStatus == "draw"
        case NoResult => winner == old(winner) && gameStatus == old(gameStatus)
    {
      var k := 0;
      while k < 8
        invariant 0 <= k <= 8
        invariant forall j :: 0 <= j < k ==> !TTT.LineComplete(b, j)
        invariant winner == old(winner) && gameStatus == old(gameStatus)
      {
        if TTT.LineComplete(b, k) {
          assert TTT.FirstCompleteLine(b, 0) == Some(k) by {
            FirstFrom(b, 0, k);
          }
          var winningPlayer := b[TTT.Line(k).0].value;
          winner := Some(winningPlayer);
          if winningPlayer == playerSymbol {
            gameStatus := "won";
          } else {
            gameStatus := "lost";
          }
          return;
        }
        k := k + 1;
      }
      assert TTT.FirstCompleteLine(b, 0).None?;
      if TTT.IsFull(b) {
        gameStatus := "draw";
      }
    }

    /**
     * `makeMove`: ignored unless the page is playing, the cell is on the
     * board and empty, and it is the viewer's turn; otherwise the viewer's
     * symbol goes into the cell, the turn flips, and the end is checked.
     */
    method MakeMove(index: int)
      modifies this
      ensures !(old(gameStatus) == "playing" && 0 <= index < 9 && old(board)[index].None? && old(currentPlayer) == old(playerSymbol))
              ==> unchanged(this)
      ensures old(gameStatus) == "playing" && 0 <= index < 9 && old(board)[index].None? && old(currentPlayer) == old(playerSymbol)
              ==> && board == TTT.Place(old(board), index, old(playerSymbol))
                  && currentPlayer == Flip(old(currentPlayer))
                  && (TTT.HasLine(board) ==> winner.Some? && gameStatus == (if winner.value == playerSymbol then "won" else "lost"))
                  && (!TTT.HasLine(board) && TTT.IsFull(board) ==> gameStatus == "draw")
                  && (!TTT.HasLine(board) && !TTT.IsFull(board) ==> gameStatus == "playing" && winner == old(winner))
      ensures playerSymbol == old(playerSymbol)
    {
      if gameStatus != "playing" || index < 0 || index >= 9 || board[index].Some? || currentPlayer != playerSymbol {
        return;
      }
      var newBoard := board[index := Some(currentPlayer)];
      board := newBoard;
      currentPlayer := Flip(currentPlayer);
      CheckGameEnd(newBoard);
    }

    /** `resetGame`: an empty board, X to move, no winner, playing. */
    method ResetGame()
      modifies this
      ensures board == TTT.InitialState() && currentPlayer == TTT.X && winner.None? && gameStatus == "playing"
      ensures playerSymbol == old(playerSymbol)
    {
      board := TTT.InitialState();
      currentPlayer := TTT.X;
      winner := None;
      gameStatus := "playing";
    }

    /** `renderStatusMessage`. */
    function StatusMessage(): (r: string)
      reads this
      ensures gameStatus == "playing" ==> r == (if currentPlayer == playerSymbol then "Your turn" else "Opponent's turn")
      ensures gameStatus !in {"waiting", "playing", "won", "lost", "draw"} <==> r == ""
    {
      RenderStatusMessage(gameStatus, currentPlayer == playerSymbol)
    }
  }

  /** The fixed text for each page status; an unknown status shows nothing. */
  function RenderStatusMessage(status: string, viewersTurn: bool): (r: string)
    ensures status == "waiting" ==> r == "Waiting for opponent..."
    ensures status == "won" ==> r == "You won!"
    ensures status == "lost" ==> r == "You lost!"
    ensures status == "draw" ==> r == "It's a draw!"
    ensures status !in {"waiting", "playing", "won", "lost", "draw"} <==> r == ""
  {
    match status
    case "waiting" => "Waiting for opponent..."
    case "playing" => if viewersTurn then "Your turn" else "Opponent's turn"
    case "won" => "You won!"
    case "lost" => "You lost!"
    case "draw" => "It's a draw!"
    case _ => ""
  }

  /** When line k is complete and none from `from` up to it is, it is the first complete line from `from`. */
  lemma {:induction false} FirstFrom(b: TTT.Board<TTT.Mark>, from: int, k: int)
    requires 0 <= from <= k < 8 && TTT.LineComplete(b, k)
    requires forall j :: from <= j < k ==> !TTT.LineComplete(b, j)
    ensures TTT.FirstCompleteLine(b, from) == Some(k)
    decreases k - from
  {
    if from < k {
      FirstFrom(b, from + 1, k);
    }
  }

  /** After the viewer's accepted move it is the other symbol's turn, so a second click changes nothing. */
  method SecondClickIgnored(v: TicTacToeView, first: int, second: int)
    requires v.gameStatus == "playing" && 0 <= first < 9 && v.board[first].None? && v.currentPlayer == v.playerSymbol
    modifies v
    ensures v.board == TTT.Place(old(v.board), first, old(v.playerSymbol))
    ensures v.currentPlayer != v.playerSymbol
  {
    v.MakeMove(first);
    v.MakeMove(second);
  }
}
