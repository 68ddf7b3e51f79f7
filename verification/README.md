# TakTix match logic in Dafny

This project models the match logic of the TakTix gaming platform and
proves properties of it.

On the backend it covers:

- the tic-tac-toe and skeleton chess rules;
- the drafts of the match state machines, kept apart because they disagree:
  - the compiled socket server with its tic-tac-toe handlers;
  - the TypeScript tic-tac-toe and chess room handlers;
  - the legacy socket manager with the REST game controller;
  - the match service;
- the statistics and rating updates;
- the one-device-per-account session guard;
- the error middleware.

On the frontend it covers the small pure helpers of the React pages:

- the client-side tic-tac-toe page;
- password strength;
- duration, time-ago and clock texts;
- the history filters and pagination;
- the dashboard badges and friends filter;
- the game and invitation list reducers;
- the header's active-link test and mobile menu.

How the source's own form is kept:

- Each handler that loads a record, checks it, changes it and saves it is a
  method of a class whose fields are the record's fields. Where the source
  keeps a collection of records, that collection is a map field.
- A refused request returns a named error and changes nothing.
- Pure helpers are functions, and their properties are lemmas.
- The database, the sockets and the clock are parameters:
  - a timestamp `now`;
  - the server's answer to a fetch;
  - the result of a request that cannot be seen.
- A socket emit becomes an output value.

Files:

- `common.dfy`: option and result types, decimal text of numbers and its
  reading back, ASCII case mapping, `startsWith`/`includes`, padding.
- `tictactoe_rules.dfy`, `chess_rules.dfy`: the `TicTacToe` and `Chess` rule
  classes.
- `user_stats.dfy`: `updateUserStats`.
- `live_match.dfy`, `lobby.dfy`: the compiled socket server
  (`backend/dist/socket`).
- `socket_tictactoe.dfy`, `socket_chess.dfy`: the TypeScript room handlers.
- `legacy_games.dfy`: the REST game controller and the plain socket manager.
- `game_service.dfy`: the match service.
- `device_auth.dfy`: the device session guard.
- `error_middleware.dfy`: the error factories and middleware.
- `game_play.dfy`, `signup.dfy`, `game_history.dfy`, `games_page.dfy`,
  `dashboard.dfy`, `game_context.dfy`, `game_invitation.dfy`,
  `site_header.dfy`: the frontend helpers.

## Model

| member | source | states |
|---|---|---|
| TicTacToeRules.Line | backend/dist/utils/gameLogic/tictactoe.js:7-11 | the eight winning lines are three distinct cells in 0..8, listed as rows, then columns, then diagonals |
| TicTacToeRules.FirstCompleteLine | backend/dist/utils/gameLogic/tictactoe.js:36-41 | the result is the first line at or after the start whose three cells hold the same mark, and None exactly when no such line exists |
| TicTacToeRules.CheckWinner | backend/dist/utils/gameLogic/tictactoe.js:35-47 | the first complete line names the winner; a full board without a line is a draw; otherwise there is no result; win and draw exclude each other |
| TicTacToeRules.InitialState | backend/dist/utils/gameLogic/tictactoe.js:13-15 | nine empty cells |
| TicTacToeRules.Place | backend/dist/utils/gameLogic/tictactoe.js:26-27 | the new board differs from the old one only at the position, which holds the player's mark |
| TicTacToeRules.MakeMove | backend/dist/utils/gameLogic/tictactoe.js:16-34 | a position outside 0..8 gives "Invalid position", then a taken cell gives "Position already taken"; otherwise the result is the placed board and its verdict |
| TicTacToeRules.IsValidMove | backend/dist/utils/gameLogic/tictactoe.js:48-50 | true exactly when MakeMove would succeed, for every mover |
| TicTacToeRules.GetAvailableMoves | backend/dist/utils/gameLogic/tictactoe.js:51-55 | exactly the empty cells, strictly ascending; empty exactly when the board is full |
| TicTacToeRules.NewLineBelongsToMover | backend/dist/utils/gameLogic/tictactoe.js:26-29 | a move on a board without a line that creates a line makes the mover's mark the winner |
| ChessRules.InitialState | backend/src/utils/gameLogic/chess.ts:5-18 | black pieces on rows 0-1, four empty rows, white pieces on rows 6-7 |
| ChessRules.IsValidMoveCases | backend/src/utils/gameLogic/chess.ts:51-100 | the move check fails for a coordinate outside the board, an empty source square, a piece of the other side, or an own piece on the destination, and passes otherwise |
| ChessRules.IsValidMove | backend/src/utils/gameLogic/chess.ts:51-100 | both squares on the board, a piece on the source of the mover's side, and no own piece on the destination |
| ChessRules.NoOwnCapture | backend/src/utils/gameLogic/chess.ts:88-97 | for "white" and "black", a valid move never lands on a piece of the mover's colour |
| ChessRules.StandStillOnlyForOthers | backend/src/utils/gameLogic/chess.ts:77-97 | a move onto its own square passes only for a mover named neither "white" nor "black" |
| ChessRules.IsCheckmate | backend/src/utils/gameLogic/chess.ts:102-106 | the stub always answers false |
| ChessRules.GetAvailableMoves | backend/src/utils/gameLogic/chess.ts:108-117 | the stub always answers the empty list |
| ChessRules.Relocate | backend/src/utils/gameLogic/chess.ts:34-36 | the destination gets the moved piece and the source becomes empty (a move onto its own square empties it); every other square is unchanged |
| ChessRules.MakeMove | backend/src/utils/gameLogic/chess.ts:20-49 | fails with "Invalid move" exactly when the move check fails; otherwise returns the relocated board (a piece moved onto its own square vanishes), no checkmate and the piece that stood on the destination |
| UserStats.ApplyResult | backend/src/services/userService.ts:11-26 | one more game played and one more in the result's counter; the rating rises by 25 for a win, by 5 for a draw, and falls by 20 for a loss but not below zero |
| UserStats.ApplyResultKeepsInvariants | backend/src/services/userService.ts:11-26 | one update keeps played = won + lost + drawn and keeps the rating non-negative |
| UserStats.LossRatingNonNegative | backend/src/services/userService.ts:18-21 | after a loss the rating is never negative, whatever it was |
| UserStats.ApplyResultsCounts | backend/src/services/userService.ts:5-28 | over any series of results, played grows by its length and each counter by the number of its results, with both invariants kept |
| UserStats.UserStore.UpdateUserStats | backend/src/services/userService.ts:5-28 | an unknown id fails with "User not found" and changes nothing; otherwise only that user's record receives the result |
| LiveMatch.Opponent | backend/dist/socket/handler/ticTacToeHandler.js:68 | the first seat held by someone else; None exactly when every seat is the user's |
| LiveMatch.OrEmpty | backend/dist/socket/handler/ticTacToeHandler.js:73 | the empty string exactly when nobody was found |
| LiveMatch.SymbolOf | backend/dist/socket/handler/ticTacToeHandler.js:37-38 | X exactly for the account in the first seat |
| LiveMatch.Crown | backend/dist/socket/handler/ticTacToeHandler.js:88-92 | only the winner's first seat is marked as winner with score 1; every other seat is unchanged |
| LiveMatch.HalfScores | backend/dist/socket/handler/ticTacToeHandler.js:99-100 | every seat gets score 0.5 |
| LiveMatch.DrawUpdates | backend/dist/socket/handler/ticTacToeHandler.js:99-101 | one draw report per seat, in seat order |
| LiveMatch.InitialGameState | backend/dist/socket/handler/ticTacToeHandler.js:8-15 | an empty board with the first seat to move, no moves, no winner, no draw, not over |
| LiveMatch.InitialGameStateExplained | backend/dist/socket/handler/ticTacToeHandler.js:8-15 | the fresh state's move list explains its board |
| LiveMatch.PlacingKeepsRecord | backend/dist/socket/handler/ticTacToeHandler.js:40-41 | placing on an empty cell and appending the matching move keeps the move list and the board in agreement |
| LiveMatch.Match.Open | backend/dist/socket/index.js:77-92 | a new waiting match with the creator alone as white and an empty game state |
| LiveMatch.Match.Join | backend/dist/socket/index.js:52-59 | the joiner takes the colour opposite the first seat; the match becomes active with its start time; a match without a first seat fails unchanged |
| LiveMatch.Match.EnsureGameState | backend/dist/socket/handler/ticTacToeHandler.js:7-18 | a missing game state becomes the fresh one with the first seat to move; an existing one is kept; no player means failure with nothing changed |
| LiveMatch.Match.MakeMove | backend/dist/socket/handler/ticTacToeHandler.js:22-127 | the turn is checked first, then the cell and game over, both refusing with nothing changed; a move is accepted exactly when it is the caller's turn on a free cell of an unfinished game; an accepted move places the symbol, decides win and draw, records the move, passes the turn, completes a finished match, scores the players and reports the stats calls |
| LiveMatch.Match.Forfeit | backend/dist/socket/handler/ticTacToeHandler.js:129-169 | refused unless active; otherwise the first other seat wins with score 1, and the match completes even when there is nobody to win |
| LiveMatch.Match.Concede | backend/dist/socket/handler/ticTacToeHandler.js:134-149 | the winner found, if any, is crowned, recorded in the game state and reported with the loser; the match completes either way |
| LiveMatch.SocketOpponent | backend/dist/socket/handler/ticTacToeHandler.js:135 | for a string caller the first seat held by someone else; for an ObjectId caller always the first seat |
| LiveMatch.Match.HandleMakeMove | backend/dist/socket/handler/ticTacToeHandler.js:22-28 | with the ObjectId the middleware stores, every move is refused as not the caller's turn and nothing changes; only a string caller can have a move applied |
| LiveMatch.Match.HandleForfeit | backend/dist/socket/handler/ticTacToeHandler.js:129-149 | refused unless active; otherwise the first seat not strictly equal to the caller is crowned and recorded as the game state's winner, and the caller's account loses, so an ObjectId caller crowns the first seat |
| LiveMatch.OpeningMoveRefused | backend/dist/socket/index.js:27 | on a fresh two-player match the creator's opening move is refused with the ObjectId and accepted with the string id |
| LiveMatch.CreatorForfeits | backend/dist/socket/handler/ticTacToeHandler.js:135-148 | when the creator forfeits, as written the creator is reported as winner and as loser; as intended the joiner wins |
| LiveMatch.Match.AddSpectator | backend/dist/socket/index.js:138-143 | the viewer is in the spectator list exactly once afterwards; nothing else changes |
| LiveMatch.Match.PostMessage | backend/dist/socket/index.js:163-169 | one message is appended and earlier ones are untouched |
| LiveMatch.ScoreDraw | backend/dist/socket/handler/ticTacToeHandler.js:97-103 | the draw loop gives every seat half a point and one draw report, in seat order |
| LiveMatch.AdvanceState | backend/dist/socket/handler/ticTacToeHandler.js:36-81 | the new state is the mover's symbol on the cell, a win exactly when a line is complete, a draw exactly for a full board without a line, the move appended and the turn passed; an explained board stays explained |
| LiveMatch.ScanLines | backend/dist/socket/handler/ticTacToeHandler.js:51-61 | the mover is the winner exactly when some line is complete |
| LiveMatch.WithSpectator | backend/dist/socket/index.js:140-141 | the viewer is added at the end when absent; the earlier list is kept as a prefix |
| LiveMatch.WithSpectatorIdempotent | backend/dist/socket/index.js:140-141 | asking twice equals asking once |
| LiveMatch.WithSpectatorNoDuplicates | backend/dist/socket/index.js:140-141 | a list without repeats stays without repeats |
| LiveMatch.TwoSeatsAlternate | backend/dist/socket/handler/ticTacToeHandler.js:37-38 | with two different accounts seated, the first plays X, the second O, and each one's opponent is the other |
| Lobby.KindOfSlug | backend/dist/socket/index.js:114-124 | "chess" and "tic-tac-toe" choose their handlers; any other slug is unsupported |
| Lobby.MatchStore.JoinMatchmaking | backend/dist/socket/index.js:42-103 | an open match of the game that holds one seat gets the requester in its second seat and becomes active; the joined match keeps its game state, end time, spectators and messages; a chosen open match with no seat fails with nothing changed; with none open, a new waiting match is stored with the requester as white |
| Lobby.MatchStore.JoinGame | backend/dist/socket/index.js:105-130 | an unknown match gives "Match not found"; a game outside the catalogue fails; chess attaches its handler; tic-tac-toe does too once its game state is initialised, and fails exactly when the match has neither a game state nor a player; a missing state becomes the fresh state with the first seat to move, an existing one is kept; other slugs are unsupported; the players, status, times, spectators and messages of every match stay, and only that match's game state can change |
| Lobby.MatchStore.Spectate | backend/dist/socket/index.js:132-155 | an unknown match changes nothing; otherwise the viewer is added once, and the match's players, messages, status, game state and times stay as they were |
| Lobby.MatchStore.SendMessage | backend/dist/socket/index.js:157-183 | an unknown match changes nothing; otherwise the message is appended to that match only, and its players, spectators, status, game state and times stay as they were |
| SocketTicTacToe.Room.Move | backend/src/socket/handler/ticTacToeHandler.ts:13-99 | as written: an off-board position, a taken cell or the wrong turn gives "Invalid move" with nothing changed; the game's status is not checked |
| SocketTicTacToe.Room.MoveWhileActive | backend/src/socket/handler/ticTacToeHandler.ts:26-34 | with a status check added, a finished game refuses every move and keeps its result |
| SocketTicTacToe.Room.Apply | backend/src/socket/handler/ticTacToeHandler.ts:36-86 | the symbol is placed; the mover wins exactly when a line is complete; the status is completed, draw or active; the turn passes to the other seat; the winner and end time are written only when the source writes them |
| SocketTicTacToe.Room.Forfeit | backend/src/socket/handler/ticTacToeHandler.ts:101-121 | with no check at all, the seat opposite the requester wins and the game completes |
| SocketTicTacToe.WinnerOverwrittenAfterWin | backend/src/socket/handler/ticTacToeHandler.ts:26-62 | after X wins, O's next move is accepted and O is named winner |
| SocketTicTacToe.WinnerKeptWhenChecked | backend/src/socket/handler/ticTacToeHandler.ts:26-34 | with the status check, X stays the winner |
| SocketChess.Room.Start | backend/src/socket/handler/chessHandler.ts:8-17 | the initial position with white to move and nothing captured |
| SocketChess.Room.Move | backend/src/socket/handler/chessHandler.ts:29-108 | the checks run in order: turn, then source row, then empty square, then the piece's colour, then the destination row; each refuses with nothing changed; an accepted move files the captured piece by its colour, moves the piece and passes the turn |
| SocketChess.Room.Commit | backend/src/socket/handler/chessHandler.ts:62-93 | a captured piece is filed under its own colour, the piece moves to the destination and leaves the source, the turn passes to the other seat, and check, checkmate and draw are cleared |
| SocketChess.Room.Forfeit | backend/src/socket/handler/chessHandler.ts:110-130 | with no check, the seat opposite the requester wins and the game completes |
| SocketChess.Room.AcceptDraw | backend/src/socket/handler/chessHandler.ts:138-152 | with no check, the match and its game state become a draw |
| SocketChess.OwnCaptureAccepted | backend/src/socket/handler/chessHandler.ts:62-72 | the room lets white's rook take white's own knight and files the knight as captured |
| LegacyGames.CheckTicTacToeResult | backend/src/socket/socketManager.js:133-162 | the first complete line's colour names the first player of that colour; no such player is a server error; a full board without a line is a draw; otherwise undecided |
| LegacyGames.CheckGameResult | backend/src/socket/socketManager.js:121-130 | only tic-tac-toe games are ever decided; chess and other types are never decided |
| LegacyGames.WinnerIsMover | backend/src/socket/socketManager.js:68-80 | when the colours are distinct, a move that completes a line makes its mover the winner |
| LegacyGames.RecordGame | backend/src/socket/socketManager.js:173-183 | one more game played and one more win or loss; a tie adds only the played game, since the schema has no `gamesTied`; the rating is untouched |
| LegacyGames.RecordGameWithDraw | backend/src/socket/socketManager.js:180-183 | as RecordGame for a decided game; a tie also counts one draw; a balanced record stays balanced |
| LegacyGames.TieBreaksBalance | backend/src/socket/socketManager.js:180-183 | a tie recorded as written breaks played = won + lost + drawn; with the draw counted it holds |
| LegacyGames.TieUnbalancesPlayer | backend/src/socket/socketManager.js:165-191 | after a tied game, a seated player whose account was balanced is left unbalanced |
| LegacyGames.RecordAllSound | backend/src/socket/socketManager.js:165-191 | with ties counted as draws, for any list of players the same accounts remain, played = won + lost + drawn is kept, and ratings are unchanged |
| LegacyGames.DecidedGamesAgree | backend/src/socket/socketManager.js:165-191 | for a game with a winner, the records as written and with the corrected tie branch are the same |
| LegacyGames.UpdatePlayerStats | backend/src/socket/socketManager.js:165-191 | the store becomes the as-written RecordAll of the players in order, skipping unknown accounts |
| LegacyGames.Users | backend/src/socket/socketManager.js:167 | the players' accounts, in seat order |
| LegacyGames.Settled | backend/src/socket/socketManager.js:80-93 | a decided game is completed with its winner and end time; an undecided one is saved as it is |
| LegacyGames.GameTable.CreateGame | backend/src/controllers/game.controller.ts:5-32 | a new waiting game with the creator seated as white (chess) or X, starting from the chess start position or an empty board |
| LegacyGames.GameTable.JoinGame | backend/src/controllers/game.controller.ts:35-67 | 404 "Game not found", then 400 "Game is no longer available", then 400 "Game is full"; otherwise the joiner takes black or O and the game starts |
| LegacyGames.GameTable.MakeMove | backend/src/socket/socketManager.js:33-111 | as written: succeeds exactly when the game is active, the mover holds a seat, the cell is free and the result can be computed; a taken or off-board cell is "Invalid move"; whose turn it is is not checked; a decided game is completed and every player's stats are recorded; a failure saves nothing |
| LegacyGames.GameTable.MakeMoveInTurn | backend/src/socket/socketManager.js:42-52 | with the turn check its comment announces, a player who made the last move is refused; otherwise it succeeds exactly when `MakeMove` would, with the same settled record and the same statistics update, and a refusal saves nothing |
| LegacyGames.SamePlayerMovesThrice | backend/src/socket/socketManager.js:42-93 | as written, the creator takes three cells in a row and wins alone |
| LegacyGames.SecondMoveInARowRefused | backend/src/socket/socketManager.js:42-52 | with the turn check, the creator's second move in a row is refused |
| GameService.GetGameLogic | backend/src/services/game.Service.ts:11-22 | only "tictactoe" has rules; any other type is refused with "Unsupported game type: " and the type |
| GameService.OtherPlayer | backend/src/services/game.Service.ts:113-114 | the first seat held by someone else; None exactly when there is none |
| GameService.OtherOfTwo | backend/src/services/game.Service.ts:113-131 | with two different users seated, each one's other player is the other |
| GameService.MatchService.CreateGame | backend/src/services/game.Service.ts:24-45 | the creator sits as white; a named opponent sits as black and the match is pending; otherwise it is waiting with one seat |
| GameService.MatchService.JoinGame | backend/src/services/game.Service.ts:61-79 | "Game not found", then "Game is not available to join"; otherwise the joiner is seated as black, with no count of the seats, and the match is active |
| GameService.MatchService.MakeMove | backend/src/services/game.Service.ts:81-118 | an unknown or inactive match or the wrong turn is refused unchanged; otherwise the move is recorded with its player and the turn passes; when no match has a turn set, every move is refused |
| GameService.MatchService.ResignGame | backend/src/services/game.Service.ts:120-135 | an unknown or inactive match is refused; otherwise the match is completed and won by the first other seat |
| GameService.FirstMoveRefused | backend/src/services/game.Service.ts:24-118 | a match that is created and then joined refuses its creator's first move |
| DeviceAuth.DeviceAuthService.SetIo | backend/src/services/deviceAuth.service.ts:20-22 | the socket server is attached and the sessions are kept |
| DeviceAuth.DeviceAuthService.HandleDeviceCheck | backend/src/services/deviceAuth.service.ts:24-57 | allowed exactly when the user has no session or the same device; allowing stores the new session; refusing keeps the old one and, once the socket server is attached, sends the two notices; afterwards the device is valid exactly when it was allowed |
| DeviceAuth.DeviceAuthService.IsValidSession | backend/src/services/deviceAuth.service.ts:67-70 | any device is valid for a user without a session; otherwise only the stored device |
| DeviceAuth.DeviceAuthService.RemoveSession | backend/src/services/deviceAuth.service.ts:59-61 | only that user's session goes; removing a missing one changes nothing |
| DeviceAuth.DeviceAuthService.GetSession | backend/src/services/deviceAuth.service.ts:63-65 | the stored session exactly when the user has one |
| DeviceAuth.SecondDeviceWaitsForLogout | backend/src/services/deviceAuth.service.ts:24-70 | a second device is refused while the first is logged in and admitted after it logs out |
| ErrorMiddleware.NewAppError | backend/src/middleware/errorMiddleware.ts:9-16 | the status is "fail" exactly when the code's decimal text starts with 4, otherwise "error"; the error is operational |
| ErrorMiddleware.ClientAndServerCodes | backend/src/middleware/errorMiddleware.ts:12 | 4xx codes give "fail" and 5xx codes give "error" |
| ErrorMiddleware.CastError | backend/src/middleware/errorMiddleware.ts:19-22 | a 400 "fail" naming the path and the value |
| ErrorMiddleware.DuplicateFieldError | backend/src/middleware/errorMiddleware.ts:24-28 | a 400 "fail" quoting the duplicate value |
| ErrorMiddleware.ValidationError | backend/src/middleware/errorMiddleware.ts:30-34 | a 400 "fail" listing the messages joined by ". " |
| ErrorMiddleware.JoinMessages | backend/src/middleware/errorMiddleware.ts:31-32 | the empty list gives "" and one message is kept as it is |
| ErrorMiddleware.JwtError | backend/src/middleware/errorMiddleware.ts:36-38 | 401 "fail" "Invalid token. Please log in again!" |
| ErrorMiddleware.JwtExpiredError | backend/src/middleware/errorMiddleware.ts:40-42 | 401 "fail" "Your token has expired! Please log in again." |
| ErrorMiddleware.DefaultCode | backend/src/middleware/errorMiddleware.ts:50 | the error's own code, or 500 when it is missing or 0 |
| ErrorMiddleware.DefaultStatus | backend/src/middleware/errorMiddleware.ts:51 | the error's own status, or "error" when it is missing or empty |
| ErrorMiddleware.Respond | backend/src/middleware/errorMiddleware.ts:44-108 | development sends the error as it is; production ranks an expired token over a bad token over validation over duplicate over cast; any other error is sent when operational and as 500 "Something went wrong" otherwise |
| GamePlay.Flip | frontend/src/pages/games/game-play.tsx:243 | the other symbol |
| GamePlay.TicTacToeView.Begin | frontend/src/pages/games/game-play.tsx:216-221 | play starts with the viewer's symbol; the board and turn are kept |
| GamePlay.TicTacToeView.CheckGameEnd | frontend/src/pages/games/game-play.tsx:251-289 | the first complete line's mark wins, giving "won" for the viewer's symbol and "lost" otherwise; a full board without a line is "draw"; anything else leaves the page as it was |
| GamePlay.TicTacToeView.MakeMove | frontend/src/pages/games/game-play.tsx:229-248 | nothing changes unless the page is playing, the cell is on the board and empty, and it is the viewer's turn; otherwise the cell gets the symbol, the turn flips and the end is checked |
| GamePlay.TicTacToeView.ResetGame | frontend/src/pages/games/game-play.tsx:292-297 | an empty board, X to move, no winner, playing |
| GamePlay.TicTacToeView.StatusMessage | frontend/src/pages/games/game-play.tsx:334-349 | while playing, "Your turn" or "Opponent's turn"; an unknown status shows nothing |
| GamePlay.RenderStatusMessage | frontend/src/pages/games/game-play.tsx:334-349 | each status has its fixed text, and exactly the unknown statuses give "" |
| GamePlay.SecondClickIgnored | frontend/src/pages/games/game-play.tsx:229-244 | after the viewer's accepted click and any second click, the board holds only the first mark and it is the other symbol's turn |
| Signup.PasswordStrength | frontend/src/pages/auth/signup.tsx:34-46 | the strength is at most 5; it is 5 exactly when all five criteria hold and 0 exactly when none does |
| Signup.HasMinLength | frontend/src/pages/auth/signup.tsx:34 | at least eight characters |
| Signup.HasUppercase | frontend/src/pages/auth/signup.tsx:35 | some character is an upper-case ASCII letter |
| Signup.HasLowercase | frontend/src/pages/auth/signup.tsx:36 | some character is a lower-case ASCII letter |
| Signup.HasNumber | frontend/src/pages/auth/signup.tsx:37 | some character is a decimal digit |
| Signup.HasSpecialChar | frontend/src/pages/auth/signup.tsx:38 | some character is neither an ASCII letter nor a digit |
| Signup.NonEmptyHasStrength | frontend/src/pages/auth/signup.tsx:34-46 | the strength is 0 exactly for the empty password |
| Signup.StrengthColor | frontend/src/pages/auth/signup.tsx:48-53 | muted exactly for the empty password, red for strength up to 2, yellow for 3-4, green for 5 |
| Signup.Submit | frontend/src/pages/auth/signup.tsx:55-72 | a mismatch is reported first, then a strength below 3; signup is called exactly when both checks pass |
| Signup.ErrorText | frontend/src/pages/auth/signup.tsx:57-65 | the error line is empty exactly when signup was called |
| Signup.SubmitDisabled | frontend/src/pages/auth/signup.tsx:324-328 | disabled while loading, on a mismatch, or below strength 3 |
| Signup.EnabledExactlyWhenSubmitSends | frontend/src/pages/auth/signup.tsx:324-328 | while nothing loads, the button is enabled exactly when submitting would call signup |
| Signup.ShortPasswordCanPass | frontend/src/pages/auth/signup.tsx:34-72 | a 4-character password with four character classes reaches strength 4 and is sent |
| GameHistory.DurationRoundTrip | src/components/profile/game-history-detailed.tsx:117-128 | every duration text reads back as the seconds it was made from |
| GameHistory.FormatDuration | src/components/profile/game-history-detailed.tsx:117-128 | under a minute the text is the seconds and "s"; whole minutes are the minutes and "m" |
| GameHistory.DurationShape | src/components/profile/game-history-detailed.tsx:117-128 | under a minute only seconds are shown; whole minutes show no seconds |
| GameHistory.TimeAgoParts | src/components/profile/game-history-detailed.tsx:329-351 | the unit is chosen in order (seconds below 60, then minutes below 60, then hours below 24, then days); for a past time the count is the floor of the age in that unit |
| GameHistory.FormatTimeAgo | src/components/profile/game-history-detailed.tsx:329-351 | the text ends in " ago", with an "s" before it exactly when the count is not 1 |
| GameHistory.AgoTextReadBack | src/components/profile/game-history-detailed.tsx:335-350 | a "<count> <unit>[s] ago" text reads back as its count and unit |
| GameHistory.TimeAgoReadBack | src/components/profile/game-history-detailed.tsx:329-351 | for a past moment, the time-ago text reads back as exactly the count and unit `TimeAgoParts` computes |
| GameHistory.ResultBadge | src/components/profile/game-history-detailed.tsx:130-151 | a badge exactly for win, loss and draw, whose label is the result capitalised; the dashboard's getResultBadge (src/pages/dashboard.tsx:225-248) is the same mapping |
| GameHistory.Filtered | src/components/profile/game-history-detailed.tsx:154-160 | a game is kept exactly when the opponent contains the query ignoring case and both filters are "all" or equal |
| GameHistory.FilteredAppend | src/components/profile/game-history-detailed.tsx:154-160 | filtering preserves order: the filter of a concatenation is the concatenation of the filters |
| GameHistory.TotalPages | src/components/profile/game-history-detailed.tsx:163 | ceil(n/5): zero exactly for no games; the last page is partly or wholly filled |
| GameHistory.PageItems | src/components/profile/game-history-detailed.tsx:164 | at most 5 games; on an existing page, the non-empty slice [(p-1)*5, p*5) cut at the end; past the last page, nothing |
| GameHistory.PrevPage | src/components/profile/game-history-detailed.tsx:304 | never below page 1; one page back exactly when not on the first |
| GameHistory.NextPage | src/components/profile/game-history-detailed.tsx:315 | never past the last page; one page on exactly when before the last |
| GameHistory.PagesCoverAll | src/components/profile/game-history-detailed.tsx:163-164 | reading the pages in turn gives every game exactly once, in order |
| GameHistory.ShowingRange | src/components/profile/game-history-detailed.tsx:297-298 | b never exceeds n and a non-empty range spans fewer than 5 games; past the last page the range is inverted |
| GameHistory.ShowingMatchesPage | src/components/profile/game-history-detailed.tsx:297-298 | on an existing page, 1 <= a <= b <= n and b-a+1 is the number of games listed |
| GameHistory.SetQuery | src/components/profile/game-history-detailed.tsx:216 | as written, typing a search keeps the current page |
| GameHistory.SetQueryFromFirstPage | src/components/profile/game-history-detailed.tsx:216 | corrected: typing a search goes back to page 1 |
| GameHistory.SetGameTypeFilter | src/components/profile/game-history-detailed.tsx:224 | as written, choosing a game type keeps the current page and the other criteria |
| GameHistory.SetResultFilter | src/components/profile/game-history-detailed.tsx:234 | as written, choosing a result keeps the current page and the other criteria |
| GameHistory.SetGameTypeFilterFromFirstPage | src/components/profile/game-history-detailed.tsx:224 | corrected: the same filter change, back on page 1 |
| GameHistory.SetResultFilterFromFirstPage | src/components/profile/game-history-detailed.tsx:234 | corrected: the same filter change, back on page 1 |
| GameHistory.StalePageAfterFilter | src/components/profile/game-history-detailed.tsx:224 | as written, a filter change on a page beyond what the filter leaves lists nothing; from page 1 the page is in range and lists games when there are any |
| GameHistory.InitialView | src/components/profile/game-history-detailed.tsx:13-16 | no search, both filters "all", page 1 |
| GameHistory.InitialViewShowsAll | src/components/profile/game-history-detailed.tsx:13-16 | the opening view lists every game and its page is in range |
| GameHistory.Prev | src/components/profile/game-history-detailed.tsx:304 | only the page changes; it stays at 1 or above and goes back one when past the first |
| GameHistory.Next | src/components/profile/game-history-detailed.tsx:315 | only the page changes, and it never passes the last page |
| GameHistory.ResettingKeepsPageInRange | src/components/profile/game-history-detailed.tsx:216-315 | with the reset, the page stays within [1, max(1, totalPages)]: when the view opens, after any search or filter change, after prev, and after next when there is more than one page; a non-empty result never shows an empty page |
| GameHistory.StalePageAfterSearch | src/components/profile/game-history-detailed.tsx:163-164 | as written, on page 3 of 15 games a search that leaves 7 goes out of range, lists nothing and shows "11 to 7" |
| GameHistory.StaleSearchExample | src/components/profile/game-history-detailed.tsx:297-298 | the same on concrete games: eight against "ann" and seven against "bob", searched for "bob" |
| GamesPage.FormatTime | src/pages/games.tsx:179-183 | under 100 minutes the text is five characters with ':' in the middle; what it says is stated by `GamesPage.ClockRoundTrip` |
| GamesPage.ClockRoundTrip | src/pages/games.tsx:179-183 | every clock text reads back as the seconds it counts |
| GamesPage.GameTitle | src/pages/games.tsx:185-194 | "Game" exactly for an unknown type; a known title lower-cases to its type |
| GamesPage.StartMatchmaking | src/pages/games.tsx:15-18 | matchmaking runs for the chosen game |
| GamesPage.InitialPage | src/pages/games.tsx:12-13 | not matchmaking and no game selected |
| GamesPage.CloseMatchmaking | src/pages/games.tsx:107-110 | matchmaking stops and no game is selected |
| GamesPage.MatchmakingOpensAndCloses | src/pages/games.tsx:15-18 | choosing a game shows its modal from any state, and closing returns the page to how it opened |
| GamesPage.ModalShown | src/pages/games.tsx:104 | the modal renders while matchmaking for a selected game |
| Dashboard.DateParts | src/pages/dashboard.tsx:250-264 | hours below a day and days otherwise; for a past time the count is the floor of the age in that unit |
| Dashboard.FormatDate | src/pages/dashboard.tsx:250-264 | the text ends in " ago", with an "s" before it exactly when the count is not 1 |
| Dashboard.DateReadBack | src/pages/dashboard.tsx:250-264 | for a past moment, the dashboard's text reads back as exactly the count and unit `DateParts` computes |
| Dashboard.DashboardAgreesWithHistory | src/pages/dashboard.tsx:254-263 | from one hour on, the dashboard's text equals the history page's time-ago text; below an hour it is "0 hours ago" |
| Dashboard.FilteredFriends | src/pages/dashboard.tsx:314-316 | a friend is kept exactly when the username contains the query ignoring case |
| Dashboard.FilteredFriendsAppend | src/pages/dashboard.tsx:314-316 | the friends filter preserves order |
| Dashboard.EmptySearchKeepsAll | src/pages/dashboard.tsx:314-316 | an empty search lists every friend |
| Dashboard.StatusBadge | src/pages/dashboard.tsx:318-341 | a badge exactly for online, in-game and offline, with its label |
| Dashboard.PlayDisabledExactlyWhenOffline | src/pages/dashboard.tsx:404 | the play button is disabled exactly for the friends whose badge reads "Offline" |
| Dashboard.PlayDisabled | src/pages/dashboard.tsx:404 | the play button is disabled for an offline friend |
| GameContext.WithoutId | frontend/src/contexts/GameContext.tsx:54 | every entry with the id goes and the others stay; with the id absent the list is unchanged |
| GameContext.WithoutIdAppend | frontend/src/contexts/GameContext.tsx:54 | removal preserves the order of the rest |
| GameContext.ReplaceId | frontend/src/contexts/GameContext.tsx:57-59 | same length, and each same-id entry is replaced where it stands |
| GameContext.ReplaceIdProperties | frontend/src/contexts/GameContext.tsx:57-59 | an absent id changes nothing, and replacing twice equals replacing once |
| GameContext.GameProvider.HandleGameCreated | frontend/src/contexts/GameContext.tsx:45-49 | a game of the user's goes to the front of the active list; any other game changes nothing |
| GameContext.GameProvider.HandleGameUpdated | frontend/src/contexts/GameContext.tsx:51-62 | another user's game changes neither list; a completed or cancelled game leaves the active list and is prepended to the completed list; any other update is replaced in place |
| GameContext.GameProvider.CreateGame | frontend/src/contexts/GameContext.tsx:90-109 | without a user it returns null and changes nothing; otherwise the created game is prepended and returned, and a failure returns null |
| GameContext.GameProvider.JoinGame | frontend/src/contexts/GameContext.tsx:111-124 | without a user it returns false and sends nothing; with a user it returns true, and the join is sent for that user exactly when a socket is present |
| GameContext.GameProvider.RefreshGames | frontend/src/contexts/GameContext.tsx:74-89 | with a user, both lists become the server's answer, and a failed fetch keeps them |
| GameContext.FinishedGameLeavesActive | frontend/src/contexts/GameContext.tsx:53-55 | after a finished update, no copy of the game is left among the active games and it heads the completed list |
| GameInvitation.ComputerInvitation | frontend/src/components/game/GameInvitation.tsx:50-59 | match id "computer-game", sent by "Computer", for "Tic-tac-toe" |
| GameInvitation.NewInvitation | frontend/src/components/game/GameInvitation.tsx:36-39 | the invitation is appended at the end and its sender announced |
| GameInvitation.Expired | frontend/src/components/game/GameInvitation.tsx:41-43 | every invitation for the match goes and the others stay |
| GameInvitation.ExpiredAppend | frontend/src/components/game/GameInvitation.tsx:41-43 | expiry preserves the order of the rest |
| GameInvitation.ArriveThenExpire | frontend/src/components/game/GameInvitation.tsx:36-43 | an invitation that arrives and then expires leaves the list as if it had expired alone |
| GameInvitation.AvailablePlayers | frontend/src/components/game/GameInvitation.tsx:45-62 | with nobody available the computer invitation is appended; otherwise nothing changes |
| GameInvitation.Accept | frontend/src/components/game/GameInvitation.tsx:78-85 | in both branches, the match id passed on is the invitation's own |
| GameInvitation.ComputerOfferShowsAndExpires | frontend/src/components/game/GameInvitation.tsx:45-87 | with nobody available the panel renders, accepting starts "computer-game", and its expiry removes it |
| SiteHeader.AtMostOneActive | frontend/src/components/layout/site-header.tsx:74-85 | for any path at most one navigation link is active, and on "/" only the home link is; src/components/layout/site-header.tsx:31-35 has the same test |
| SiteHeader.SectionPrefixes | frontend/src/components/layout/site-header.tsx:83 | a page below a section activates the section, and so does a longer name that starts with it |
| SiteHeader.FrontendMenu | frontend/src/components/layout/site-header.tsx:43-96 | one event at a time: the toggle's click flips the menu; a path change, a link, logout or a press outside closes it; a press inside keeps it |
| SiteHeader.SiteMenu | src/components/layout/site-header.tsx:117-135 | the toggle flips the menu, a link closes it, and nothing else changes it |
| SiteHeader.TogglesAlternate | frontend/src/components/layout/site-header.tsx:94-96 | in both headers, a menu that only gets clicks of its button with no mouse press before them is open exactly after an odd number of clicks |
| SiteHeader.LastEventDecides | frontend/src/components/layout/site-header.tsx:43-45 | in the frontend header a closing event closes the menu whatever came before; in the other header a path change keeps it as it was |
| SiteHeader.MousePress | frontend/src/components/layout/site-header.tsx:48-64 | a mouse press on the button ends with its click, and starts with a press outside the panel exactly when the menu is open |
| SiteHeader.GuardedMousePress | frontend/src/components/layout/site-header.tsx:244-263 | with the button counted as part of the panel, a press ends with its click and never presses outside |
| SiteHeader.ButtonPressKeepsMenuOpen | frontend/src/components/layout/site-header.tsx:48-96 | as written the menu is open after any mouse press on its button; with the guarded press the menu flips |
| SiteHeader.MousePressesNeverClose | frontend/src/components/layout/site-header.tsx:48-96 | after one or more mouse presses on the button the menu is open; with the guarded press it is open exactly after an odd number from closed |
| SiteHeader.IsActive | frontend/src/components/layout/site-header.tsx:81-85 | a highlighted link is a prefix of the current path |

## Left out

- GameHistory.TimeAgoReadBack, Dashboard.DateReadBack: stated for past moments only; a date in the future gives a negative count with a leading '-', which `ParseTimeAgo` does not read back.
- Persistence is left out: the database, the Mongoose schemas and the `save` calls. Each saved record is a field or a map entry here. The schema differences are not modelled:
  - the match schema's status enum rejects the service's "pending";
  - the schema has no `gameType` or `color` fields;
  - the service imports the match model under a lower-case name.
- Socket emits, rooms and broadcasts are not modelled, except the notices of the device guard and the stats calls of the compiled handlers, which are outputs.
- Concurrency is left out: two handlers interleaving on one record. Each handler call is one atomic step.
- Authentication, JWT signing and checking, and password hashing are not part of this model.
- The compiled chess handler (`backend/dist/socket/handler/chessHandler.js`, a wrapper around an external chess library) is not part of this model. `Lobby.MatchStore.JoinGame` only records that chess handlers are attached.
- The compiled `join-game` loads the match with `.lean()`, so the handler's `save` would not exist on it. The handlers are modelled over a saved document.
- A failure of `updateUserStats` inside the handlers is not modelled. The compiled handlers return the calls they make.
- The duplicate-key message's quoted value is taken from the database message by a regular expression. That extraction is left out: the quoted value is an input to `ErrorMiddleware.Respond`.
- In development, the error object and stack trace in the reply are left out. Only code, status and message are modelled.
- `offer-draw` and `decline-draw` in the chess room only broadcast and change nothing, so they are left out.
- The legacy socket manager's write to `gamesTied`, a path the user schema does not declare, is modelled as lost: a tie changes only `gamesPlayed` (see Findings).
- Lower- and upper-casing cover the ASCII letters only. String lengths count characters rather than UTF-16 code units.
- `SocketChess.Room.Move`: a destination column outside the board writes an extra property on the row array in the source. The model treats it like the other out-of-board coordinates, as a thrown "Failed to process move".
- The signup page's `signup` request and the text of its errors, the games page's simulated opponent (timers and `Math.random`), and the notification count are left out.
- The history page's fake data and the game context's service calls are left out. Fetched lists and created games are parameters.
- The header's mouse-down listener is modelled as the two events `PressedOutside` and `PressedInside`; a mouse press on the menu button is the sequence `MousePress` builds. React's batching of the two updates is not modelled: the mousedown's update is applied before the click.
- Parsing dates in `formatDate` and `formatTimeAgo` is left out. The elapsed milliseconds are the parameter.
- Lobby.MatchStore.JoinMatchmaking: stores the caller's id as the seat's user; the source wraps it in `new Schema.Types.ObjectId(...)`, the schema-type class rather than an ObjectId value, so what Mongoose would store is not modelled.
- Lobby.MatchStore.Spectate: compares and stores the caller's id directly. The source builds `new Schema.Types.ObjectId(userId)`, a schema-type object whose `toString()` is not the caller's id, so its repeat check and the value it pushes are not modelled; "added once" holds for the id as given.
- Lobby.MatchStore.SendMessage: stores the caller's id as the message's user; the source's `new Schema.Types.ObjectId(...)` wrapper is not modelled.
- LiveMatch.Match.Open: the creator's id is stored as given; the source's `new Schema.Types.ObjectId(...)` wrapper is not modelled.
- LiveMatch.Match.Join: the joiner's id is stored as given; the source's `new Schema.Types.ObjectId(...)` wrapper is not modelled.
- LiveMatch.Match.AddSpectator: the viewer's id is stored as given; the source's `new Schema.Types.ObjectId(...)` wrapper is not modelled.
- GameService.MatchService.CreateGame: the players' ids are stored as given; the service's `new Schema.Types.ObjectId(...)` wrapper is not modelled.
- GameService.MatchService.JoinGame: the joiner's id is stored as given; the service's `new Schema.Types.ObjectId(...)` wrapper is not modelled.
- LiveMatch.Match.MakeMove and LiveMatch.Match.Forfeit take the caller's id as a string, as the handlers' comparisons expect; the value the middleware actually stores is modelled by `HandleMakeMove` and `HandleForfeit` (see Findings).

## Findings

| source | as written | input that shows it | evidently intended | confidence | as-written member | corrected member |
|---|---|---|---|---|---|---|
| backend/src/socket/handler/ticTacToeHandler.ts:26-34 | `game:move` never checks the game's status, and a completed line is found again on every later board | X completes the top row and wins; O then moves on a free cell; the handler accepts it and records O as winner | a finished game refuses further moves and keeps its winner | high (not executed) | SocketTicTacToe.Room.Move, SocketTicTacToe.WinnerOverwrittenAfterWin | SocketTicTacToe.Room.MoveWhileActive, SocketTicTacToe.WinnerKeptWhenChecked |
| backend/src/socket/socketManager.js:42-52 | the block under "Check if it's player's turn" only checks that the mover holds a seat | the creator of a joined tic-tac-toe game plays cells 0, 1 and 2 in a row and wins alone | a player may not move twice in a row | high (not executed) | LegacyGames.GameTable.MakeMove, LegacyGames.SamePlayerMovesThrice | LegacyGames.GameTable.MakeMoveInTurn, LegacyGames.SecondMoveInARowRefused |
| src/components/profile/game-history-detailed.tsx:216 | changing the search (or a filter) keeps the current page | on page 3 of 15 games, a search that matches 7 shows "Showing 11 to 7 of 7 games", "Page 3 of 2" and an empty list | a search or filter change goes back to the first page | high (not executed) | GameHistory.SetQuery, GameHistory.StalePageAfterSearch, GameHistory.SetGameTypeFilter, GameHistory.StalePageAfterFilter | GameHistory.SetQueryFromFirstPage, GameHistory.SetGameTypeFilterFromFirstPage, GameHistory.ResettingKeepsPageInRange |
| backend/dist/socket/handler/ticTacToeHandler.js:26 | the middleware sets `socket.userId` to the account's `_id` object (backend/dist/socket/index.js:27), and the handlers compare it with `!==` against strings | the creator of a joined match sends `make-move` on their turn; `currentTurn !== socket.userId` holds and "Not your turn" is sent | the caller's id compared as a string, so the player whose turn it is can move | high (not executed) | LiveMatch.Match.HandleMakeMove, LiveMatch.OpeningMoveRefused | LiveMatch.Match.MakeMove |
| backend/dist/socket/handler/ticTacToeHandler.js:135 | the forfeit winner is the first seat whose `user.toString()` is `!==` the ObjectId caller, which is every seat | the creator of an active two-player match forfeits; on the saved document this model assumes (see "## Left out": the handler receives a `.lean()` object whose `save` throws first, so as delivered the client gets only "Failed to forfeit game"), the creator is crowned and reported as winner and as loser | the other player wins | medium (not executed) | LiveMatch.Match.HandleForfeit, LiveMatch.CreatorForfeits | LiveMatch.Match.Forfeit |
| backend/src/socket/socketManager.js:182 | a tie increments `user.stats.gamesTied`, a path the user schema (backend/src/models/User.model.ts:66-71) does not declare, so the strict schema drops it | a tied game between two players with balanced records; each is saved with one more game played and nothing else | a tie counts in `gamesDraw`, keeping played = won + lost + drawn | medium (not executed) | LegacyGames.RecordGame, LegacyGames.TieBreaksBalance, LegacyGames.TieUnbalancesPlayer | LegacyGames.RecordGameWithDraw, LegacyGames.RecordAllSound |
| frontend/src/components/layout/site-header.tsx:48-64 | the outside-press listener closes the open menu on a mousedown on the menu button, which lies outside `mobileMenuRef` (lines 244-263); the click then toggles it open again | the menu is open and the user clicks its close button; the menu stays open | a press on the button closes the open menu | high (not executed) | SiteHeader.MousePress, SiteHeader.ButtonPressKeepsMenuOpen | SiteHeader.GuardedMousePress, SiteHeader.MousePressesNeverClose |
