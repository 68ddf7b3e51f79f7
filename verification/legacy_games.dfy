/**
 * The older game records served by the REST game controller
 * (`createGame`, `joinGame`) and played through the plain socket manager
 * (`makeMove`, `checkGameResult`, `checkTicTacToeResult`,
 * `updatePlayerStats`). A record knows its game type as a string; a
 * tic-tac-toe board holds the colours of the players ("X", "O"), and a chess
 * game keeps only an opaque board string that the client sends in full.
 */
module LegacyGames {
  import opened Common
  import TTT = TicTacToeRules
  import US = UserStats

  /** A player's colour; the colours written here are never empty, so a cell holding one is truthy. */
  type Colour = s: string | |s| > 0 witness "X"

  const ChessStartFen: string := "rnbqkbnr/pppppppp/8/8/8/8/PPPPPPPP/RNBQKBNR w KQkq - 0 1"

  datatype GamePlayer = GamePlayer(user: UserId, color: Colour)

  datatype GameStatus = Waiting | Active | Completed | Cancelled

  /** `gameData`: a chess board string, or a tic-tac-toe board. */
  datatype GameData = ChessData(boardState: string) | TicTacToeData(board: TTT.Board<Colour>)

  /** The two fields of a move payload that the socket manager reads. */
  datatype MovePayload = MovePayload(position: int, newBoardState: string)

  datatype MoveEntry = MoveEntry(player: UserId, move: MovePayload, timestamp: Time)

  datatype GameRecord = GameRecord(
    gameType: string,
    players: seq<GamePlayer>,
    data: GameData,
    status: GameStatus,
    moves: seq<MoveEntry>,
    winner: Option<UserId>,
    startTime: Option<Time>,
    endTime: Option<Time>)

  /** An HTTP error reply of the controller: status code and message. */
  datatype HttpError = HttpError(code: int, message: string)

  datatype MoveError = InvalidGame | NotAPlayer | InvalidMove | NotYourTurn | ServerError

  /** What `checkGameResult` reports. */
  datatype GameOutcome = GameOutcome(winner: Option<UserId>, isDraw: bool)

  // ---------------------------------------------------------------------------
  // Results
  // ---------------------------------------------------------------------------

  function HasColour(c: Colour): GamePlayer -> bool {
    (p: GamePlayer) => p.color == c
  }

  /**
   * `checkTicTacToeResult`: the first complete line names the first player of
   * that colour as winner (no such player makes the handler throw); a full
   * board without a line is a draw; anything else is undecided.
   */
  function CheckTicTacToeResult(board: TTT.Board<Colour>, players: seq<GamePlayer>): (r: Result<GameOutcome, MoveError>)
    ensures r.Ok? && r.value.winner.Some? ==>
              && TTT.HasLine(board) && !r.value.isDraw
              && exists i :: 0 <= i < |players| && players[i].user == r.value.winner.value
                             && Some(players[i].color) == board[TTT.Line(TTT.FirstCompleteLine(board, 0).value).0]
    ensures r.Err? ==> r.error == ServerError && TTT.HasLine(board)
    ensures TTT.HasLine(board) ==> r.Err? || r.value.winner.Some?
    ensures !TTT.HasLine(board) ==> r == Ok(GameOutcome(None, TTT.IsFull(board)))
  {
    match TTT.FirstCompleteLine(board, 0)
    case Some(k) =>
      var mark := board[TTT.Line(k).0].value;
      (match FindIndex(players, HasColour(mark))
       case Some(i) => Ok(GameOutcome(Some(players[i].user), false))
       case None => Err(ServerError))
    case None =>
      Ok(GameOutcome(None, TTT.IsFull(board)))
  }

  /** `checkGameResult`: only tic-tac-toe games ever end; a tic-tac-toe type without a board throws. */
  function CheckGameResult(g: GameRecord): (r: Result<GameOutcome, MoveError>)
    ensures g.gameType != "ticTacToe" ==> r == Ok(GameOutcome(None, false))
    ensures g.gameType == "ticTacToe" && g.data.TicTacToeData? ==> r == CheckTicTacToeResult(g.data.board, g.players)
    ensures g.gameType == "ticTacToe" && g.data.ChessData? ==> r == Err(ServerError)
  {
    if g.gameType == "ticTacToe" then
      if g.data.TicTacToeData? then CheckTicTacToeResult(g.data.board, g.players) else Err(ServerError)
    else Ok(GameOutcome(None, false))
  }

  /** On a board whose last mark completed a line, the winner is the player who placed it, when colours are distinct. */
  lemma {:induction false} WinnerIsMover(board: TTT.Board<Colour>, position: int, players: seq<GamePlayer>, mover: nat)
    requires 0 <= position < 9 && board[position].None? && !TTT.HasLine(board)
    requires mover < |players| && forall i :: 0 <= i < |players| && i != mover ==> players[i].color != players[mover].color
    requires TTT.HasLine(TTT.Place(board, position, players[mover].color))
    ensures CheckTicTacToeResult(TTT.Place(board, position, players[mover].color), players) == Ok(GameOutcome(Some(players[mover].user), false))
  {
    var nb := TTT.Place(board, position, players[mover].color);
    TTT.NewLineBelongsToMover(board, position, players[mover].color);
    var k := TTT.FirstCompleteLine(nb, 0).value;
    assert nb[TTT.Line(k).0] == Some(players[mover].color);
    var found := FindIndex(players, HasColour(players[mover].color));
    assert HasColour(players[mover].color)(players[mover]);
    assert found == Some(mover);
  }

  // ---------------------------------------------------------------------------
  // Statistics of the socket manager
  // ---------------------------------------------------------------------------

  /**
   * One player's record after a finished game, as written: one more game
   * played, and a win for the winner or a loss for everyone else. On a tie
   * the source bumps a `gamesTied` counter that the user schema does not
   * declare, so the stored record gains a played game and nothing else.
   * The rating is not touched.
   */
  function RecordGame(s: US.Stats, player: UserId, winner: Option<UserId>): (r: US.Stats)
    ensures r.gamesPlayed == s.gamesPlayed + 1 && r.rating == s.rating
    ensures winner == Some(player) ==> r == s.(gamesPlayed := r.gamesPlayed, gamesWon := s.gamesWon + 1)
    ensures winner.Some? && winner != Some(player) ==> r == s.(gamesPlayed := r.gamesPlayed, gamesLost := s.gamesLost + 1)
    ensures winner.None? ==> r == s.(gamesPlayed := r.gamesPlayed)
  {
    var played := s.(gamesPlayed := s.gamesPlayed + 1);
    if winner.Some? then
      if winner.value == player then played.(gamesWon := s.gamesWon + 1)
      else played.(gamesLost := s.gamesLost + 1)
    else played
  }

  /** The record the tie branch evidently intends: a tie is counted in the schema's draw counter. */
  function RecordGameWithDraw(s: US.Stats, player: UserId, winner: Option<UserId>): (r: US.Stats)
    ensures r.gamesPlayed == s.gamesPlayed + 1 && r.rating == s.rating
    ensures winner.Some? ==> r == RecordGame(s, player, winner)
    ensures winner.None? ==> r == s.(gamesPlayed := r.gamesPlayed, gamesDraw := s.gamesDraw + 1)
    ensures US.Balanced(s) ==> US.Balanced(r)
  {
    var r := RecordGame(s, player, winner);
    if winner.None? then r.(gamesDraw := s.gamesDraw + 1) else r
  }

  /** A tie recorded as written breaks played = won + lost + drawn for a player whose record kept it. */
  lemma TieBreaksBalance(s: US.Stats, player: UserId)
    requires US.Balanced(s)
    ensures !US.Balanced(RecordGame(s, player, None))
    ensures US.Balanced(RecordGameWithDraw(s, player, None))
  {
  }

  /** The record of one player, as written or with ties counted as draws. */
  function Record(s: US.Stats, player: UserId, winner: Option<UserId>, countDraws: bool): US.Stats
  {
    if countDraws then RecordGameWithDraw(s, player, winner) else RecordGame(s, player, winner)
  }

  /**
   * The user records after `updatePlayerStats` has visited `ps` in order;
   * unknown ids are skipped. `countDraws` picks the corrected tie branch.
   */
  function RecordAll(users: map<string, US.Stats>, ps: seq<UserId>, winner: Option<UserId>, countDraws: bool): map<string, US.Stats>
    decreases |ps|
  {
    if ps == [] then users
    else
      var before := RecordAll(users, ps[..|ps| - 1], winner, countDraws);
      var p := ps[|ps| - 1];
      if p in before then before[p := Record(before[p], p, winner, countDraws)] else before
  }

  predicate AllSound(users: map<string, US.Stats>) {
    forall id :: id in users ==> US.Balanced(users[id]) && US.RatingOk(users[id])
  }

  /**
   * Recording a finished game, with ties counted as draws, for any list of
   * players keeps the same accounts, keeps played = won + lost + drawn for
   * each, and leaves ratings as they were.
   */
  lemma {:induction false} RecordAllSound(users: map<string, US.Stats>, ps: seq<UserId>, winner: Option<UserId>)
    requires AllSound(users)
    ensures RecordAll(users, ps, winner, true).Keys == users.Keys
    ensures AllSound(RecordAll(users, ps, winner, true))
    ensures forall id :: id in users ==> RecordAll(users, ps, winner, true)[id].rating == users[id].rating
    decreases |ps|
  {
    if ps != [] {
      RecordAllSound(users, ps[..|ps| - 1], winner);
    }
  }

  /** For a decided game the code as written and the corrected tie branch record the same thing. */
  lemma {:induction false} DecidedGamesAgree(users: map<string, US.Stats>, ps: seq<UserId>, winner: Option<UserId>)
    requires winner.Some?
    ensures RecordAll(users, ps, winner, false) == RecordAll(users, ps, winner, true)
    decreases |ps|
  {
    if ps != [] {
      DecidedGamesAgree(users, ps[..|ps| - 1], winner);
    }
  }

  /**
   * A tied game recorded as written leaves every seated player with a
   * known, balanced account unbalanced.
   */
  lemma TieUnbalancesPlayer(users: map<string, US.Stats>, p: UserId)
    requires p in users && US.Balanced(users[p])
    ensures p in RecordAll(users, [p], None, false)
    ensures !US.Balanced(RecordAll(users, [p], None, false)[p])
  {
    assert [p][..0] == [];
    TieBreaksBalance(users[p], p);
  }

  /** `updatePlayerStats`: each listed player in turn, skipping accounts that do not exist. */
  method UpdatePlayerStats(store: US.UserStore, ps: seq<UserId>, winner: Option<UserId>)
    modifies store
    ensures store.users == RecordAll(old(store.users), ps, winner, false)
  {
    var i := 0;
    while i < |ps|
      invariant 0 <= i <= |ps|
      invariant store.users == RecordAll(old(store.users), ps[..i], winner, false)
    {
      assert ps[..i + 1][..i] == ps[..i];
      var p := ps[i];
      if p in store.users {
        store.users := store.users[p := RecordGame(store.users[p], p, winner)];
      }
      i := i + 1;
    }
    assert ps[..|ps|] == ps;
  }

  function Users(players: seq<GamePlayer>): (r: seq<UserId>)
    ensures |r| == |players| && forall i :: 0 <= i < |players| ==> r[i] == players[i].user
  {
    seq(|players|, i requires 0 <= i < |players| => players[i].user)
  }

  // ---------------------------------------------------------------------------
  // The record after a move
  // ---------------------------------------------------------------------------

  /** The data after the move's board change: chess takes the sent board, tic-tac-toe the mover's colour. */
  function MovedData(g: GameRecord, mover: GamePlayer, move: MovePayload): GameData
  {
    if g.gameType == "chess" then
      (if g.data.ChessData? then ChessData(move.newBoardState) else g.data)
    else if g.gameType == "ticTacToe" && g.data.TicTacToeData? && 0 <= move.position < 9 then
      TicTacToeData(TTT.Place(g.data.board, move.position, mover.color))
    else g.data
  }

  function IsUser(u: UserId): GamePlayer -> bool {
    (p: GamePlayer) => p.user == u
  }

  /** The first seat held by `u`, as `players.find` looks it up. */
  function Seat(g: GameRecord, u: UserId): Option<nat> {
    FindIndex(g.players, IsUser(u))
  }

  /** The checks of `makeMove` before anything changes, past the game's existence. */
  predicate Admits(g: GameRecord, u: UserId, move: MovePayload) {
    && g.status == Active
    && Seat(g, u).Some?
    && (g.gameType == "ticTacToe" && g.data.TicTacToeData? ==> 0 <= move.position < 9 && g.data.board[move.position].None?)
  }

  /** The record with the move applied to its data and appended to its history. */
  function Placed(g: GameRecord, u: UserId, move: MovePayload, now: Time): GameRecord
    requires Seat(g, u).Some?
  {
    g.(data := MovedData(g, g.players[Seat(g, u).value], move), moves := g.moves + [MoveEntry(u, move, now)])
  }

  /** The saved record once the result is known: a decided game is completed with its end time. */
  function Settled(placed: GameRecord, outcome: GameOutcome, now: Time): (r: GameRecord)
    ensures outcome.winner.Some? || outcome.isDraw ==> r.status == Completed && r.endTime == Some(now)
    ensures outcome.winner.Some? ==> r.winner == outcome.winner
    ensures !(outcome.winner.Some? || outcome.isDraw) ==> r == placed
    ensures r.data == placed.data && r.moves == placed.moves && r.players == placed.players
  {
    if outcome.winner.Some? then placed.(status := Completed, winner := outcome.winner, endTime := Some(now))
    else if outcome.isDraw then placed.(status := Completed, endTime := Some(now))
    else placed
  }

  class GameTable {
    var games: map<nat, GameRecord>
    var nextId: nat
    const users: US.UserStore

    /**
     * Every record sits under an id below the next one, has chess data
     * exactly when it is a chess game, and has at most two players.
     */
    ghost predicate Valid()
      reads this
    {
      forall id :: id in games ==> id < nextId && (games[id].gameType == "chess" <==> games[id].data.ChessData?)
                                    && |games[id].players| <= 2
    }

    constructor (users: US.UserStore)
      ensures games == map[] && nextId == 0 && this.users == users && Valid()
    {
      games := map[];
      nextId := 0;
      this.users := users;
    }

    /**
     * `createGame`: a new waiting game with the creator seated as "white"
     * (chess) or "X" (anything else), starting from the chess start position
     * or an empty tic-tac-toe board.
     */
    method CreateGame(userId: UserId, gameType: string) returns (id: nat)
      requires Valid()
      modifies this
      ensures Valid()
      ensures id == old(nextId) && id !in old(games) && id in games && games == old(games)[id := games[id]]
      ensures var g := games[id];
        && g.gameType == gameType && g.status == Waiting && g.moves == [] && g.winner.None?
        && g.startTime.None? && g.endTime.None?
        && g.players == [GamePlayer(userId, if gameType == "chess" then "white" else "X")]
        && (gameType == "chess" ==> g.data == ChessData(ChessStartFen))
        && (gameType != "chess" ==> g.data == TicTacToeData(TTT.InitialState()))
    {
      var colour: Colour := if gameType == "chess" then "white" else "X";
      var data := if gameType == "chess" then ChessData(ChessStartFen) else TicTacToeData(TTT.InitialState());
      id := nextId;
      games := games[id := GameRecord(gameType, [GamePlayer(userId, colour)], data, Waiting, [], None, None, None)];
      nextId := nextId + 1;
    }

    /**
     * `joinGame`: 404 for an unknown game, 400 unless it is waiting, 400 when
     * it already has two players; otherwise the joiner takes the "black" or
     * "O" seat and the game starts.
     */
    method JoinGame(gameId: nat, userId: UserId, now: Time) returns (r: Result<(), HttpError>)
      requires Valid()
      modifies this
      ensures Valid()
      ensures gameId !in old(games) ==> r == Err(HttpError(404, "Game not found"))
      ensures gameId in old(games) && old(games[gameId]).status != Waiting ==> r == Err(HttpError(400, "Game is no longer available"))
      ensures gameId in old(games) && old(games[gameId]).status == Waiting && |old(games[gameId]).players| >= 2
              ==> r == Err(HttpError(400, "Game is full"))
      ensures r.Err? ==> games == old(games)
      ensures r.Ok? <==> gameId in old(games) && old(games[gameId]).status == Waiting && |old(games[gameId]).players| < 2
      ensures r.Ok? ==>
                var g := old(games[gameId]);
                games == old(games)[gameId := g.(players := g.players + [GamePlayer(userId, if g.gameType == "chess" then "black" else "O")],
                                                 status := Active, startTime := Some(now))]
      ensures nextId == old(nextId)
    {
      if gameId !in games {
        return Err(HttpError(404, "Game not found"));
      }
      var g := games[gameId];
      if g.status != Waiting {
        return Err(HttpError(400, "Game is no longer available"));
      }
      if |g.players| >= 2 {
        return Err(HttpError(400, "Game is full"));
      }
      var colour: Colour := if g.gameType == "chess" then "black" else "O";
      games := games[gameId := g.(players := g.players + [GamePlayer(userId, colour)], status := Active, startTime := Some(now))];
      return Ok(());
    }

    /**
     * `makeMove` of the socket manager, as written: the game must exist and
     * be active and the mover must hold a seat, but whose turn it is is not
     * checked. A tic-tac-toe move onto a cell that is not empty (or off the
     * board) is refused. The move is recorded, and a decided game is
     * completed and the players' statistics updated. When the result check
     * throws, nothing is saved.
     */
    method MakeMove(gameId: nat, userId: UserId, move: MovePayload, now: Time) returns (r: Result<(), MoveError>)
      requires Valid()
      modifies this, users
      ensures Valid()
      ensures gameId !in old(games) || old(games[gameId]).status != Active ==> r == Err(InvalidGame)
      ensures gameId in old(games) && old(games[gameId]).status == Active && Seat(old(games[gameId]), userId).None?
              ==> r == Err(NotAPlayer)
      ensures gameId in old(games) && old(games[gameId]).status == Active && Seat(old(games[gameId]), userId).Some?
                && !Admits(old(games[gameId]), userId, move)
              ==> r == Err(InvalidMove)
      ensures r.Ok? <==> gameId in old(games) && Admits(old(games[gameId]), userId, move)
                         && CheckGameResult(Placed(old(games[gameId]), userId, move, now)).Ok?
      ensures r.Err? ==> games == old(games) && users.users == old(users.users)
      ensures nextId == old(nextId)
      ensures r.Ok? ==>
                var g := old(games[gameId]);
                var placed := Placed(g, userId, move, now);
                var outcome := CheckGameResult(placed).value;
                && games == old(games)[gameId := Settled(placed, outcome, now)]
                && (outcome.winner.Some? || outcome.isDraw ==>
                      users.users == RecordAll(old(users.users), Users(g.players), outcome.winner, false))
                && (outcome.winner.None? && !outcome.isDraw ==> users.users == old(users.users))
    {
      if gameId !in games || games[gameId].status != Active {
        return Err(InvalidGame);
      }
      var g := games[gameId];
      var seat := FindIndex(g.players, IsUser(userId));
      if seat.None? {
        return Err(NotAPlayer);
      }
      if g.gameType == "ticTacToe" && g.data.TicTacToeData? {
        if move.position < 0 || move.position >= 9 || g.data.board[move.position].Some? {
          return Err(InvalidMove);
        }
      }
      var placed := g.(data := MovedData(g, g.players[seat.value], move), moves := g.moves + [MoveEntry(userId, move, now)]);
      var outcome := CheckGameResult(placed);
      if outcome.Err? {
        return Err(ServerError);
      }
      if outcome.value.winner.Some? || outcome.value.isDraw {
        UpdatePlayerStats(users, Users(g.players), outcome.value.winner);
      }
      games := games[gameId := Settled(placed, outcome.value, now)];
      return Ok(());
    }

    /**
     * `makeMove` with the turn check its comment announces: a player may not
     * move again directly after their own move.
     */
    method MakeMoveInTurn(gameId: nat, userId: UserId, move: MovePayload, now: Time) returns (r: Result<(), MoveError>)
      requires Valid()
      modifies this, users
      ensures Valid()
      ensures gameId in old(games) && old(games[gameId]).status == Active && MovedLast(old(games[gameId]), userId)
              ==> r == Err(NotYourTurn)
      ensures r.Ok? <==> gameId in old(games) && Admits(old(games[gameId]), userId, move)
                         && !MovedLast(old(games[gameId]), userId)
                         && CheckGameResult(Placed(old(games[gameId]), userId, move, now)).Ok?
      ensures r.Err? ==> games == old(games) && users.users == old(users.users)
      ensures r.Ok? ==> gameId in games && MovedLast(games[gameId], userId)
      ensures r.Ok? ==>
                var g := old(games[gameId]);
                var placed := Placed(g, userId, move, now);
                var outcome := CheckGameResult(placed).value;
                && games == old(games)[gameId := Settled(placed, outcome, now)]
                && (outcome.winner.Some? || outcome.isDraw ==>
                      users.users == RecordAll(old(users.users), Users(g.players), outcome.winner, false))
                && (outcome.winner.None? && !outcome.isDraw ==> users.users == old(users.users))
    {
      if gameId in games && games[gameId].status == Active && MovedLast(games[gameId], userId) {
        return Err(NotYourTurn);
      }
      r := MakeMove(gameId, userId, move, now);
    }
  }

  /** The last recorded move of `g` is by `u`. */
  predicate MovedLast(g: GameRecord, u: UserId) {
    |g.moves| > 0 && g.moves[|g.moves| - 1].player == u
  }

  /** A tic-tac-toe move onto an empty cell that neither completes a line nor fills the board is recorded and play goes on. */
  method PlayQuietMove(table: GameTable, id: nat, u: UserId, seat: nat, position: int, now: Time) returns (r: Result<(), MoveError>)
    requires table.Valid() && id in table.games && seat < |table.games[id].players|
    requires var g := table.games[id];
      && g.status == Active && g.gameType == "ticTacToe" && g.data.TicTacToeData?
      && g.players[seat].user == u && (forall j :: 0 <= j < seat ==> g.players[j].user != u)
      && 0 <= position < 9 && g.data.board[position].None?
      && !TTT.HasLine(TTT.Place(g.data.board, position, g.players[seat].color))
      && !TTT.IsFull(TTT.Place(g.data.board, position, g.players[seat].color))
    modifies table, table.users
    ensures table.Valid()
    ensures r.Ok? && id in table.games
    ensures var g := old(table.games[id]);
      table.games[id] == g.(data := TicTacToeData(TTT.Place(g.data.board, position, g.players[seat].color)),
                            moves := g.moves + [MoveEntry(u, MovePayload(position, ""), now)])
  {
    var g := table.games[id];
    assert Seat(g, u) == Some(seat) by {
      assert IsUser(u)(g.players[seat]);
    }
    r := table.MakeMove(id, u, MovePayload(position, ""), now);
  }

  /** A tic-tac-toe move that completes a line wins the game for the mover, whose colour no other seat shares. */
  method PlayWinningMove(table: GameTable, id: nat, u: UserId, seat: nat, position: int, now: Time) returns (r: Result<(), MoveError>)
    requires table.Valid() && id in table.games && seat < |table.games[id].players|
    requires var g := table.games[id];
      && g.status == Active && g.gameType == "ticTacToe" && g.data.TicTacToeData?
      && g.players[seat].user == u && (forall j :: 0 <= j < seat ==> g.players[j].user != u)
      && (forall j :: 0 <= j < |g.players| && j != seat ==> g.players[j].color != g.players[seat].color)
      && 0 <= position < 9 && g.data.board[position].None? && !TTT.HasLine(g.data.board)
      && TTT.HasLine(TTT.Place(g.data.board, position, g.players[seat].color))
    modifies table, table.users
    ensures table.Valid()
    ensures r.Ok? && id in table.games
    ensures table.games[id].winner == Some(u) && table.games[id].status == Completed
    ensures table.games[id].moves == old(table.games[id].moves) + [MoveEntry(u, MovePayload(position, ""), now)]
  {
    var g := table.games[id];
    assert Seat(g, u) == Some(seat) by {
      assert IsUser(u)(g.players[seat]);
    }
    WinnerIsMover(g.data.board, position, g.players, seat);
    r := table.MakeMove(id, u, MovePayload(position, ""), now);
  }

  /** A new tic-tac-toe record created by one user and joined by another at time 1. */
  method OpenTicTacToe(creator: UserId, joiner: UserId) returns (table: GameTable, id: nat)
    ensures fresh(table) && fresh(table.users) && table.Valid() && id in table.games
    ensures table.games[id] == GameRecord("ticTacToe", [GamePlayer(creator, "X"), GamePlayer(joiner, "O")],
                                          TicTacToeData(TTT.InitialState()), Active, [], None, Some(1), None)
  {
    var store := new US.UserStore();
    table := new GameTable(store);
    id := table.CreateGame(creator, "ticTacToe");
    var joined := table.JoinGame(id, joiner, 1);
  }

  /** Without a turn check, the creator of a tic-tac-toe game takes three cells in a row and wins alone. */
  method SamePlayerMovesThrice() returns (winner: Option<UserId>, movers: seq<UserId>)
    ensures winner == Some("alice") && movers == ["alice", "alice", "alice"]
  {
    var table, id := OpenTicTacToe("alice", "bob");
    var b1: TTT.Board<Colour> := [Some("X"), None, None, None, None, None, None, None, None];
    assert TTT.Place<Colour>(TTT.InitialState(), 0, "X") == b1 && !TTT.HasLine(b1);
    assert !TTT.IsFull(b1) by { assert b1[8].None?; }
    var r := PlayQuietMove(table, id, "alice", 0, 0, 2);
    var b2: TTT.Board<Colour> := [Some("X"), Some("X"), None, None, None, None, None, None, None];
    assert TTT.Place<Colour>(b1, 1, "X") == b2 && !TTT.HasLine(b2);
    assert !TTT.IsFull(b2) by { assert b2[8].None?; }
    r := PlayQuietMove(table, id, "alice", 0, 1, 3);
    assert TTT.LineComplete(TTT.Place<Colour>(b2, 2, "X"), 0);
    r := PlayWinningMove(table, id, "alice", 0, 2, 4);
    winner := table.games[id].winner;
    var moves := table.games[id].moves;
    movers := [moves[0].player, moves[1].player, moves[2].player];
  }

  /** With the turn check, the creator's second move in a row is refused. */
  method SecondMoveInARowRefused() returns (first: Result<(), MoveError>, second: Result<(), MoveError>)
    ensures first.Ok? && second == Err(NotYourTurn)
  {
    var table, id := OpenTicTacToe("alice", "bob");
    var g := table.games[id];
    assert Seat(g, "alice") == Some(0) by {
      assert IsUser("alice")(g.players[0]);
    }
    var b1: TTT.Board<Colour> := [Some("X"), None, None, None, None, None, None, None, None];
    assert TTT.Place<Colour>(TTT.InitialState(), 0, "X") == b1 && !TTT.HasLine(b1);
    assert !TTT.IsFull(b1) by { assert b1[8].None?; }
    first := table.MakeMoveInTurn(id, "alice", MovePayload(0, ""), 2);
    second := table.MakeMoveInTurn(id, "alice", MovePayload(1, ""), 3);
  }
}
