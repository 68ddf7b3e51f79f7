/**
 * One match document of the live (compiled) socket server and the tic-tac-toe
 * handlers that the server attaches to it: the lazy initialisation of the game
 * state, `make-move` and `forfeit`. The matchmaking, spectating and chat
 * handlers that also write to a match are the `Join`, `AddSpectator` and
 * `PostMessage` methods, called from the lobby.
 *
 * The handlers mutate the loaded document in place; each handler call is one
 * atomic step here. The results that the handlers pass to `updateUserStats`
 * are returned as a list of calls, in order.
 */
module LiveMatch {
  import opened Common
  import TTT = TicTacToeRules
  import US = UserStats

  datatype Color = White | Black

  function Opposite(c: Color): Color {
    if c == White then Black else White
  }

  /** The `status` of a match; `Drawn` is the string "draw" that the chess and tic-tac-toe room handlers write. */
  datatype MatchStatus = Waiting | Active | Completed | Cancelled | Drawn

  /** An entry of `players`: the account, its colour, its score and the winner flag. */
  datatype MatchPlayer = MatchPlayer(user: UserId, color: Color, score: real, winner: bool)

  /** An entry of `gameState.moves`. */
  datatype MoveRecord = MoveRecord(player: UserId, position: int, symbol: TTT.Mark)

  /** The tic-tac-toe `gameState` object. */
  datatype TicTacToeState = TicTacToeState(
    board: TTT.Board<TTT.Mark>,
    currentTurn: string,
    moves: seq<MoveRecord>,
    winner: Option<UserId>,
    isDraw: bool,
    gameOver: bool)

  datatype ChatMessage = ChatMessage(user: UserId, message: string, timestamp: Time)

  /** One call `updateUserStats(user, result)`; `user` is "" when the handler found nobody. */
  datatype StatsUpdate = StatsUpdate(user: string, result: US.GameResult)

  datatype InitError = NoPlayers
  datatype MoveError = NotYourTurn | InvalidMove
  datatype ForfeitError = NotActive
  datatype JoinError = NoCreator

  function IsUser(u: string): MatchPlayer -> bool {
    (p: MatchPlayer) => p.user == u
  }

  function IsOtherThan(u: string): MatchPlayer -> bool {
    (p: MatchPlayer) => p.user != u
  }

  /** `players.find(p => p.user !== u)`: the first seat held by someone else. */
  function Opponent(ps: seq<MatchPlayer>, u: string): (r: Option<UserId>)
    ensures r.Some? ==> r.value != u && exists i :: 0 <= i < |ps| && ps[i].user == r.value
    ensures r.None? <==> forall i :: 0 <= i < |ps| ==> ps[i].user == u
    ensures r.Some? ==> forall i :: 0 <= i < |ps| && ps[i].user != u ==> r.value == ps[i].user || exists j :: 0 <= j < i && ps[j].user == r.value
  {
    match FindIndex(ps, IsOtherThan(u))
    case None => None
    case Some(i) => Some(ps[i].user)
  }

  /**
   * The value the handlers find in `socket.userId`. The authentication
   * middleware stores the loaded account's `_id`, an ObjectId object, and
   * the handlers compare it with `===` and `!==` against strings
   * (`currentTurn`, `p.user.toString()`); an object is never strictly equal
   * to a string. `StringValue` is the hex string the comparisons expect.
   */
  datatype SocketUser = ObjectIdValue(hex: UserId) | StringValue(text: UserId)

  /** The account a socket user stands for, as `findByIdAndUpdate` resolves it. */
  function AccountOf(u: SocketUser): UserId {
    if u.ObjectIdValue? then u.hex else u.text
  }

  /** `s === socket.userId`: only a string can be strictly equal to a string. */
  predicate StrictlyEquals(s: string, u: SocketUser) {
    u.StringValue? && u.text == s
  }

  function IsNotStrictly(u: SocketUser): MatchPlayer -> bool {
    (p: MatchPlayer) => !StrictlyEquals(p.user, u)
  }

  /**
   * `players.find(p => p.user.toString() !== socket.userId)` as written: for
   * a string it is the first seat held by someone else, for an ObjectId it
   * is always the first seat.
   */
  function SocketOpponent(ps: seq<MatchPlayer>, caller: SocketUser): (r: Option<UserId>)
    ensures caller.StringValue? ==> r == Opponent(ps, caller.text)
    ensures caller.ObjectIdValue? ==> (r.Some? <==> |ps| > 0) && (r.Some? ==> r.value == ps[0].user)
  {
    match FindIndex(ps, IsNotStrictly(caller))
    case None => None
    case Some(i) => Some(ps[i].user)
  }

  /** The optional chaining `?.user.toString() || ""`. */
  function OrEmpty(o: Option<UserId>): (s: string)
    ensures s == "" <==> o.None?
  {
    if o.Some? then o.value else ""
  }

  /** X for the account in the first seat, O for anyone else. */
  function SymbolOf(ps: seq<MatchPlayer>, u: string): (m: TTT.Mark)
    ensures m == TTT.X <==> |ps| > 0 && ps[0].user == u
  {
    if FindIndex(ps, IsUser(u)) == Some(0) then TTT.X else TTT.O
  }

  /** Seat `i` is the first one held by `u`. */
  predicate FirstSeatOf(ps: seq<MatchPlayer>, u: string, i: int) {
    0 <= i < |ps| && ps[i].user == u && forall j :: 0 <= j < i ==> ps[j].user != u
  }

  /** The players with the first seat of `u` marked as winner with score 1. */
  function Crown(ps: seq<MatchPlayer>, u: string): (r: seq<MatchPlayer>)
    ensures |r| == |ps|
    ensures forall i :: 0 <= i < |ps| && FirstSeatOf(ps, u, i) ==> r[i] == ps[i].(winner := true, score := 1.0)
    ensures forall i :: 0 <= i < |ps| && !FirstSeatOf(ps, u, i) ==> r[i] == ps[i]
  {
    match FindIndex(ps, IsUser(u))
    case None => ps
    case Some(i) => ps[i := ps[i].(winner := true, score := 1.0)]
  }

  /** Every player with score 0.5, as the draw loop leaves them. */
  function HalfScores(ps: seq<MatchPlayer>): (r: seq<MatchPlayer>)
    ensures |r| == |ps| && forall i :: 0 <= i < |ps| ==> r[i] == ps[i].(score := 0.5)
  {
    seq(|ps|, i requires 0 <= i < |ps| => ps[i].(score := 0.5))
  }

  /** One draw result for every player, in seat order. */
  function DrawUpdates(ps: seq<MatchPlayer>): (r: seq<StatsUpdate>)
    ensures |r| == |ps| && forall i :: 0 <= i < |ps| ==> r[i] == StatsUpdate(ps[i].user, US.Draw)
  {
    seq(|ps|, i requires 0 <= i < |ps| => StatsUpdate(ps[i].user, US.Draw))
  }

  /** The fresh game state: empty board, the first seat to move, nothing decided. */
  function InitialGameState(first: UserId): (s: TicTacToeState)
    ensures forall i :: 0 <= i < 9 ==> s.board[i].None?
    ensures s.currentTurn == first && s.moves == [] && s.winner.None? && !s.isDraw && !s.gameOver
  {
    TicTacToeState(TTT.InitialState(), first, [], None, false, false)
  }

  /**
   * The move list explains the board: every recorded move stands on its own
   * cell with its own symbol, no cell is recorded twice, and every filled
   * cell has a record.
   */
  predicate RecordExplainsBoard(s: TicTacToeState) {
    && (forall k :: 0 <= k < |s.moves| ==>
          0 <= s.moves[k].position < 9 && s.board[s.moves[k].position] == Some(s.moves[k].symbol))
    && (forall k, l :: 0 <= k < l < |s.moves| ==> s.moves[k].position != s.moves[l].position)
    && (forall i :: 0 <= i < 9 && s.board[i].Some? ==> exists k :: 0 <= k < |s.moves| && s.moves[k].position == i)
  }

  lemma InitialGameStateExplained(first: UserId)
    ensures RecordExplainsBoard(InitialGameState(first))
  {
  }

  /**
   * Placing a symbol on an empty cell and appending the matching record keeps
   * the move list and the board in agreement.
   */
  lemma {:induction false} PlacingKeepsRecord(s: TicTacToeState, index: int, symbol: TTT.Mark, user: UserId)
    requires RecordExplainsBoard(s) && 0 <= index < 9 && s.board[index].None?
    ensures RecordExplainsBoard(s.(board := TTT.Place(s.board, index, symbol),
                                   moves := s.moves + [MoveRecord(user, index, symbol)]))
  {
    var t := s.(board := TTT.Place(s.board, index, symbol), moves := s.moves + [MoveRecord(user, index, symbol)]);
    forall k | 0 <= k < |s.moves|
      ensures s.moves[k].position != index
    {
      assert s.board[s.moves[k].position].Some?;
    }
    forall i | 0 <= i < 9 && t.board[i].Some?
      ensures exists k :: 0 <= k < |t.moves| && t.moves[k].position == i
    {
      if i == index {
        assert t.moves[|s.moves|].position == i;
      } else {
        var k :| 0 <= k < |s.moves| && s.moves[k].position == i;
        assert t.moves[k].position == i;
      }
    }
  }

  class Match {
    const id: nat
    /** The id of the catalogue game this match is played in. */
    const game: string
    var players: seq<MatchPlayer>
    var status: MatchStatus
    /** None stands for the empty object `{}` a new match is created with. */
    var gameState: Option<TicTacToeState>
    var startedAt: Option<Time>
    var endedAt: Option<Time>
    var spectators: seq<UserId>
    var messages: seq<ChatMessage>

    /** A new waiting match with its creator in the only seat, playing white. */
    constructor Open(id: nat, game: string, creator: UserId)
      ensures this.id == id && this.game == game
      ensures players == [MatchPlayer(creator, White, 0.0, false)]
      ensures status == Waiting && gameState.None? && startedAt.None? && endedAt.None?
      ensures spectators == [] && messages == []
    {
      this.id := id;
      this.game := game;
      players := [MatchPlayer(creator, White, 0.0, false)];
      status := Waiting;
      gameState := None;
      startedAt := None;
      endedAt := None;
      spectators := [];
      messages := [];
    }

    /**
     * The second player joins: seated with the colour opposite to the first
     * seat, the match becomes active and records its start. A match without
     * a first seat fails (reading `players[0].color` throws) and is unchanged.
     */
    method Join(user: UserId, now: Time) returns (r: Result<(), JoinError>)
      modifies this
      ensures r.Err? <==> |old(players)| == 0
      ensures r.Err? ==> unchanged(this)
      ensures r.Ok? ==> players == old(players) + [MatchPlayer(user, Opposite(old(players)[0].color), 0.0, false)]
      ensures r.Ok? ==> status == Active && startedAt == Some(now)
      ensures r.Ok? ==> gameState == old(gameState) && endedAt == old(endedAt)
      ensures spectators == old(spectators) && messages == old(messages)
    {
      if |players| == 0 {
        return Err(NoCreator);
      }
      players := players + [MatchPlayer(user, Opposite(players[0].color), 0.0, false)];
      status := Active;
      startedAt := Some(now);
      return Ok(());
    }

    /**
     * Handler set-up: a missing game state becomes the fresh state with the
     * first seat to move; an existing one is kept. Without any player the
     * set-up throws and nothing changes.
     */
    method EnsureGameState() returns (r: Result<(), InitError>)
      modifies this
      ensures r.Err? <==> old(gameState).None? && |old(players)| == 0
      ensures r.Err? || old(gameState).Some? ==> unchanged(this)
      ensures r.Ok? && old(gameState).None? ==> gameState == Some(InitialGameState(old(players)[0].user))
      ensures gameState.Some? ==> RecordExplainsBoard(gameState.value) || gameState == old(gameState)
      ensures players == old(players) && status == old(status) && startedAt == old(startedAt)
      ensures endedAt == old(endedAt) && spectators == old(spectators) && messages == old(messages)
    {
      if gameState.Some? {
        return Ok(());
      }
      if |players| == 0 {
        return Err(NoPlayers);
      }
      InitialGameStateExplained(players[0].user);
      gameState := Some(InitialGameState(players[0].user));
      return Ok(());
    }

    /**
     * `make-move`: the turn check comes first, then the cell and game-over
     * check; both reject without changing anything. The status of the match
     * is not consulted. An accepted move places the mover's symbol, decides
     * winner and draw on the new board, records the move, hands the turn to
     * the other seat and, when the game is over, completes the match and
     * scores the players.
     */
    method MakeMove(userId: UserId, index: int, now: Time) returns (r: Result<seq<StatsUpdate>, MoveError>)
      modifies this
      ensures old(gameState).None? || old(gameState).value.currentTurn != userId ==> r == Err(NotYourTurn)
      ensures old(gameState).Some? && old(gameState).value.currentTurn == userId ==>
                (r == Err(InvalidMove) <==>
                   index < 0 || index > 8 || old(gameState).value.board[index].Some? || old(gameState).value.gameOver)
      ensures r.Ok? <==> old(gameState).Some? && old(gameState).value.currentTurn == userId && 0 <= index < 9
                         && old(gameState).value.board[index].None? && !old(gameState).value.gameOver
      ensures r.Err? ==> unchanged(this)
      ensures r.Ok? ==> old(gameState).Some? && 0 <= index < 9 && gameState.Some?
      ensures r.Ok? ==> MoveApplied(old(gameState).value, gameState.value, old(players), userId, index)
      ensures r.Ok? ==>
                var over := gameState.value.gameOver;
                && status == (if over then Completed else old(status))
                && endedAt == (if over then Some(now) else old(endedAt))
      ensures r.Ok? && gameState.value.winner.Some? ==>
                && players == Crown(old(players), userId)
                && r.value == [StatsUpdate(userId, US.Win), StatsUpdate(OrEmpty(Opponent(old(players), userId)), US.Loss)]
      ensures r.Ok? && gameState.value.isDraw ==> players == HalfScores(old(players)) && r.value == DrawUpdates(old(players))
      ensures r.Ok? && !gameState.value.gameOver ==> players == old(players) && r.value == []
      ensures old(gameState).Some? && RecordExplainsBoard(old(gameState).value) && gameState.Some? ==>
                RecordExplainsBoard(gameState.value)
      ensures startedAt == old(startedAt) && spectators == old(spectators) && messages == old(messages)
    {
      if gameState.None? || gameState.value.currentTurn != userId {
        return Err(NotYourTurn);
      }
      var state := gameState.value;
      if index < 0 || index > 8 || state.board[index].Some? || state.gameOver {
        return Err(InvalidMove);
      }
      var next := AdvanceState(state, players, userId, index);
      gameState := Some(next);
      var winner, gameOver := next.winner, next.gameOver;
      var updates: seq<StatsUpdate> := [];
      if gameOver {
        status := Completed;
        endedAt := Some(now);
        if winner.Some? {
          updates := [StatsUpdate(userId, US.Win), StatsUpdate(OrEmpty(Opponent(players, userId)), US.Loss)];
          players := Crown(players, userId);
        } else {
          var scored;
          scored, updates := ScoreDraw(players);
          players := scored;
        }
      }
      return Ok(updates);
    }

    /**
     * `forfeit`: rejected unless the match is active. Otherwise the first seat
     * held by someone else wins with score 1 and the game state records that
     * winner and is over; the match completes either way.
     */
    method Forfeit(userId: UserId, now: Time) returns (r: Result<seq<StatsUpdate>, ForfeitError>)
      modifies this
      ensures old(status) != Active <==> r.Err?
      ensures r.Err? ==> unchanged(this)
      ensures r.Ok? ==> status == Completed && endedAt == Some(now)
      ensures r.Ok? && Opponent(old(players), userId).Some? ==>
                var w := Opponent(old(players), userId).value;
                && players == Crown(old(players), w)
                && gameState == (if old(gameState).Some? then Some(old(gameState).value.(winner := Some(w), gameOver := true)) else None)
                && r.value == [StatsUpdate(w, US.Win), StatsUpdate(userId, US.Loss)]
      ensures r.Ok? && Opponent(old(players), userId).None? ==>
                players == old(players) && gameState == old(gameState) && r.value == []
      ensures startedAt == old(startedAt) && spectators == old(spectators) && messages == old(messages)
    {
      if status != Active {
        return Err(NotActive);
      }
      var updates := Concede(Opponent(players, userId), userId, now);
      return Ok(updates);
    }

    /**
     * The end of an accepted forfeit: the winner found, if any, is crowned
     * and recorded in the game state, the loser reported, and the match
     * completed.
     */
    method Concede(w: Option<UserId>, loser: UserId, now: Time) returns (updates: seq<StatsUpdate>)
      modifies this
      ensures status == Completed && endedAt == Some(now)
      ensures w.Some? ==>
                && players == Crown(old(players), w.value)
                && gameState == (if old(gameState).Some? then Some(old(gameState).value.(winner := w, gameOver := true)) else None)
                && updates == [StatsUpdate(w.value, US.Win), StatsUpdate(loser, US.Loss)]
      ensures w.None? ==> players == old(players) && gameState == old(gameState) && updates == []
      ensures startedAt == old(startedAt) && spectators == old(spectators) && messages == old(messages)
    {
      updates := [];
      if w.Some? {
        players := Crown(players, w.value);
        if gameState.Some? {
          gameState := Some(gameState.value.(winner := w, gameOver := true));
        }
        updates := [StatsUpdate(w.value, US.Win), StatsUpdate(loser, US.Loss)];
      }
      status := Completed;
      endedAt := Some(now);
    }

    /**
     * The `make-move` handler as written, with `socket.userId` as the
     * middleware leaves it: the turn check `currentTurn !== socket.userId`
     * refuses every ObjectId caller, so no move is ever accepted from a
     * socket authenticated by the middleware. A string caller is handled as
     * `MakeMove`.
     */
    method HandleMakeMove(caller: SocketUser, index: int, now: Time) returns (r: Result<seq<StatsUpdate>, MoveError>)
      modifies this
      ensures caller.ObjectIdValue? ==> r == Err(NotYourTurn)
      ensures r.Err? ==> unchanged(this)
      ensures r.Ok? ==> caller.StringValue? && old(gameState).Some? && gameState.Some?
      ensures r.Ok? ==> MoveApplied(old(gameState).value, gameState.value, old(players), caller.text, index)
      ensures startedAt == old(startedAt) && spectators == old(spectators) && messages == old(messages)
    {
      if gameState.None? || !StrictlyEquals(gameState.value.currentTurn, caller) {
        return Err(NotYourTurn);
      }
      r := MakeMove(caller.text, index, now);
    }

    /**
     * The `forfeit` handler as written, with `socket.userId` as the
     * middleware leaves it: the winner is the first seat whose id is not
     * strictly equal to the caller, which for an ObjectId caller is the
     * first seat even when the caller holds it; the loss is reported for the
     * caller's account.
     */
    method HandleForfeit(caller: SocketUser, now: Time) returns (r: Result<seq<StatsUpdate>, ForfeitError>)
      modifies this
      ensures old(status) != Active <==> r.Err?
      ensures r.Err? ==> unchanged(this)
      ensures r.Ok? ==> status == Completed && endedAt == Some(now)
      ensures r.Ok? && SocketOpponent(old(players), caller).Some? ==>
                var w := SocketOpponent(old(players), caller).value;
                && players == Crown(old(players), w)
                && gameState == (if old(gameState).Some? then Some(old(gameState).value.(winner := Some(w), gameOver := true)) else None)
                && r.value == [StatsUpdate(w, US.Win), StatsUpdate(AccountOf(caller), US.Loss)]
      ensures r.Ok? && caller.ObjectIdValue? && |old(players)| > 0 ==>
                r.value == [StatsUpdate(old(players)[0].user, US.Win), StatsUpdate(caller.hex, US.Loss)]
      ensures startedAt == old(startedAt) && spectators == old(spectators) && messages == old(messages)
    {
      if status != Active {
        return Err(NotActive);
      }
      var updates := Concede(SocketOpponent(players, caller), AccountOf(caller), now);
      return Ok(updates);
    }

    /** `spectate`: the user is added once; a repeated request changes nothing. */
    method AddSpectator(user: UserId)
      modifies this
      ensures spectators == WithSpectator(old(spectators), user)
      ensures players == old(players) && status == old(status) && gameState == old(gameState)
      ensures startedAt == old(startedAt) && endedAt == old(endedAt) && messages == old(messages)
    {
      if user !in spectators {
        spectators := spectators + [user];
      }
    }

    /** `send-message`: one entry appended, earlier ones untouched. */
    method PostMessage(user: UserId, message: string, now: Time)
      modifies this
      ensures messages == old(messages) + [ChatMessage(user, message, now)]
      ensures players == old(players) && status == old(status) && gameState == old(gameState)
      ensures startedAt == old(startedAt) && endedAt == old(endedAt) && spectators == old(spectators)
    {
      messages := messages + [ChatMessage(user, message, now)];
    }
  }

  /** The draw loop of `make-move`: every seat scores half a point and reports a draw, in seat order. */
  method ScoreDraw(ps: seq<MatchPlayer>) returns (scored: seq<MatchPlayer>, updates: seq<StatsUpdate>)
    ensures scored == HalfScores(ps) && updates == DrawUpdates(ps)
  {
    scored, updates := ps, [];
    var i := 0;
    while i < |ps|
      invariant 0 <= i <= |ps| == |scored|
      invariant forall j :: 0 <= j < i ==> scored[j] == ps[j].(score := 0.5)
      invariant forall j :: i <= j < |ps| ==> scored[j] == ps[j]
      invariant updates == DrawUpdates(ps)[..i]
    {
      scored := scored[i := scored[i].(score := 0.5)];
      updates := updates + [StatsUpdate(ps[i].user, US.Draw)];
      i := i + 1;
    }
  }

  /**
   * The game state after an accepted move at `index` by `userId`: the
   * mover's symbol on that cell and nowhere else new, the mover as winner
   * exactly when a line is complete, a draw exactly when the full board has
   * no line, the move recorded after the earlier ones, and the turn with the
   * first other seat ("" when there is none).
   */
  ghost predicate MoveApplied(before: TicTacToeState, after: TicTacToeState, ps: seq<MatchPlayer>, userId: UserId, index: int) {
    var symbol := SymbolOf(ps, userId);
    && 0 <= index < 9
    && after.board == TTT.Place(before.board, index, symbol)
    && (after.winner.Some? <==> TTT.HasLine(after.board))
    && (after.winner.Some? ==> after.winner.value == userId)
    && (after.isDraw <==> !TTT.HasLine(after.board) && TTT.IsFull(after.board))
    && (after.gameOver <==> after.winner.Some? || after.isDraw)
    && after.moves == before.moves + [MoveRecord(userId, index, symbol)]
    && after.currentTurn == OrEmpty(Opponent(ps, userId))
  }

  /**
   * The board, verdict, move list and turn of an accepted move, computed on
   * a copy of the board as `make-move` does.
   */
  method AdvanceState(state: TicTacToeState, ps: seq<MatchPlayer>, userId: UserId, index: int) returns (next: TicTacToeState)
    requires 0 <= index < 9 && state.board[index].None?
    ensures MoveApplied(state, next, ps, userId, index)
    ensures RecordExplainsBoard(state) ==> RecordExplainsBoard(next)
  {
    var symbol := SymbolOf(ps, userId);
    var newBoard := TTT.Place(state.board, index, symbol);
    var winner := ScanLines(newBoard, userId);
    var isDraw := winner.None? && TTT.IsFull(newBoard);
    if RecordExplainsBoard(state) {
      PlacingKeepsRecord(state, index, symbol, userId);
    }
    next := state.(board := newBoard,
                   currentTurn := OrEmpty(Opponent(ps, userId)),
                   moves := state.moves + [MoveRecord(userId, index, symbol)],
                   winner := winner,
                   isDraw := isDraw,
                   gameOver := winner.Some? || isDraw);
  }

  /**
   * The win scan of `make-move`: the eight lines in order, stopping at the
   * first complete one; the mover wins exactly when some line is complete.
   */
  method ScanLines(board: TTT.Board<TTT.Mark>, mover: UserId) returns (winner: Option<UserId>)
    ensures winner.Some? <==> TTT.HasLine(board)
    ensures winner.Some? ==> winner.value == mover
  {
    winner := None;
    var k := 0;
    while k < 8 && winner.None?
      invariant 0 <= k <= 8
      invariant winner.None? ==> forall j :: 0 <= j < k ==> !TTT.LineComplete(board, j)
      invariant winner.Some? ==> winner.value == mover && TTT.HasLine(board)
    {
      if TTT.LineComplete(board, k) {
        winner := Some(mover);
      }
      k := k + 1;
    }
  }

  /** The spectator list after `user` asks to watch. */
  function WithSpectator(s: seq<UserId>, user: UserId): (r: seq<UserId>)
    ensures user in r && forall x :: x in s ==> x in r
    ensures forall x :: x in r ==> x in s || x == user
    ensures |s| <= |r| && r[..|s|] == s
  {
    if user in s then s else s + [user]
  }

  predicate NoDuplicates(s: seq<UserId>) {
    forall i, j :: 0 <= i < j < |s| ==> s[i] != s[j]
  }

  /** Asking twice is the same as asking once. */
  lemma WithSpectatorIdempotent(s: seq<UserId>, user: UserId)
    ensures WithSpectator(WithSpectator(s, user), user) == WithSpectator(s, user)
  {
  }

  /** A list without repeats stays without repeats, so each spectator has a single entry. */
  lemma WithSpectatorNoDuplicates(s: seq<UserId>, user: UserId)
    requires NoDuplicates(s)
    ensures NoDuplicates(WithSpectator(s, user))
  {
  }

  /**
   * With two different accounts seated, the first plays X and the second O,
   * and each move hands the turn to the other account.
   */
  lemma TwoSeatsAlternate(ps: seq<MatchPlayer>)
    requires |ps| == 2 && ps[0].user != ps[1].user
    ensures SymbolOf(ps, ps[0].user) == TTT.X && SymbolOf(ps, ps[1].user) == TTT.O
    ensures Opponent(ps, ps[0].user) == Some(ps[1].user)
    ensures Opponent(ps, ps[1].user) == Some(ps[0].user)
  {
  }

  /** A match opened by `creator` and joined by `joiner`: two seats, active, no game state yet. */
  method ActiveMatch(id: nat, creator: UserId, joiner: UserId, now: Time) returns (m: Match)
    ensures fresh(m)
    ensures m.players == [MatchPlayer(creator, White, 0.0, false), MatchPlayer(joiner, Black, 0.0, false)]
    ensures m.status == Active && m.gameState.None?
  {
    m := new Match.Open(id, "", creator);
    var joined := m.Join(joiner, now);
  }

  /**
   * A fresh two-player match as the middleware leaves `socket.userId`: the
   * creator's opening move is refused as not their turn, while the same move
   * with the id as a string, as the turn check intends, is accepted.
   */
  method OpeningMoveRefused(creator: UserId, joiner: UserId, index: int, now: Time)
    returns (asWritten: Result<seq<StatsUpdate>, MoveError>, intended: Result<seq<StatsUpdate>, MoveError>)
    requires 0 <= index < 9
    ensures asWritten == Err(NotYourTurn)
    ensures intended.Ok?
  {
    var m := ActiveMatch(0, creator, joiner, now);
    var ready := m.EnsureGameState();
    assert m.gameState == Some(InitialGameState(creator));
    asWritten := m.HandleMakeMove(ObjectIdValue(creator), index, now);
    intended := m.MakeMove(creator, index, now);
  }

  /**
   * The creator of an active two-player match forfeits. As written, the
   * creator is reported both as the winner and as the loser and the joiner
   * gets nothing; as intended, the joiner wins.
   */
  method CreatorForfeits(creator: UserId, joiner: UserId, now: Time)
    returns (asWritten: Result<seq<StatsUpdate>, ForfeitError>, intended: Result<seq<StatsUpdate>, ForfeitError>)
    requires creator != joiner
    ensures asWritten == Ok([StatsUpdate(creator, US.Win), StatsUpdate(creator, US.Loss)])
    ensures intended == Ok([StatsUpdate(joiner, US.Win), StatsUpdate(creator, US.Loss)])
  {
    var m := ActiveMatch(0, creator, joiner, now);
    asWritten := m.HandleForfeit(ObjectIdValue(creator), now);
    var n := ActiveMatch(1, creator, joiner, now);
    TwoSeatsAlternate(n.players);
    intended := n.Forfeit(creator, now);
  }
}
