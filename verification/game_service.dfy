/**
 * The match service of the TypeScript backend: choosing the rules object for
 * a game type, and creating, joining, moving in and resigning a match record.
 * Every operation loads the record, checks it, changes it and saves it; the
 * records live in a map from match id.
 */
module GameService {
  import opened Common

  /** The rules objects the service can hand out. */
  datatype GameLogic = TicTacToeLogic

  /** `getGameLogic`: only "tictactoe" has rules; any other type is refused, naming the type. */
  function GetGameLogic(gameType: string): (r: Result<GameLogic, string>)
    ensures r.Ok? <==> gameType == "tictactoe"
    ensures r.Err? ==> r.error == "Unsupported game type: " + gameType
  {
    if gameType == "tictactoe" then Ok(TicTacToeLogic)
    else Err("Unsupported game type: " + gameType)
  }

  datatype Status = Waiting | Pending | Active | Completed | Cancelled

  datatype Seat = Seat(user: UserId, color: string)

  /** A move as sent by the client (its fields by name), tagged with the mover under `player`. */
  type MoveFields = map<string, string>

  datatype ServiceMatch = ServiceMatch(
    gameType: string,
    players: seq<Seat>,
    status: Status,
    /** `gameState.currentTurn`, absent until a move sets it. */
    currentTurn: Option<string>,
    moves: seq<MoveFields>,
    winner: Option<UserId>)

  datatype ServiceError = GameNotFound | NotAvailable | NotActive | NotYourTurn

  /** `players.find(p => p.user !== userId)?.user`: the first seat held by someone else. */
  function OtherPlayer(players: seq<Seat>, userId: UserId): (r: Option<UserId>)
    ensures r.Some? ==> r.value != userId && exists i :: 0 <= i < |players| && players[i].user == r.value
    ensures r.None? <==> forall i :: 0 <= i < |players| ==> players[i].user == userId
    ensures r.Some? ==> exists i :: 0 <= i < |players| && players[i].user == r.value
                                    && forall j :: 0 <= j < i ==> players[j].user == userId
  {
    if players == [] then None
    else if players[0].user != userId then Some(players[0].user)
    else
      var rest := OtherPlayer(players[1..], userId);
      if rest.Some? then
        ghost var i :| 0 <= i < |players[1..]| && players[1..][i].user == rest.value
                       && forall j :: 0 <= j < i ==> players[1..][j].user == userId;
        assert players[i + 1].user == rest.value;
        rest
      else rest
  }

  /** With two seats held by different users, each one's other player is the other seat. */
  lemma {:induction false} OtherOfTwo(a: Seat, b: Seat)
    requires a.user != b.user
    ensures OtherPlayer([a, b], a.user) == Some(b.user)
    ensures OtherPlayer([a, b], b.user) == Some(a.user)
  {
    assert [a, b][1..] == [b];
    assert OtherPlayer([b], a.user) == Some(b.user);
  }

  class MatchService {
    var matches: map<nat, ServiceMatch>
    var nextId: nat

    ghost predicate Valid()
      reads this
    {
      forall id :: id in matches ==> id < nextId
    }

    /** No stored match has a turn set. */
    ghost predicate NoTurnSet()
      reads this
    {
      forall id :: id in matches ==> matches[id].currentTurn.None?
    }

    constructor ()
      ensures matches == map[] && nextId == 0 && Valid() && NoTurnSet()
    {
      matches := map[];
      nextId := 0;
    }

    /**
     * `createGame`: the creator sits as white; a named opponent sits as black
     * and the match is "pending", otherwise it is "waiting" with one seat.
     */
    method CreateGame(userId: UserId, gameType: string, opponentId: Option<UserId>) returns (id: nat)
      requires Valid()
      modifies this
      ensures Valid()
      ensures id == old(nextId) && id !in old(matches) && id in matches && matches == old(matches)[id := matches[id]]
      ensures var m := matches[id];
        && m.gameType == gameType && m.currentTurn.None? && m.moves == [] && m.winner.None?
        && (opponentId.None? ==> m.status == Waiting && m.players == [Seat(userId, "white")])
        && (opponentId.Some? ==> m.status == Pending && m.players == [Seat(userId, "white"), Seat(opponentId.value, "black")])
      ensures old(NoTurnSet()) ==> NoTurnSet()
    {
      var players := [Seat(userId, "white")];
      var status := if opponentId.Some? then Pending else Waiting;
      if opponentId.Some? {
        players := players + [Seat(opponentId.value, "black")];
      }
      id := nextId;
      matches := matches[id := ServiceMatch(gameType, players, status, None, [], None)];
      nextId := nextId + 1;
    }

    /**
     * `joinGame`: an unknown match is "Game not found" and one that is not
     * waiting "Game is not available to join"; otherwise the joiner is seated
     * as black, however many seats are taken, and the match is active.
     */
    method JoinGame(gameId: nat, userId: UserId) returns (r: Result<(), ServiceError>)
      requires Valid()
      modifies this
      ensures Valid() && nextId == old(nextId)
      ensures gameId !in old(matches) ==> r == Err(GameNotFound)
      ensures gameId in old(matches) && old(matches[gameId]).status != Waiting ==> r == Err(NotAvailable)
      ensures r.Ok? <==> gameId in old(matches) && old(matches[gameId]).status == Waiting
      ensures r.Err? ==> matches == old(matches)
      ensures r.Ok? ==>
                var m := old(matches[gameId]);
                matches == old(matches)[gameId := m.(players := m.players + [Seat(userId, "black")], status := Active)]
      ensures old(NoTurnSet()) ==> NoTurnSet()
    {
      if gameId !in matches {
        return Err(GameNotFound);
      }
      var m := matches[gameId];
      if m.status != Waiting {
        return Err(NotAvailable);
      }
      matches := matches[gameId := m.(players := m.players + [Seat(userId, "black")], status := Active)];
      return Ok(());
    }

    /**
     * `makeMove`: an unknown match, an inactive one, or a mover other than
     * the current turn is refused with nothing changed. Otherwise the move
     * is recorded tagged with its player and the turn passes to the first
     * other seat (or to nobody, written as ""); status and board stay.
     * Since no operation here sets a turn, on matches made here every
     * move is refused.
     */
    method MakeMove(gameId: nat, userId: UserId, move: MoveFields) returns (r: Result<(), ServiceError>)
      requires Valid()
      modifies this
      ensures Valid() && nextId == old(nextId)
      ensures gameId !in old(matches) ==> r == Err(GameNotFound)
      ensures gameId in old(matches) && old(matches[gameId]).status != Active ==> r == Err(NotActive)
      ensures gameId in old(matches) && old(matches[gameId]).status == Active && old(matches[gameId]).currentTurn != Some(userId)
              ==> r == Err(NotYourTurn)
      ensures r.Ok? <==> gameId in old(matches) && old(matches[gameId]).status == Active
                         && old(matches[gameId]).currentTurn == Some(userId)
      ensures r.Err? ==> matches == old(matches)
      ensures r.Ok? ==>
                var m := old(matches[gameId]);
                var next := OtherPlayer(m.players, userId);
                matches == old(matches)[gameId := m.(moves := m.moves + [move["player" := userId]],
                                                     currentTurn := Some(if next.Some? then next.value else ""))]
      ensures old(NoTurnSet()) ==> r.Err? && NoTurnSet()
    {
      if gameId !in matches {
        return Err(GameNotFound);
      }
      var m := matches[gameId];
      if m.status != Active {
        return Err(NotActive);
      }
      if m.currentTurn != Some(userId) {
        return Err(NotYourTurn);
      }
      var next := OtherPlayer(m.players, userId);
      var turn := if next.Some? then next.value else "";
      matches := matches[gameId := m.(moves := m.moves + [move["player" := userId]], currentTurn := Some(turn))];
      return Ok(());
    }

    /**
     * `resignGame`: an unknown or inactive match is refused; otherwise the
     * match is completed and won by the first seat held by someone else
     * (nobody when there is none).
     */
    method ResignGame(gameId: nat, userId: UserId) returns (r: Result<(), ServiceError>)
      requires Valid()
      modifies this
      ensures Valid() && nextId == old(nextId)
      ensures gameId !in old(matches) ==> r == Err(GameNotFound)
      ensures gameId in old(matches) && old(matches[gameId]).status != Active ==> r == Err(NotActive)
      ensures r.Ok? <==> gameId in old(matches) && old(matches[gameId]).status == Active
      ensures r.Err? ==> matches == old(matches)
      ensures r.Ok? ==>
                var m := old(matches[gameId]);
                matches == old(matches)[gameId := m.(status := Completed, winner := OtherPlayer(m.players, userId))]
      ensures old(NoTurnSet()) ==> NoTurnSet()
    {
      if gameId !in matches {
        return Err(GameNotFound);
      }
      var m := matches[gameId];
      if m.status != Active {
        return Err(NotActive);
      }
      matches := matches[gameId := m.(status := Completed, winner := OtherPlayer(m.players, userId))];
      return Ok(());
    }
  }

  /**
   * The service's own life cycle of a match never lets a move through: a
   * created and joined match refuses the creator's first move.
   */
  method FirstMoveRefused() returns (joined: Result<(), ServiceError>, moved: Result<(), ServiceError>)
    ensures joined.Ok? && moved == Err(NotYourTurn)
  {
    var service := new MatchService();
    var id := service.CreateGame("alice", "tictactoe", None);
    joined := service.JoinGame(id, "bob");
    moved := service.MakeMove(id, "alice", map["position" := "4"]);
  }
}
