/**
 * The connection-level handlers of the live socket server: matchmaking,
 * routing `join-game` to the handlers of the match's game, spectating and
 * chat. The match collection is a map from match id to match object; a
 * query such as `findOne` becomes a choice among the matches that satisfy it.
 */
module Lobby {
  import opened Common
  import opened LiveMatch

  datatype LobbyError =
    | MatchNotFound
    | UnsupportedGameType
    | FailedToJoinMatchmaking
    | FailedToJoinGame

  /** The handler family `join-game` attaches. */
  datatype GameKind = ChessGame | TicTacToeGame

  /** The `switch` on the game's slug. */
  function KindOfSlug(slug: string): (k: Option<GameKind>)
    ensures k == Some(ChessGame) <==> slug == "chess"
    ensures k == Some(TicTacToeGame) <==> slug == "tic-tac-toe"
  {
    if slug == "chess" then Some(ChessGame)
    else if slug == "tic-tac-toe" then Some(TicTacToeGame)
    else None
  }

  /** The matchmaking query: same game, waiting, and no second seat. */
  predicate OpenFor(m: Match, gameId: string)
    reads m
  {
    m.game == gameId && m.status == Waiting && |m.players| <= 1
  }

  class MatchStore {
    var matches: map<nat, Match>
    var nextId: nat
    /** The slug of each catalogue game, by game id (what `populate("game")` reads). */
    var slugs: map<string, string>

    /**
     * Every stored match sits under its own id, ids are below the next one to
     * hand out, and no match has more than two seats.
     */
    ghost predicate Valid()
      reads this, matches.Values
    {
      forall id :: id in matches ==> matches[id].id == id && id < nextId && |matches[id].players| <= 2
    }

    constructor (slugs: map<string, string>)
      ensures matches == map[] && nextId == 0 && this.slugs == slugs && Valid()
    {
      matches := map[];
      nextId := 0;
      this.slugs := slugs;
    }

    /**
     * `join-matchmaking`: when some match of the game is open, the requester
     * takes its second seat and it becomes active; a chosen open match without
     * any seat makes the handler fail with nothing changed. When none is open,
     * a new waiting match is stored with the requester as white.
     */
    method JoinMatchmaking(userId: UserId, gameId: string, now: Time) returns (r: Result<nat, LobbyError>)
      requires Valid()
      modifies this, matches.Values
      ensures Valid()
      ensures slugs == old(slugs)
      ensures r.Err? ==> r.error == FailedToJoinMatchmaking && matches == old(matches) && nextId == old(nextId)
      ensures r.Err? ==> exists id :: id in matches && OpenFor(matches[id], gameId) && |matches[id].players| == 0
      ensures r.Ok? ==> r.value in matches
      ensures r.Ok? && r.value in old(matches) ==>
                var m := matches[r.value];
                && matches == old(matches) && nextId == old(nextId)
                && old(OpenFor(m, gameId)) && |old(m.players)| == 1
                && m.players == old(m.players) + [MatchPlayer(userId, Opposite(old(m.players)[0].color), 0.0, false)]
                && m.status == Active && m.startedAt == Some(now)
                && m.gameState == old(m.gameState) && m.endedAt == old(m.endedAt)
                && m.spectators == old(m.spectators) && m.messages == old(m.messages)
      ensures r.Ok? && r.value !in old(matches) ==>
                var m := matches[r.value];
                && (forall id :: id in old(matches) ==> !old(OpenFor(matches[id], gameId)))
                && r.value == old(nextId) && nextId == old(nextId) + 1
                && matches == old(matches)[r.value := m] && fresh(m)
                && m.game == gameId && m.players == [MatchPlayer(userId, White, 0.0, false)]
                && m.status == Waiting && m.gameState.None? && m.spectators == [] && m.messages == []
      ensures forall id :: id in old(matches) && (r.Err? || id != r.value) ==> unchanged(old(matches)[id])
    {
      if exists id :: id in matches && OpenFor(matches[id], gameId) {
        var id :| id in matches && OpenFor(matches[id], gameId);
        var m := matches[id];
        var joined := m.Join(userId, now);
        if joined.Err? {
          assert OpenFor(matches[id], gameId) && |matches[id].players| == 0;
          return Err(FailedToJoinMatchmaking);
        }
        return Ok(id);
      }
      var m := new Match.Open(nextId, gameId, userId);
      matches := matches[nextId := m];
      r := Ok(nextId);
      nextId := nextId + 1;
    }

    /**
     * `join-game`: an unknown match is "Match not found"; a match whose game
     * is not in the catalogue makes the handler fail; "chess" and
     * "tic-tac-toe" attach their handlers (the tic-tac-toe set-up fills in a
     * missing game state) and any other slug is unsupported.
     */
    method JoinGame(matchId: nat) returns (r: Result<GameKind, LobbyError>)
      requires Valid()
      modifies matches.Values
      ensures Valid()
      ensures matchId !in matches <==> r == Err(MatchNotFound)
      ensures matchId in matches && matches[matchId].game !in slugs ==> r == Err(FailedToJoinGame)
      ensures matchId in matches && matches[matchId].game in slugs ==>
                var kind := KindOfSlug(slugs[matches[matchId].game]);
                && (kind.None? ==> r == Err(UnsupportedGameType))
                && (kind == Some(ChessGame) ==> r == Ok(ChessGame))
                && (kind == Some(TicTacToeGame) ==> r == Ok(TicTacToeGame) || r == Err(FailedToJoinGame))
      ensures matchId in matches && matches[matchId].game in slugs && KindOfSlug(slugs[matches[matchId].game]) == Some(TicTacToeGame) ==>
                (r == Err(FailedToJoinGame) <==> old(matches[matchId].gameState).None? && |old(matches[matchId].players)| == 0)
      ensures r == Ok(TicTacToeGame) && old(matches[matchId].gameState).None? ==>
                matches[matchId].gameState == Some(InitialGameState(old(matches[matchId].players)[0].user))
      ensures r == Ok(TicTacToeGame) && old(matches[matchId].gameState).Some? ==>
                matches[matchId].gameState == old(matches[matchId].gameState)
      ensures r.Ok? && r.value == TicTacToeGame ==> matches[matchId].gameState.Some?
      ensures matchId in matches ==> var m := matches[matchId];
                m.status == old(m.status) && m.startedAt == old(m.startedAt) && m.endedAt == old(m.endedAt)
                && m.spectators == old(m.spectators) && m.messages == old(m.messages)
      ensures forall id :: id in matches && (id != matchId || r != Ok(TicTacToeGame)) ==> unchanged(matches[id])
      ensures forall id :: id in matches ==> matches[id].players == old(matches[id].players)
    {
      if matchId !in matches {
        return Err(MatchNotFound);
      }
      var m := matches[matchId];
      if m.game !in slugs {
        return Err(FailedToJoinGame);
      }
      var kind := KindOfSlug(slugs[m.game]);
      if kind == Some(ChessGame) {
        return Ok(ChessGame);
      } else if kind == Some(TicTacToeGame) {
        var setUp := m.EnsureGameState();
        if setUp.Err? {
          return Err(FailedToJoinGame);
        }
        return Ok(TicTacToeGame);
      }
      return Err(UnsupportedGameType);
    }

    /** `spectate`: an unknown match changes nothing; otherwise the viewer is added once. */
    method Spectate(matchId: nat, userId: UserId) returns (r: Result<(), LobbyError>)
      requires Valid()
      modifies matches.Values
      ensures Valid()
      ensures matchId !in matches <==> r == Err(MatchNotFound)
      ensures r.Ok? ==> matches[matchId].spectators == WithSpectator(old(matches[matchId].spectators), userId)
      ensures r.Ok? ==> matches[matchId].messages == old(matches[matchId].messages)
      ensures r.Ok? ==> var m := matches[matchId];
                m.status == old(m.status) && m.gameState == old(m.gameState)
                && m.startedAt == old(m.startedAt) && m.endedAt == old(m.endedAt)
      ensures forall id :: id in matches && (r.Err? || id != matchId) ==> unchanged(matches[id])
      ensures forall id :: id in matches ==> matches[id].players == old(matches[id].players)
    {
      if matchId !in matches {
        return Err(MatchNotFound);
      }
      matches[matchId].AddSpectator(userId);
      return Ok(());
    }

    /** `send-message`: an unknown match changes nothing; otherwise the message is appended. */
    method SendMessage(matchId: nat, userId: UserId, message: string, now: Time) returns (r: Result<(), LobbyError>)
      requires Valid()
      modifies matches.Values
      ensures Valid()
      ensures matchId !in matches <==> r == Err(MatchNotFound)
      ensures r.Ok? ==> matches[matchId].messages == old(matches[matchId].messages) + [ChatMessage(userId, message, now)]
      ensures r.Ok? ==> matches[matchId].spectators == old(matches[matchId].spectators)
      ensures r.Ok? ==> var m := matches[matchId];
                m.status == old(m.status) && m.gameState == old(m.gameState)
                && m.startedAt == old(m.startedAt) && m.endedAt == old(m.endedAt)
      ensures forall id :: id in matches && (r.Err? || id != matchId) ==> unchanged(matches[id])
      ensures forall id :: id in matches ==> matches[id].players == old(matches[id].players)
    {
      if matchId !in matches {
        return Err(MatchNotFound);
      }
      matches[matchId].PostMessage(userId, message, now);
      return Ok(());
    }
  }
}
