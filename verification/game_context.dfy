/**
 * The browser's game context: the signed-in player's active and completed
 * games, kept up to date from the socket's "game:created" and
 * "game:updated" events, and the guarded create and join actions.
 */
module GameContext {
  import opened Common

  datatype PlayerRef = PlayerRef(id: string, username: string)

  /** A game as the context stores it. */
  datatype GameState = GameState(id: string, gameType: string, players: seq<PlayerRef>, status: string)

  /** The signed-in account, when there is one. */
  datatype Account = Account(id: string, username: string)

  /** `game.players.some((p) => p.id === user.id)`. */
  predicate Involves(game: GameState, userId: string) {
    exists i :: 0 <= i < |game.players| && game.players[i].id == userId
  }

  predicate Terminal(status: string) {
    status == "completed" || status == "cancelled"
  }

  // ---------------------------------------------------------------------------
  // The list transforms
  // ---------------------------------------------------------------------------

  /** `prev.filter((g) => g.id !== id)`: every entry with that id goes, the others stay. */
  function WithoutId(games: seq<GameState>, id: string): (r: seq<GameState>)
    ensures |r| <= |games|
    ensures forall g :: g in r <==> g in games && g.id != id
    ensures (forall i :: 0 <= i < |games| ==> games[i].id != id) ==> r == games
    decreases |games|
  {
    if games == [] then []
    else
      var rest := WithoutId(games[1..], id);
      assert forall g :: g in games <==> g == games[0] || g in games[1..];
      if games[0].id != id then [games[0]] + rest else rest
  }

  /** Removal keeps the remaining games in order: it works piece by piece over a concatenation. */
  lemma {:induction false} WithoutIdAppend(a: seq<GameState>, b: seq<GameState>, id: string)
    ensures WithoutId(a + b, id) == WithoutId(a, id) + WithoutId(b, id)
    decreases |a|
  {
    if a == [] {
      assert a + b == b;
    } else {
      assert (a + b)[0] == a[0];
      assert (a + b)[1..] == a[1..] + b;
      WithoutIdAppend(a[1..], b, id);
    }
  }

  /** `prev.map((g) => (g.id === game.id ? game : g))`. */
  function ReplaceId(games: seq<GameState>, game: GameState): (r: seq<GameState>)
    ensures |r| == |games|
    ensures forall i :: 0 <= i < |games| ==> r[i] == if games[i].id == game.id then game else games[i]
    decreases |games|
  {
    if games == [] then []
    else [if games[0].id == game.id then game else games[0]] + ReplaceId(games[1..], game)
  }

  /** Replacing a game nobody holds changes nothing, and replacing twice is replacing once. */
  lemma {:induction false} ReplaceIdProperties(games: seq<GameState>, game: GameState)
    ensures (forall i :: 0 <= i < |games| ==> games[i].id != game.id) ==> ReplaceId(games, game) == games
    ensures ReplaceId(ReplaceId(games, game), game) == ReplaceId(games, game)
  {
    var once := ReplaceId(games, game);
    var twice := ReplaceId(once, game);
    assert forall i :: 0 <= i < |games| ==> twice[i] == once[i];
  }

  // ---------------------------------------------------------------------------
  // The provider
  // ---------------------------------------------------------------------------

  class GameProvider {
    var activeGames: seq<GameState>
    var completedGames: seq<GameState>
    var loading: bool

    constructor ()
      ensures activeGames == [] && completedGames == [] && !loading
    {
      activeGames := [];
      completedGames := [];
      loading := false;
    }

    /** `handleGameCreated` (listening only while someone is signed in): a game of the user's goes to the front. */
    method HandleGameCreated(user: Account, game: GameState)
      modifies this
      ensures Involves(game, user.id) ==> activeGames == [game] + old(activeGames)
      ensures !Involves(game, user.id) ==> activeGames == old(activeGames)
      ensures completedGames == old(completedGames) && loading == old(loading)
    {
      if Involves(game, user.id) {
        activeGames := [game] + activeGames;
      }
    }

    /**
     * `handleGameUpdated`: a finished or cancelled game of the user's leaves
     * the active list, every copy of it, and goes to the front of the
     * completed list; any other update of the user's game replaces it where
     * it stands; an update of someone else's game changes nothing.
     */
    method HandleGameUpdated(user: Account, game: GameState)
      modifies this
      ensures !Involves(game, user.id) ==> activeGames == old(activeGames) && completedGames == old(completedGames)
      ensures Involves(game, user.id) && Terminal(game.status) ==>
                activeGames == WithoutId(old(activeGames), game.id) && completedGames == [game] + old(completedGames)
      ensures Involves(game, user.id) && !Terminal(game.status) ==>
                activeGames == ReplaceId(old(activeGames), game) && completedGames == old(completedGames)
      ensures loading == old(loading)
    {
      if Involves(game, user.id) {
        if Terminal(game.status) {
          activeGames := WithoutId(activeGames, game.id);
          completedGames := [game] + completedGames;
        } else {
          activeGames := ReplaceId(activeGames, game);
        }
      }
    }

    /**
     * `createGame`: nothing without a signed-in user; otherwise the game the
     * server answers with (`created`, or the failure) goes to the front of
     * the active list and is returned.
     */
    method CreateGame(user: Option<Account>, gameType: string, opponentId: string, created: Result<GameState, string>)
      returns (r: Option<GameState>)
      modifies this
      ensures user.None? ==> r.None? && unchanged(this)
      ensures user.Some? && created.Ok? ==> r == Some(created.value) && activeGames == [created.value] + old(activeGames)
      ensures user.Some? && created.Err? ==> r.None? && activeGames == old(activeGames)
      ensures completedGames == old(completedGames) && (user.Some? ==> !loading)
    {
      if user.None? {
        return None;
      }
      loading := true;
      if created.Ok? {
        activeGames := [created.value] + activeGames;
        r := Some(created.value);
      } else {
        r := None;
      }
      loading := false;
    }

    /**
     * `joinGame`: false without a signed-in user. Otherwise the join request
     * is sent for the user when the socket context holds a socket
     * (`connected`); without one the optional call sends nothing, and true
     * is returned either way.
     */
    method JoinGame(user: Option<Account>, connected: bool, gameId: string) returns (r: bool, sent: Option<(string, string)>)
      modifies this
      ensures user.None? ==> !r && sent.None? && unchanged(this)
      ensures user.Some? ==> r
      ensures sent.Some? <==> user.Some? && connected
      ensures sent.Some? ==> sent.value == (gameId, user.value.id)
      ensures activeGames == old(activeGames) && completedGames == old(completedGames) && (user.Some? ==> !loading)
    {
      if user.None? {
        return false, None;
      }
      loading := true;
      sent := if connected then Some((gameId, user.value.id)) else None;
      r := true;
      loading := false;
    }

    /** `refreshGames`: with a user, both lists become what the server returns; a failed fetch keeps them. */
    method RefreshGames(user: Option<Account>, fetched: Option<(seq<GameState>, seq<GameState>)>)
      modifies this
      ensures user.None? ==> unchanged(this)
      ensures user.Some? && fetched.Some? ==> activeGames == fetched.value.0 && completedGames == fetched.value.1 && !loading
      ensures user.Some? && fetched.None? ==> activeGames == old(activeGames) && completedGames == old(completedGames) && !loading
    {
      if user.None? {
        return;
      }
      loading := true;
      if fetched.Some? {
        activeGames := fetched.value.0;
        completedGames := fetched.value.1;
      }
      loading := false;
    }
  }

  /** Once a game of the user's is reported finished, no copy of it is left among the active games. */
  method FinishedGameLeavesActive(p: GameProvider, user: Account, game: GameState)
    requires Involves(game, user.id) && Terminal(game.status)
    modifies p
    ensures forall i :: 0 <= i < |p.activeGames| ==> p.activeGames[i].id != game.id
    ensures |p.completedGames| > 0 && p.completedGames[0] == game
  {
    p.HandleGameUpdated(user, game);
    assert forall i :: 0 <= i < |p.activeGames| ==> p.activeGames[i] in p.activeGames;
  }
}
