/**
 * The account statistics kept by `updateUserStats`: four game counters and
 * a rating that rises by 25 on a win and 5 on a draw and falls by 20 on a
 * loss, never below zero.
 */
module UserStats {
  import opened Common

  /** The outcome reported for one player of one finished game. */
  datatype GameResult = Win | Loss | Draw

  datatype Stats = Stats(gamesPlayed: nat, gamesWon: nat, gamesLost: nat, gamesDraw: nat, rating: int)

  const WinBonus: int := 25
  const LossPenalty: int := 20
  const DrawBonus: int := 5

  /** Every game played is counted as exactly one of won, lost or drawn. */
  predicate Balanced(s: Stats) {
    s.gamesPlayed == s.gamesWon + s.gamesLost + s.gamesDraw
  }

  /** A rating the service could have produced from a non-negative start. */
  predicate RatingOk(s: Stats) {
    s.rating >= 0
  }

  function Max(a: int, b: int): int {
    if a >= b then a else b
  }

  /**
   * The record after one result: one more game played, one more game in the
   * counter of that result and nothing else counted, and the rating moved by
   * the result's adjustment (a loss clamps at zero).
   */
  function ApplyResult(s: Stats, result: GameResult): (r: Stats)
    ensures r.gamesPlayed == s.gamesPlayed + 1
    ensures r.gamesWon == s.gamesWon + (if result == Win then 1 else 0)
    ensures r.gamesLost == s.gamesLost + (if result == Loss then 1 else 0)
    ensures r.gamesDraw == s.gamesDraw + (if result == Draw then 1 else 0)
    ensures result == Win ==> r.rating == s.rating + WinBonus
    ensures result == Loss ==> r.rating == Max(0, s.rating - LossPenalty)
    ensures result == Draw ==> r.rating == s.rating + DrawBonus
  {
    var played := s.(gamesPlayed := s.gamesPlayed + 1);
    match result
    case Win => played.(gamesWon := s.gamesWon + 1, rating := s.rating + WinBonus)
    case Loss => played.(gamesLost := s.gamesLost + 1, rating := Max(0, s.rating - LossPenalty))
    case Draw => played.(gamesDraw := s.gamesDraw + 1, rating := s.rating + DrawBonus)
  }

  /** One update keeps played = won + lost + drawn and keeps the rating non-negative. */
  lemma ApplyResultKeepsInvariants(s: Stats, result: GameResult)
    requires Balanced(s) && RatingOk(s)
    ensures Balanced(ApplyResult(s, result)) && RatingOk(ApplyResult(s, result))
  {
  }

  /** A loss never takes the rating below zero, whatever it was before. */
  lemma LossRatingNonNegative(s: Stats)
    ensures ApplyResult(s, Loss).rating >= 0
  {
  }

  /** The record after a series of results, the first one applied first. */
  function ApplyResults(s: Stats, results: seq<GameResult>): Stats
    decreases |results|
  {
    if results == [] then s else ApplyResults(ApplyResult(s, results[0]), results[1..])
  }

  function CountOf(results: seq<GameResult>, g: GameResult): nat
    decreases |results|
  {
    if results == [] then 0 else (if results[0] == g then 1 else 0) + CountOf(results[1..], g)
  }

  /**
   * Over any series of results, played grows by the length of the series,
   * each counter by the number of its results, and both invariants hold
   * throughout.
   */
  lemma {:induction false} ApplyResultsCounts(s: Stats, results: seq<GameResult>)
    requires Balanced(s) && RatingOk(s)
    ensures var r := ApplyResults(s, results);
      && r.gamesPlayed == s.gamesPlayed + |results|
      && r.gamesWon == s.gamesWon + CountOf(results, Win)
      && r.gamesLost == s.gamesLost + CountOf(results, Loss)
      && r.gamesDraw == s.gamesDraw + CountOf(results, Draw)
      && Balanced(r) && RatingOk(r)
    decreases |results|
  {
    if results != [] {
      ApplyResultKeepsInvariants(s, results[0]);
      ApplyResultsCounts(ApplyResult(s, results[0]), results[1..]);
    }
  }

  datatype StatsError = UserNotFound

  /** The user collection, keyed by the string form of the user id. */
  class UserStore {
    var users: map<string, Stats>

    ghost predicate Valid()
      reads this
    {
      forall id :: id in users ==> Balanced(users[id]) && RatingOk(users[id])
    }

    constructor ()
      ensures users == map[] && Valid()
    {
      users := map[];
    }

    /**
     * `updateUserStats`: an unknown id fails with "User not found" and changes
     * nothing; otherwise that one user's record receives the result.
     */
    method UpdateUserStats(userId: string, result: GameResult) returns (r: Result<(), StatsError>)
      requires Valid()
      modifies this
      ensures Valid()
      ensures userId !in old(users) <==> r == Err(UserNotFound)
      ensures r.Err? ==> users == old(users)
      ensures r.Ok? ==> users == old(users)[userId := ApplyResult(old(users)[userId], result)]
    {
      if userId !in users {
        return Err(UserNotFound);
      }
      ApplyResultKeepsInvariants(users[userId], result);
      users := users[userId := ApplyResult(users[userId], result)];
      return Ok(());
    }
  }
}
