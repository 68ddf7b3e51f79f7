/**
 * The games page: the matchmaking modal it opens for a chosen game, the
 * modal's "MM:SS" search clock and the title it shows for the game.
 */
module GamesPage {
  import opened Common

  // ---------------------------------------------------------------------------
  // The search clock
  // ---------------------------------------------------------------------------

  /** `formatTime`: whole minutes and the remaining seconds, each padded to two digits. */
  function FormatTime(seconds: nat): (r: string)
    ensures seconds < 6000 ==> |r| == 5 && r[2] == ':'
  {
    var mins := seconds / 60;
    var secs := seconds % 60;
    NatToStringLength(mins);
    NatToStringLength(secs);
    PadStart2(NatToString(mins)) + ":" + PadStart2(NatToString(secs))
  }

  /** One decimal digit for numbers below ten, two for numbers below a hundred, at least two above. */
  lemma {:induction false} NatToStringLength(n: nat)
    ensures n < 10 <==> |NatToString(n)| == 1
    ensures 10 <= n < 100 ==> |NatToString(n)| == 2
  {
    if n >= 10 {
      assert NatToString(n) == NatToString(n / 10) + [DigitChar(n % 10)];
    }
  }

  /** Reads an "M:SS" clock back into seconds; the seconds field must be below 60. */
  function ParseClock(text: string): Option<nat> {
    match ReadNat(text)
    case None => None
    case Some((mins, rest)) =>
      if |rest| == 0 || rest[0] != ':' then None
      else
        match ReadNat(rest[1..])
        case None => None
        case Some((secs, tail)) => if tail == "" && secs < 60 then Some(mins * 60 + secs) else None
  }

  /** A zero-padded number reads back as the number. */
  lemma {:induction false} ReadPadded(n: nat, rest: string)
    requires !StartsWithDigit(rest)
    ensures ReadNat(PadStart2(NatToString(n)) + rest) == Some((n, rest))
  {
    NatToStringLength(n);
    if n >= 10 {
      ReadNatToString(n, rest);
    } else {
      var p := PadStart2(NatToString(n));
      assert p == ['0', DigitChar(n)];
      assert AllDigits(p);
      LeadingDigitsOfDigitsThen(p, rest);
      assert (p + rest)[..2] == p;
      assert (p + rest)[2..] == rest;
      assert p[..1] == ['0'];
      assert DigitsValue(['0']) == 0 by { assert ['0'][..0] == []; }
    }
  }

  /** Every clock the modal shows reads back as the seconds it counts. */
  lemma {:induction false} ClockRoundTrip(seconds: nat)
    ensures ParseClock(FormatTime(seconds)) == Some(seconds)
  {
    var mins := seconds / 60;
    var secs := seconds % 60;
    assert FormatTime(seconds) == PadStart2(NatToString(mins)) + ":" + PadStart2(NatToString(secs));
    ParsePaddedClock(mins, secs);
  }

  lemma {:induction false} ParsePaddedClock(mins: nat, secs: nat)
    requires secs < 60
    ensures ParseClock(PadStart2(NatToString(mins)) + ":" + PadStart2(NatToString(secs))) == Some(mins * 60 + secs)
  {
    var p, q := PadStart2(NatToString(mins)), PadStart2(NatToString(secs));
    var tail := ":" + q;
    assert p + ":" + q == p + tail;
    ReadPadded(mins, tail);
    assert tail[1..] == q + "";
    ReadPadded(secs, "");
    ParseClockSteps(p + tail, mins, tail, secs);
  }

  /** The two reads `ParseClock` makes, one after the other. */
  lemma {:induction false} ParseClockSteps(text: string, mins: nat, rest: string, secs: nat)
    requires ReadNat(text) == Some((mins, rest)) && |rest| > 0 && rest[0] == ':'
    requires ReadNat(rest[1..]) == Some((secs, "")) && secs < 60
    ensures ParseClock(text) == Some(mins * 60 + secs)
  {
  }

  // ---------------------------------------------------------------------------
  // The game title
  // ---------------------------------------------------------------------------

  /** `getGameTitle`: the display name of a known game, "Game" for any other. */
  function GameTitle(gameType: string): (r: string)
    ensures r == "Game" <==> gameType !in {"chess", "tic-tac-toe"}
    ensures gameType in {"chess", "tic-tac-toe"} ==> ToLower(r) == gameType
  {
    match gameType
    case "chess" => assert ToLower("Chess") == "chess"; "Chess"
    case "tic-tac-toe" => assert ToLower("Tic-Tac-Toe") == "tic-tac-toe"; "Tic-Tac-Toe"
    case _ => "Game"
  }

  // ---------------------------------------------------------------------------
  // Matchmaking
  // ---------------------------------------------------------------------------

  /** The page's two pieces of state: whether matchmaking runs, and for which game. */
  datatype PageState = PageState(isMatchmaking: bool, selectedGame: Option<string>)

  function InitialPage(): PageState { PageState(false, None) }

  /** `startMatchmaking`. */
  function StartMatchmaking(p: PageState, gameType: string): (r: PageState)
    ensures r.isMatchmaking && r.selectedGame == Some(gameType)
  {
    PageState(true, Some(gameType))
  }

  /** The modal's `onClose`. */
  function CloseMatchmaking(p: PageState): (r: PageState)
    ensures !r.isMatchmaking && r.selectedGame.None?
  {
    PageState(false, None)
  }

  /** The modal renders while matchmaking runs for a selected game (an empty name counts as none). */
  predicate ModalShown(p: PageState) {
    p.isMatchmaking && p.selectedGame.Some? && p.selectedGame.value != ""
  }

  /**
   * Choosing a game opens the modal for that game from any state, and
   * closing it always returns the page to how it opened.
   */
  lemma {:induction false} MatchmakingOpensAndCloses(p: PageState, gameType: string)
    requires gameType != ""
    ensures ModalShown(StartMatchmaking(p, gameType)) && StartMatchmaking(p, gameType).selectedGame.value == gameType
    ensures CloseMatchmaking(StartMatchmaking(p, gameType)) == InitialPage()
    ensures !ModalShown(CloseMatchmaking(p)) && !ModalShown(InitialPage())
  {
  }
}
