/**
 * The invitation panel of the browser: invitations arrive from the socket,
 * leave when they expire, a computer opponent is offered when nobody is
 * available, and accepting passes the invitation's match id on.
 */
module GameInvitation {
  import opened Common

  datatype Invitation = Invitation(
    matchId: string,
    fromId: string,
    fromUsername: string,
    profilePicture: Option<string>,
    gameType: string,
    timestamp: Time)

  datatype AvailablePlayer = AvailablePlayer(id: string, username: string)

  const ComputerMatchId: string := "computer-game"

  /** The invitation offered when no player is available, stamped with the time it is made. */
  function ComputerInvitation(now: Time): (inv: Invitation)
    ensures inv.matchId == ComputerMatchId && inv.fromId == "computer" && inv.fromUsername == "Computer"
    ensures inv.gameType == "Tic-tac-toe" && inv.timestamp == now
  {
    Invitation(ComputerMatchId, "computer", "Computer", Some("/images/computer-avatar.png"), "Tic-tac-toe", now)
  }

  /** `handleNewInvitation`: the invitation goes to the end of the list, and its sender's name is announced. */
  function NewInvitation(invitations: seq<Invitation>, inv: Invitation): (r: (seq<Invitation>, string))
    ensures |r.0| == |invitations| + 1 && r.0[..|invitations|] == invitations && r.0[|invitations|] == inv
    ensures r.1 == inv.fromUsername
  {
    (invitations + [inv], inv.fromUsername)
  }

  /** `handleInvitationExpired`: every invitation for the match goes, the others stay. */
  function Expired(invitations: seq<Invitation>, matchId: string): (r: seq<Invitation>)
    ensures |r| <= |invitations|
    ensures forall inv :: inv in r <==> inv in invitations && inv.matchId != matchId
    decreases |invitations|
  {
    if invitations == [] then []
    else
      var rest := Expired(invitations[1..], matchId);
      assert forall inv :: inv in invitations <==> inv == invitations[0] || inv in invitations[1..];
      if invitations[0].matchId != matchId then [invitations[0]] + rest else rest
  }

  /** Expiry keeps the remaining invitations in order: it works piece by piece over a concatenation. */
  lemma {:induction false} ExpiredAppend(a: seq<Invitation>, b: seq<Invitation>, matchId: string)
    ensures Expired(a + b, matchId) == Expired(a, matchId) + Expired(b, matchId)
    decreases |a|
  {
    if a == [] {
      assert a + b == b;
    } else {
      assert (a + b)[0] == a[0];
      assert (a + b)[1..] == a[1..] + b;
      ExpiredAppend(a[1..], b, matchId);
    }
  }

  /**
   * An invitation that arrives and then expires leaves the list as if it
   * had expired alone; one for another match is still there, at the end.
   */
  lemma {:induction false} ArriveThenExpire(invitations: seq<Invitation>, inv: Invitation, matchId: string)
    ensures matchId == inv.matchId ==> Expired(NewInvitation(invitations, inv).0, matchId) == Expired(invitations, matchId)
    ensures matchId != inv.matchId ==> Expired(NewInvitation(invitations, inv).0, matchId) == Expired(invitations, matchId) + [inv]
  {
    ExpiredAppend(invitations, [inv], matchId);
    assert [inv][1..] == [];
  }

  /** `handleAvailablePlayers`: with nobody available the computer invitation is added at the end; otherwise nothing changes. */
  function AvailablePlayers(invitations: seq<Invitation>, players: seq<AvailablePlayer>, now: Time): (r: seq<Invitation>)
    ensures players == [] ==> r == invitations + [ComputerInvitation(now)]
    ensures players != [] ==> r == invitations
  {
    if |players| == 0 then invitations + [ComputerInvitation(now)] else invitations
  }

  /** `handleAccept`: the match id handed to `onAccept`, the computer game's included. */
  function Accept(inv: Invitation): (matchId: string)
    ensures matchId == inv.matchId
  {
    if inv.matchId == ComputerMatchId then ComputerMatchId else inv.matchId
  }

  /** The panel renders only while it holds an invitation. */
  predicate Renders(invitations: seq<Invitation>) {
    |invitations| != 0
  }

  /**
   * With nobody available the panel shows and offers the computer game,
   * accepting it starts the "computer-game" match, and its expiry takes it
   * away again.
   */
  lemma {:induction false} ComputerOfferShowsAndExpires(invitations: seq<Invitation>, now: Time)
    requires forall inv :: inv in invitations ==> inv.matchId != ComputerMatchId
    ensures Renders(AvailablePlayers(invitations, [], now))
    ensures Accept(AvailablePlayers(invitations, [], now)[|invitations|]) == ComputerMatchId
    ensures Expired(AvailablePlayers(invitations, [], now), ComputerMatchId) == invitations
  {
    ExpiredAppend(invitations, [ComputerInvitation(now)], ComputerMatchId);
    ExpiredNone(invitations, ComputerMatchId);
    assert [ComputerInvitation(now)][1..] == [];
  }

  lemma {:induction false} ExpiredNone(invitations: seq<Invitation>, matchId: string)
    requires forall inv :: inv in invitations ==> inv.matchId != matchId
    ensures Expired(invitations, matchId) == invitations
    decreases |invitations|
  {
    if invitations != [] {
      assert invitations[0] in invitations;
      ExpiredNone(invitations[1..], matchId);
    }
  }
}
