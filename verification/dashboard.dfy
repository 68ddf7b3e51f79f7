/**
 * The dashboard: the age of a recent game in hours or days, the friends
 * list with its search box, the friends' status badges and the play button
 * that is disabled for an offline friend. The result badge of a recent game
 * is the same mapping as the history page's (`GameHistory.ResultBadge`).
 */
module Dashboard {
  import opened Common
  import GameHistory

  // ---------------------------------------------------------------------------
  // The age of a recent game
  // ---------------------------------------------------------------------------

  const MsPerHour: nat := 1000 * 60 * 60

  /** The count and unit `formatDate` shows for an age in milliseconds: hours below a day, days above. */
  function DateParts(diffMs: int): (r: (int, string))
    ensures r.1 == "hour" <==> diffMs / MsPerHour < 24
    ensures r.1 == "day" <==> diffMs / MsPerHour >= 24
    ensures r.1 == "hour" ==> r.0 == diffMs / MsPerHour
    ensures diffMs >= 0 ==> 0 <= r.0 && r.0 * UnitMs(r.1) <= diffMs < (r.0 + 1) * UnitMs(r.1)
  {
    var hours := diffMs / MsPerHour;
    if hours < 24 then (hours, "hour")
    else
      assert hours / 24 == diffMs / (24 * MsPerHour);
      (hours / 24, "day")
  }

  function UnitMs(unit: string): nat {
    if unit == "hour" then MsPerHour else 24 * MsPerHour
  }

  /** `formatDate`: "<count> hour[s] ago" or "<count> day[s] ago", plural unless the count is one. */
  function FormatDate(diffMs: int): (r: string)
    ensures |r| > 5 && r[|r| - 4..] == " ago"
    ensures r[|r| - 5] == 's' <==> DateParts(diffMs).0 != 1
  {
    var (count, unit) := DateParts(diffMs);
    var r := IntToString(count) + " " + unit + PluralSuffix(count) + " ago";
    assert r[|r| - 5] == (if count != 1 then 's' else unit[|unit| - 1]);
    r
  }

  /** For a past moment, the dashboard's text reads back as the count and unit it was made from. */
  lemma {:induction false} DateReadBack(diffMs: int)
    ensures diffMs >= 0 ==> GameHistory.ParseTimeAgo(FormatDate(diffMs)) == Some(DateParts(diffMs))
  {
    if diffMs >= 0 {
      var (count, unit) := DateParts(diffMs);
      GameHistory.AgoTextReadBack(count, unit);
    }
  }

  /**
   * From an hour on, the dashboard and the history page describe the same
   * age with the same words; below an hour the dashboard says "0 hours ago".
   */
  lemma {:induction false} DashboardAgreesWithHistory(diffMs: int)
    ensures diffMs >= MsPerHour ==> FormatDate(diffMs) == GameHistory.FormatTimeAgo(diffMs)
    ensures 0 <= diffMs < MsPerHour ==> FormatDate(diffMs) == "0 hours ago"
  {
    if diffMs >= MsPerHour {
      var seconds := diffMs / 1000;
      DivDiv(diffMs, 1000, 60);
      DivDiv(diffMs, 60000, 60);
      assert seconds / 60 == diffMs / 60000;
      assert seconds / 60 / 60 == diffMs / MsPerHour;
      DivDiv(diffMs, 1000, 3600);
      assert seconds / 3600 == diffMs / MsPerHour;
      DivDiv(diffMs, MsPerHour, 24);
      DivDiv(diffMs, 1000, 86400);
      assert seconds / 86400 == diffMs / (24 * MsPerHour);
      assert seconds >= 3600;
      assert seconds / 60 >= 60;
    } else if diffMs >= 0 {
      assert diffMs / MsPerHour == 0;
      assert IntToString(0) == "0";
    }
  }

  /** Dividing by two divisors in turn is dividing by their product. */
  lemma {:induction false} DivDiv(n: int, a: nat, b: nat)
    requires n >= 0 && a > 0 && b > 0
    ensures n / a / b == n / (a * b)
  {
    var q1, r1 := n / a, n % a;
    var q2, r2 := q1 / b, q1 % b;
    assert n == q1 * a + r1;
    assert q1 == q2 * b + r2;
    RegroupProduct(q2, b, r2, a);
    RemainderBound(r2, r1, a, b);
    DivUnique(n, a * b, q2, r2 * a + r1);
  }

  lemma {:induction false} RegroupProduct(q: int, b: int, r: int, a: int)
    ensures (q * b + r) * a == q * (a * b) + r * a
  {
    assert (q * b + r) * a == q * b * a + r * a;
    assert q * b * a == q * (a * b);
  }

  lemma {:induction false} RemainderBound(r2: int, r1: int, a: nat, b: nat)
    requires 0 <= r2 < b && 0 <= r1 < a
    ensures 0 <= r2 * a + r1 < a * b
  {
    MulDiff(b, r2, a);
    assert b * a == a * b;
  }

  /** The quotient is the only multiplier that leaves a remainder below the divisor. */
  lemma {:induction false} DivUnique(n: int, d: nat, q: int, r: int)
    requires d > 0 && n == q * d + r && 0 <= r < d
    ensures n / d == q
  {
    var q0, r0 := n / d, n % d;
    assert q0 * d + r0 == q * d + r;
    if q0 < q {
      MulDiff(q, q0, d);
    } else if q0 > q {
      MulDiff(q0, q, d);
    }
  }

  /** Multiples of a positive number at least one step apart differ by at least that number. */
  lemma {:induction false} MulDiff(x: int, y: int, d: nat)
    requires x > y
    ensures x * d - y * d >= d
  {
    var k := x - y;
    assert x * d - y * d == k * d;
    assert k * d == (k - 1) * d + d;
    assert (k - 1) * d >= 0;
  }

  // ---------------------------------------------------------------------------
  // Friends
  // ---------------------------------------------------------------------------

  datatype Friend = Friend(username: string, status: string)

  predicate NameMatches(f: Friend, query: string) {
    Contains(ToLower(f.username), ToLower(query))
  }

  /** `filteredFriends`: the friends whose name contains the search text, ignoring case. */
  function FilteredFriends(friends: seq<Friend>, query: string): (r: seq<Friend>)
    ensures |r| <= |friends|
    ensures forall f :: f in r <==> f in friends && NameMatches(f, query)
    decreases |friends|
  {
    if friends == [] then []
    else
      var rest := FilteredFriends(friends[1..], query);
      assert forall f :: f in friends <==> f == friends[0] || f in friends[1..];
      if NameMatches(friends[0], query) then [friends[0]] + rest else rest
  }

  /** The filter keeps the friends in the order of the list: it works piece by piece over a concatenation. */
  lemma {:induction false} FilteredFriendsAppend(a: seq<Friend>, b: seq<Friend>, query: string)
    ensures FilteredFriends(a + b, query) == FilteredFriends(a, query) + FilteredFriends(b, query)
    decreases |a|
  {
    if a == [] {
      assert a + b == b;
    } else {
      assert (a + b)[0] == a[0];
      assert (a + b)[1..] == a[1..] + b;
      FilteredFriendsAppend(a[1..], b, query);
    }
  }

  /** An empty search box lists every friend. */
  lemma {:induction false} EmptySearchKeepsAll(friends: seq<Friend>)
    ensures FilteredFriends(friends, "") == friends
    decreases |friends|
  {
    if friends != [] {
      assert StartsWith(ToLower(friends[0].username), ToLower(""));
      EmptySearchKeepsAll(friends[1..]);
    }
  }

  /** `getStatusBadge`: the badge label of a friend's status; any other status shows no badge. */
  function StatusBadge(status: string): (r: Option<string>)
    ensures r.Some? <==> status in {"online", "in-game", "offline"}
    ensures status == "online" ==> r == Some("Online")
    ensures status == "in-game" ==> r == Some("In Game")
    ensures status == "offline" ==> r == Some("Offline")
  {
    match status
    case "online" => Some("Online")
    case "in-game" => Some("In Game")
    case "offline" => Some("Offline")
    case _ => None
  }

  /** The play button's `disabled` condition. */
  predicate PlayDisabled(f: Friend) {
    f.status == "offline"
  }

  /** The play button is disabled exactly for the friends whose badge reads "Offline". */
  lemma {:induction false} PlayDisabledExactlyWhenOffline(f: Friend)
    ensures PlayDisabled(f) <==> StatusBadge(f.status) == Some("Offline")
  {
  }
}
