/**
 * The detailed game history of the profile page: the duration and
 * time-ago texts, the search and the two filters, and the pages of five
 * games with their previous/next buttons and "Showing a to b of n" line.
 */
module GameHistory {
  import opened Common

  // ---------------------------------------------------------------------------
  // Durations
  // ---------------------------------------------------------------------------

  /** `formatDuration`: "45s", "2m" or "1m 30s". */
  function FormatDuration(seconds: nat): (r: string)
    ensures seconds < 60 ==> r == NatToString(seconds) + "s"
    ensures seconds >= 60 && seconds % 60 == 0 ==> r == NatToString(seconds / 60) + "m"
  {
    FormatMinutesAndSeconds(seconds / 60, seconds % 60)
  }

  function FormatMinutesAndSeconds(minutes: nat, rest: nat): string {
    if minutes == 0 then NatToString(rest) + "s"
    else if rest == 0 then NatToString(minutes) + "m"
    else NatToString(minutes) + "m " + NatToString(rest) + "s"
  }

  /** Reads a duration text back: "Ns", "Nm" or "Nm Rs". */
  function ParseDuration(text: string): Option<nat> {
    match ReadNat(text)
    case None => None
    case Some((a, rest)) =>
      if rest == "s" then Some(a)
      else if rest == "m" then Some(a * 60)
      else if |rest| >= 2 && rest[..2] == "m " then
        (match ReadNat(rest[2..])
         case Some((b, tail)) => if tail == "s" then Some(a * 60 + b) else None
         case None => None)
      else None
  }

  /** Every duration text reads back as the number of seconds it was made from. */
  lemma {:induction false} DurationRoundTrip(seconds: nat)
    ensures ParseDuration(FormatDuration(seconds)) == Some(seconds)
  {
    PartsRoundTrip(seconds / 60, seconds % 60);
  }

  lemma {:induction false} PartsRoundTrip(minutes: nat, rest: nat)
    ensures ParseDuration(FormatMinutesAndSeconds(minutes, rest)) == Some(minutes * 60 + rest)
  {
    if minutes == 0 {
      SecondsRoundTrip(rest);
    } else if rest == 0 {
      MinutesRoundTrip(minutes);
    } else {
      MinutesAndSecondsRoundTrip(minutes, rest);
    }
  }

  lemma {:induction false} SecondsRoundTrip(rest: nat)
    ensures ParseDuration(NatToString(rest) + "s") == Some(rest)
  {
    ReadNatToString(rest, "s");
  }

  lemma {:induction false} MinutesRoundTrip(minutes: nat)
    ensures ParseDuration(NatToString(minutes) + "m") == Some(minutes * 60)
  {
    ReadNatToString(minutes, "m");
  }

  lemma {:induction false} MinutesAndSecondsRoundTrip(minutes: nat, rest: nat)
    ensures ParseDuration(NatToString(minutes) + "m " + NatToString(rest) + "s") == Some(minutes * 60 + rest)
  {
    var m, r := NatToString(minutes), NatToString(rest);
    var after := "m " + r + "s";
    assert m + "m " + r + "s" == m + after;
    ReadNatToString(minutes, after);
    assert after[..2] == "m " && after[2..] == r + "s";
    ReadNatToString(rest, "s");
    ParseDurationSteps(m + after, minutes, after, rest);
  }

  /** The two reads `ParseDuration` makes for a text with minutes and seconds. */
  lemma {:induction false} ParseDurationSteps(text: string, minutes: nat, after: string, rest: nat)
    requires ReadNat(text) == Some((minutes, after)) && |after| >= 2 && after[..2] == "m "
    requires ReadNat(after[2..]) == Some((rest, "s"))
    ensures ParseDuration(text) == Some(minutes * 60 + rest)
  {
  }

  /** Only a duration of at least a minute shows minutes, and whole minutes show no seconds. */
  lemma {:induction false} DurationShape(seconds: nat)
    ensures seconds < 60 ==> FormatDuration(seconds) == NatToString(seconds) + "s"
    ensures seconds >= 60 && seconds % 60 == 0 ==> FormatDuration(seconds) == NatToString(seconds / 60) + "m"
  {
  }

  // ---------------------------------------------------------------------------
  // Time ago
  // ---------------------------------------------------------------------------

  /** The count and unit `formatTimeAgo` shows for an age in milliseconds. */
  function TimeAgoParts(diffMs: int): (r: (int, string))
    ensures var seconds := diffMs / 1000;
      && (r.1 == "second" <==> seconds < 60)
      && (r.1 == "minute" <==> 60 <= seconds && seconds / 60 < 60)
      && (r.1 == "hour" <==> 60 <= seconds && 60 <= seconds / 60 && seconds / 3600 < 24)
      && (r.1 == "day" <==> 60 <= seconds && 60 <= seconds / 60 && 24 <= seconds / 3600)
    ensures diffMs >= 0 ==> 0 <= r.0 && r.0 * UnitSeconds(r.1) <= diffMs / 1000 < (r.0 + 1) * UnitSeconds(r.1)
  {
    var seconds := diffMs / 1000;
    if seconds < 60 then (seconds, "second")
    else
      var minutes := seconds / 60;
      if minutes < 60 then (minutes, "minute")
      else
        var hours := minutes / 60;
        assert hours == seconds / 3600;
        if hours < 24 then (hours, "hour")
        else
          assert hours / 24 == seconds / 86400;
          (hours / 24, "day")
  }

  function UnitSeconds(unit: string): nat {
    match unit
    case "second" => 1
    case "minute" => 60
    case "hour" => 3600
    case _ => 86400
  }

  /** `formatTimeAgo`: "<count> <unit>[s] ago", plural unless the count is one. */
  function FormatTimeAgo(diffMs: int): (r: string)
    ensures |r| > 5 && r[|r| - 4..] == " ago"
    ensures r[|r| - 5] == 's' <==> TimeAgoParts(diffMs).0 != 1
  {
    var (count, unit) := TimeAgoParts(diffMs);
    var r := IntToString(count) + " " + unit + PluralSuffix(count) + " ago";
    assert r[|r| - 5] == (if count != 1 then 's' else unit[|unit| - 1]);
    r
  }

  /** The units `formatTimeAgo` and the dashboard's `formatDate` name. */
  const AgoUnits: set<string> := {"second", "minute", "hour", "day"}

  /**
   * Reads "<count> <unit>[s] ago" back into its count and singular unit;
   * no unit ends in 's', so a trailing 's' is the plural suffix.
   */
  function ParseTimeAgo(text: string): Option<(nat, string)> {
    match ReadNat(text)
    case None => None
    case Some((n, rest)) =>
      if |rest| < 5 || rest[0] != ' ' || rest[|rest| - 4..] != " ago" then None
      else
        var word := rest[1..|rest| - 4];
        if word in AgoUnits then Some((n, word))
        else if |word| > 0 && word[|word| - 1] == 's' && word[..|word| - 1] in AgoUnits then Some((n, word[..|word| - 1]))
        else None
  }

  /** A text built from a count and a unit reads back as that count and unit. */
  lemma {:induction false} AgoTextReadBack(count: nat, unit: string)
    requires unit in AgoUnits
    ensures ParseTimeAgo(IntToString(count) + " " + unit + PluralSuffix(count) + " ago") == Some((count, unit))
  {
    var word := unit + PluralSuffix(count);
    var rest := " " + word + " ago";
    assert IntToString(count) + " " + unit + PluralSuffix(count) + " ago" == NatToString(count) + rest;
    ReadNatToString(count, rest);
    assert rest[1..|rest| - 4] == word;
    assert rest[|rest| - 4..] == " ago";
    ParseTimeAgoSteps(NatToString(count) + rest, count, rest, unit);
  }

  /** The checks `ParseTimeAgo` makes on the text after the count. */
  lemma {:induction false} ParseTimeAgoSteps(text: string, n: nat, rest: string, unit: string)
    requires ReadNat(text) == Some((n, rest)) && unit in AgoUnits
    requires |rest| >= 5 && rest[0] == ' ' && rest[|rest| - 4..] == " ago"
    requires rest[1..|rest| - 4] == unit || rest[1..|rest| - 4] == unit + "s"
    ensures ParseTimeAgo(text) == Some((n, unit))
  {
    var word := rest[1..|rest| - 4];
    if word != unit {
      assert word !in AgoUnits && word[..|word| - 1] == unit;
    }
  }

  /** For a past moment, the time-ago text reads back as the count and unit it was made from. */
  lemma {:induction false} TimeAgoReadBack(diffMs: int)
    ensures diffMs >= 0 ==> ParseTimeAgo(FormatTimeAgo(diffMs)) == Some(TimeAgoParts(diffMs))
  {
    if diffMs >= 0 {
      var (count, unit) := TimeAgoParts(diffMs);
      AgoTextReadBack(count, unit);
    }
  }

  /** `getResultBadge`: the badge label of a result; any other result shows no badge. */
  function ResultBadge(result: string): (r: Option<string>)
    ensures r.Some? <==> result in {"win", "loss", "draw"}
    ensures r.Some? ==> ToLower(r.value) == result && 'A' <= r.value[0] <= 'Z'
  {
    match result
    case "win" => assert ToLower("Win") == "win"; Some("Win")
    case "loss" => assert ToLower("Loss") == "loss"; Some("Loss")
    case "draw" => assert ToLower("Draw") == "draw"; Some("Draw")
    case _ => None
  }

  // ---------------------------------------------------------------------------
  // Search and filters
  // ---------------------------------------------------------------------------

  datatype HistoryEntry = HistoryEntry(id: string, gameType: string, opponent: string, result: string, duration: nat)

  /** The three conditions of the filter: opponent search (ignoring case), game type, result. */
  predicate Matches(e: HistoryEntry, query: string, gameTypeFilter: string, resultFilter: string) {
    && Contains(ToLower(e.opponent), ToLower(query))
    && (gameTypeFilter == "all" || e.gameType == gameTypeFilter)
    && (resultFilter == "all" || e.result == resultFilter)
  }

  /** `filteredHistory`. */
  function Filtered(history: seq<HistoryEntry>, query: string, gameTypeFilter: string, resultFilter: string): (r: seq<HistoryEntry>)
    ensures |r| <= |history|
    ensures forall e :: e in r <==> e in history && Matches(e, query, gameTypeFilter, resultFilter)
    decreases |history|
  {
    if history == [] then []
    else
      var rest := Filtered(history[1..], query, gameTypeFilter, resultFilter);
      assert forall e :: e in history <==> e == history[0] || e in history[1..];
      if Matches(history[0], query, gameTypeFilter, resultFilter) then [history[0]] + rest else rest
  }

  /** Filtering keeps the order of the games: it works piece by piece over a concatenation. */
  lemma {:induction false} FilteredAppend(a: seq<HistoryEntry>, b: seq<HistoryEntry>, query: string, gameTypeFilter: string, resultFilter: string)
    ensures Filtered(a + b, query, gameTypeFilter, resultFilter)
            == Filtered(a, query, gameTypeFilter, resultFilter) + Filtered(b, query, gameTypeFilter, resultFilter)
    decreases |a|
  {
    if a == [] {
      assert a + b == b;
    } else {
      assert (a + b)[0] == a[0];
      assert (a + b)[1..] == a[1..] + b;
      FilteredAppend(a[1..], b, query, gameTypeFilter, resultFilter);
    }
  }

  // ---------------------------------------------------------------------------
  // Pages
  // ---------------------------------------------------------------------------

  const ItemsPerPage: nat := 5

  /** `Math.ceil(n / 5)`. */
  function TotalPages(n: nat): (t: nat)
    ensures n == 0 <==> t == 0
    ensures n > 0 ==> (t - 1) * ItemsPerPage < n <= t * ItemsPerPage
  {
    (n + ItemsPerPage - 1) / ItemsPerPage
  }

  function Min(a: int, b: int): int { if a <= b then a else b }
  function Max(a: int, b: int): int { if a >= b then a else b }

  /** The games on page `page` (counting from 1): `slice((page - 1) * 5, page * 5)`, cut at the end of the list. */
  function PageItems<T>(items: seq<T>, page: nat): (r: seq<T>)
    requires page >= 1
    ensures |r| <= ItemsPerPage
    ensures page <= TotalPages(|items|) ==> |r| > 0 && r == items[(page - 1) * ItemsPerPage..Min(page * ItemsPerPage, |items|)]
    ensures page > TotalPages(|items|) ==> r == []
  {
    var start := Min((page - 1) * ItemsPerPage, |items|);
    var end := Min(page * ItemsPerPage, |items|);
    items[start..end]
  }

  /** The pages from `from` to the last, one after another. */
  function PagesFrom<T>(items: seq<T>, from: nat): seq<T>
    requires from >= 1
    decreases TotalPages(|items|) + 1 - from
  {
    if from > TotalPages(|items|) then [] else PageItems(items, from) + PagesFrom(items, from + 1)
  }

  /** Reading every page in turn shows every game exactly once, in order. */
  lemma {:induction false} PagesCoverAll<T>(items: seq<T>)
    ensures PagesFrom(items, 1) == items
  {
    PagesCoverFrom(items, 1);
    assert items[0..] == items;
  }

  lemma {:induction false} PagesCoverFrom<T>(items: seq<T>, from: nat)
    requires from >= 1
    ensures PagesFrom(items, from) == items[Min((from - 1) * ItemsPerPage, |items|)..]
    decreases TotalPages(|items|) + 1 - from
  {
    if from <= TotalPages(|items|) {
      PagesCoverFrom(items, from + 1);
      var start := (from - 1) * ItemsPerPage;
      var end := Min(from * ItemsPerPage, |items|);
      assert items[start..] == items[start..end] + items[end..];
    }
  }

  /** The previous button: one page back, never below the first. */
  function PrevPage(page: int): (r: int)
    ensures r >= 1 && (page > 1 <==> r == page - 1)
  {
    Max(page - 1, 1)
  }

  /** The next button: one page on, never past the last. */
  function NextPage(page: int, totalPages: nat): (r: int)
    ensures r <= totalPages && (page < totalPages <==> r == page + 1)
  {
    Min(page + 1, totalPages)
  }

  /** The first and last game numbers of the "Showing a to b of n games" line. */
  function ShowingRange(page: int, n: nat): (r: (int, int))
    ensures r.1 <= n && (r.0 <= r.1 ==> r.1 - r.0 < ItemsPerPage)
    ensures page >= 1 && (page - 1) * ItemsPerPage >= n ==> r.0 > r.1
  {
    ((page - 1) * ItemsPerPage + 1, Min(page * ItemsPerPage, n))
  }

  /** On a page that exists, the line names the games actually listed. */
  lemma {:induction false} ShowingMatchesPage<T>(items: seq<T>, page: nat)
    requires 1 <= page <= TotalPages(|items|)
    ensures var (a, b) := ShowingRange(page, |items|);
      1 <= a <= b <= |items| && b - a + 1 == |PageItems(items, page)|
  {
  }

  // ---------------------------------------------------------------------------
  // The view: search text, filters and current page
  // ---------------------------------------------------------------------------

  datatype HistoryView = HistoryView(query: string, gameTypeFilter: string, resultFilter: string, page: int)

  function Shown(history: seq<HistoryEntry>, v: HistoryView): seq<HistoryEntry> {
    Filtered(history, v.query, v.gameTypeFilter, v.resultFilter)
  }

  /** The page is one the pagination can show: between the first and the last (the first when there are none). */
  predicate PageInRange(history: seq<HistoryEntry>, v: HistoryView) {
    1 <= v.page <= Max(1, TotalPages(|Shown(history, v)|))
  }

  /** The view as it opens. */
  function InitialView(): HistoryView {
    HistoryView("", "all", "all", 1)
  }

  /** Typing in the search box, as written: the page is kept. */
  function SetQuery(v: HistoryView, query: string): (r: HistoryView)
    ensures r.query == query && r.page == v.page
  {
    v.(query := query)
  }

  /** Typing in the search box, going back to the first page. */
  function SetQueryFromFirstPage(v: HistoryView, query: string): (r: HistoryView)
    ensures r.query == query && r.page == 1
  {
    v.(query := query, page := 1)
  }

  /** Choosing a game type, as written: the page is kept. */
  function SetGameTypeFilter(v: HistoryView, f: string): (r: HistoryView)
    ensures r.gameTypeFilter == f && r.page == v.page
    ensures r.query == v.query && r.resultFilter == v.resultFilter
  {
    v.(gameTypeFilter := f)
  }

  /** Choosing a result, as written: the page is kept. */
  function SetResultFilter(v: HistoryView, f: string): (r: HistoryView)
    ensures r.resultFilter == f && r.page == v.page
    ensures r.query == v.query && r.gameTypeFilter == v.gameTypeFilter
  {
    v.(resultFilter := f)
  }

  /** Choosing a game type, going back to the first page. */
  function SetGameTypeFilterFromFirstPage(v: HistoryView, f: string): (r: HistoryView)
    ensures r == SetGameTypeFilter(v, f).(page := 1)
  {
    v.(gameTypeFilter := f, page := 1)
  }

  /** Choosing a result, going back to the first page. */
  function SetResultFilterFromFirstPage(v: HistoryView, f: string): (r: HistoryView)
    ensures r == SetResultFilter(v, f).(page := 1)
  {
    v.(resultFilter := f, page := 1)
  }

  /** The previous button: only the page changes, and it stays at 1 or above. */
  function Prev(history: seq<HistoryEntry>, v: HistoryView): (r: HistoryView)
    ensures r == v.(page := r.page) && r.page >= 1
    ensures v.page > 1 ==> r.page == v.page - 1
  {
    v.(page := PrevPage(v.page))
  }

  /** The next button: only the page changes, and it never passes the last page of the shown games. */
  function Next(history: seq<HistoryEntry>, v: HistoryView): (r: HistoryView)
    ensures r == v.(page := r.page) && r.page <= TotalPages(|Shown(history, r)|)
  {
    v.(page := NextPage(v.page, TotalPages(|Shown(history, v)|)))
  }

  /** The opening view lists every game, from the first page. */
  lemma InitialViewShowsAll(history: seq<HistoryEntry>)
    ensures Shown(history, InitialView()) == history
    ensures PageInRange(history, InitialView())
  {
    FilteredAll(history, "");
  }

  /**
   * As written, a filter change on a page beyond what the new filter leaves
   * lists no games at all, while the same change from the first page lists
   * the first page of them.
   */
  lemma StalePageAfterFilter(history: seq<HistoryEntry>, v: HistoryView, f: string)
    requires v.page >= 1 && (v.page - 1) * ItemsPerPage >= |Shown(history, SetGameTypeFilter(v, f))|
    ensures PageItems(Shown(history, SetGameTypeFilter(v, f)), v.page) == []
    ensures PageInRange(history, SetGameTypeFilterFromFirstPage(v, f))
    ensures |Shown(history, SetGameTypeFilter(v, f))| > 0 ==>
              |PageItems(Shown(history, SetGameTypeFilterFromFirstPage(v, f)), 1)| > 0
  {
  }

  /**
   * With the page going back to the first on every search or filter change,
   * the opening view and every step keep the page in range, so the listed
   * games are never an empty page of a non-empty result.
   */
  lemma {:induction false} ResettingKeepsPageInRange(history: seq<HistoryEntry>, v: HistoryView, s: string)
    requires PageInRange(history, v)
    ensures PageInRange(history, InitialView())
    ensures PageInRange(history, SetQueryFromFirstPage(v, s))
    ensures PageInRange(history, SetGameTypeFilterFromFirstPage(v, s))
    ensures PageInRange(history, SetResultFilterFromFirstPage(v, s))
    ensures PageInRange(history, Prev(history, v))
    ensures TotalPages(|Shown(history, v)|) > 1 ==> PageInRange(history, Next(history, v))
    ensures |Shown(history, v)| > 0 ==> |PageItems(Shown(history, v), v.page)| > 0
  {
  }

  /**
   * As written, a search made on a later page keeps that page: on page 3 of
   * 15 games, a search that leaves 7 shows page 3 of 2, an empty list and
   * "Showing 11 to 7 of 7 games".
   */
  lemma {:induction false} StalePageAfterSearch(others: seq<HistoryEntry>, found: seq<HistoryEntry>, query: string)
    requires |others| == 8 && |found| == 7
    requires forall e :: e in others ==> !Matches(e, query, "all", "all")
    requires forall e :: e in found ==> Matches(e, query, "all", "all")
    ensures var history := others + found;
      var before := HistoryView("", "all", "all", 3);
      var after := SetQuery(before, query);
      && PageInRange(history, before)
      && !PageInRange(history, after)
      && PageItems(Shown(history, after), after.page) == []
      && ShowingRange(after.page, |Shown(history, after)|) == (11, 7)
  {
    var history := others + found;
    FilteredAppend(others, found, query, "all", "all");
    FilteredNone(others, query);
    FilteredAll(found, query);
    FilteredAll(history, "");
  }

  lemma {:induction false} FilteredNone(s: seq<HistoryEntry>, query: string)
    requires forall e :: e in s ==> !Matches(e, query, "all", "all")
    ensures Filtered(s, query, "all", "all") == []
    decreases |s|
  {
    if s != [] {
      assert s[0] in s;
      FilteredNone(s[1..], query);
    }
  }

  lemma {:induction false} FilteredAll(s: seq<HistoryEntry>, query: string)
    requires forall e :: e in s ==> Matches(e, query, "all", "all") || query == ""
    ensures Filtered(s, query, "all", "all") == s
    decreases |s|
  {
    if s != [] {
      if query == "" {
        assert StartsWith(ToLower(s[0].opponent), ToLower(query));
      }
      FilteredAll(s[1..], query);
    }
  }

  /** The search above on concrete games: eight played against "ann", seven against "bob", searched for "bob". */
  lemma StaleSearchExample()
    ensures var history := seq(8, _ => HistoryEntry("a", "chess", "ann", "win", 60)) + seq(7, _ => HistoryEntry("b", "chess", "bob", "loss", 60));
      ShowingRange(SetQuery(HistoryView("", "all", "all", 3), "bob").page,
                   |Shown(history, SetQuery(HistoryView("", "all", "all", 3), "bob"))|) == (11, 7)
  {
    var ann := HistoryEntry("a", "chess", "ann", "win", 60);
    var bob := HistoryEntry("b", "chess", "bob", "loss", 60);
    assert ToLower("ann") == "ann";
    assert ToLower("bob") == "bob";
    assert !Contains("", "bob");
    assert !Contains("n", "bob") by { assert "n"[1..] == ""; }
    assert !Contains("nn", "bob") by { assert "nn"[1..] == "n"; }
    assert !Contains("ann", "bob") by { assert "ann"[1..] == "nn"; assert "ann"[..3][0] != "bob"[0]; }
    assert StartsWith("bob", "bob");
    StalePageAfterSearch(seq(8, _ => ann), seq(7, _ => bob), "bob");
  }
}
