/**
 * The site header of both front ends: which navigation link is highlighted
 * for the current path, and when the mobile menu is open.
 */
module SiteHeader {
  import opened Common

  /** `isActive`: the home link only on "/" itself, any other link on every path it prefixes. */
  predicate IsActive(pathname: string, path: string)
    ensures IsActive(pathname, path) ==> StartsWith(pathname, path)
  {
    (path == "/" && pathname == "/") || (path != "/" && StartsWith(pathname, path))
  }

  /** The navigation links of the frontend header; the other header has the first three. */
  const FrontendLinks: seq<string> := ["/", "/games", "/dashboard", "/temp"]

  /** Whatever the path, at most one link of the header is highlighted; on "/" it is the home link. */
  lemma {:induction false} AtMostOneActive(pathname: string)
    ensures forall i, j :: 0 <= i < j < |FrontendLinks| && IsActive(pathname, FrontendLinks[i]) ==> !IsActive(pathname, FrontendLinks[j])
    ensures pathname == "/" ==> IsActive(pathname, "/") && forall i :: 1 <= i < |FrontendLinks| ==> !IsActive(pathname, FrontendLinks[i])
  {
    forall i, j | 0 <= i < j < |FrontendLinks| && IsActive(pathname, FrontendLinks[i])
      ensures !IsActive(pathname, FrontendLinks[j])
    {
      var a, b := FrontendLinks[i], FrontendLinks[j];
      if i == 0 {
        assert pathname == "/";
        assert |b| > 1;
      } else {
        assert pathname[..|a|] == a && a[1] != b[1];
      }
    }
  }

  /** A page below a section highlights the section, and so does any longer name that starts with it. */
  lemma SectionPrefixes()
    ensures IsActive("/games/chess/play", "/games") && !IsActive("/games/chess/play", "/")
    ensures IsActive("/gamesroom", "/games")
  {
    assert "/games/chess/play"[..6] == "/games";
    assert "/gamesroom"[..6] == "/games";
  }

  // ---------------------------------------------------------------------------
  // The mobile menu
  // ---------------------------------------------------------------------------

  datatype MenuEvent =
    | ToggleClicked
    | PathChanged
    | MobileLinkClicked
    | LogoutClicked
    /** A mouse press outside the open menu's panel. */
    | PressedOutside
    | PressedInside

  /**
   * The mobile menu of the frontend header, one event at a time: the
   * button's click flips it; a path change, a mobile link, logging out or a
   * mouse press outside the open panel closes it; a press inside leaves it.
   * The menu button itself lies outside the panel, so a mouse press on it
   * is a `PressedOutside` followed by a `ToggleClicked` (see `MousePress`).
   */
  function FrontendMenu(open: bool, e: MenuEvent): (r: bool)
    ensures e == ToggleClicked ==> r == !open
    ensures e == PressedInside ==> r == open
    ensures e != ToggleClicked && e != PressedInside ==> !r
  {
    match e
    case ToggleClicked => !open
    case PathChanged => false
    case MobileLinkClicked => false
    case LogoutClicked => false
    case PressedOutside => false
    case PressedInside => open
  }

  /**
   * The mobile menu of the other header: the button flips it and a mobile
   * link closes it; nothing else touches it, not even a path change or
   * logging out.
   */
  function SiteMenu(open: bool, e: MenuEvent): (r: bool)
    ensures e == ToggleClicked ==> r == !open
    ensures e == MobileLinkClicked ==> !r
    ensures e != ToggleClicked && e != MobileLinkClicked ==> r == open
  {
    match e
    case ToggleClicked => !open
    case MobileLinkClicked => false
    case _ => open
  }

  /** The menu after a run of events, starting from the given state. */
  function RunFrontend(open: bool, events: seq<MenuEvent>): bool
    decreases |events|
  {
    if events == [] then open else RunFrontend(FrontendMenu(open, events[0]), events[1..])
  }

  function RunSite(open: bool, events: seq<MenuEvent>): bool
    decreases |events|
  {
    if events == [] then open else RunSite(SiteMenu(open, events[0]), events[1..])
  }

  function CountToggles(events: seq<MenuEvent>): nat
    decreases |events|
  {
    if events == [] then 0 else (if events[0] == ToggleClicked then 1 else 0) + CountToggles(events[1..])
  }

  /**
   * In both headers, a menu that only sees clicks of its button with no
   * mouse press before them (the button worked from the keyboard) is open
   * exactly after an odd number of them.
   */
  lemma {:induction false} TogglesAlternate(open: bool, events: seq<MenuEvent>)
    requires forall i :: 0 <= i < |events| ==> events[i] == ToggleClicked
    ensures RunFrontend(open, events) == (open != (CountToggles(events) % 2 == 1))
    ensures RunSite(open, events) == (open != (CountToggles(events) % 2 == 1))
    decreases |events|
  {
    if events != [] {
      TogglesAlternate(!open, events[1..]);
    }
  }

  /**
   * In the frontend header, a menu whose last event closes it stays closed
   * whatever came before; in the other header a path change keeps it as it
   * was.
   */
  lemma {:induction false} LastEventDecides(open: bool, events: seq<MenuEvent>, last: MenuEvent)
    requires last != ToggleClicked && last != PressedInside
    ensures !RunFrontend(open, events + [last])
    ensures RunSite(open, events + [PathChanged]) == RunSite(open, events)
    decreases |events|
  {
    if events == [] {
      assert events + [last] == [last];
      assert events + [PathChanged] == [PathChanged];
    } else {
      assert (events + [last])[1..] == events[1..] + [last];
      assert (events + [PathChanged])[1..] == events[1..] + [PathChanged];
      LastEventDecides(FrontendMenu(open, events[0]), events[1..], last);
      LastEventDecides(SiteMenu(open, events[0]), events[1..], last);
    }
  }

  // ---------------------------------------------------------------------------
  // Mouse presses of the frontend's menu button
  // ---------------------------------------------------------------------------

  /**
   * The events of one mouse press on the frontend's menu button. The button
   * is not inside the element `mobileMenuRef` marks, so while the menu is
   * open its mousedown reaches the outside-press listener before its click
   * reaches the toggle; while the menu is closed no listener is attached.
   */
  function MousePress(open: bool): (r: seq<MenuEvent>)
    ensures 0 < |r| && r[|r| - 1] == ToggleClicked
    ensures open <==> PressedOutside in r
  {
    if open then [PressedOutside, ToggleClicked] else [ToggleClicked]
  }

  /** The same press with the button counted as part of the panel, as its close icon evidently intends. */
  function GuardedMousePress(open: bool): (r: seq<MenuEvent>)
    ensures 0 < |r| && r[|r| - 1] == ToggleClicked && PressedOutside !in r
  {
    if open then [PressedInside, ToggleClicked] else [ToggleClicked]
  }

  /**
   * As written, a mouse press on the button of an open menu closes it and
   * at once opens it again: the menu is open after every press. With the
   * button counted as part of the panel a press flips the menu.
   */
  lemma ButtonPressKeepsMenuOpen(open: bool)
    ensures RunFrontend(open, MousePress(open))
    ensures RunFrontend(open, GuardedMousePress(open)) == !open
  {
    assert [PressedOutside, ToggleClicked][1..] == [ToggleClicked];
    assert [PressedInside, ToggleClicked][1..] == [ToggleClicked];
  }

  /** The menu after `n` mouse presses of its button, as written. */
  function MousePresses(open: bool, n: nat): bool
    decreases n
  {
    if n == 0 then open else MousePresses(RunFrontend(open, MousePress(open)), n - 1)
  }

  /** The menu after `n` mouse presses of its button, with the press guarded. */
  function GuardedMousePresses(open: bool, n: nat): bool
    decreases n
  {
    if n == 0 then open else GuardedMousePresses(RunFrontend(open, GuardedMousePress(open)), n - 1)
  }

  /**
   * Once pressed, the frontend's menu can never be closed with the mouse on
   * its button, whatever the number of presses; the guarded button
   * alternates, open exactly after an odd number of presses from closed.
   */
  lemma {:induction false} MousePressesNeverClose(open: bool, n: nat)
    ensures n > 0 ==> MousePresses(open, n)
    ensures GuardedMousePresses(open, n) == (open != (n % 2 == 1))
    decreases n
  {
    if n > 0 {
      ButtonPressKeepsMenuOpen(open);
      MousePressesNeverClose(true, n - 1);
      MousePressesNeverClose(!open, n - 1);
    }
  }
}
