/** The active-tab classifier of src/components/nav/BottomNav.tsx. */
module BottomNav {
  import opened Js

  /** The four `navItems`. */
  datatype Tab = Home | Explore | Saved | Profile

  /** A tab's `id`. */
  function TabId(t: Tab): string {
    match t
    case Home => "home"
    case Explore => "explore"
    case Saved => "saved"
    case Profile => "profile"
  }

  /** The ids of `navItems`, in display order. */
  const NavItemIds: seq<string> := ["home", "explore", "saved", "profile"]

  /** `getActiveTab()`: "/" is home, then prefix tests for explore, saved
      and profile in that order; anything else falls back to home. */
  function GetActiveTab(pathname: string): (r: Tab)
    ensures r == Explore <==> pathname != "/" && StartsWith(pathname, "/explore")
    ensures r == Saved <==> pathname != "/" && !StartsWith(pathname, "/explore") && StartsWith(pathname, "/saved")
    ensures r == Profile <==>
      pathname != "/" && !StartsWith(pathname, "/explore") && !StartsWith(pathname, "/saved")
      && StartsWith(pathname, "/profile")
    ensures r == Home <==>
      pathname == "/" || (!StartsWith(pathname, "/explore") && !StartsWith(pathname, "/saved")
      && !StartsWith(pathname, "/profile"))
  {
    if pathname == "/" then Home
    else if StartsWith(pathname, "/explore") then Explore
    else if StartsWith(pathname, "/saved") then Saved
    else if StartsWith(pathname, "/profile") then Profile
    else Home
  }

  /** The three prefixes exclude each other, so the order of the tests does
      not matter: each tab is chosen exactly when its own prefix is present. */
  lemma PrefixesDecide(pathname: string)
    ensures GetActiveTab(pathname) == Explore <==> StartsWith(pathname, "/explore")
    ensures GetActiveTab(pathname) == Saved <==> StartsWith(pathname, "/saved")
    ensures GetActiveTab(pathname) == Profile <==> StartsWith(pathname, "/profile")
  {
    if StartsWith(pathname, "/explore") {
      assert pathname[1] == 'e';
    }
    if StartsWith(pathname, "/saved") {
      assert pathname[1] == 's';
    }
    if StartsWith(pathname, "/profile") {
      assert pathname[1] == 'p';
    }
  }

  /** The active tab is always one of the rendered tabs. */
  lemma ActiveTabIsNavItem(pathname: string)
    ensures TabId(GetActiveTab(pathname)) in NavItemIds
  {
  }

  /** The prefix test matches longer words: "/explorer" lights up explore,
      and routes without a tab, such as "/search", light up home. */
  lemma PrefixExamples()
    ensures GetActiveTab("/") == Home
    ensures GetActiveTab("/explorer") == Explore
    ensures GetActiveTab("/saved/123") == Saved
    ensures GetActiveTab("/search") == Home
    ensures GetActiveTab("/travel") == Home
  {
    assert "/explorer"[..8] == "/explore";
    assert "/saved/123"[..6] == "/saved";
    assert "/search"[2] != "/saved"[2];
  }
}
