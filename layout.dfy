/** The layout's `getCurrentPage`: which page id the current URL path belongs
    to, decided by an ordered chain of tests. The layout passes the result to
    the sidebar as `currentPage`, a prop the sidebar does not read: the menu's
    highlight comes from the router's active-link test instead. */
module Layout {
  import Text
  import Sidebar
  import App
  import Wrappers

  /** The layout's own state: the role it keeps with `useState` (initially
      super-admin) and the router's current path. The layout takes no props,
      so the role and page of the application shell never reach it. */
  datatype Shell = Shell(currentRole: App.UserRole, path: string)

  const InitialRole: App.UserRole := App.SuperAdmin

  /** The layout's routes mount the event-create, event-detail,
      communities-list, community-create and tracks-list screens without a
      `navigate` prop, although those screens call it. */
  const RoutedNavigate: App.NavProp := App.NoNavigate

  /** The event-detail route `/events/:id` mounts the screen without its
      `eventId` prop, which is then `undefined`. */
  const RoutedDetailEventId: Wrappers.Option<string> := Wrappers.None

  /** The thirteen page ids the chain can produce. */
  const PageIds: set<string> := {
    "dashboard", "events", "communities", "tracks", "feed", "marketplace",
    "cms", "media", "push", "users", "reports", "config", "roles" }

  /** The prefixes tested after the exact `/dashboard` match, in order. */
  const Prefixes: seq<string> := [
    "/events", "/communities", "/tracks", "/feed", "/marketplace", "/cms",
    "/media", "/push", "/users", "/reports", "/config", "/roles"]

  /** `getCurrentPage`: `/dashboard` exactly, else the first matching prefix,
      else the dashboard. */
  function GetCurrentPage(path: string): (page: string)
    ensures page in PageIds
    ensures path == "/dashboard" ==> page == "dashboard"
  {
    if path == "/dashboard" then "dashboard"
    else if Text.StartsWith(path, "/events") then "events"
    else if Text.StartsWith(path, "/communities") then "communities"
    else if Text.StartsWith(path, "/tracks") then "tracks"
    else if Text.StartsWith(path, "/feed") then "feed"
    else if Text.StartsWith(path, "/marketplace") then "marketplace"
    else if Text.StartsWith(path, "/cms") then "cms"
    else if Text.StartsWith(path, "/media") then "media"
    else if Text.StartsWith(path, "/push") then "push"
    else if Text.StartsWith(path, "/users") then "users"
    else if Text.StartsWith(path, "/reports") then "reports"
    else if Text.StartsWith(path, "/config") then "config"
    else if Text.StartsWith(path, "/roles") then "roles"
    else "dashboard"
  }

  /** The page a prefix names: the prefix without its leading slash. */
  function PageOf(prefix: string): string {
    if prefix == "" then "" else prefix[1..]
  }

  /** Reference reading of the chain after the exact test: the page named by
      the first prefix in the list that the path starts with. */
  function FirstMatch(path: string, ps: seq<string>): (page: string)
    ensures page == "dashboard" || exists k :: 0 <= k < |ps| && page == PageOf(ps[k])
  {
    if |ps| == 0 then "dashboard"
    else if Text.StartsWith(path, ps[0]) then PageOf(ps[0])
    else
      var r := FirstMatch(path, ps[1..]);
      assert r != "dashboard" ==> exists k :: 1 <= k < |ps| && r == PageOf(ps[k]) by {
        if r != "dashboard" {
          var k :| 0 <= k < |ps[1..]| && r == PageOf(ps[1..][k]);
          assert ps[1..][k] == ps[k + 1];
        }
      }
      r
  }

  /** The first match is the dashboard when no prefix matches, and otherwise
      the page of the earliest matching prefix. */
  lemma {:induction false} FirstMatchSpec(path: string, ps: seq<string>, k: nat)
    requires k <= |ps|
    requires forall j :: 0 <= j < k ==> !Text.StartsWith(path, ps[j])
    ensures k == |ps| ==> FirstMatch(path, ps) == "dashboard"
    ensures k < |ps| && Text.StartsWith(path, ps[k]) ==> FirstMatch(path, ps) == PageOf(ps[k])
    decreases k
  {
    if k > 0 {
      assert !Text.StartsWith(path, ps[0]);
      forall j | 0 <= j < k - 1 ensures !Text.StartsWith(path, ps[1..][j]) {
        assert ps[1..][j] == ps[j + 1];
      }
      FirstMatchSpec(path, ps[1..], k - 1);
    }
  }

  /** One step of the first match: the head prefix decides, or the rest. */
  lemma FirstMatchStep(path: string, ps: seq<string>, k: nat, page: string)
    requires k < |ps| && PageOf(ps[k]) == page
    ensures FirstMatch(path, ps[k..]) ==
      if Text.StartsWith(path, ps[k]) then page else FirstMatch(path, ps[k + 1..])
  {
    assert ps[k..][0] == ps[k] && ps[k..][1..] == ps[k + 1..];
  }

  /** The last four tests of the chain are the first match over the last four
      prefixes. */
  lemma {:induction false} ChainFrom8(path: string)
    ensures FirstMatch(path, Prefixes[8..]) ==
      if Text.StartsWith(path, "/users") then "users"
      else if Text.StartsWith(path, "/reports") then "reports"
      else if Text.StartsWith(path, "/config") then "config"
      else if Text.StartsWith(path, "/roles") then "roles"
      else "dashboard"
  {
    assert Prefixes[12..] == [];
    FirstMatchStep(path, Prefixes, 11, "roles");
    FirstMatchStep(path, Prefixes, 10, "config");
    FirstMatchStep(path, Prefixes, 9, "reports");
    FirstMatchStep(path, Prefixes, 8, "users");
  }

  /** The middle four tests, then the rest from the ninth prefix on. */
  lemma {:induction false} ChainFrom4(path: string)
    ensures FirstMatch(path, Prefixes[4..]) ==
      if Text.StartsWith(path, "/marketplace") then "marketplace"
      else if Text.StartsWith(path, "/cms") then "cms"
      else if Text.StartsWith(path, "/media") then "media"
      else if Text.StartsWith(path, "/push") then "push"
      else FirstMatch(path, Prefixes[8..])
  {
    FirstMatchStep(path, Prefixes, 7, "push");
    FirstMatchStep(path, Prefixes, 6, "media");
    FirstMatchStep(path, Prefixes, 5, "cms");
    FirstMatchStep(path, Prefixes, 4, "marketplace");
  }

  /** The first four tests, then the rest from the fifth prefix on. */
  lemma {:induction false} ChainFrom0(path: string)
    ensures FirstMatch(path, Prefixes) ==
      if Text.StartsWith(path, "/events") then "events"
      else if Text.StartsWith(path, "/communities") then "communities"
      else if Text.StartsWith(path, "/tracks") then "tracks"
      else if Text.StartsWith(path, "/feed") then "feed"
      else FirstMatch(path, Prefixes[4..])
  {
    FirstMatchStep(path, Prefixes, 3, "feed");
    FirstMatchStep(path, Prefixes, 2, "tracks");
    FirstMatchStep(path, Prefixes, 1, "communities");
    FirstMatchStep(path, Prefixes, 0, "events");
    assert Prefixes[0..] == Prefixes;
  }

  /** The if-chain is that first match over the listed prefixes. */
  lemma {:induction false} ChainIsFirstMatch(path: string)
    requires path != "/dashboard"
    ensures GetCurrentPage(path) == FirstMatch(path, Prefixes)
  {
    ChainFrom0(path);
    ChainFrom4(path);
    ChainFrom8(path);
  }

  /** A path that matches none of the prefixes, `/dashboard` excepted, shows
      the dashboard. */
  lemma UnmatchedPathShowsDashboard(path: string)
    requires forall k :: 0 <= k < |Prefixes| ==> !Text.StartsWith(path, Prefixes[k])
    ensures GetCurrentPage(path) == "dashboard"
  {
    if path != "/dashboard" {
      ChainIsFirstMatch(path);
      FirstMatchSpec(path, Prefixes, |Prefixes|);
    }
  }

  /** A path that disagrees with a prefix at some position within both does
      not start with it, whatever follows. */
  lemma PrefixMismatch(p: string, suffix: string, q: string, k: nat)
    requires k < |p| && k < |q| && p[k] != q[k]
    ensures !Text.StartsWith(p + suffix, q)
  {
    assert (p + suffix)[k] == p[k];
    assert |q| <= |p + suffix| ==> (p + suffix)[..|q|][k] == p[k];
  }

  /** Every menu path, and every path below it, maps to that menu item's id:
      the chain tests the prefixes in the menu's own order and no earlier
      prefix captures a later item's path. */
  lemma MenuPathsMapToTheirItem(i: nat, suffix: string)
    requires i < |Sidebar.MenuItems|
    ensures GetCurrentPage(Sidebar.MenuItems[i].path + suffix) == Sidebar.MenuItems[i].id
  {
    if i < 2 { MenuPathsBelow2(i, suffix); }
    else if i < 4 { MenuPathsBelow4(i, suffix); }
    else if i < 7 { MenuPathsBelow7(i, suffix); }
    else if i < 10 { MenuPathsBelow10(i, suffix); }
    else { MenuPathsBelow13(i, suffix); }
  }

  lemma {:induction false} MenuPathsBelow2(i: nat, suffix: string)
    requires 0 <= i < 2
    ensures GetCurrentPage(Sidebar.MenuItems[i].path + suffix) == Sidebar.MenuItems[i].id
  {
    if i == 0 {
      assert Sidebar.MenuItems[0] == Sidebar.DashboardItem;
      PrefixMismatch("/dashboard", suffix, "/events", 1);
      PrefixMismatch("/dashboard", suffix, "/communities", 1);
      PrefixMismatch("/dashboard", suffix, "/tracks", 1);
      PrefixMismatch("/dashboard", suffix, "/feed", 1);
      PrefixMismatch("/dashboard", suffix, "/marketplace", 1);
      PrefixMismatch("/dashboard", suffix, "/cms", 1);
      PrefixMismatch("/dashboard", suffix, "/media", 1);
      PrefixMismatch("/dashboard", suffix, "/push", 1);
      PrefixMismatch("/dashboard", suffix, "/users", 1);
      PrefixMismatch("/dashboard", suffix, "/reports", 1);
      PrefixMismatch("/dashboard", suffix, "/config", 1);
      PrefixMismatch("/dashboard", suffix, "/roles", 1);
    } else {
      assert Sidebar.MenuItems[1] == Sidebar.EventsItem;
      PrefixMismatch("/events", suffix, "/dashboard", 1);
      assert ("/events" + suffix)[..7] == "/events";
    }
  }

  lemma {:induction false} MenuPathsBelow4(i: nat, suffix: string)
    requires 2 <= i < 4
    ensures GetCurrentPage(Sidebar.MenuItems[i].path + suffix) == Sidebar.MenuItems[i].id
  {
    if i == 2 {
      assert Sidebar.MenuItems[2] == Sidebar.CommunitiesItem;
      PrefixMismatch("/communities", suffix, "/dashboard", 1);
      PrefixMismatch("/communities", suffix, "/events", 1);
      assert ("/communities" + suffix)[..12] == "/communities";
    } else {
      assert Sidebar.MenuItems[3] == Sidebar.TracksItem;
      PrefixMismatch("/tracks", suffix, "/dashboard", 1);
      PrefixMismatch("/tracks", suffix, "/events", 1);
      PrefixMismatch("/tracks", suffix, "/communities", 1);
      assert ("/tracks" + suffix)[..7] == "/tracks";
    }
  }

  lemma {:induction false} MenuPathsBelow7(i: nat, suffix: string)
    requires 4 <= i < 7
    ensures GetCurrentPage(Sidebar.MenuItems[i].path + suffix) == Sidebar.MenuItems[i].id
  {
    if i == 4 {
      assert Sidebar.MenuItems[4] == Sidebar.FeedItem;
      PrefixMismatch("/feed", suffix, "/dashboard", 1);
      PrefixMismatch("/feed", suffix, "/events", 1);
      PrefixMismatch("/feed", suffix, "/communities", 1);
      PrefixMismatch("/feed", suffix, "/tracks", 1);
      assert ("/feed" + suffix)[..5] == "/feed";
    } else if i == 5 {
      assert Sidebar.MenuItems[5] == Sidebar.MarketplaceItem;
      PrefixMismatch("/marketplace", suffix, "/dashboard", 1);
      PrefixMismatch("/marketplace", suffix, "/events", 1);
      PrefixMismatch("/marketplace", suffix, "/communities", 1);
      PrefixMismatch("/marketplace", suffix, "/tracks", 1);
      PrefixMismatch("/marketplace", suffix, "/feed", 1);
      assert ("/marketplace" + suffix)[..12] == "/marketplace";
    } else {
      assert Sidebar.MenuItems[6] == Sidebar.CmsItem;
      PrefixMismatch("/cms", suffix, "/dashboard", 1);
      PrefixMismatch("/cms", suffix, "/events", 1);
      PrefixMismatch("/cms", suffix, "/communities", 2);
      PrefixMismatch("/cms", suffix, "/tracks", 1);
      PrefixMismatch("/cms", suffix, "/feed", 1);
      PrefixMismatch("/cms", suffix, "/marketplace", 1);
      assert ("/cms" + suffix)[..4] == "/cms";
    }
  }

  lemma {:induction false} MenuPathsBelow10(i: nat, suffix: string)
    requires 7 <= i < 10
    ensures GetCurrentPage(Sidebar.MenuItems[i].path + suffix) == Sidebar.MenuItems[i].id
  {
    if i == 7 {
      assert Sidebar.MenuItems[7] == Sidebar.MediaItem;
      PrefixMismatch("/media", suffix, "/dashboard", 1);
      PrefixMismatch("/media", suffix, "/events", 1);
      PrefixMismatch("/media", suffix, "/communities", 1);
      PrefixMismatch("/media", suffix, "/tracks", 1);
      PrefixMismatch("/media", suffix, "/feed", 1);
      PrefixMismatch("/media", suffix, "/marketplace", 2);
      PrefixMismatch("/media", suffix, "/cms", 1);
      assert ("/media" + suffix)[..6] == "/media";
    } else if i == 8 {
      assert Sidebar.MenuItems[8] == Sidebar.PushItem;
      PrefixMismatch("/push", suffix, "/dashboard", 1);
      PrefixMismatch("/push", suffix, "/events", 1);
      PrefixMismatch("/push", suffix, "/communities", 1);
      PrefixMismatch("/push", suffix, "/tracks", 1);
      PrefixMismatch("/push", suffix, "/feed", 1);
      PrefixMismatch("/push", suffix, "/marketplace", 1);
      PrefixMismatch("/push", suffix, "/cms", 1);
      PrefixMismatch("/push", suffix, "/media", 1);
      assert ("/push" + suffix)[..5] == "/push";
    } else {
      assert Sidebar.MenuItems[9] == Sidebar.UsersItem;
      PrefixMismatch("/users", suffix, "/dashboard", 1);
      PrefixMismatch("/users", suffix, "/events", 1);
      PrefixMismatch("/users", suffix, "/communities", 1);
      PrefixMismatch("/users", suffix, "/tracks", 1);
      PrefixMismatch("/users", suffix, "/feed", 1);
      PrefixMismatch("/users", suffix, "/marketplace", 1);
      PrefixMismatch("/users", suffix, "/cms", 1);
      PrefixMismatch("/users", suffix, "/media", 1);
      PrefixMismatch("/users", suffix, "/push", 1);
      assert ("/users" + suffix)[..6] == "/users";
    }
  }

  lemma {:induction false} MenuPathsBelow13(i: nat, suffix: string)
    requires 10 <= i < 13
    ensures GetCurrentPage(Sidebar.MenuItems[i].path + suffix) == Sidebar.MenuItems[i].id
  {
    if i == 10 {
      assert Sidebar.MenuItems[10] == Sidebar.ReportsItem;
      PrefixMismatch("/reports", suffix, "/dashboard", 1);
      PrefixMismatch("/reports", suffix, "/events", 1);
      PrefixMismatch("/reports", suffix, "/communities", 1);
      PrefixMismatch("/reports", suffix, "/tracks", 1);
      PrefixMismatch("/reports", suffix, "/feed", 1);
      PrefixMismatch("/reports", suffix, "/marketplace", 1);
      PrefixMismatch("/reports", suffix, "/cms", 1);
      PrefixMismatch("/reports", suffix, "/media", 1);
      PrefixMismatch("/reports", suffix, "/push", 1);
      PrefixMismatch("/reports", suffix, "/users", 1);
      assert ("/reports" + suffix)[..8] == "/reports";
    } else if i == 11 {
      assert Sidebar.MenuItems[11] == Sidebar.ConfigItem;
      PrefixMismatch("/config", suffix, "/dashboard", 1);
      PrefixMismatch("/config", suffix, "/events", 1);
      PrefixMismatch("/config", suffix, "/communities", 3);
      PrefixMismatch("/config", suffix, "/tracks", 1);
      PrefixMismatch("/config", suffix, "/feed", 1);
      PrefixMismatch("/config", suffix, "/marketplace", 1);
      PrefixMismatch("/config", suffix, "/cms", 2);
      PrefixMismatch("/config", suffix, "/media", 1);
      PrefixMismatch("/config", suffix, "/push", 1);
      PrefixMismatch("/config", suffix, "/users", 1);
      PrefixMismatch("/config", suffix, "/reports", 1);
      assert ("/config" + suffix)[..7] == "/config";
    } else {
      assert Sidebar.MenuItems[12] == Sidebar.RolesItem;
      PrefixMismatch("/roles", suffix, "/dashboard", 1);
      PrefixMismatch("/roles", suffix, "/events", 1);
      PrefixMismatch("/roles", suffix, "/communities", 1);
      PrefixMismatch("/roles", suffix, "/tracks", 1);
      PrefixMismatch("/roles", suffix, "/feed", 1);
      PrefixMismatch("/roles", suffix, "/marketplace", 1);
      PrefixMismatch("/roles", suffix, "/cms", 1);
      PrefixMismatch("/roles", suffix, "/media", 1);
      PrefixMismatch("/roles", suffix, "/push", 1);
      PrefixMismatch("/roles", suffix, "/users", 1);
      PrefixMismatch("/roles", suffix, "/reports", 2);
      PrefixMismatch("/roles", suffix, "/config", 1);
      assert ("/roles" + suffix)[..6] == "/roles";
    }
  }

  /** Exactly `/dashboard` maps to the dashboard, and so does an unknown path;
      `/events/create` belongs to the events page. */
  lemma Examples()
    ensures GetCurrentPage("/dashboard") == "dashboard"
    ensures GetCurrentPage("/") == "dashboard"
    ensures GetCurrentPage("/events/create") == "events"
  {
    MenuPathsMapToTheirItem(1, "/create");
    assert Sidebar.MenuItems[1] == Sidebar.EventsItem;
  }
}
