/** The side menu: a fixed table of thirteen pages, each listing the roles
    that may see it, filtered by the current role. */
module Sidebar {
  import opened App
  import Seqs

  /** A menu entry; `caption` is the source's `label`. */
  datatype MenuItem = MenuItem(id: string, caption: string, roles: seq<UserRole>, path: string)

  const AllRoles: seq<UserRole> := [SuperAdmin, ContentManager, CommunityManager, Moderator]

  /** `menuItems`, in display order; every path is "/" followed by the id. */
  const MenuItems: seq<MenuItem> := [
    DashboardItem, EventsItem, CommunitiesItem, TracksItem, FeedItem,
    MarketplaceItem, CmsItem, MediaItem, PushItem, UsersItem,
    ReportsItem, ConfigItem, RolesItem]

  const DashboardItem := MenuItem("dashboard", "Dashboard", AllRoles, "/dashboard")
  const EventsItem := MenuItem("events", "Events", [SuperAdmin, ContentManager, CommunityManager], "/events")
  const CommunitiesItem := MenuItem("communities", "Communities", [SuperAdmin, ContentManager, CommunityManager], "/communities")
  const TracksItem := MenuItem("tracks", "Tracks", [SuperAdmin, CommunityManager], "/tracks")
  const FeedItem := MenuItem("feed", "Feed Moderation", [SuperAdmin, ContentManager, Moderator], "/feed")
  const MarketplaceItem := MenuItem("marketplace", "Marketplace", [SuperAdmin, ContentManager, Moderator], "/marketplace")
  const CmsItem := MenuItem("cms", "Content Manager", [SuperAdmin, ContentManager], "/cms")
  const MediaItem := MenuItem("media", "Media Library", [SuperAdmin, ContentManager], "/media")
  const PushItem := MenuItem("push", "Push Notifications", [SuperAdmin, ContentManager], "/push")
  const UsersItem := MenuItem("users", "Users", [SuperAdmin, Moderator], "/users")
  const ReportsItem := MenuItem("reports", "Reports & Analytics", AllRoles, "/reports")
  const ConfigItem := MenuItem("config", "App Configuration", [SuperAdmin], "/config")
  const RolesItem := MenuItem("roles", "Roles & Permissions", [SuperAdmin], "/roles")

  /** `item.roles.includes(role)`. */
  predicate VisibleTo(role: UserRole, item: MenuItem) {
    role in item.roles
  }

  /** The filter callback for one role. */
  function KeepFor(role: UserRole): MenuItem -> bool {
    (item: MenuItem) => VisibleTo(role, item)
  }

  /** `menuItems.filter(item => item.roles.includes(currentRole))`. */
  function VisibleItems(role: UserRole): seq<MenuItem> {
    Seqs.Filter(MenuItems, KeepFor(role))
  }

  /** An item is shown exactly when it is in the table and lists the role, and
      the shown items keep the table's order. */
  lemma VisibleItemsSpec(role: UserRole, item: MenuItem)
    ensures item in VisibleItems(role) <==> item in MenuItems && role in item.roles
    ensures Seqs.IsSubsequence(VisibleItems(role), MenuItems)
  {
    Seqs.FilterMembership(MenuItems, KeepFor(role), item);
    Seqs.FilterIsSubsequence(MenuItems, KeepFor(role));
  }

  /** Every path is "/" followed by the item's id, and ids are distinct. */
  lemma TableShape()
    ensures |MenuItems| == 13
    ensures forall i :: 0 <= i < |MenuItems| ==> MenuItems[i].path == "/" + MenuItems[i].id
    ensures forall i, j :: 0 <= i < j < |MenuItems| ==> MenuItems[i].id != MenuItems[j].id
  {
  }

  /** The dashboard and reports are visible to every role; the configuration
      and roles pages to super-admin only. */
  lemma RoleSpecificItems(role: UserRole)
    ensures VisibleTo(role, DashboardItem) && VisibleTo(role, ReportsItem)
    ensures VisibleTo(role, ConfigItem) <==> role == SuperAdmin
    ensures VisibleTo(role, RolesItem) <==> role == SuperAdmin
  {
  }

  /** Super-admin sees the whole menu. */
  lemma SuperAdminSeesAll()
    ensures VisibleItems(SuperAdmin) == MenuItems
  {
    Seqs.FilterKeepsAll(MenuItems, KeepFor(SuperAdmin));
  }

  const ModeratorKeep := KeepFor(Moderator)

  /** One step of the moderator's filter over the table. */
  lemma ModeratorStep(k: nat, item: MenuItem)
    requires k < |MenuItems| && MenuItems[k] == item
    ensures Seqs.Filter(MenuItems[k..], ModeratorKeep) ==
      (if Moderator in item.roles then [item] else []) + Seqs.Filter(MenuItems[k + 1..], ModeratorKeep)
  {
    Seqs.FilterStep(MenuItems, k, ModeratorKeep);
  }

  lemma {:induction false} ModeratorSeesFrom10()
    ensures Seqs.Filter(MenuItems[10..], ModeratorKeep) == [ReportsItem]
  {
    assert MenuItems[13..] == [];
    ModeratorStep(12, RolesItem);
    ModeratorStep(11, ConfigItem);
    ModeratorStep(10, ReportsItem);
  }

  lemma {:induction false} ModeratorSeesFrom7()
    ensures Seqs.Filter(MenuItems[7..], ModeratorKeep) == [UsersItem, ReportsItem]
  {
    ModeratorSeesFrom10();
    ModeratorStep(9, UsersItem);
    ModeratorStep(8, PushItem);
    ModeratorStep(7, MediaItem);
  }

  lemma {:induction false} ModeratorSeesFrom5()
    ensures Seqs.Filter(MenuItems[5..], ModeratorKeep) == [MarketplaceItem, UsersItem, ReportsItem]
  {
    ModeratorSeesFrom7();
    ModeratorStep(6, CmsItem);
    ModeratorStep(5, MarketplaceItem);
  }

  lemma {:induction false} ModeratorSeesFrom4()
    ensures Seqs.Filter(MenuItems[4..], ModeratorKeep) == [FeedItem, MarketplaceItem, UsersItem, ReportsItem]
  {
    ModeratorSeesFrom5();
    ModeratorStep(4, FeedItem);
  }

  lemma {:induction false} ModeratorSeesFrom1()
    ensures Seqs.Filter(MenuItems[1..], ModeratorKeep) == [FeedItem, MarketplaceItem, UsersItem, ReportsItem]
  {
    ModeratorSeesFrom4();
    var rest := Seqs.Filter(MenuItems[4..], ModeratorKeep);
    ModeratorStep(3, TracksItem);
    assert Seqs.Filter(MenuItems[3..], ModeratorKeep) == rest;
    ModeratorStep(2, CommunitiesItem);
    assert Seqs.Filter(MenuItems[2..], ModeratorKeep) == rest;
    ModeratorStep(1, EventsItem);
  }

  /** A moderator sees exactly the dashboard, feed, marketplace, users and
      reports pages, in that order. */
  lemma {:induction false} ModeratorSees()
    ensures VisibleItems(Moderator) == [DashboardItem, FeedItem, MarketplaceItem, UsersItem, ReportsItem]
  {
    ModeratorSeesFrom1();
    ModeratorStep(0, DashboardItem);
    assert MenuItems[0..] == MenuItems;
  }
}
