/** The console shell: the four staff roles, the page/selection state, its two
    updaters (`navigate`, `setRole`) and the page-to-view dispatch. */
module App {
  import opened Wrappers

  /** `'super-admin' | 'content-manager' | 'community-manager' | 'moderator'`. */
  datatype UserRole = SuperAdmin | ContentManager | CommunityManager | Moderator

  /** The shell state; an absent selection is `None`. */
  datatype AppState = AppState(
    currentRole: UserRole,
    currentPage: string,
    selectedEventId: Option<string>,
    selectedCommunityId: Option<string>,
    selectedTrackId: Option<string>)

  /** Super-admin on the dashboard, nothing selected. */
  const InitialState := AppState(SuperAdmin, "dashboard", None, None, None)

  /** The `params` object passed to `navigate`. A key that is `None` is absent;
      a selection key that is `Some(None)` is present with the value
      `undefined`, which the spread copies and so clears the selection. */
  datatype NavParams = NavParams(
    currentRole: Option<UserRole>,
    currentPage: Option<string>,
    selectedEventId: Option<Option<string>>,
    selectedCommunityId: Option<Option<string>>,
    selectedTrackId: Option<Option<string>>)

  /** Params that select an event (or clear the selection with `None`). */
  function SelectEvent(id: Option<string>): NavParams {
    NavParams(None, None, Some(id), None, None)
  }

  /** Params that select a community. */
  function SelectCommunity(id: string): NavParams {
    NavParams(None, None, None, Some(Some(id)), None)
  }

  /** `{ ...prev, currentPage: page, ...params }`. */
  function Navigate(prev: AppState, page: string, params: Option<NavParams>): (s: AppState)
    ensures params.None? ==> s == prev.(currentPage := page)
    ensures params.Some? && params.value.currentPage.None? ==> s.currentPage == page
    ensures params.Some? && params.value.selectedEventId.Some? ==> s.selectedEventId == params.value.selectedEventId.value
    ensures params.Some? && params.value.selectedEventId.None? ==> s.selectedEventId == prev.selectedEventId
  {
    if params.None? then prev.(currentPage := page)
    else
      var p := params.value;
      AppState(
        p.currentRole.GetOr(prev.currentRole),
        p.currentPage.GetOr(page),
        p.selectedEventId.GetOr(prev.selectedEventId),
        p.selectedCommunityId.GetOr(prev.selectedCommunityId),
        p.selectedTrackId.GetOr(prev.selectedTrackId))
  }

  /** The `navigate` prop a screen is given: the shell's updater, or none at
      all, in which case calling it throws a `TypeError`. */
  datatype NavProp = ShellNavigate | NoNavigate

  datatype NavResult = Navigated(state: AppState) | NavigateThrew

  /** A screen's `navigate(page, params)` call. */
  function CallNavigate(prop: NavProp, prev: AppState, page: string, params: Option<NavParams>): (r: NavResult)
    ensures r.Navigated? <==> prop.ShellNavigate?
    ensures r.Navigated? ==> r.state == Navigate(prev, page, params)
  {
    match prop
    case ShellNavigate => Navigated(Navigate(prev, page, params))
    case NoNavigate => NavigateThrew
  }

  /** Keys given in `params` win over both the old state and `page`; keys
      not given keep their old values. */
  lemma NavigateParamsWin(prev: AppState, page: string, p: NavParams)
    ensures var s := Navigate(prev, page, Some(p));
      (p.currentPage.Some? ==> s.currentPage == p.currentPage.value) &&
      (p.currentRole.Some? ==> s.currentRole == p.currentRole.value) &&
      (p.currentRole.None? ==> s.currentRole == prev.currentRole) &&
      (p.selectedCommunityId.Some? ==> s.selectedCommunityId == p.selectedCommunityId.value) &&
      (p.selectedCommunityId.None? ==> s.selectedCommunityId == prev.selectedCommunityId) &&
      (p.selectedTrackId.Some? ==> s.selectedTrackId == p.selectedTrackId.value) &&
      (p.selectedTrackId.None? ==> s.selectedTrackId == prev.selectedTrackId)
  {
  }

  /** Navigating twice to the same place is the same as navigating once. */
  lemma NavigateIdempotent(prev: AppState, page: string, params: Option<NavParams>)
    ensures Navigate(Navigate(prev, page, params), page, params) == Navigate(prev, page, params)
  {
  }

  /** `{ ...prev, currentRole: role, currentPage: 'dashboard' }`. */
  function SetRole(prev: AppState, role: UserRole): (s: AppState)
    ensures s.currentRole == role && s.currentPage == "dashboard"
    ensures s.selectedEventId == prev.selectedEventId
    ensures s.selectedCommunityId == prev.selectedCommunityId
    ensures s.selectedTrackId == prev.selectedTrackId
  {
    prev.(currentRole := role, currentPage := "dashboard")
  }

  /** Switching role forgets where one was: the result does not depend on the
      page before, and switching to the current role only resets the page. */
  lemma SetRoleForgetsPage(prev: AppState, page: string, role: UserRole)
    ensures SetRole(Navigate(prev, page, None), role) == SetRole(prev, role)
    ensures SetRole(prev, prev.currentRole) == prev.(currentPage := "dashboard")
  {
  }

  /** What the content area shows. Views that receive the role carry it. */
  datatype View =
    | SuperAdminDashboard
    | ContentManagerDashboard
    | CommunityManagerDashboard
    | ModeratorDashboard
    | EventsList(role: UserRole)
    | EventCreate
    | EventDetail(eventId: string, role: UserRole)
    | CommunitiesList(role: UserRole)
    | CommunityCreate(selectedCommunity: Option<string>)
    | CommunityDetail(communityId: string)
    | TracksList(role: UserRole)
    | TrackCreate
    | TrackDetail(trackId: string, role: UserRole)
    | FeedModeration
    | MarketplaceModeration
    | Cms
    | MediaLibrary
    | PushNotifications
    | UsersList(role: UserRole)
    | Reports(role: UserRole)
    | AppConfig
    | RolesPermissions

  /** The dashboard each role lands on. */
  function DashboardFor(role: UserRole): (v: View)
    ensures v.SuperAdminDashboard? <==> role == SuperAdmin
    ensures v.ContentManagerDashboard? <==> role == ContentManager
    ensures v.CommunityManagerDashboard? <==> role == CommunityManager
    ensures v.ModeratorDashboard? <==> role == Moderator
  {
    match role
    case SuperAdmin => SuperAdminDashboard
    case ContentManager => ContentManagerDashboard
    case CommunityManager => CommunityManagerDashboard
    case Moderator => ModeratorDashboard
  }

  /** `id || '1'`: a missing or empty selection falls back to record "1". */
  function OrFirst(id: Option<string>): (r: string)
    ensures r != ""
    ensures id.Some? && id.value != "" ==> r == id.value
    ensures id.None? || id.value == "" ==> r == "1"
  {
    if id.Some? && id.value != "" then id.value else "1"
  }

  /** The pages the dispatch knows. */
  const KnownPages: set<string> := {
    "dashboard", "events", "event-create", "event-detail", "communities",
    "community-create", "community-detail", "tracks", "track-create",
    "track-detail", "feed", "marketplace", "cms", "media", "push", "users",
    "reports", "config", "roles" }

  /** `renderContent`'s switch on the current page. */
  function RenderContent(s: AppState): (v: View)
    ensures s.currentPage == "dashboard" ==> v == DashboardFor(s.currentRole)
    ensures s.currentPage !in KnownPages ==> v == SuperAdminDashboard
    ensures v.EventDetail? ==> v.eventId != "" && v.role == s.currentRole
    ensures v.CommunityDetail? ==> v.communityId != ""
    ensures v.TrackDetail? ==> v.trackId != "" && v.role == s.currentRole
  {
    match s.currentPage
    case "dashboard" => DashboardFor(s.currentRole)
    case "events" => EventsList(s.currentRole)
    case "event-create" => EventCreate
    case "event-detail" => EventDetail(OrFirst(s.selectedEventId), s.currentRole)
    case "communities" => CommunitiesList(s.currentRole)
    case "community-create" => CommunityCreate(s.selectedCommunityId)
    case "community-detail" => CommunityDetail(OrFirst(s.selectedCommunityId))
    case "tracks" => TracksList(s.currentRole)
    case "track-create" => TrackCreate
    case "track-detail" => TrackDetail(OrFirst(s.selectedTrackId), s.currentRole)
    case "feed" => FeedModeration
    case "marketplace" => MarketplaceModeration
    case "cms" => Cms
    case "media" => MediaLibrary
    case "push" => PushNotifications
    case "users" => UsersList(s.currentRole)
    case "reports" => Reports(s.currentRole)
    case "config" => AppConfig
    case "roles" => RolesPermissions
    case _ => SuperAdminDashboard
  }

  /** The shell starts on the super-admin dashboard. */
  lemma InitialView()
    ensures RenderContent(InitialState) == SuperAdminDashboard
  {
  }

  /** After creating an event, the shell opens its detail page with the id the
      backend returned; when the reply carried no id the explicit `undefined`
      clears any earlier selection and the page shows event "1". */
  lemma CreatedEventOpens(prev: AppState, created: Option<string>)
    ensures var s := Navigate(prev, "event-detail", Some(SelectEvent(created)));
      RenderContent(s) == EventDetail(OrFirst(created), prev.currentRole)
    ensures RenderContent(Navigate(prev, "event-detail", Some(SelectEvent(None)))) == EventDetail("1", prev.currentRole)
  {
  }

  /** Changing role always shows that role's dashboard. */
  lemma SetRoleShowsDashboard(prev: AppState, role: UserRole)
    ensures RenderContent(SetRole(prev, role)) == DashboardFor(role)
  {
  }
}
