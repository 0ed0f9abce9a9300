/** The create-community screen: the team picker (search and toggle), the
    form, and the submit that appends the new community to the store. The
    clock's id and timestamp are parameters. */
module CommunityCreate {
  import opened Wrappers
  import Seqs
  import Table
  import Text
  import Filters
  import App
  import Layout
  import opened CommunitiesData
  import opened CreateStatus

  /** The filter callback of the team search. */
  function TeamMatches(term: string): string -> bool {
    (team: string) => Filters.SearchMatches(team, term)
  }

  /** `filteredTeams`. */
  function FilteredTeams(term: string): (r: seq<string>)
    ensures |r| <= |AvailableTeams|
  {
    Seqs.Filter(AvailableTeams, TeamMatches(term))
  }

  /** A team is offered exactly when it is available and matches the search,
      in the table's order. */
  lemma FilteredTeamsSpec(term: string, team: string)
    ensures team in FilteredTeams(term) <==> team in AvailableTeams && Filters.SearchMatches(team, term)
    ensures Seqs.IsSubsequence(FilteredTeams(term), AvailableTeams)
  {
    Seqs.FilterMembership(AvailableTeams, TeamMatches(term), team);
    Seqs.FilterIsSubsequence(AvailableTeams, TeamMatches(term));
  }

  /** The empty search offers all twenty teams. */
  lemma EmptySearchOffersAll()
    ensures FilteredTeams("") == AvailableTeams
  {
    forall k | 0 <= k < |AvailableTeams| ensures TeamMatches("")(AvailableTeams[k]) {
      Filters.SearchMatchesSpec(AvailableTeams[k], "");
    }
    Seqs.FilterKeepsAll(AvailableTeams, TeamMatches(""));
  }

  /** The filter callback that drops one team. */
  function Other(team: string): string -> bool {
    (t: string) => t != team
  }

  /** `toggleTeam`: a selected team is removed (every copy), another is
      appended. */
  function ToggleTeam(selected: seq<string>, team: string): (r: seq<string>)
    ensures team in r <==> team !in selected
    ensures forall t :: t != team ==> (t in r <==> t in selected)
    ensures team !in selected ==> r == selected + [team]
    ensures team in selected ==> Seqs.IsSubsequence(r, selected)
  {
    if team in selected then
      var r := Seqs.Filter(selected, Other(team));
      Seqs.FilterIsSubsequence(selected, Other(team));
      forall t ensures t in r <==> t in selected && t != team {
        Seqs.FilterMembership(selected, Other(team), t);
      }
      r
    else selected + [team]
  }

  /** Toggling a team on and off again restores the selection. */
  lemma {:induction false} ToggleTwiceRestores(selected: seq<string>, team: string)
    requires team !in selected
    ensures ToggleTeam(ToggleTeam(selected, team), team) == selected
  {
    var added := selected + [team];
    Seqs.FilterAppend(selected, [team], Other(team));
    Seqs.FilterKeepsAll(selected, Other(team));
    assert Seqs.Filter([team], Other(team)) == [];
  }

  /** Toggling never creates a duplicate, so every selection reached from the
      empty one lists each team at most once. */
  lemma {:induction false} ToggleKeepsDistinct(selected: seq<string>, team: string)
    requires Seqs.NoDuplicates(selected)
    ensures Seqs.NoDuplicates(ToggleTeam(selected, team))
  {
    if team in selected {
      Table.FilterKeepsUnique(selected, (t: string) => t, Other(team));
    }
  }

  /** The form's fields, with their initial values. */
  datatype CommunityForm = CommunityForm(
    name: string, city: string, kind: string, description: string,
    isPublic: bool, isFeatured: bool, adminName: string)

  const InitialForm := CommunityForm("", "Abu Dhabi", "Club", "", true, false, "")

  const NewLogo := "https://images.unsplash.com/photo-1584981401957-03158e43750d?w=200"
  const NewCover := "https://images.unsplash.com/photo-1707297391684-e07bd2368432?w=800"

  /** The community `handleSubmit` builds for the clock reading `now` (the id
      is `now` in decimal): the form spread in, no members or
      events yet, the stock pictures, the picked teams, and no admin id. */
  function NewCommunity(form: CommunityForm, teams: seq<string>, status: SubmitStatus, now: nat, createdAt: string): (c: Community)
    ensures c.id == Text.DecimalString(now) && c.name == form.name && c.city == form.city && c.kind == form.kind
    ensures c.description == form.description && c.isPublic == form.isPublic && c.isFeatured == form.isFeatured
    ensures c.adminName == Some(form.adminName) && c.adminId.None?
    ensures c.membersCount == 0 && c.eventsCount == 0 && c.status == StatusName(status)
    ensures c.logo == NewLogo && c.coverImage == NewCover && c.teams == teams && c.createdAt == createdAt
  {
    Community(Text.DecimalString(now), form.name, form.city, form.kind, form.description,
      form.isPublic, form.isFeatured, 0, 0, StatusName(status),
      NewLogo, NewCover, None, Some(form.adminName), teams, createdAt)
  }

  datatype CreateError = NameRequired

  /** `handleSubmit`: an empty name is refused and the store is left alone;
      otherwise the new community is appended and its id returned. */
  method Submit(store: CommunityStore, form: CommunityForm, teams: seq<string>, status: SubmitStatus, now: nat, createdAt: string)
    returns (r: Result<string, CreateError>)
    modifies store
    ensures r.Err? <==> form.name == ""
    ensures r.Err? ==> store.communities == old(store.communities)
    ensures r.Ok? ==> r.value == Text.DecimalString(now)
    ensures r.Ok? ==> store.communities == old(store.communities) + [NewCommunity(form, teams, status, now, createdAt)]
  {
    if form.name == "" {
      return Err(NameRequired);
    }
    var c := NewCommunity(form, teams, status, now, createdAt);
    store.Add(c);
    r := Ok(c.id);
  }

  /** When the clock gives an id no stored community has, the new community
      is the one found under it, and the store's ids stay unique. */
  lemma SubmittedIsFound(communities: seq<Community>, form: CommunityForm, teams: seq<string>, status: SubmitStatus, now: nat, createdAt: string)
    requires Table.Find(communities, Id, Text.DecimalString(now)).None?
    ensures var c := NewCommunity(form, teams, status, now, createdAt);
      Table.Find(communities + [c], Id, Text.DecimalString(now)) == Some(c)
    ensures Table.UniqueKeys(communities, Id) ==>
      Table.UniqueKeys(communities + [NewCommunity(form, teams, status, now, createdAt)], Id)
  {
    var c := NewCommunity(form, teams, status, now, createdAt);
    Table.AppendIsFound(communities, Id, c);
    if Table.UniqueKeys(communities, Id) {
      Table.AddFreshKeepsUnique(communities, Id, c);
    }
  }

  /** With the shell's `navigate`, a submit shows the detail screen of the
      new community, and the back and cancel buttons show the list. */
  lemma SubmitOpensDetail(prev: App.AppState, now: nat)
    ensures var r := App.CallNavigate(App.ShellNavigate, prev, "community-detail", Some(App.SelectCommunity(Text.DecimalString(now))));
      r.Navigated? && App.RenderContent(r.state) == App.CommunityDetail(Text.DecimalString(now))
    ensures var r := App.CallNavigate(App.ShellNavigate, prev, "communities", None);
      r.Navigated? && App.RenderContent(r.state) == App.CommunitiesList(prev.currentRole)
  {
  }

  /** As the layout mounts the screen, the `navigate` after the append throws:
      the community is stored but the create form stays on screen. The back
      and cancel buttons throw too. */
  lemma MountedSubmitStaysOnForm(prev: App.AppState, now: nat)
    ensures App.CallNavigate(Layout.RoutedNavigate, prev, "community-detail", Some(App.SelectCommunity(Text.DecimalString(now)))) ==
      App.NavigateThrew
    ensures App.CallNavigate(Layout.RoutedNavigate, prev, "communities", None) == App.NavigateThrew
  {
  }
}
