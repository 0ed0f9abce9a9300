/** The communities list screen: the four-way filter over the store, the
    edit and create permissions, the type colours, and the delete dialog. */
module CommunitiesList {
  import opened Wrappers
  import Seqs
  import Table
  import Filters
  import opened App
  import opened CommunitiesData
  import Layout

  /** The filter callback for one setting of the four controls. */
  function ShownFor(term: string, city: string, kind: string, status: string): Community -> bool {
    (c: Community) =>
      Filters.SearchMatches(c.name, term) && Filters.Wildcard(city, c.city) &&
      Filters.Wildcard(kind, c.kind) && Filters.Wildcard(status, c.status)
  }

  /** `filteredCommunities`. */
  function FilteredCommunities(communities: seq<Community>, term: string, city: string, kind: string, status: string): (r: seq<Community>)
    ensures |r| <= |communities|
    ensures forall k :: 0 <= k < |r| ==>
      Filters.SearchMatches(r[k].name, term) && (city == "all" || r[k].city == city) &&
      (kind == "all" || r[k].kind == kind) && (status == "all" || r[k].status == status)
  {
    Seqs.Filter(communities, ShownFor(term, city, kind, status))
  }

  /** A community is listed exactly when all four tests pass; 'all' matches any
      value and any other choice needs equality; order is kept. */
  lemma FilteredCommunitiesSpec(communities: seq<Community>, term: string, city: string, kind: string, status: string, c: Community)
    ensures c in FilteredCommunities(communities, term, city, kind, status) <==>
      c in communities && Filters.SearchMatches(c.name, term) &&
      (city == "all" || c.city == city) && (kind == "all" || c.kind == kind) && (status == "all" || c.status == status)
    ensures Seqs.IsSubsequence(FilteredCommunities(communities, term, city, kind, status), communities)
  {
    Seqs.FilterMembership(communities, ShownFor(term, city, kind, status), c);
    Seqs.FilterIsSubsequence(communities, ShownFor(term, city, kind, status));
  }

  /** With every control at rest the whole store is listed. */
  lemma NoFilterListsAll(communities: seq<Community>)
    ensures FilteredCommunities(communities, "", "all", "all", "all") == communities
  {
    forall k | 0 <= k < |communities|
      ensures ShownFor("", "all", "all", "all")(communities[k])
    {
      Filters.SearchMatchesSpec(communities[k].name, "");
    }
    Seqs.FilterKeepsAll(communities, ShownFor("", "all", "all", "all"));
  }

  /** `canEdit` and `canCreate` are the same test. */
  predicate CanEdit(role: UserRole) {
    role == SuperAdmin || role == CommunityManager
  }

  predicate CanCreate(role: UserRole) {
    role == SuperAdmin || role == CommunityManager
  }

  lemma PermissionsSpec(role: UserRole)
    ensures CanEdit(role) <==> CanCreate(role)
    ensures CanEdit(role) <==> role !in {ContentManager, Moderator}
  {
  }

  /** `getTypeColor`. */
  function TypeColor(kind: string): (colour: string)
    ensures kind !in {"Club", "Shop", "Women", "Youth", "Family"} ==> colour == "#999"
  {
    match kind
    case "Club" => "#C12D32"
    case "Shop" => "#CF9F0C"
    case "Women" => "#B95E82"
    case "Youth" => "#E1C06E"
    case "Family" => "#ECC180"
    case "Corporate" => "#999"
    case _ => "#999"
  }

  /** The five named colours are distinct, and 'Corporate' shares the default. */
  lemma TypeColorSpec()
    ensures TypeColor("Corporate") == TypeColor("") == "#999"
    ensures |{TypeColor("Club"), TypeColor("Shop"), TypeColor("Women"), TypeColor("Youth"), TypeColor("Family")}| == 5
    ensures "#999" !in {TypeColor("Club"), TypeColor("Shop"), TypeColor("Women"), TypeColor("Youth"), TypeColor("Family")}
  {
  }

  /** The delete confirmation: the chosen community and whether the dialog is
      shown. */
  class DeleteDialog {
    var target: Option<string>
    var showModal: bool

    constructor ()
      ensures target == None && !showModal
    {
      target := None;
      showModal := false;
    }

    /** `handleDelete`: remember the community and show the dialog. */
    method Choose(id: string)
      modifies this
      ensures target == Some(id) && showModal
    {
      target := Some(id);
      showModal := true;
    }

    /** `confirmDelete`: with a target, delete every community with that id,
        close the dialog and forget the target; without one, do nothing. */
    method Confirm(store: CommunityStore)
      modifies this, store
      ensures old(target).Some? && old(target).value != "" ==>
        store.communities == Table.RemoveAll(old(store.communities), Id, old(target).value) && target == None && !showModal
      ensures old(target).Some? && old(target).value != "" ==> Table.Find(store.communities, Id, old(target).value).None?
      ensures old(target).None? || old(target).value == "" ==>
        store.communities == old(store.communities) && target == old(target) && showModal == old(showModal)
    {
      if target.Some? && target.value != "" {
        store.Delete(target.value);
        Table.FindAfterRemove(old(store.communities), Id, target.value);
        showModal := false;
        target := None;
      }
    }
  }

  /** With the shell's `navigate`, the create button opens the create screen
      and the view and edit buttons open the community's detail screen. */
  lemma ButtonsOpenScreens(prev: AppState, c: Community)
    ensures var r := CallNavigate(ShellNavigate, prev, "community-create", None);
      r.Navigated? && RenderContent(r.state) == App.CommunityCreate(prev.selectedCommunityId)
    ensures var r := CallNavigate(ShellNavigate, prev, "community-detail", Some(SelectCommunity(c.id)));
      r.Navigated? && RenderContent(r.state) == App.CommunityDetail(if c.id == "" then "1" else c.id)
  {
  }

  /** As the layout mounts the list, the create, view and edit buttons
      throw. */
  lemma MountedButtonsThrow(prev: AppState, c: Community)
    ensures CallNavigate(Layout.RoutedNavigate, prev, "community-create", None) == NavigateThrew
    ensures CallNavigate(Layout.RoutedNavigate, prev, "community-detail", Some(SelectCommunity(c.id))) == NavigateThrew
  {
  }
}
