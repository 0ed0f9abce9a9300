/** The tracks list screen: the four-way filter over the store, the edit and
    create permissions, the difficulty and safety colours, and the delete
    dialog. */
module TracksList {
  import opened Wrappers
  import Seqs
  import Table
  import Filters
  import opened App
  import Layout
  import opened TracksData

  /** The filter callback for one setting of the four controls. */
  function ShownFor(term: string, city: string, difficulty: string, status: string): Track -> bool {
    (t: Track) =>
      Filters.SearchMatches(t.name, term) && Filters.Wildcard(city, t.city) &&
      Filters.Wildcard(difficulty, t.difficulty) && Filters.Wildcard(status, t.status)
  }

  /** `filteredTracks`. */
  function FilteredTracks(tracks: seq<Track>, term: string, city: string, difficulty: string, status: string): (r: seq<Track>)
    ensures |r| <= |tracks|
    ensures forall k :: 0 <= k < |r| ==>
      Filters.SearchMatches(r[k].name, term) && (city == "all" || r[k].city == city) &&
      (difficulty == "all" || r[k].difficulty == difficulty) && (status == "all" || r[k].status == status)
  {
    Seqs.Filter(tracks, ShownFor(term, city, difficulty, status))
  }

  /** A track is listed exactly when all four tests pass; 'all' matches any
      value and any other choice needs equality; order is kept. */
  lemma FilteredTracksSpec(tracks: seq<Track>, term: string, city: string, difficulty: string, status: string, t: Track)
    ensures t in FilteredTracks(tracks, term, city, difficulty, status) <==>
      t in tracks && Filters.SearchMatches(t.name, term) &&
      (city == "all" || t.city == city) && (difficulty == "all" || t.difficulty == difficulty) &&
      (status == "all" || t.status == status)
    ensures Seqs.IsSubsequence(FilteredTracks(tracks, term, city, difficulty, status), tracks)
  {
    Seqs.FilterMembership(tracks, ShownFor(term, city, difficulty, status), t);
    Seqs.FilterIsSubsequence(tracks, ShownFor(term, city, difficulty, status));
  }

  /** With every control at rest the whole store is listed. */
  lemma NoFilterListsAll(tracks: seq<Track>)
    ensures FilteredTracks(tracks, "", "all", "all", "all") == tracks
  {
    forall k | 0 <= k < |tracks|
      ensures ShownFor("", "all", "all", "all")(tracks[k])
    {
      Filters.SearchMatchesSpec(tracks[k].name, "");
    }
    Seqs.FilterKeepsAll(tracks, ShownFor("", "all", "all", "all"));
  }

  /** `canEdit` and `canCreate`: super-admins only. */
  predicate CanEdit(role: UserRole) {
    role == SuperAdmin
  }

  predicate CanCreate(role: UserRole) {
    role == SuperAdmin
  }

  lemma PermissionsSpec(role: UserRole)
    ensures CanEdit(role) <==> CanCreate(role)
    ensures CanEdit(role) <==> role !in {ContentManager, CommunityManager, Moderator}
  {
  }

  /** `getDifficultyColor`. */
  function DifficultyColor(difficulty: string): (colour: string)
    ensures difficulty !in {"Easy", "Medium", "Hard"} ==> colour == "#999"
  {
    match difficulty
    case "Easy" => "#CF9F0C"
    case "Medium" => "#E1C06E"
    case "Hard" => "#C12D32"
    case _ => "#999"
  }

  /** `getSafetyColor`: the difficulty scale run backwards, so a safe track
      is shown like an easy one and an unsafe one like a hard one. */
  function SafetyColor(level: string): (colour: string)
    ensures level == "High" ==> colour == DifficultyColor("Easy")
    ensures level == "Medium" ==> colour == DifficultyColor("Medium")
    ensures level == "Low" ==> colour == DifficultyColor("Hard")
    ensures level !in {"High", "Medium", "Low"} ==> colour == "#999"
  {
    match level
    case "High" => "#CF9F0C"
    case "Medium" => "#E1C06E"
    case "Low" => "#C12D32"
    case _ => "#999"
  }

  /** The three named colours of each scale are distinct and differ from the
      default, and the scales run in opposite directions: the easiest track
      and the safest level share a colour, as do the hardest and the least
      safe. */
  lemma ColorScales()
    ensures |{DifficultyColor("Easy"), DifficultyColor("Medium"), DifficultyColor("Hard")}| == 3
    ensures "#999" !in {DifficultyColor("Easy"), DifficultyColor("Medium"), DifficultyColor("Hard")}
    ensures |{SafetyColor("High"), SafetyColor("Medium"), SafetyColor("Low")}| == 3
    ensures "#999" !in {SafetyColor("High"), SafetyColor("Medium"), SafetyColor("Low")}
    ensures DifficultyColor("Easy") == SafetyColor("High") && DifficultyColor("Hard") == SafetyColor("Low")
    ensures DifficultyColor("Medium") == SafetyColor("Medium")
  {
  }

  /** The delete confirmation: the chosen track and whether the dialog is
      shown. */
  class DeleteDialog {
    var target: Option<string>
    var showModal: bool

    constructor ()
      ensures target == None && !showModal
    {
      target := None;
      showModal := false;
    }

    /** `handleDelete`: remember the track and show the dialog. */
    method Choose(id: string)
      modifies this
      ensures target == Some(id) && showModal
    {
      target := Some(id);
      showModal := true;
    }

    /** `confirmDelete`: with a target, delete every track with that id, close
        the dialog and forget the target; without one, do nothing. */
    method Confirm(store: TrackStore)
      modifies this, store
      ensures old(target).Some? && old(target).value != "" ==>
        store.tracks == Table.RemoveAll(old(store.tracks), Id, old(target).value) && target == None && !showModal
      ensures old(target).Some? && old(target).value != "" ==> Table.Find(store.tracks, Id, old(target).value).None?
      ensures old(target).None? || old(target).value == "" ==>
        store.tracks == old(store.tracks) && target == old(target) && showModal == old(showModal)
    {
      if target.Some? && target.value != "" {
        store.Delete(target.value);
        Table.FindAfterRemove(old(store.tracks), Id, target.value);
        showModal := false;
        target := None;
      }
    }
  }

  /** The parameters of the navigation to a track's detail screen. */
  function SelectTrack(id: string): NavParams {
    NavParams(None, None, None, None, Some(Some(id)))
  }

  /** With the shell's `navigate`, the view and edit buttons of a listed
      track show its detail screen for the current role, and the create button
      shows the create screen. */
  lemma OpenTrackShowsDetail(prev: AppState, t: Track)
    requires t.id != ""
    ensures var r := CallNavigate(ShellNavigate, prev, "track-detail", Some(SelectTrack(t.id)));
      r.Navigated? && RenderContent(r.state) == TrackDetail(t.id, prev.currentRole)
    ensures var r := CallNavigate(ShellNavigate, prev, "track-create", None);
      r.Navigated? && RenderContent(r.state) == App.TrackCreate
  {
  }

  /** As the layout mounts the list, the view and edit buttons of a track
      and the create button throw instead of opening their screens. */
  lemma MountedOpenTrackThrows(prev: AppState, t: Track)
    ensures CallNavigate(Layout.RoutedNavigate, prev, "track-detail", Some(SelectTrack(t.id))) == NavigateThrew
    ensures CallNavigate(Layout.RoutedNavigate, prev, "track-create", None) == NavigateThrew
  {
  }
}
