/** The create-track screen: the form, the required-field test, and the
    submit that appends the new track to the store. The clock reading and
    the timestamp are parameters. */
module TrackCreate {
  import opened Wrappers
  import Text
  import Table
  import Layout
  import Sidebar
  import opened TracksData
  import opened CreateStatus

  /** The form's fields, with their initial values. */
  datatype TrackForm = TrackForm(
    name: string, city: string, area: string, shortDescription: string,
    distance: real, elevation: real, difficulty: string, surfaceType: string,
    hasLighting: bool, trafficLevel: string, safetyLevel: string,
    helmetRequired: bool, nightRidingAllowed: bool, safetyNotes: string)

  const InitialForm := TrackForm("", "Abu Dhabi", "", "", 10.0, 0.0, "Medium", "Road",
    false, "Medium", "Medium", true, false, "")

  const NewImage := "https://images.unsplash.com/photo-1553547358-e8a4ee2dcfeb?w=800"
  const NewMapPreview := "https://images.unsplash.com/photo-1757860150436-faf5d20b8893?w=400"

  /** The track `handleSubmit` builds for the clock reading `now` (the id is
      `now` in decimal): the form spread in, no events yet, and the stock
      pictures. */
  function NewTrack(form: TrackForm, status: SubmitStatus, now: nat, createdAt: string): (t: Track)
    ensures t.id == Text.DecimalString(now) && t.name == form.name && t.city == form.city && t.area == form.area
    ensures t.shortDescription == form.shortDescription && t.distance == form.distance && t.elevation == Some(form.elevation)
    ensures t.difficulty == form.difficulty && t.surfaceType == form.surfaceType && t.hasLighting == form.hasLighting
    ensures t.trafficLevel == form.trafficLevel && t.safetyLevel == form.safetyLevel
    ensures t.helmetRequired == form.helmetRequired && t.nightRidingAllowed == form.nightRidingAllowed
    ensures t.safetyNotes == form.safetyNotes && t.eventsCount == 0 && t.status == StatusName(status)
    ensures t.image == NewImage && t.mapPreview == Some(NewMapPreview) && t.createdAt == createdAt
  {
    Track(Text.DecimalString(now), form.name, form.city, form.area, form.distance,
      Some(form.elevation), form.difficulty, form.surfaceType, form.hasLighting,
      form.safetyLevel, form.trafficLevel, form.helmetRequired,
      form.nightRidingAllowed, form.safetyNotes, form.shortDescription, StatusName(status),
      0, NewImage, Some(NewMapPreview), createdAt)
  }

  datatype CreateError = NameOrAreaRequired

  /** `handleSubmit`: an empty name or area is refused and the store is left
      alone; otherwise the new track is appended and its id returned. */
  method Submit(store: TrackStore, form: TrackForm, status: SubmitStatus, now: nat, createdAt: string)
    returns (r: Result<string, CreateError>)
    modifies store
    ensures r.Err? <==> !Complete(form)
    ensures r.Err? ==> store.tracks == old(store.tracks)
    ensures r.Ok? ==> r.value == Text.DecimalString(now)
    ensures r.Ok? ==> store.tracks == old(store.tracks) + [NewTrack(form, status, now, createdAt)]
  {
    if !Complete(form) {
      return Err(NameOrAreaRequired);
    }
    var t := NewTrack(form, status, now, createdAt);
    store.Add(t);
    r := Ok(t.id);
  }

  /** `handleSubmit`'s required-field test. */
  predicate Complete(form: TrackForm) {
    form.name != "" && form.area != ""
  }

  /** The initial form's defaults; it is refused until both a name and an
      area are typed, and the other fields never matter. */
  lemma InitialFormIsRefused(name: string, area: string)
    ensures InitialForm.city == "Abu Dhabi" && InitialForm.distance == 10.0 && InitialForm.difficulty == "Medium"
    ensures InitialForm.helmetRequired && !InitialForm.nightRidingAllowed
    ensures !Complete(InitialForm)
    ensures Complete(InitialForm.(name := name, area := area)) <==> name != "" && area != ""
  {
  }

  /** When the clock gives an id no stored track has, the new track is the one
      found under it, and the store's ids stay unique. */
  lemma SubmittedIsFound(tracks: seq<Track>, form: TrackForm, status: SubmitStatus, now: nat, createdAt: string)
    requires Table.Find(tracks, Id, Text.DecimalString(now)).None?
    ensures var t := NewTrack(form, status, now, createdAt);
      Table.Find(tracks + [t], Id, Text.DecimalString(now)) == Some(t)
    ensures Table.UniqueKeys(tracks, Id) ==>
      Table.UniqueKeys(tracks + [NewTrack(form, status, now, createdAt)], Id)
  {
    var t := NewTrack(form, status, now, createdAt);
    Table.AppendIsFound(tracks, Id, t);
    if Table.UniqueKeys(tracks, Id) {
      Table.AddFreshKeepsUnique(tracks, Id, t);
    }
  }

  /** After submitting, the router goes to `/tracks/<id>`, which maps to the
      tracks page id. */
  lemma AfterSubmitMapsToTracks(id: string)
    ensures Layout.GetCurrentPage("/tracks/" + id) == "tracks"
  {
    Layout.MenuPathsMapToTheirItem(3, "/" + id);
    assert Sidebar.MenuItems[3] == Sidebar.TracksItem;
    assert "/tracks" + ("/" + id) == "/tracks/" + id;
  }
}
