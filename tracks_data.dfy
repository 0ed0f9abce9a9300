/** The in-memory track catalogue: a list that starts as a copy of four
    seeded tracks. */
module TracksData {
  import opened Wrappers
  import Table

  /** One cycling track. `difficulty` is "Easy", "Medium" or "Hard";
      `surfaceType` is "Road", "Mixed" or "Off-road"; the safety and traffic
      levels are "Low", "Medium" or "High"; `status` is "Active" or "Draft".
      Distances and elevations are decimals, kept exact here. */
  datatype Track = Track(
    id: string, name: string, city: string, area: string, distance: real,
    elevation: Option<real>, difficulty: string, surfaceType: string, hasLighting: bool,
    safetyLevel: string, trafficLevel: string, helmetRequired: bool,
    nightRidingAllowed: bool, safetyNotes: string, shortDescription: string, status: string,
    eventsCount: int, image: string, mapPreview: Option<string>, createdAt: string)

  /** `Partial<Track>`: a field that is `None` is absent from the update. */
  datatype TrackPatch = TrackPatch(
    id: Option<string>, name: Option<string>, city: Option<string>, area: Option<string>,
    distance: Option<real>, elevation: Option<real>, difficulty: Option<string>,
    surfaceType: Option<string>, hasLighting: Option<bool>, safetyLevel: Option<string>,
    trafficLevel: Option<string>, helmetRequired: Option<bool>,
    nightRidingAllowed: Option<bool>, safetyNotes: Option<string>,
    shortDescription: Option<string>, status: Option<string>, eventsCount: Option<int>,
    image: Option<string>, mapPreview: Option<string>, createdAt: Option<string>)

  /** The update that sets no field. */
  const EmptyPatch := TrackPatch(None, None, None, None, None, None, None, None, None, None,
    None, None, None, None, None, None, None, None, None, None)

  /** `{ ...t, ...p }`: every field present in `p` overrides the one in `t`. */
  function Merge(t: Track, p: TrackPatch): Track {
    Track(
      p.id.GetOr(t.id), p.name.GetOr(t.name), p.city.GetOr(t.city), p.area.GetOr(t.area),
      p.distance.GetOr(t.distance), Or(p.elevation, t.elevation),
      p.difficulty.GetOr(t.difficulty), p.surfaceType.GetOr(t.surfaceType),
      p.hasLighting.GetOr(t.hasLighting), p.safetyLevel.GetOr(t.safetyLevel),
      p.trafficLevel.GetOr(t.trafficLevel), p.helmetRequired.GetOr(t.helmetRequired),
      p.nightRidingAllowed.GetOr(t.nightRidingAllowed), p.safetyNotes.GetOr(t.safetyNotes),
      p.shortDescription.GetOr(t.shortDescription), p.status.GetOr(t.status),
      p.eventsCount.GetOr(t.eventsCount), p.image.GetOr(t.image),
      Or(p.mapPreview, t.mapPreview), p.createdAt.GetOr(t.createdAt))
  }

  /** The update that applies `p` and then `q`, as one spread. */
  function Then(p: TrackPatch, q: TrackPatch): TrackPatch {
    TrackPatch(
      Or(q.id, p.id), Or(q.name, p.name), Or(q.city, p.city), Or(q.area, p.area),
      Or(q.distance, p.distance), Or(q.elevation, p.elevation),
      Or(q.difficulty, p.difficulty), Or(q.surfaceType, p.surfaceType),
      Or(q.hasLighting, p.hasLighting), Or(q.safetyLevel, p.safetyLevel),
      Or(q.trafficLevel, p.trafficLevel), Or(q.helmetRequired, p.helmetRequired),
      Or(q.nightRidingAllowed, p.nightRidingAllowed), Or(q.safetyNotes, p.safetyNotes),
      Or(q.shortDescription, p.shortDescription), Or(q.status, p.status),
      Or(q.eventsCount, p.eventsCount), Or(q.image, p.image),
      Or(q.mapPreview, p.mapPreview), Or(q.createdAt, p.createdAt))
  }


  function Id(t: Track): string { t.id }

  /** Spreading an empty update changes nothing; spreading an update twice is
      the same as once; two successive spreads are one combined spread. */
  lemma MergeLaws(t: Track, p: TrackPatch, q: TrackPatch)
    ensures Merge(t, EmptyPatch) == t
    ensures Merge(Merge(t, p), p) == Merge(t, p)
    ensures Merge(Merge(t, p), q) == Merge(t, Then(p, q))
  {
  }

  /** The update the track screen sends to unpublish a track: only the status
      becomes "Draft", and the track keeps its id. */
  const UnpublishPatch := EmptyPatch.(status := Some("Draft"))

  lemma UnpublishOnlyStatus(t: Track)
    ensures Merge(t, UnpublishPatch) == t.(status := "Draft")
    ensures Id(Merge(t, UnpublishPatch)) == Id(t)
  {
  }

  /** The four seeded tracks. */
  const SeedTracks: seq<Track> := [SeedTrack1, SeedTrack2, SeedTrack3, SeedTrack4]

  const SeedTrack1: Track := Track(id := "1", name := "Al Wathba Circuit", city := "Abu Dhabi", area := "Al Wathba",
    distance := 25.0, elevation := Some(150.0),
    difficulty := "Medium", surfaceType := "Road", hasLighting := true,
    safetyLevel := "High", trafficLevel := "Low",
    helmetRequired := true, nightRidingAllowed := true,
    safetyNotes := "Well-maintained circuit with dedicated cycling lanes and safety barriers.",
    shortDescription := "Professional cycling circuit with excellent facilities",
    status := "Active", eventsCount := 24,
    image := "https://images.unsplash.com/photo-1553547358-e8a4ee2dcfeb?w=800",
    mapPreview := Some("https://images.unsplash.com/photo-1757860150436-faf5d20b8893?w=400"), createdAt := "2025-06-15")

  const SeedTrack2: Track := Track(id := "2", name := "Yas Marina Circuit", city := "Abu Dhabi", area := "Yas Island",
    distance := 18.0, elevation := Some(80.0),
    difficulty := "Medium", surfaceType := "Road", hasLighting := true,
    safetyLevel := "High", trafficLevel := "Low",
    helmetRequired := true, nightRidingAllowed := true,
    safetyNotes := "F1 grade circuit with world-class safety standards.",
    shortDescription := "World-famous F1 circuit for cycling events",
    status := "Active", eventsCount := 18,
    image := "https://images.unsplash.com/photo-1716738634956-1494117b349b?w=800",
    mapPreview := None, createdAt := "2025-06-20")

  const SeedTrack3: Track := Track(id := "3", name := "Corniche Road", city := "Abu Dhabi", area := "Corniche",
    distance := 15.0, elevation := Some(20.0),
    difficulty := "Easy", surfaceType := "Road", hasLighting := true,
    safetyLevel := "Medium", trafficLevel := "Medium",
    helmetRequired := true, nightRidingAllowed := false,
    safetyNotes := "Scenic coastal route with moderate traffic during peak hours.",
    shortDescription := "Beautiful coastal cycling route",
    status := "Active", eventsCount := 12,
    image := "https://images.unsplash.com/photo-1758608906924-57a6ca140153?w=800",
    mapPreview := None, createdAt := "2025-07-01")

  const SeedTrack4: Track := Track(id := "4", name := "Desert Route 1", city := "Al Ain", area := "Desert Region",
    distance := 30.0, elevation := Some(200.0),
    difficulty := "Hard", surfaceType := "Mixed", hasLighting := false,
    safetyLevel := "Medium", trafficLevel := "Low",
    helmetRequired := true, nightRidingAllowed := false,
    safetyNotes := "Remote desert route. Ride in groups and carry adequate water.",
    shortDescription := "Challenging desert cycling experience",
    status := "Active", eventsCount := 8,
    image := "https://images.unsplash.com/photo-1718527192815-bb68dd23ce74?w=800",
    mapPreview := None, createdAt := "2025-07-10")

  /** The seeded tracks have distinct ids, are all active, and only the first
      has a map preview. */
  lemma SeedFacts()
    ensures |SeedTracks| == 4
    ensures Table.UniqueKeys(SeedTracks, Id)
    ensures forall k :: 0 <= k < |SeedTracks| ==> SeedTracks[k].status == "Active"
    ensures forall k :: 0 <= k < |SeedTracks| ==> (SeedTracks[k].mapPreview.Some? <==> k == 0)
  {
  }

  /** The module-level `tracks` list. */
  class TrackStore {
    var tracks: seq<Track>

    /** `let tracks = [...tracksData]`. */
    constructor ()
      ensures tracks == SeedTracks
    {
      tracks := SeedTracks;
    }

    /** `addTrack`: appends without checking the id. */
    method Add(track: Track)
      modifies this
      ensures tracks == old(tracks) + [track]
    {
      tracks := tracks + [track];
    }

    /** `updateTrack`: the first track with the id gets the update spread over
        it; an unknown id changes nothing. */
    method Update(id: string, updates: TrackPatch)
      modifies this
      ensures match Table.FirstIndex(old(tracks), Id, id)
        case None => tracks == old(tracks)
        case Some(i) => tracks == old(tracks)[i := Merge(old(tracks)[i], updates)]
    {
      var index := Table.FirstIndex(tracks, Id, id);
      if index.Some? {
        tracks := tracks[index.value := Merge(tracks[index.value], updates)];
      }
    }

    /** `deleteTrack`: drops every track with the id. */
    method Delete(id: string)
      modifies this
      ensures tracks == Table.RemoveAll(old(tracks), Id, id)
    {
      tracks := Table.RemoveAll(tracks, Id, id);
    }

    /** `getTrack`: the first track with the id. */
    method Get(id: string) returns (r: Option<Track>)
      ensures r == Table.Find(tracks, Id, id)
      ensures r.Some? ==> r.value in tracks && r.value.id == id
      ensures r.None? <==> forall k :: 0 <= k < |tracks| ==> tracks[k].id != id
    {
      var index := Table.FirstIndex(tracks, Id, id);
      r := if index.Some? then Some(tracks[index.value]) else None;
    }

    /** `getAllTracks`. */
    method GetAll() returns (r: seq<Track>)
      ensures r == tracks
    {
      r := tracks;
    }
  }
}
