/** The in-memory event catalogue the demo screens read and write: a list
    that starts as a copy of four seeded events and is changed by push,
    replace-at-first-match and filter. */
module EventsData {
  import opened Wrappers
  import Table

  /** One catalogue event. `status` is one of "Draft", "Published",
      "Cancelled"; `rating` is a decimal, kept exact here. */
  datatype Event = Event(
    id: string, name: string, shortDescription: string, fullDescription: string,
    city: string, track: string, date: string, startTime: string, endTime: string,
    capacity: int, registrations: int, rating: real, status: string,
    featured: bool, allowRating: bool, allowSharing: bool, registrationOpen: bool,
    image: string, views: int, shares: int, createdAt: string)

  /** `Partial<Event>`: a field that is `None` is absent from the update. */
  datatype EventPatch = EventPatch(
    id: Option<string>, name: Option<string>, shortDescription: Option<string>,
    fullDescription: Option<string>, city: Option<string>, track: Option<string>,
    date: Option<string>, startTime: Option<string>, endTime: Option<string>,
    capacity: Option<int>, registrations: Option<int>, rating: Option<real>,
    status: Option<string>, featured: Option<bool>, allowRating: Option<bool>,
    allowSharing: Option<bool>, registrationOpen: Option<bool>, image: Option<string>,
    views: Option<int>, shares: Option<int>, createdAt: Option<string>)

  /** The update that sets no field. */
  const EmptyPatch := EventPatch(None, None, None, None, None, None, None, None, None, None,
    None, None, None, None, None, None, None, None, None, None, None)

  function Id(e: Event): string { e.id }

  /** `{ ...e, ...p }`: every field present in `p` overrides the one in `e`. */
  function Merge(e: Event, p: EventPatch): Event {
    Event(p.id.GetOr(e.id), p.name.GetOr(e.name), p.shortDescription.GetOr(e.shortDescription),
      p.fullDescription.GetOr(e.fullDescription), p.city.GetOr(e.city), p.track.GetOr(e.track),
      p.date.GetOr(e.date), p.startTime.GetOr(e.startTime), p.endTime.GetOr(e.endTime),
      p.capacity.GetOr(e.capacity), p.registrations.GetOr(e.registrations),
      p.rating.GetOr(e.rating), p.status.GetOr(e.status), p.featured.GetOr(e.featured),
      p.allowRating.GetOr(e.allowRating), p.allowSharing.GetOr(e.allowSharing),
      p.registrationOpen.GetOr(e.registrationOpen), p.image.GetOr(e.image),
      p.views.GetOr(e.views), p.shares.GetOr(e.shares), p.createdAt.GetOr(e.createdAt))
  }

  /** The update that applies `p` and then `q`, as one spread. */
  function Then(p: EventPatch, q: EventPatch): EventPatch {
    EventPatch(Or(q.id, p.id), Or(q.name, p.name), Or(q.shortDescription, p.shortDescription),
      Or(q.fullDescription, p.fullDescription), Or(q.city, p.city), Or(q.track, p.track),
      Or(q.date, p.date), Or(q.startTime, p.startTime), Or(q.endTime, p.endTime),
      Or(q.capacity, p.capacity), Or(q.registrations, p.registrations), Or(q.rating, p.rating),
      Or(q.status, p.status), Or(q.featured, p.featured), Or(q.allowRating, p.allowRating),
      Or(q.allowSharing, p.allowSharing), Or(q.registrationOpen, p.registrationOpen),
      Or(q.image, p.image), Or(q.views, p.views), Or(q.shares, p.shares),
      Or(q.createdAt, p.createdAt))
  }

  /** Spreading an empty update changes nothing; spreading an update twice is
      the same as once; two successive spreads are one combined spread. */
  lemma MergeLaws(e: Event, p: EventPatch, q: EventPatch)
    ensures Merge(e, EmptyPatch) == e
    ensures Merge(Merge(e, p), p) == Merge(e, p)
    ensures Merge(Merge(e, p), q) == Merge(e, Then(p, q))
  {
  }

  /** The four seeded events. */
  const SeedEvents: seq<Event> := [SeedEvent1, SeedEvent2, SeedEvent3, SeedEvent4]

  const SeedEvent1: Event := Event(id := "1", name := "Al Wathba Morning Ride",
    shortDescription := "Join us for a scenic morning ride around the Al Wathba Circuit",
    fullDescription := "Experience the thrill of cycling on one of Abu Dhabi's premier tracks. This morning ride is perfect for intermediate cyclists looking to improve their skills while enjoying the beautiful desert landscape. We'll cover approximately 25km at a comfortable pace with scheduled water breaks.",
    city := "Abu Dhabi", track := "Al Wathba Circuit", date := "2026-01-15",
    startTime := "06:00", endTime := "08:00",
    capacity := 150, registrations := 124, rating := 4.8,
    status := "Published", featured := true, allowRating := true,
    allowSharing := true, registrationOpen := true,
    image := "https://images.unsplash.com/photo-1707297391684-e07bd2368432?crop=entropy&cs=tinysrgb&fit=max&fm=jpg&ixid=M3w3Nzg4Nzd8MHwxfHNlYXJjaHwxfHxjeWNsaW5nJTIwZ3JvdXAlMjByb2FkfGVufDF8fHx8MTc2ODEzNjQzNXww&ixlib=rb-4.1.0&q=80&w=1080",
    views := 3420, shares := 89, createdAt := "2026-01-05")

  const SeedEvent2: Event := Event(id := "2", name := "Yas Island Sprint Challenge",
    shortDescription := "High-intensity sprint event at Yas Marina Circuit",
    fullDescription := "Test your speed and endurance at the world-famous Yas Marina Circuit. This competitive event features timed sprints and is ideal for experienced cyclists. Professional timing equipment and safety marshals will be present throughout the event.",
    city := "Abu Dhabi", track := "Yas Marina Circuit", date := "2026-01-18",
    startTime := "07:00", endTime := "10:00",
    capacity := 100, registrations := 89, rating := 4.9,
    status := "Published", featured := true, allowRating := true,
    allowSharing := true, registrationOpen := true,
    image := "https://images.unsplash.com/photo-1716738634956-1494117b349b?crop=entropy&cs=tinysrgb&fit=max&fm=jpg&ixid=M3w3Nzg4Nzd8MHwxfHNlYXJjaHwxfHxiaWtlJTIwcmFjZSUyMHRyYWNrfGVufDF8fHx8MTc2ODEzNjQzNXww&ixlib=rb-4.1.0&q=80&w=1080",
    views := 2890, shares := 67, createdAt := "2026-01-03")

  const SeedEvent3: Event := Event(id := "3", name := "Desert Adventure Ride",
    shortDescription := "Explore the stunning desert landscape on two wheels",
    fullDescription := "Join us for an unforgettable journey through the desert. This leisurely ride is suitable for all skill levels and offers breathtaking views of the dunes and native wildlife. We provide support vehicles, refreshments, and professional guides.",
    city := "Al Ain", track := "Desert Route 1", date := "2026-01-22",
    startTime := "06:30", endTime := "09:30",
    capacity := 80, registrations := 67, rating := 4.7,
    status := "Published", featured := false, allowRating := true,
    allowSharing := true, registrationOpen := true,
    image := "https://images.unsplash.com/photo-1718527192815-bb68dd23ce74?crop=entropy&cs=tinysrgb&fit=max&fm=jpg&ixid=M3w3Nzg4Nzd8MHwxfHNlYXJjaHwxfHxkZXNlcnQlMjBjeWNsaW5nJTIwdWFlfGVufDF8fHx8MTc2ODEzNjQzNnww&ixlib=rb-4.1.0&q=80&w=1080",
    views := 2340, shares := 45, createdAt := "2026-01-02")

  const SeedEvent4: Event := Event(id := "4", name := "Corniche Sunset Ride",
    shortDescription := "Enjoy the Abu Dhabi Corniche at sunset",
    fullDescription := "Ride along the beautiful Abu Dhabi Corniche as the sun sets over the Arabian Gulf. This social ride is perfect for beginners and families, with a relaxed pace and plenty of photo opportunities.",
    city := "Abu Dhabi", track := "Corniche Road", date := "2026-01-25",
    startTime := "17:00", endTime := "19:00",
    capacity := 120, registrations := 45, rating := 4.6,
    status := "Published", featured := false, allowRating := true,
    allowSharing := true, registrationOpen := true,
    image := "https://images.unsplash.com/photo-1758608906924-57a6ca140153?crop=entropy&cs=tinysrgb&fit=max&fm=jpg&ixid=M3w3Nzg4Nzd8MHwxfHNlYXJjaHwxfHxjeWNsaW5nJTIwY29tbXVuaXR5JTIwZXZlbnR8ZW58MXx8fHwxNzY4MTM2NDM1fDA&ixlib=rb-4.1.0&q=80&w=1080",
    views := 1890, shares := 34, createdAt := "2026-01-01")

  /** The seeded events have distinct ids and are all published. */
  lemma SeedFacts()
    ensures |SeedEvents| == 4
    ensures Table.UniqueKeys(SeedEvents, Id)
    ensures forall k :: 0 <= k < |SeedEvents| ==> SeedEvents[k].status == "Published"
  {
  }

  /** The module-level `events` list. */
  class EventStore {
    var events: seq<Event>

    /** `let events = [...eventsData]`. */
    constructor ()
      ensures events == SeedEvents
    {
      events := SeedEvents;
    }

    /** `addEvent`: appends without checking the id. */
    method Add(event: Event)
      modifies this
      ensures events == old(events) + [event]
    {
      events := events + [event];
    }

    /** `updateEvent`: the first event with the id gets the update spread over
        it; an unknown id changes nothing. */
    method Update(id: string, updates: EventPatch)
      modifies this
      ensures match Table.FirstIndex(old(events), Id, id)
        case None => events == old(events)
        case Some(i) => events == old(events)[i := Merge(old(events)[i], updates)]
    {
      var index := Table.FirstIndex(events, Id, id);
      if index.Some? {
        events := events[index.value := Merge(events[index.value], updates)];
      }
    }

    /** `deleteEvent`: drops every event with the id. */
    method Delete(id: string)
      modifies this
      ensures events == Table.RemoveAll(old(events), Id, id)
    {
      events := Table.RemoveAll(events, Id, id);
    }

    /** `getEvent`: the first event with the id. */
    method Get(id: string) returns (r: Option<Event>)
      ensures r == Table.Find(events, Id, id)
      ensures r.Some? ==> r.value in events && r.value.id == id
      ensures r.None? <==> forall k :: 0 <= k < |events| ==> events[k].id != id
    {
      var index := Table.FirstIndex(events, Id, id);
      r := if index.Some? then Some(events[index.value]) else None;
    }

    /** `getAllEvents`. */
    method GetAll() returns (r: seq<Event>)
      ensures r == events
    {
      r := events;
    }
  }
}
