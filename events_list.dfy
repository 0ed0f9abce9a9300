/** The events list screen: the search and city filter over the loaded
    events, the status filter's mapping onto the list query, the edit
    permission, the delete confirmation, and the deterministic demo ratings
    and tracks keyed by event id. */
module EventsList {
  import opened Wrappers
  import Text
  import Seqs
  import opened App
  import opened EventsApi
  import Filters

  /** `event.title?.toLowerCase().includes(term.toLowerCase()) || false`. */
  predicate MatchesSearch(e: EventRecord, term: string) {
    e.title.Some? && Filters.SearchMatches(e.title.value, term)
  }

  /** `city === 'all' || event.address?.toLowerCase().includes(...) || false`. */
  predicate MatchesCity(e: EventRecord, city: string) {
    city == "all" || (e.address.Some? && Filters.SearchMatches(e.address.value, city))
  }

  /** The filter callback for one search term and city. */
  function ShownFor(term: string, city: string): EventRecord -> bool {
    (e: EventRecord) => MatchesSearch(e, term) && MatchesCity(e, city)
  }

  /** `filteredEvents`. */
  function FilteredEvents(events: seq<EventRecord>, term: string, city: string): (r: seq<EventRecord>)
    ensures |r| <= |events|
  {
    Seqs.Filter(events, ShownFor(term, city))
  }

  /** An event is listed exactly when it is loaded and matches both filters; a
      missing title never matches; the listed events keep their order. */
  lemma FilteredEventsSpec(events: seq<EventRecord>, term: string, city: string, e: EventRecord)
    ensures e in FilteredEvents(events, term, city) <==> e in events && MatchesSearch(e, term) && MatchesCity(e, city)
    ensures e.title.None? ==> e !in FilteredEvents(events, term, city)
    ensures Seqs.IsSubsequence(FilteredEvents(events, term, city), events)
    ensures multiset(FilteredEvents(events, term, city))[e] ==
      if MatchesSearch(e, term) && MatchesCity(e, city) then multiset(events)[e] else 0
  {
    Seqs.FilterMembership(events, ShownFor(term, city), e);
    Seqs.FilterIsSubsequence(events, ShownFor(term, city));
    Seqs.FilterCounts(events, ShownFor(term, city), e);
  }

  /** With an empty search and 'all' cities, every event with a title is
      listed. */
  lemma EmptySearchListsTitled(events: seq<EventRecord>, e: EventRecord)
    requires e in events && e.title.Some?
    ensures e in FilteredEvents(events, "", "all")
  {
    Filters.SearchMatchesSpec(e.title.value, "");
    Seqs.FilterMembership(events, ShownFor("", "all"), e);
  }

  /** The search ignores ASCII case in the term. */
  lemma SearchIgnoresCase(e: EventRecord, term: string)
    ensures MatchesSearch(e, Text.ToUpper(term)) <==> MatchesSearch(e, Text.ToLower(term))
  {
    Text.ToLowerAbsorbs(term);
  }

  /** The status filter's value as sent: 'all' sends none, both 'Published'
      and 'Draft' send 'upcoming', anything else is lower-cased. */
  function ApiStatusFor(filter: string): (status: Option<string>)
    ensures status.None? <==> filter == "all"
    ensures filter == "Published" || filter == "Draft" ==> status == Some("upcoming")
    ensures filter != "all" && filter != "Published" && filter != "Draft" ==> status == Some(Text.ToLower(filter))
  {
    if filter == "all" then None
    else if filter == "Published" then Some("upcoming")
    else if filter == "Draft" then Some("upcoming")
    else Some(Text.ToLower(filter))
  }

  /** `loadEvents`' query: the mapped status, page 1, up to 100 events. */
  function LoadRequest(filter: string): (r: Request)
    ensures r.verb == "GET" && r.path == EventsPath
    ensures r.query == Some(RequestParams(ApiStatusFor(filter), 1, 100))
  {
    ListRequest(Some(GetEventsParams(ApiStatusFor(filter), Some(1), Some(100))))
  }

  /** The select's own values pass through unchanged. */
  lemma OfferedStatusesPassThrough()
    ensures ApiStatusFor("upcoming") == Some("upcoming")
    ensures ApiStatusFor("cancelled") == Some("cancelled")
    ensures LoadRequest("all").query == Some(RequestParams(None, 1, 100))
  {
    Text.ToLowerAbsorbs("upcoming");
    Text.ToLowerAbsorbs("cancelled");
  }

  /** Super-admins, content managers and community managers may create, edit
      and delete events (the detail screen uses the same test). */
  predicate CanEdit(role: UserRole) {
    role == SuperAdmin || role == ContentManager || role == CommunityManager
  }

  lemma CanEditSpec(role: UserRole)
    ensures CanEdit(role) <==> role != Moderator
  {
  }

  /** `confirmDelete`: a delete request only when a target is set. */
  function ConfirmDelete(target: Option<string>): (r: Option<Request>)
    ensures r.Some? <==> target.Some? && target.value != ""
    ensures r.Some? ==> r.value == DeleteRequest(target.value) && r.value.path == EventPath(target.value)
  {
    if target.Some? && target.value != "" then Some(DeleteRequest(target.value)) else None
  }

  /** `e._id || e.id || ''`. */
  function RecordKey(e: EventRecord): (k: string)
    ensures e.mongoId.Some? && e.mongoId.value != "" ==> k == e.mongoId.value
    ensures (e.mongoId.None? || e.mongoId.value == "") && e.id.Some? ==> k == e.id.value
    ensures (e.mongoId.None? || e.mongoId.value == "") && e.id.None? ==> k == ""
  {
    if e.mongoId.Some? && e.mongoId.value != "" then e.mongoId.value
    else if e.id.Some? && e.id.value != "" then e.id.value
    else ""
  }

  /** The sum of the id's character codes (`reduce` from 0). */
  function CharCodeSum(s: string): nat {
    if s == [] then 0 else CharCodeSum(s[..|s| - 1]) + s[|s| - 1] as nat
  }

  /** The sum is over the characters, so it is independent of how the string
      is cut. */
  lemma {:induction false} CharCodeSumAppend(a: string, b: string)
    ensures CharCodeSum(a + b) == CharCodeSum(a) + CharCodeSum(b)
    decreases |b|
  {
    if b != [] {
      assert (a + b)[..|a + b| - 1] == a + b[..|b| - 1];
      CharCodeSumAppend(a, b[..|b| - 1]);
    } else {
      assert a + b == a;
    }
  }

  /** `Math.min(hi, Math.max(lo, x))`. */
  function Clamp(lo: real, hi: real, x: real): (r: real)
    requires lo <= hi
    ensures lo <= r <= hi
    ensures lo <= x <= hi ==> r == x
  {
    if x < lo then lo else if x > hi then hi else x
  }

  /** The demo rating of an id. */
  function DemoRating(id: string): real {
    Clamp(1.0, 5.0, 3.0 + ((CharCodeSum(id) % 20) as real) / 10.0)
  }

  /** The rating is 3 + (sum mod 20)/10, so it lies in [3.0, 4.9] and the
      clamp never acts. */
  lemma DemoRatingRange(id: string)
    ensures 3.0 <= DemoRating(id) <= 4.9
    ensures DemoRating(id) == 3.0 + ((CharCodeSum(id) % 20) as real) / 10.0
  {
  }

  /** `DEMO_TRACKS`. */
  const DemoTracks: seq<string> := ["Al Wathba Circuit", "Yas Marina Circuit", "Desert Route 1", "Corniche Road"]

  /** The demo track of an id: always one of the four, by sum mod 4. */
  function DemoTrack(id: string): (t: string)
    ensures t in DemoTracks
    ensures t == DemoTracks[CharCodeSum(id) % |DemoTracks|]
  {
    DemoTracks[CharCodeSum(id) % |DemoTracks|]
  }

  /** Ids whose character codes add up the same get the same demo values,
      whatever the order of their characters. */
  lemma DemoValuesDependOnSum(a: string, b: string)
    ensures DemoRating(a + b) == DemoRating(b + a) && DemoTrack(a + b) == DemoTrack(b + a)
  {
    CharCodeSumAppend(a, b);
    CharCodeSumAppend(b, a);
  }

  /** The names every plain object inherits from `Object.prototype`. The
      seeding map is a `{ ...prev }` object literal, so `id in next` holds
      for these as well as for the keys stored in it. */
  const InheritedKeys: set<string> := {
    "constructor", "hasOwnProperty", "isPrototypeOf", "propertyIsEnumerable",
    "toString", "toLocaleString", "valueOf", "__proto__", "__defineGetter__",
    "__defineSetter__", "__lookupGetter__", "__lookupSetter__" }

  /** `id in next` on the seeding object. */
  predicate InObject<V>(id: string, next: map<string, V>) {
    id in next || id in InheritedKeys
  }

  /** The demo seeding effect: for each loaded event with a non-empty key that
      `in` does not find in the object, store the value derived from the key.
      Existing keys are never overwritten, and an inherited name is never
      seeded. */
  method Seed<V>(prev: map<string, V>, events: seq<EventRecord>, value: string -> V) returns (next: map<string, V>)
    ensures forall k :: k in prev ==> k in next && next[k] == prev[k]
    ensures forall i :: 0 <= i < |events| && RecordKey(events[i]) != "" && RecordKey(events[i]) !in InheritedKeys ==>
      RecordKey(events[i]) in next
    ensures forall k :: k in next && k !in prev ==>
      k != "" && k !in InheritedKeys && next[k] == value(k) && exists i :: 0 <= i < |events| && RecordKey(events[i]) == k
  {
    if |events| == 0 {
      return prev;
    }
    next := prev;
    var i := 0;
    while i < |events|
      invariant 0 <= i <= |events|
      invariant forall k :: k in prev ==> k in next && next[k] == prev[k]
      invariant forall j :: 0 <= j < i && RecordKey(events[j]) != "" && RecordKey(events[j]) !in InheritedKeys ==>
        RecordKey(events[j]) in next
      invariant forall k :: k in next && k !in prev ==>
        k != "" && k !in InheritedKeys && next[k] == value(k) && exists j :: 0 <= j < i && RecordKey(events[j]) == k
    {
      var id := RecordKey(events[i]);
      if id != "" && !InObject(id, next) {
        next := next[id := value(id)];
      }
      i := i + 1;
    }
  }

  /** The two seeding effects. */
  method SeedRatings(prev: map<string, real>, events: seq<EventRecord>) returns (next: map<string, real>)
    ensures forall k :: k in prev ==> k in next && next[k] == prev[k]
    ensures forall k :: k in next && k !in prev ==> 3.0 <= next[k] <= 4.9 && k !in InheritedKeys
    ensures forall i :: 0 <= i < |events| && RecordKey(events[i]) != "" && RecordKey(events[i]) !in InheritedKeys ==>
      RecordKey(events[i]) in next
  {
    next := Seed(prev, events, DemoRating);
    forall k | k in next && k !in prev ensures 3.0 <= next[k] <= 4.9 {
      DemoRatingRange(k);
    }
  }

  method SeedTracks(prev: map<string, string>, events: seq<EventRecord>) returns (next: map<string, string>)
    ensures forall k :: k in prev ==> k in next && next[k] == prev[k]
    ensures forall k :: k in next && k !in prev ==> next[k] in DemoTracks && k !in InheritedKeys
    ensures forall i :: 0 <= i < |events| && RecordKey(events[i]) != "" && RecordKey(events[i]) !in InheritedKeys ==>
      RecordKey(events[i]) in next
  {
    next := Seed(prev, events, DemoTrack);
  }
}
