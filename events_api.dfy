/** The events endpoints of the backend: the list call's parameter defaults
    and the three response shapes it accepts, the `data` unwrap of the
    single-record calls, and the requests each call sends. The server's
    reply is a parameter of each call. */
module EventsApi {
  import opened Wrappers
  import Text

  /** A decoded JSON body. Numbers are exact; `NaN` does not occur in JSON. */
  datatype Json =
    | JNull
    | JBool(b: bool)
    | JNumber(n: real)
    | JString(s: string)
    | JArray(items: seq<Json>)
    | JObject(fields: map<string, Json>)

  /** `v.key` for the fixed keys read here: present only on objects. */
  function Prop(v: Json, key: string): (r: Option<Json>)
    ensures r.Some? <==> v.JObject? && key in v.fields
  {
    if v.JObject? && key in v.fields then Some(v.fields[key]) else None
  }

  /** `v?.key`: `undefined` and `null` short-circuit to `undefined`. */
  function Chain(v: Option<Json>, key: string): Option<Json> {
    if v.None? || v.value.JNull? then None else Prop(v.value, key)
  }

  /** JavaScript truthiness of a value that may be `undefined`. */
  predicate Truthy(v: Option<Json>) {
    match v
    case None => false
    case Some(JNull) => false
    case Some(JBool(b)) => b
    case Some(JNumber(n)) => n != 0.0
    case Some(JString(s)) => s != ""
    case Some(JArray(_)) => true
    case Some(JObject(_)) => true
  }

  /** Why a call failed: the client rejected it (the interceptor's error,
      rethrown), or the body was `null` and reading a property of it threw. */
  datatype Failure = Rejected(status: Option<int>) | TypeError

  /** The list call's shape normalisation: an array body is the list; else the
      nested `data.events`, then a top-level `events`, is used when truthy;
      anything else gives an empty list. A `null` body throws. */
  function NormaliseEvents(body: Json): (r: Result<Json, Failure>)
    ensures r.Err? <==> body.JNull?
    ensures r.Err? ==> r.error == TypeError
    ensures body.JArray? ==> r == Ok(body)
    ensures r.Ok? ==> Truthy(Some(r.value))
  {
    if body.JArray? then Ok(body)
    else if body.JNull? then Err(TypeError)
    else
      var nested := Chain(Prop(body, "data"), "events");
      if Truthy(nested) then Ok(nested.value)
      else if Truthy(Prop(body, "events")) then Ok(Prop(body, "events").value)
      else Ok(JArray([]))
  }

  /** The paginated envelope `{ success, message, data: { events, pagination } }`. */
  function Envelope(events: seq<Json>, outer: map<string, Json>, inner: map<string, Json>): Json {
    JObject(outer["data" := JObject(inner["events" := JArray(events)])])
  }

  /** The envelope yields its nested list, whatever else the body holds,
      a top-level `events` included. */
  lemma EnvelopeYieldsNestedEvents(events: seq<Json>, outer: map<string, Json>, inner: map<string, Json>)
    ensures NormaliseEvents(Envelope(events, outer, inner)) == Ok(JArray(events))
  {
    var body := Envelope(events, outer, inner);
    assert Prop(body, "data") == Some(JObject(inner["events" := JArray(events)]));
  }

  /** `{ events, pagination }` yields its list when no nested list is present. */
  lemma FlatShapeYieldsEvents(events: seq<Json>, rest: map<string, Json>)
    requires "data" !in rest
    ensures NormaliseEvents(JObject(rest["events" := JArray(events)])) == Ok(JArray(events))
  {
    var body := JObject(rest["events" := JArray(events)]);
    assert Prop(body, "data") == None;
  }

  /** Any other non-null body yields an empty list. */
  lemma OtherShapesYieldNothing(body: Json)
    requires !body.JNull? && !body.JArray?
    requires !Truthy(Chain(Prop(body, "data"), "events")) && !Truthy(Prop(body, "events"))
    ensures NormaliseEvents(body) == Ok(JArray([]))
  {
  }

  /** Scalar bodies have no properties, so they always yield an empty list. */
  lemma ScalarBodiesYieldNothing(body: Json)
    requires body.JBool? || body.JNumber? || body.JString?
    ensures NormaliseEvents(body) == Ok(JArray([]))
  {
  }

  /** The single-record calls return `body.data` when it is truthy, else the
      body itself; a `null` body throws. */
  function Unwrap(body: Json): (r: Result<Json, Failure>)
    ensures r.Err? <==> body.JNull?
    ensures r.Ok? ==> r.value == body || Prop(body, "data") == Some(r.value)
    ensures r.Ok? && !Truthy(Prop(body, "data")) ==> r.value == body
    ensures !body.JNull? && Truthy(Prop(body, "data")) ==> r == Ok(Prop(body, "data").value)
  {
    if body.JNull? then Err(TypeError)
    else if Truthy(Prop(body, "data")) then Ok(Prop(body, "data").value)
    else Ok(body)
  }

  /** Wrapping a record as `{ ..., data: record }` and unwrapping gives the
      record back; a bare record with no truthy `data` key comes back as is. */
  lemma UnwrapRoundTrip(record: map<string, Json>, outer: map<string, Json>)
    ensures Unwrap(JObject(outer["data" := JObject(record)])) == Ok(JObject(record))
    ensures !Truthy(Prop(JObject(record), "data")) ==> Unwrap(JObject(record)) == Ok(JObject(record))
  {
    assert Prop(JObject(outer["data" := JObject(record)]), "data") == Some(JObject(record));
  }

  /** The list call's optional query. */
  datatype GetEventsParams = GetEventsParams(status: Option<string>, page: Option<int>, limit: Option<int>)

  /** The query actually sent. */
  datatype RequestParams = RequestParams(status: Option<string>, page: int, limit: int)

  /** `n || default` for a number that may be `undefined`. */
  function NumberOr(n: Option<int>, default: int): (r: int)
    ensures n.Some? && n.value != 0 ==> r == n.value
    ensures n.None? || n.value == 0 ==> r == default
  {
    if n.Some? && n.value != 0 then n.value else default
  }

  /** `status` passes through; `page` and `limit` each default on their own:
      a falsy `page` becomes 1 and a falsy `limit` 10, whatever the other. */
  function RequestParamsFor(params: Option<GetEventsParams>): (r: RequestParams)
    ensures r.page != 0 && r.limit != 0
    ensures params.None? ==> r == RequestParams(None, 1, 10)
    ensures params.Some? ==> r.status == params.value.status
    ensures params.Some? && params.value.page.Some? && params.value.page.value != 0 ==> r.page == params.value.page.value
    ensures params.Some? && (params.value.page.None? || params.value.page.value == 0) ==> r.page == 1
    ensures params.Some? && params.value.limit.Some? && params.value.limit.value != 0 ==> r.limit == params.value.limit.value
    ensures params.Some? && (params.value.limit.None? || params.value.limit.value == 0) ==> r.limit == 10
  {
    if params.None? then RequestParams(None, 1, 10)
    else RequestParams(params.value.status, NumberOr(params.value.page, 1), NumberOr(params.value.limit, 10))
  }

  /** Explicit non-zero values are kept, each field independently of the
      other, so the defaults are a fixed point: sending the query that was
      sent once sends the same query. */
  lemma RequestParamsKeepExplicit(status: Option<string>, page: int, limit: int)
    requires page != 0 && limit != 0
    ensures RequestParamsFor(Some(GetEventsParams(status, Some(page), Some(limit)))) == RequestParams(status, page, limit)
    ensures var r := RequestParamsFor(Some(GetEventsParams(status, None, Some(0))));
      r.page == 1 && r.limit == 10
    ensures RequestParamsFor(Some(GetEventsParams(status, None, Some(limit)))) == RequestParams(status, 1, limit)
    ensures RequestParamsFor(Some(GetEventsParams(status, Some(page), None))) == RequestParams(status, page, 10)
  {
  }

  /** An event as the backend returns it (`EventApiResponse`), taken with the
      field types its interface declares; every field may be absent. `mongoId`
      is the backend's `_id`. */
  datatype EventRecord = EventRecord(
    mongoId: Option<string>, id: Option<string>, title: Option<string>,
    description: Option<string>, mainImage: Option<string>, eventImage: Option<string>,
    eventDate: Option<string>, eventTime: Option<string>, address: Option<string>,
    maxParticipants: Option<int>, minAge: Option<int>, maxAge: Option<int>,
    youtubeLink: Option<string>, status: Option<string>)

  /** `Partial<EventApiResponse>` as the screens send it: `None` fields are
      left out of the JSON body. */
  datatype EventPayload = EventPayload(
    title: Option<string>, description: Option<string>, mainImage: Option<string>,
    eventImage: Option<string>, eventDate: Option<string>, eventTime: Option<string>,
    address: Option<string>, maxParticipants: Option<int>, minAge: Option<int>,
    maxAge: Option<int>, youtubeLink: Option<string>, status: Option<string>)

  /** An HTTP request as the client sends it to the base URL. */
  datatype Request = Request(verb: string, path: string, query: Option<RequestParams>, body: Option<EventPayload>)

  const EventsPath := "/v1/events"

  /** A template literal's rendering of an id that may be `undefined`. */
  function Interpolated(id: Option<string>): (s: string)
    ensures id.Some? ==> s == id.value
    ensures id.None? ==> s == "undefined"
  {
    if id.Some? then id.value else "undefined"
  }

  /** The path of one event. */
  function EventPath(id: string): (p: string)
    ensures Text.StartsWith(p, EventsPath + "/")
    ensures p[|EventsPath| + 1..] == id
  {
    EventsPath + "/" + id
  }

  /** Different ids address different paths. */
  lemma EventPathInjective(a: string, b: string)
    requires EventPath(a) == EventPath(b)
    ensures a == b
  {
    assert EventPath(a)[|EventsPath| + 1..] == a;
  }

  function ListRequest(params: Option<GetEventsParams>): Request {
    Request("GET", EventsPath, Some(RequestParamsFor(params)), None)
  }

  function GetRequest(id: string): Request {
    Request("GET", EventPath(id), None, None)
  }

  function CreateRequest(payload: EventPayload): Request {
    Request("POST", EventsPath, None, Some(payload))
  }

  function UpdateRequest(id: string, payload: EventPayload): Request {
    Request("PATCH", EventPath(id), None, Some(payload))
  }

  function DeleteRequest(id: string): Request {
    Request("DELETE", EventPath(id), None, None)
  }

  /** `getAllEvents` once the reply is in: a rejection is rethrown, a body is
      normalised. */
  function GetAllEvents(reply: Result<Json, Failure>): (r: Result<Json, Failure>)
    ensures reply.Err? ==> r == Err(reply.error)
    ensures reply.Ok? ==> r == NormaliseEvents(reply.value)
  {
    if reply.Err? then Err(reply.error) else NormaliseEvents(reply.value)
  }

  /** `getEventById`, `createEvent` and `updateEvent` once the reply is in. */
  function SingleRecord(reply: Result<Json, Failure>): (r: Result<Json, Failure>)
    ensures reply.Err? ==> r == Err(reply.error)
    ensures reply.Ok? ==> r == Unwrap(reply.value)
  {
    if reply.Err? then Err(reply.error) else Unwrap(reply.value)
  }

  /** `deleteEvent` once the reply is in: the body is ignored. */
  function DeleteEvent(reply: Result<Json, Failure>): (r: Result<(), Failure>)
    ensures r.Ok? <==> reply.Ok?
    ensures reply.Err? ==> r == Err(reply.error)
  {
    if reply.Err? then Err(reply.error) else Ok(())
  }
}
