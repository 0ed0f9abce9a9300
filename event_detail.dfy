/** The event detail screen: the loaded event, the edit mode and its form
    (filled from the event on entering edit mode, reset from it on cancel),
    saving, and cancelling the event itself. The backend's replies and the
    confirmation dialog's answer are parameters. */
module EventDetail {
  import opened Wrappers
  import opened App
  import opened EventsApi
  import opened EventForm
  import EventsList
  import Layout

  /** Only the status, set to 'cancelled'. */
  const CancelPayload := EventPayload(None, None, None, None, None, None, None, None, None, None, None, Some("cancelled"))

  /** The cancel action is offered unless the event is already cancelled, in
      either spelling. */
  predicate ShowCancelAction(status: Option<string>) {
    status != Some("cancelled") && status != Some("Cancelled")
  }

  /** The cancel payload carries nothing but the status, and once the backend
      stores it the cancel action is no longer offered; an event without a
      status offers it. */
  lemma CancelPayloadSpec(mongoId: Option<string>, id: Option<string>)
    ensures CancelPayload.status == Some("cancelled")
    ensures CancelPayload == EventPayload(None, None, None, None, None, None, None, None, None, None, None, CancelPayload.status)
    ensures !ShowCancelAction(Stored(CancelPayload, mongoId, id).status)
    ensures ShowCancelAction(None) && ShowCancelAction(Some("upcoming"))
  {
  }

  /** The screen's role test is the list's. */
  lemma CanEditAsInList(role: UserRole)
    ensures EventsList.CanEdit(role) <==> role in {SuperAdmin, ContentManager, CommunityManager}
  {
  }

  class DetailScreen {
    const eventId: string
    var event: Option<EventRecord>
    var isEditing: bool
    var form: Form

    constructor (eventId: string)
      ensures this.eventId == eventId
      ensures event == None && !isEditing && form == InitialForm
    {
      this.eventId := eventId;
      event := None;
      isEditing := false;
      form := InitialForm;
    }

    /** The request `loadEvent` sends: `getEventById(eventId)`. */
    function LoadRequest(): (r: Request)
      ensures r == GetRequest(eventId) && r.verb == "GET"
    {
      GetRequest(eventId)
    }

    /** `loadEvent` once the reply is in. A new event while editing refills
        the form (the effect on the event and the edit flag). */
    method LoadEvent(reply: Result<EventRecord, Failure>)
      modifies this
      ensures reply.Ok? ==> event == Some(reply.value)
      ensures reply.Err? ==> event == old(event)
      ensures isEditing == old(isEditing)
      ensures reply.Ok? && isEditing ==> form == FromRecord(reply.value)
      ensures reply.Err? || !isEditing ==> form == old(form)
    {
      if reply.Ok? {
        event := Some(reply.value);
        if isEditing {
          form := FromRecord(reply.value);
        }
      }
    }

    /** The 'Edit Event' button. Entering edit mode fills the form from the
        event; pressing it while already editing changes nothing. */
    method StartEdit()
      modifies this
      ensures isEditing && event == old(event)
      ensures !old(isEditing) && event.Some? ==> form == FromRecord(event.value)
      ensures old(isEditing) || event.None? ==> form == old(form)
    {
      if !isEditing {
        isEditing := true;
        if event.Some? {
          form := FromRecord(event.value);
        }
      }
    }

    /** `handleCancelEdit`: leaves edit mode and resets the form from the
        event, to the same values entering edit mode produced. */
    method CancelEdit()
      modifies this
      ensures !isEditing && event == old(event)
      ensures event.Some? ==> form == FromRecord(event.value)
      ensures event.None? ==> form == old(form)
    {
      isEditing := false;
      if event.Some? {
        form := FromRecord(event.value);
      }
    }

    /** `handleImageUpload`. */
    method UploadImage(field: ImageField, dataUrl: string)
      modifies this
      ensures form == WithImage(old(form), field, dataUrl)
      ensures event == old(event) && isEditing == old(isEditing)
    {
      form := WithImage(form, field, dataUrl);
    }

    /** A number input's `onChange`: only that field is re-read. */
    method EditNumber(field: NumberField, value: string)
      modifies this
      ensures form == WithNumber(old(form), field, value)
      ensures event == old(event) && isEditing == old(isEditing)
    {
      form := WithNumber(form, field, value);
    }

    /** `handleSave`: refused without the required fields; otherwise the update
        is sent, and a successful reply ends edit mode. */
    method Save(reply: Result<(), Failure>) returns (r: Result<Request, FormError>)
      modifies this
      ensures r == SaveRequest(eventId, old(form))
      ensures form == old(form) && event == old(event)
      ensures r.Ok? && reply.Ok? ==> !isEditing
      ensures r.Err? || reply.Err? ==> isEditing == old(isEditing)
    {
      if !HasRequired(form) {
        return Err(MissingRequired);
      }
      r := Ok(UpdateRequest(eventId, SavePayload(form)));
      if reply.Ok? {
        isEditing := false;
      }
    }

    /** `handleCancel`: after confirmation, an update carrying only the
        cancelled status. */
    method CancelEvent(confirmed: bool) returns (r: Option<Request>)
      ensures confirmed <==> r.Some?
      ensures r.Some? ==> r.value == UpdateRequest(eventId, CancelPayload) && r.value.body.value.status == Some("cancelled")
    {
      if confirmed {
        r := Some(UpdateRequest(eventId, CancelPayload));
      } else {
        r := None;
      }
    }
  }

  /** As the layout mounts the screen, no `eventId` is passed: the load, the
      save and the cancel all address the event `undefined`, never the event
      of the URL, and the back and duplicate buttons throw. */
  lemma MountedDetailAddressesUndefined(screen: DetailScreen, routeId: string, form: Form, prev: AppState)
    requires screen.eventId == Interpolated(Layout.RoutedDetailEventId)
    ensures screen.LoadRequest().path == EventsPath + "/undefined"
    ensures routeId != "undefined" ==> screen.LoadRequest().path != EventPath(routeId)
    ensures SaveRequest(screen.eventId, form).Ok? ==> SaveRequest(screen.eventId, form).value.path == EventsPath + "/undefined"
    ensures UpdateRequest(screen.eventId, CancelPayload).path == EventsPath + "/undefined"
    ensures CallNavigate(Layout.RoutedNavigate, prev, "events", None) == NavigateThrew
  {
    if screen.LoadRequest().path == EventPath(routeId) {
      EventPathInjective(screen.eventId, routeId);
    }
  }

  /** Given the id of the route `/events/:id`, as the edit screen reads it,
      and the shell's `navigate`, every request addresses that event and the
      back button returns to the events list. */
  lemma RoutedDetailAddressesEvent(screen: DetailScreen, routeId: string, form: Form, prev: AppState)
    requires screen.eventId == routeId
    ensures screen.LoadRequest().path == EventPath(routeId)
    ensures forall other :: other != routeId ==> screen.LoadRequest().path != EventPath(other)
    ensures SaveRequest(screen.eventId, form).Ok? ==> SaveRequest(screen.eventId, form).value.path == EventPath(routeId)
    ensures UpdateRequest(screen.eventId, CancelPayload).path == EventPath(routeId)
    ensures var r := CallNavigate(ShellNavigate, prev, "events", None);
      r.Navigated? && RenderContent(r.state) == App.EventsList(prev.currentRole)
  {
    forall other | other != routeId ensures screen.LoadRequest().path != EventPath(other) {
      if screen.LoadRequest().path == EventPath(other) {
        EventPathInjective(routeId, other);
      }
    }
  }
}
