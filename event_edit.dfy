/** The edit-event screen: the loaded event and the form it fills, image
    uploads into the form, and the save request. The backend's replies are
    parameters. */
module EventEdit {
  import opened Wrappers
  import opened EventsApi
  import opened EventForm
  import Layout
  import Sidebar

  /** The screen's state: the id from the route (`id || ''`), the event once
      loaded, and the form. */
  class EditScreen {
    const eventId: string
    var event: Option<EventRecord>
    var form: Form

    constructor (routeId: Option<string>)
      ensures eventId == OrEmpty(routeId)
      ensures event == None && form == InitialForm
    {
      eventId := OrEmpty(routeId);
      event := None;
      form := InitialForm;
    }

    /** The request `loadEvent` sends. */
    function LoadRequest(): (r: Request)
      ensures r == GetRequest(eventId) && r.verb == "GET"
    {
      GetRequest(eventId)
    }

    /** `loadEvent` once the reply is in: a record fills the form; a failure
        changes nothing, and the screen keeps saying the event is not found. */
    method LoadEvent(reply: Result<EventRecord, Failure>)
      modifies this
      ensures reply.Ok? ==> event == Some(reply.value) && form == FromRecord(reply.value)
      ensures reply.Err? ==> event == old(event) && form == old(form)
    {
      if reply.Ok? {
        event := Some(reply.value);
        form := FromRecord(reply.value);
      }
    }

    /** `handleImageUpload`: the file's data URL replaces the named field only. */
    method UploadImage(field: ImageField, dataUrl: string)
      modifies this
      ensures form == WithImage(old(form), field, dataUrl)
      ensures event == old(event)
    {
      form := WithImage(form, field, dataUrl);
    }

    /** A number input's `onChange`: only that field is re-read. */
    method EditNumber(field: NumberField, value: string)
      modifies this
      ensures form == WithNumber(old(form), field, value)
      ensures event == old(event)
    {
      form := WithNumber(form, field, value);
    }

    /** `handleSave` up to the request. */
    method Save() returns (r: Result<Request, FormError>)
      ensures r == SaveRequest(eventId, form)
      ensures r.Ok? ==> r.value.body == Some(SavePayload(form)) && r.value.body.value.status.None?
    {
      if !HasRequired(form) {
        return Err(MissingRequired);
      }
      r := Ok(UpdateRequest(eventId, SavePayload(form)));
    }
  }

  /** After saving, the router goes to `/events/<id>`. */
  function AfterSavePath(eventId: string): (path: string)
    ensures path == "/events/" + eventId
  {
    "/events/" + eventId
  }

  /** That path still maps to the events page id. */
  lemma AfterSaveMapsToEvents(eventId: string)
    ensures Layout.GetCurrentPage(AfterSavePath(eventId)) == "events"
  {
    Layout.MenuPathsMapToTheirItem(1, "/" + eventId);
    assert Sidebar.MenuItems[1] == Sidebar.EventsItem;
    assert "/events" + ("/" + eventId) == "/events/" + eventId;
  }
}
