/** The event form shared by the create, edit and detail screens: its initial
    values, the mapping from a backend record into the form, the required-field
    test, the number inputs, the image fields, and the update payload. */
module EventForm {
  import opened Wrappers
  import Text
  import opened EventsApi

  /** The screens' `formData`. */
  datatype Form = Form(
    title: string, description: string, mainImage: string, eventImage: string,
    eventDate: string, eventTime: string, address: string,
    maxParticipants: int, minAge: int, maxAge: int, youtubeLink: string)

  const DefaultMaxParticipants := 500
  const DefaultMinAge := 16
  const DefaultMaxAge := 70

  /** Every text field empty; the three numbers at their defaults. */
  const InitialForm := Form("", "", "", "", "", "", "", DefaultMaxParticipants, DefaultMinAge, DefaultMaxAge, "")

  /** `s || ''` for a string that may be absent. */
  function OrEmpty(s: Option<string>): (r: string)
    ensures s.Some? ==> r == s.value
    ensures s.None? ==> r == ""
  {
    if s.Some? then s.value else ""
  }

  /** `d ? d.split('T')[0] : ''`: the date part of an ISO timestamp, the whole
      string when it has no `T`. */
  function DatePart(d: Option<string>): (r: string)
    ensures d.None? || d.value == "" ==> r == ""
    ensures 'T' !in r
    ensures d.Some? ==> Text.StartsWith(d.value, r)
    ensures d.Some? && 'T' !in d.value ==> r == d.value
  {
    if d.None? || d.value == "" then ""
    else
      Text.SplitFirstPart(d.value, 'T');
      Text.SplitPartsLackSeparator(d.value, 'T');
      Text.Split(d.value, 'T')[0]
  }

  /** The date part of `date + "T" + time` is `date`, whatever the time. */
  lemma DatePartOfTimestamp(date: string, time: string)
    requires 'T' !in date
    ensures DatePart(Some(date + ['T'] + time)) == date
  {
    Text.SplitAtSeparator(date, 'T', time);
  }

  /** The record-to-form mapping of `loadEvent` (edit screen) and of entering
      or leaving edit mode (detail screen). */
  function FromRecord(e: EventRecord): (f: Form)
    ensures f.maxParticipants != 0 && f.minAge != 0 && f.maxAge != 0
    ensures 'T' !in f.eventDate
  {
    Form(
      OrEmpty(e.title), OrEmpty(e.description), OrEmpty(e.mainImage), OrEmpty(e.eventImage),
      DatePart(e.eventDate), OrEmpty(e.eventTime), OrEmpty(e.address),
      NumberOr(e.maxParticipants, DefaultMaxParticipants),
      NumberOr(e.minAge, DefaultMinAge),
      NumberOr(e.maxAge, DefaultMaxAge),
      OrEmpty(e.youtubeLink))
  }

  /** A text input loaded with `value || ''`: a missing field is empty and a
      present one is shown as it is. */
  predicate LoadedText(field: Option<string>, shown: string) {
    (field.None? ==> shown == "") && (field.Some? ==> shown == field.value)
  }

  /** A number input loaded with `value || default`: a non-zero number is
      kept, and a missing or zero one gives the default. */
  predicate LoadedNumber(field: Option<int>, default: int, shown: int) {
    (field.Some? && field.value != 0 ==> shown == field.value) &&
    (field.None? || field.value == 0 ==> shown == default)
  }

  /** Every one of the seven text fields is loaded on its own with `|| ''`,
      each number on its own with its default (500, 16, 70), and the date
      keeps only what precedes the first `T` (empty when missing, the whole
      value when it has no `T`). */
  lemma FromRecordDefaults(e: EventRecord)
    ensures var f := FromRecord(e);
      LoadedText(e.title, f.title) && LoadedText(e.description, f.description) &&
      LoadedText(e.mainImage, f.mainImage) && LoadedText(e.eventImage, f.eventImage) &&
      LoadedText(e.eventTime, f.eventTime) && LoadedText(e.address, f.address) &&
      LoadedText(e.youtubeLink, f.youtubeLink)
    ensures var f := FromRecord(e);
      LoadedNumber(e.maxParticipants, 500, f.maxParticipants) &&
      LoadedNumber(e.minAge, 16, f.minAge) &&
      LoadedNumber(e.maxAge, 70, f.maxAge)
    ensures var f := FromRecord(e);
      (e.eventDate.None? ==> f.eventDate == "") &&
      (e.eventDate.Some? ==> Text.StartsWith(e.eventDate.value, f.eventDate)) &&
      (e.eventDate.Some? && 'T' !in e.eventDate.value ==> f.eventDate == e.eventDate.value)
  {
  }

  /** An empty record loads as the initial form. */
  lemma EmptyRecordIsInitialForm()
    ensures FromRecord(EventRecord(None, None, None, None, None, None, None, None, None, None, None, None, None, None)) == InitialForm
  {
  }

  /** `s || undefined`: an empty string is left out of the payload. */
  function OrUndefined(s: string): (r: Option<string>)
    ensures r.None? <==> s == ""
    ensures r.Some? ==> r.value == s
  {
    if s == "" then None else Some(s)
  }

  /** Title, date and address must all be non-empty. */
  predicate HasRequired(f: Form) {
    f.title != "" && f.eventDate != "" && f.address != ""
  }

  /** The update payload of the edit and detail screens: no status; empty
      images and an empty video link are left out; the rest is copied. */
  function SavePayload(f: Form): (p: EventPayload)
    ensures p.status.None?
    ensures p.title == Some(f.title) && p.eventDate == Some(f.eventDate) && p.address == Some(f.address)
    ensures p.mainImage == OrUndefined(f.mainImage) && p.eventImage == OrUndefined(f.eventImage)
    ensures p.youtubeLink == OrUndefined(f.youtubeLink)
  {
    EventPayload(
      Some(f.title), Some(f.description), OrUndefined(f.mainImage), OrUndefined(f.eventImage),
      Some(f.eventDate), Some(f.eventTime), Some(f.address),
      Some(f.maxParticipants), Some(f.minAge), Some(f.maxAge),
      OrUndefined(f.youtubeLink), None)
  }

  /** A record carrying exactly the payload's fields, as the backend stores
      them. */
  function Stored(p: EventPayload, mongoId: Option<string>, id: Option<string>): (e: EventRecord)
    ensures e.title == p.title && e.eventDate == p.eventDate && e.status == p.status
  {
    EventRecord(
      mongoId, id, p.title, p.description, p.mainImage, p.eventImage,
      p.eventDate, p.eventTime, p.address, p.maxParticipants, p.minAge, p.maxAge,
      p.youtubeLink, p.status)
  }

  /** Saving a form and loading the stored record gives the same form back,
      provided its date has no time part and its numbers are non-zero (the
      inputs never produce zero). */
  lemma SaveLoadRoundTrip(f: Form, mongoId: Option<string>, id: Option<string>)
    requires 'T' !in f.eventDate
    requires f.maxParticipants != 0 && f.minAge != 0 && f.maxAge != 0
    ensures FromRecord(Stored(SavePayload(f), mongoId, id)) == f
  {
  }

  /** Loading, then saving without changes, then loading again is stable. */
  lemma LoadSaveLoadStable(e: EventRecord)
    ensures FromRecord(Stored(SavePayload(FromRecord(e)), e.mongoId, e.id)) == FromRecord(e)
  {
    SaveLoadRoundTrip(FromRecord(e), e.mongoId, e.id);
  }

  /** Why a save was refused. */
  datatype FormError = MissingRequired

  /** `handleSave` of the edit and detail screens up to the request: refused
      unless the required fields are filled, else an update of that event. */
  function SaveRequest(eventId: string, f: Form): (r: Result<Request, FormError>)
    ensures r.Err? <==> !HasRequired(f)
    ensures r.Ok? ==> r.value == UpdateRequest(eventId, SavePayload(f)) && r.value.verb == "PATCH"
  {
    if !HasRequired(f) then Err(MissingRequired)
    else Ok(UpdateRequest(eventId, SavePayload(f)))
  }

  /** The two image fields an upload may target. */
  datatype ImageField = MainImage | EventImage

  /** `{ ...prev, [field]: data }`. */
  function WithImage(f: Form, field: ImageField, data: string): (g: Form)
    ensures field.MainImage? ==> g.mainImage == data && g.eventImage == f.eventImage
    ensures field.EventImage? ==> g.eventImage == data && g.mainImage == f.mainImage
    ensures g.(mainImage := f.mainImage, eventImage := f.eventImage) == f
  {
    match field
    case MainImage => f.(mainImage := data)
    case EventImage => f.(eventImage := data)
  }

  /** Uploading into one field and then the other is order-independent, and a
      second upload into a field replaces the first. */
  lemma UploadsCommute(f: Form, a: string, b: string, c: string)
    ensures WithImage(WithImage(f, MainImage, a), EventImage, b) == WithImage(WithImage(f, EventImage, b), MainImage, a)
    ensures WithImage(WithImage(f, MainImage, a), MainImage, c) == WithImage(f, MainImage, c)
  {
  }

  /** `parseInt(value) || default`: a number that does not parse, or parses
      to zero, becomes the default. */
  function NumberInput(value: string, default: int): (n: int)
    ensures default != 0 ==> n != 0
    ensures Text.ParseInt(value).None? || Text.ParseInt(value) == Some(0) ==> n == default
    ensures Text.ParseInt(value).Some? && Text.ParseInt(value) != Some(0) ==> n == Text.ParseInt(value).value
  {
    var parsed := Text.ParseInt(value);
    if parsed.Some? && parsed.value != 0 then parsed.value else default
  }

  /** Typing a positive number keeps it exactly; typing zero restores the
      default. */
  lemma NumberInputKeepsPositive(v: nat, default: int)
    ensures v != 0 ==> NumberInput(Text.DecimalString(v), default) == v
    ensures NumberInput(Text.DecimalString(0), default) == default
  {
    Text.ParseDecimalString(v);
    Text.ParseDecimalString(0);
  }

  /** The three number inputs. */
  datatype NumberField = MaxParticipants | MinAge | MaxAge

  /** One number input's `onChange`: `{ ...formData, [field]: parseInt(value)
      || default }`, each field with its own default. Only the named field
      changes, and a form whose numbers are all non-zero keeps them so. */
  function WithNumber(f: Form, field: NumberField, value: string): (g: Form)
    ensures field.MaxParticipants? ==>
      g.maxParticipants == NumberInput(value, DefaultMaxParticipants) && g.minAge == f.minAge && g.maxAge == f.maxAge
    ensures field.MinAge? ==>
      g.minAge == NumberInput(value, DefaultMinAge) && g.maxParticipants == f.maxParticipants && g.maxAge == f.maxAge
    ensures field.MaxAge? ==>
      g.maxAge == NumberInput(value, DefaultMaxAge) && g.maxParticipants == f.maxParticipants && g.minAge == f.minAge
    ensures g.(maxParticipants := f.maxParticipants, minAge := f.minAge, maxAge := f.maxAge) == f
    ensures f.maxParticipants != 0 && f.minAge != 0 && f.maxAge != 0 ==>
      g.maxParticipants != 0 && g.minAge != 0 && g.maxAge != 0
  {
    match field
    case MaxParticipants => f.(maxParticipants := NumberInput(value, DefaultMaxParticipants))
    case MinAge => f.(minAge := NumberInput(value, DefaultMinAge))
    case MaxAge => f.(maxAge := NumberInput(value, DefaultMaxAge))
  }

  /** Edits of two different number inputs are order-independent, and a
      second edit of the same input replaces the first. */
  lemma NumberEditsCommute(f: Form, a: NumberField, b: NumberField, v: string, w: string)
    ensures a != b ==> WithNumber(WithNumber(f, a, v), b, w) == WithNumber(WithNumber(f, b, w), a, v)
    ensures WithNumber(WithNumber(f, a, v), a, w) == WithNumber(f, a, w)
  {
  }
}
