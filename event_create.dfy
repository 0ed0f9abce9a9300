/** The create-event screen: the ordered submit checks with their base64 size
    estimates, the create payload, the navigation after creation, and the
    image compressor's pre-checks and quality ladder. The canvas encoder is a
    parameter. */
module EventCreate {
  import opened Wrappers
  import Text
  import App
  import Layout
  import opened EventsApi
  import opened EventForm

  /** 500 KiB per image, 1 MiB for both together. */
  const MaxImageSize: nat := 500 * 1024
  const MaxCombinedSize: nat := 1024 * 1024

  /** `(s.length * 3) / 4 > limit`, in exact arithmetic. */
  predicate TooLarge(s: string, limit: nat) {
    3 * |s| > 4 * limit
  }

  /** `s ? s.length : 0`: an empty image counts nothing. */
  function ImageLength(s: string): (n: nat)
    ensures n == |s|
  {
    if s == "" then 0 else |s|
  }

  /** The submit button's two choices. */
  datatype PublishChoice = Draft | Published

  /** Why a submit was refused, in the order the checks run. */
  datatype SubmitError = MissingFields | MainImageTooLarge | EventImageTooLarge | CombinedImagesTooLarge

  /** The checks of `handleSubmit`, first failure wins. */
  function SubmitCheck(f: Form): (r: Option<SubmitError>)
    ensures r == Some(MissingFields) <==> !HasRequired(f)
    ensures r == Some(MainImageTooLarge) <==> HasRequired(f) && TooLarge(f.mainImage, MaxImageSize)
    ensures r == Some(EventImageTooLarge) <==>
      HasRequired(f) && !TooLarge(f.mainImage, MaxImageSize) && TooLarge(f.eventImage, MaxImageSize)
  {
    if !HasRequired(f) then Some(MissingFields)
    else if f.mainImage != "" && TooLarge(f.mainImage, MaxImageSize) then Some(MainImageTooLarge)
    else if f.eventImage != "" && TooLarge(f.eventImage, MaxImageSize) then Some(EventImageTooLarge)
    else if 3 * (ImageLength(f.mainImage) + ImageLength(f.eventImage)) > 4 * MaxCombinedSize then Some(CombinedImagesTooLarge)
    else None
  }

  /** Once each image is within 500 KiB the two together are within 1 MiB, so
      the combined check never fires. */
  lemma {:induction false} CombinedCheckUnreachable(f: Form)
    ensures SubmitCheck(f) != Some(CombinedImagesTooLarge)
    ensures SubmitCheck(f).None? <==>
      HasRequired(f) && !TooLarge(f.mainImage, MaxImageSize) && !TooLarge(f.eventImage, MaxImageSize)
  {
    if HasRequired(f) && !TooLarge(f.mainImage, MaxImageSize) && !TooLarge(f.eventImage, MaxImageSize) {
      assert 3 * |f.mainImage| <= 4 * MaxImageSize;
      assert 3 * |f.eventImage| <= 4 * MaxImageSize;
      assert 3 * (|f.mainImage| + |f.eventImage|) <= 4 * MaxCombinedSize;
    }
  }

  /** The API knows no draft state: both choices are sent as 'upcoming'. */
  function ApiStatus(choice: PublishChoice): (s: string)
    ensures s == "upcoming"
  {
    match choice
    case Published => "upcoming"
    case Draft => "upcoming"
  }

  /** The create payload: the update payload with the API status added. */
  function CreatePayload(f: Form, choice: PublishChoice): (p: EventPayload)
    ensures p == SavePayload(f).(status := Some("upcoming"))
  {
    EventPayload(
      Some(f.title), Some(f.description), OrUndefined(f.mainImage), OrUndefined(f.eventImage),
      Some(f.eventDate), Some(f.eventTime), Some(f.address),
      Some(f.maxParticipants), Some(f.minAge), Some(f.maxAge),
      OrUndefined(f.youtubeLink), Some(ApiStatus(choice)))
  }

  /** `handleSubmit` up to the request: a refusal, or a create request whose
      body is the create payload. */
  function Submit(f: Form, choice: PublishChoice): (r: Result<Request, SubmitError>)
    ensures r.Err? <==> SubmitCheck(f).Some?
    ensures r.Err? ==> r.error == SubmitCheck(f).value
    ensures r.Ok? ==> r.value == CreateRequest(CreatePayload(f, choice)) && r.value.verb == "POST"
  {
    match SubmitCheck(f)
    case Some(e) => Err(e)
    case None => Ok(CreateRequest(CreatePayload(f, choice)))
  }

  /** Draft and publish send the same request, and empty images are never a
      reason to refuse. */
  lemma SubmitFacts(f: Form)
    ensures Submit(f, Draft) == Submit(f, Published)
    ensures HasRequired(f) && f.mainImage == "" && f.eventImage == "" ==> Submit(f, Draft).Ok?
    ensures Submit(f, Draft).Ok? ==> Submit(f, Draft).value.body.value.mainImage == OrUndefined(f.mainImage)
  {
  }

  /** `createdEvent._id || createdEvent.id`. */
  function CreatedEventId(created: EventRecord): (id: Option<string>)
    ensures created.mongoId.Some? && created.mongoId.value != "" ==> id == created.mongoId
    ensures created.mongoId.None? || created.mongoId.value == "" ==> id == created.id
  {
    if created.mongoId.Some? && created.mongoId.value != "" then created.mongoId else created.id
  }

  /** How a create the backend accepted ends: the detail page of the created
      event opens, or the `navigate` call throws and the `catch` shows an
      error toast although the event now exists. */
  datatype CreateOutcome = Opened(state: App.AppState) | ErrorToast

  /** After a successful create the screen navigates to the detail page of
      the created event, with the `navigate` it was given. */
  function AfterCreate(prop: App.NavProp, app: App.AppState, created: EventRecord): (r: CreateOutcome)
    ensures r.Opened? <==> prop.ShellNavigate?
    ensures r.Opened? ==> r.state == App.Navigate(app, "event-detail", Some(App.SelectEvent(CreatedEventId(created))))
  {
    match App.CallNavigate(prop, app, "event-detail", Some(App.SelectEvent(CreatedEventId(created))))
    case Navigated(s) => Opened(s)
    case NavigateThrew => ErrorToast
  }

  /** As the layout mounts the screen, every create the backend accepts is
      reported as a failure. */
  lemma MountedCreateShowsError(app: App.AppState, created: EventRecord)
    ensures AfterCreate(Layout.RoutedNavigate, app, created) == ErrorToast
  {
  }

  /** With the shell's `navigate`, the detail page shows the backend's `_id`
      when it has one, and falls back to event '1' when neither id is
      present. */
  lemma AfterCreateShowsCreated(app: App.AppState, created: EventRecord)
    ensures AfterCreate(App.ShellNavigate, app, created).Opened?
    ensures var s := AfterCreate(App.ShellNavigate, app, created).state;
      App.RenderContent(s) == App.EventDetail(App.OrFirst(CreatedEventId(created)), app.currentRole)
    ensures created.mongoId.Some? && created.mongoId.value != "" ==>
      App.RenderContent(AfterCreate(App.ShellNavigate, app, created).state).eventId == created.mongoId.value
    ensures created.mongoId.None? && created.id.None? ==>
      App.RenderContent(AfterCreate(App.ShellNavigate, app, created).state).eventId == "1"
  {
    App.CreatedEventOpens(app, CreatedEventId(created));
  }

  /** Why an image was not accepted. */
  datatype CompressError = NotAnImage | FileTooLarge | TooLargeAfterCompression

  /** 10 MiB before compression. */
  const MaxFileSize: nat := 10 * 1024 * 1024

  /** The checks made before decoding: the type must start with 'image/', and
      the file must be at most 10 MiB. */
  function Precheck(mimeType: string, size: int): (r: Option<CompressError>)
    ensures r == Some(NotAnImage) <==> !Text.StartsWith(mimeType, "image/")
    ensures r == Some(FileTooLarge) <==> Text.StartsWith(mimeType, "image/") && size > MaxFileSize
    ensures r.None? <==> Text.StartsWith(mimeType, "image/") && size <= MaxFileSize
  {
    if !Text.StartsWith(mimeType, "image/") then Some(NotAnImage)
    else if size > MaxFileSize then Some(FileTooLarge)
    else None
  }

  /** The JPEG qualities tried, best first. */
  const Qualities: seq<real> := [0.7, 0.5, 0.4, 0.3, 0.2, 0.15]

  /** The encoder's output for each quality, in order. */
  function Encodings(encode: real -> string): (encs: seq<string>)
    ensures |encs| == |Qualities|
  {
    seq(|Qualities|, i requires 0 <= i < |Qualities| => encode(Qualities[i]))
  }

  /** `(s.length * 3) / 4 <= max`, in exact arithmetic. */
  predicate Fits(s: string, max: nat) {
    3 * |s| <= 4 * max
  }

  /** The first encoding from `k` on that fits. */
  function FirstFit(encs: seq<string>, max: nat, k: nat): (r: Option<nat>)
    ensures r.Some? ==> k <= r.value < |encs| && Fits(encs[r.value], max)
    ensures r.Some? ==> forall j :: k <= j < r.value ==> !Fits(encs[j], max)
    ensures r.None? ==> forall j :: k <= j < |encs| ==> !Fits(encs[j], max)
    decreases |encs| - k
  {
    if k >= |encs| then None
    else if Fits(encs[k], max) then Some(k)
    else FirstFit(encs, max, k + 1)
  }

  /** The index of the earliest shortest encoding, as a running minimum with a
      strict comparison keeps it. */
  function Shortest(encs: seq<string>): (i: nat)
    requires |encs| > 0
    ensures i < |encs|
    ensures forall j :: 0 <= j < |encs| ==> |encs[i]| <= |encs[j]|
    ensures forall j :: 0 <= j < i ==> |encs[j]| > |encs[i]|
  {
    if |encs| == 1 then 0
    else
      var b := Shortest(encs[..|encs| - 1]);
      assert forall j :: 0 <= j < |encs| - 1 ==> encs[..|encs| - 1][j] == encs[j];
      if |encs[|encs| - 1]| < |encs[b]| then |encs| - 1 else b
  }

  /** What the ladder resolves with: the first encoding that fits; failing
      that, the earliest shortest one if it is non-empty. */
  function Ladder(encs: seq<string>, max: nat): (r: Result<string, CompressError>)
    ensures r.Ok? ==> r.value in encs
  {
    match FirstFit(encs, max, 0)
    case Some(i) => Ok(encs[i])
    case None =>
      if |encs| == 0 then Err(TooLargeAfterCompression)
      else if encs[Shortest(encs)] != "" then Ok(encs[Shortest(encs)])
      else Err(TooLargeAfterCompression)
  }

  /** The ladder's promise: it yields the first quality that fits, or the
      smallest output seen (the earliest among equals), and with at least one
      quality to try it never fails. */
  lemma LadderSpec(encs: seq<string>, max: nat, i: nat)
    requires i < |encs|
    ensures Fits(encs[i], max) && (forall j :: 0 <= j < i ==> !Fits(encs[j], max)) ==> Ladder(encs, max) == Ok(encs[i])
    ensures (forall j :: 0 <= j < |encs| ==> !Fits(encs[j], max)) ==>
      Ladder(encs, max).Ok? && |Ladder(encs, max).value| <= |encs[i]|
    ensures Ladder(encs, max).Ok?
  {
    match FirstFit(encs, max, 0)
    case Some(k) =>
      if Fits(encs[i], max) && (forall j :: 0 <= j < i ==> !Fits(encs[j], max)) {
        assert !(k < i) && !(i < k);
      }
    case None =>
      var s := Shortest(encs);
      assert !Fits(encs[s], max);
  }

  /** The quality loop: tries each quality in turn, resolving with the first
      output that fits and otherwise keeping the smallest one seen. */
  method SelectQuality(encode: real -> string, maxBase64Size: nat) returns (r: Result<string, CompressError>)
    ensures r == Ladder(Encodings(encode), maxBase64Size)
  {
    ghost var encs := Encodings(encode);
    var bestBase64 := "";
    var bestLength: Option<nat> := None;
    var i := 0;
    while i < |Qualities|
      invariant 0 <= i <= |Qualities|
      invariant forall j :: 0 <= j < i ==> !Fits(encs[j], maxBase64Size)
      invariant i == 0 <==> bestLength.None?
      invariant i == 0 ==> bestBase64 == ""
      invariant i > 0 ==> bestLength == Some(|bestBase64|) && bestBase64 == encs[Shortest(encs[..i])]
    {
      var base64String := encode(Qualities[i]);
      assert base64String == encs[i];
      if Fits(base64String, maxBase64Size) {
        assert FirstFit(encs, maxBase64Size, 0) == Some(i) by {
          FirstFitAt(encs, maxBase64Size, 0, i);
        }
        r := Ok(base64String);
        return;
      }
      assert encs[..i + 1][..i] == encs[..i];
      if bestLength.None? || |base64String| < bestLength.value {
        bestLength := Some(|base64String|);
        bestBase64 := base64String;
      }
      i := i + 1;
    }
    assert encs[..i] == encs;
    assert FirstFit(encs, maxBase64Size, 0).None? by {
      FirstFitAt(encs, maxBase64Size, 0, |encs|);
    }
    if bestBase64 != "" {
      r := Ok(bestBase64);
    } else {
      r := Err(TooLargeAfterCompression);
    }
  }

  /** The first fit is the first index that fits after a run that does not. */
  lemma {:induction false} FirstFitAt(encs: seq<string>, max: nat, k: nat, i: nat)
    requires k <= i <= |encs|
    requires forall j :: k <= j < i ==> !Fits(encs[j], max)
    requires i < |encs| ==> Fits(encs[i], max)
    ensures FirstFit(encs, max, k) == if i < |encs| then Some(i) else None
    decreases i - k
  {
    if k < i {
      FirstFitAt(encs, max, k + 1, i);
    }
  }

  /** `compressImage`: the pre-checks, then the ladder over the encoder's
      outputs; decoding and scaling happen inside `encode`. */
  method CompressImage(mimeType: string, size: int, encode: real -> string, maxBase64Size: nat)
    returns (r: Result<string, CompressError>)
    ensures Precheck(mimeType, size).Some? ==> r == Err(Precheck(mimeType, size).value)
    ensures Precheck(mimeType, size).None? ==> r == Ladder(Encodings(encode), maxBase64Size) && r.Ok?
  {
    var pre := Precheck(mimeType, size);
    if pre.Some? {
      return Err(pre.value);
    }
    r := SelectQuality(encode, maxBase64Size);
    LadderSpec(Encodings(encode), maxBase64Size, 0);
  }

  /** `handleImageUpload`: a compressed image lands in its field; a failure
      leaves the form as it was. */
  function AfterUpload(f: Form, field: ImageField, compressed: Result<string, CompressError>): (g: Form)
    ensures compressed.Err? ==> g == f
    ensures compressed.Ok? ==> g == WithImage(f, field, compressed.value)
  {
    if compressed.Ok? then WithImage(f, field, compressed.value) else f
  }
}
