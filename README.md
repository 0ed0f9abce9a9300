# Cycling platform admin console — a Dafny model

This project models the browser-side logic of the admin console of a cycling
platform. The console is a single-page application with events, communities
and tracks. Administrators in four roles (super-admin, content manager,
community manager, moderator) browse, filter, create, edit and delete these
records.

The model covers the following:

- **In-memory stores.** The events, communities and tracks catalogues are each
  a class holding a `seq` of records. Their operations append, merge-update the
  first match, delete every match, look up the first match, and return all.
  `Partial<T>` updates are records of `Option` fields.
- **The HTTP boundary.** The shared client's request interceptor attaches the
  bearer token from storage. Its response interceptor tags "payload too large",
  forgets the access token on a 401, and always rejects. The events endpoints
  cover the list call's parameter defaults, its three accepted response shapes,
  and the `data` unwrap of the single-record calls.
- **The event screens.** The create, edit and detail screens hold the
  record-to-form mapping (`||` defaults, `split('T')[0]`) and the
  form-to-payload mapping (empty string to `undefined`). They also hold the
  ordered submit checks, the base64 size limits and the image compression's
  quality ladder. The edit mode of the detail screen and the cancel action are
  modelled too.
- **The lists.** Events, communities, tracks and teams are filtered by a
  case-insensitive search and by `'all'` wildcards. The lists also hold the
  permission predicates, the colour tables, the delete dialogs, and the demo
  rating and track seeding of the events list.
- **The create flows.** Communities and tracks have a create screen, and the
  communities screen has a team toggle. The registration form has an ordered
  validation chain.
- **Roles and routes.** The model covers the sidebar's role filter, the
  router's path-to-page map, the top bar's role labels and avatar initials, and
  the main state updaters and page dispatch.

Some behaviour depends on the outside world: the backend's replies, the
clock, the confirmation dialog's answer and the canvas encoder. These are
parameters of the model. Ids and timestamps are parameters too. A clock
reading `now` becomes the id `Text.DecimalString(now)`, as `Date.now().toString()`
does.

Strings are `seq<char>`. `toLowerCase`/`toUpperCase` are ASCII maps.
`parseInt` skips leading whitespace, takes a sign, a `0x` prefix and leading
digits, and returns `None` for `NaN`. Base64 size tests `len*3/4 > limit`
are written as `3*len > 4*limit`, which is exact.

The code has no token refresh, JWT expiry prediction, single-flight refresh
or request replay: `src/services/api.ts:72-77` only removes the access token.

The application shell (`src/App.tsx`) keeps a page and role state with its
own `navigate`, `setRole` and `renderContent`, and hands all of them to the
layout. The layout takes no props (`src/components/Layout.tsx:31`). It keeps
its own role (`src/components/Layout.tsx:32`), passes its own setter to the top
bar, and renders the router's routes instead of the shell's content
(`src/components/Layout.tsx:58-103`). The `App` members model `src/App.tsx`
as written. The top bar's role change is modelled over the layout's state.
The layout mounts five screens without the `navigate` prop they call: event
create, event detail (which also gets no `eventId`), communities list,
community create and tracks list. Each of them is a row under "## Findings".

Module layout:

- **Shared modules:**
  - `Wrappers`: `Option`, `Result`.
  - `Text`: case maps, substring, `split`/`join`, `parseInt`, decimal numerals.
  - `Seqs`: an order-keeping `Filter` and subsequences.
  - `Table`: first-match index, update of the first match, delete of every match, all keyed by a function.
  - `Filters`: the search and wildcard tests that every list uses.
  - `CreateStatus`: the publish and draft buttons of the community and track create screens.
- **One module per source file.**

The three stores share the `Table` lemmas. Each `Table.*` row below cites the
events store, and the communities and tracks stores have the same code
(`src/data/communitiesData.ts:133-150`, `src/data/tracksData.ts:114-131`).

## Model

| member | source | states |
|---|---|---|
| EventsData.EventStore.constructor | src/data/eventsData.ts:121 | The store starts as the four seeded events. |
| EventsData.EventStore.Add | src/data/eventsData.ts:123-125 | The event is appended at the end; all earlier entries are kept; no id check. |
| EventsData.EventStore.Update | src/data/eventsData.ts:127-132 | An unknown id leaves the store unchanged; otherwise only the first entry with the id becomes the merge of the update over it. |
| EventsData.EventStore.Delete | src/data/eventsData.ts:134-136 | The store becomes the old one without any entry having the id. |
| EventsData.EventStore.Get | src/data/eventsData.ts:138-140 | Returns the first entry with the id; nothing exactly when no entry has it. |
| EventsData.EventStore.GetAll | src/data/eventsData.ts:142-144 | Returns the stored list. |
| EventsData.MergeLaws | src/data/eventsData.ts:130 | Spreading an empty update is the identity; spreading twice equals once; two spreads combine into one. |
| EventsData.SeedFacts | src/data/eventsData.ts:25-118 | Four seed events with distinct ids, all published. |
| Table.FindIsFirstMatch | src/data/eventsData.ts:138-140 | A lookup finds nothing exactly when no entry has the id, and otherwise finds the earliest entry that has it. |
| Table.AppendIsShadowed | src/data/eventsData.ts:123-125 | Appending a record whose id is already present adds it, but lookups keep finding the older one. |
| Table.AppendIsFound | src/data/eventsData.ts:123-125 | Appending a record with a fresh id makes it the one found under that id. |
| Table.UpdateAbsentIsNoOp | src/data/eventsData.ts:127-132 | Updating an id no entry has changes nothing. |
| Table.UpdateTouchesFirstOnly | src/data/eventsData.ts:128-130 | An update keeps the length, replaces the first match by its merge, and keeps every other entry. |
| Table.FindAfterUpdate | src/data/eventsData.ts:127-140 | After an update that keeps the id, the lookup returns the merged record, and unique ids stay unique. |
| Table.RemoveAllSpec | src/data/eventsData.ts:134-136 | After a delete no entry has the id; every other record occurs as often as before, in the same relative order. |
| Table.FindAfterRemove | src/data/eventsData.ts:134-140 | After deleting an id, looking it up returns nothing. |
| Table.RemoveAbsentIsNoOp | src/data/eventsData.ts:134-136 | Deleting an id no entry has changes nothing. |
| Table.AddFreshKeepsUnique | src/data/eventsData.ts:123-125 | Appending a record with a fresh id keeps ids unique. |
| Table.RemoveKeepsUnique | src/data/eventsData.ts:134-136 | Deleting keeps ids unique. |
| CommunitiesData.CommunityStore.constructor | src/data/communitiesData.ts:131 | The store starts as the five seeded communities. |
| CommunitiesData.CommunityStore.Add | src/data/communitiesData.ts:133-135 | Appends one community and leaves the prefix intact. |
| CommunitiesData.CommunityStore.Update | src/data/communitiesData.ts:137-142 | An unknown id leaves the store unchanged; otherwise only the first match is merged. |
| CommunitiesData.CommunityStore.Delete | src/data/communitiesData.ts:144-146 | Removes every community with the id. |
| CommunitiesData.CommunityStore.Get | src/data/communitiesData.ts:148-150 | Returns the first community with the id, or nothing. |
| CommunitiesData.CommunityStore.GetAll | src/data/communitiesData.ts:152-154 | Returns the stored list. |
| CommunitiesData.MergeLaws | src/data/communitiesData.ts:140 | Empty spread is the identity; spreading twice equals once; two spreads combine. |
| CommunitiesData.SeedFacts | src/data/communitiesData.ts:43-129 | Five seed communities with distinct ids, all active, whose teams are all drawn from the available teams. |
| CommunitiesData.AvailableTeamsDistinct | src/data/communitiesData.ts:20-41 | The team list has 20 distinct names. |
| TracksData.TrackStore.constructor | src/data/tracksData.ts:112 | The store starts as the four seeded tracks. |
| TracksData.TrackStore.Add | src/data/tracksData.ts:114-116 | Appends the track at the end. |
| TracksData.TrackStore.Update | src/data/tracksData.ts:118-123 | An unknown id leaves the store unchanged; otherwise only the first match is merged. |
| TracksData.TrackStore.Delete | src/data/tracksData.ts:125-127 | Removes every track with the id. |
| TracksData.TrackStore.Get | src/data/tracksData.ts:129-131 | Returns the first track with the id, or nothing. |
| TracksData.TrackStore.GetAll | src/data/tracksData.ts:133-135 | Returns the stored list. |
| TracksData.MergeLaws | src/data/tracksData.ts:121 | Empty spread is the identity; spreading twice equals once; two spreads combine. |
| TracksData.UnpublishOnlyStatus | src/data/tracksData.ts:118-123 | Merging `{status: 'Draft'}` changes the status only and keeps the id. |
| TracksData.SeedFacts | src/data/tracksData.ts:24-110 | Four seed tracks with distinct ids, all active; only the first has a map preview. |
| Api.Lookup | src/services/api.ts:30 | `getItem` gives a value exactly for a stored key, and the stored value. |
| Api.LocalStorage.constructor | src/services/api.ts:30 | The browser store starts with the given items. |
| Api.LocalStorage.GetItem | src/services/api.ts:30 | Reads the stored value of a key, if any. |
| Api.LocalStorage.RemoveItem | src/services/api.ts:75 | Removes the key and nothing else. |
| Api.WithAuthorization | src/services/api.ts:32-34 | With a non-empty token the Authorization header is `Bearer <token>`; without one the headers are unchanged; other headers are never touched. |
| Api.RequestConfig.constructor | src/services/api.ts:10-15 | A new request carries the JSON content type only. |
| Api.OnRequest | src/services/api.ts:18-36 | The interceptor returns the same request, with its headers set from the stored token and its URL unchanged. |
| Api.OnResponse | src/services/api.ts:45-53 | Successful responses pass through unchanged. |
| Api.SignalsPayloadTooLargeIff | src/services/api.ts:65-67 | The size tag fires exactly for status 413 or a message containing either phrase. |
| Api.NoResponseNoTag | src/services/api.ts:65-67 | Without status or message the tag does not fire. |
| Api.AfterErrorStorage | src/services/api.ts:72-77 | A 401 removes the access token and keeps every other key; any other status keeps storage unchanged. |
| Api.ApiError.constructor | src/services/api.ts:54 | A fresh error is untagged. |
| Api.OnResponseError | src/services/api.ts:54-79 | The same error is rejected, tagged when the size test fires, and storage is updated as on a 401; no retry. |
| Api.UnauthorizedThenRequest | src/services/api.ts:30-34 | After a 401 the next request goes out without a bearer header, while the other stored keys survive. |
| Api.StoredTokenIsSent | src/services/api.ts:30-34 | With a stored token the request carries exactly `Bearer <token>`. |
| EventsApi.Prop | src/services/eventsApi.ts:74 | A property is present only on an object that has the key. |
| EventsApi.NormaliseEvents | src/services/eventsApi.ts:67-87 | An array body is returned as is; a null body fails as reading `.data` of null does; any other result is truthy. |
| EventsApi.EnvelopeYieldsNestedEvents | src/services/eventsApi.ts:74-78 | `{data:{events}}` yields `data.events`, whatever else the body holds. |
| EventsApi.FlatShapeYieldsEvents | src/services/eventsApi.ts:80-82 | `{events}` without `data` yields `events`. |
| EventsApi.OtherShapesYieldNothing | src/services/eventsApi.ts:84-86 | Any other non-null body yields an empty list. |
| EventsApi.ScalarBodiesYieldNothing | src/services/eventsApi.ts:84-86 | Booleans, numbers and strings yield an empty list. |
| EventsApi.Unwrap | src/services/eventsApi.ts:110-113 | The result is `body.data` when that is truthy, else the body; a null body fails. |
| EventsApi.UnwrapRoundTrip | src/services/eventsApi.ts:110-113 | Wrapping a record under `data` and unwrapping gives the record back; a record without truthy `data` is returned as is. |
| EventsApi.NumberOr | src/services/eventsApi.ts:54-55 | `n \|\| default` keeps a non-zero number and otherwise gives the default. |
| EventsApi.RequestParamsFor | src/services/eventsApi.ts:52-56 | `status` passes through, and page and limit are never zero. Each of page and limit defaults on its own: a non-zero value is kept, and a missing or zero one becomes 1 (page) or 10 (limit), whatever the other field holds. No params give page 1, limit 10. |
| EventsApi.RequestParamsKeepExplicit | src/services/eventsApi.ts:52-56 | Explicit non-zero page and limit are kept. With only a limit, the page becomes 1 and the limit is kept; with only a page, the page is kept and the limit becomes 10. |
| EventsApi.EventPath | src/services/eventsApi.ts:106 | The path is `/v1/events/` followed by the id. |
| EventsApi.EventPathInjective | src/services/eventsApi.ts:106 | Different ids address different paths. |
| EventsApi.GetAllEvents | src/services/eventsApi.ts:49-100 | A rejection is rethrown; a reply is normalised. |
| EventsApi.SingleRecord | src/services/eventsApi.ts:103-118 | A rejection is rethrown; a reply is unwrapped. |
| EventsApi.DeleteEvent | src/services/eventsApi.ts:175-182 | Succeeds exactly when the call did, ignoring the body. |
| EventForm.OrEmpty | src/components/events/EventEdit.tsx:39 | `s \|\| ''` for an optional string. |
| EventForm.DatePart | src/components/events/EventEdit.tsx:43 | The loaded date has no `T`, is a prefix of the stored date, and equals it when it had no `T`. |
| EventForm.DatePartOfTimestamp | src/components/events/EventEdit.tsx:43 | A timestamp `date T time` loads as `date`. |
| EventForm.FromRecord | src/components/events/EventEdit.tsx:38-50 | The loaded form never has a zero number nor a `T` in its date. |
| EventForm.FromRecordDefaults | src/components/events/EventEdit.tsx:39-49 | Each of the seven text fields (title, description, both images, time, address, YouTube link) is `''` when missing and the record's value otherwise. Each number keeps a non-zero value and otherwise becomes 500, 16 or 70. The date is `''` when missing, a prefix of the stored value, and the whole value when it has no `T`. |
| EventForm.EmptyRecordIsInitialForm | src/components/events/EventEdit.tsx:19-31 | An empty record loads as the initial form. |
| EventForm.OrUndefined | src/components/events/EventEdit.tsx:83 | `s \|\| undefined` drops exactly the empty string. |
| EventForm.SavePayload | src/components/events/EventEdit.tsx:80-92 | The payload has no status, keeps title, date and address, and drops empty images and an empty YouTube link. |
| EventForm.Stored | src/services/eventsApi.ts:160-167 | An assumption about the backend, not code of the console: the record it returns for an updated event carries the payload's fields. |
| EventForm.SaveLoadRoundTrip | src/components/events/EventEdit.tsx:38-92 | Saving a loadable form and loading the stored record gives the same form back. |
| EventForm.LoadSaveLoadStable | src/components/events/EventEdit.tsx:38-92 | Load, save and load again gives the first load. |
| EventForm.SaveRequest | src/components/events/EventEdit.tsx:72-94 | Refused exactly when title, date or address is empty; otherwise a PATCH of the save payload. |
| EventForm.WithImage | src/components/events/EventEdit.tsx:67 | An upload changes only the named image field. |
| EventForm.UploadsCommute | src/components/events/EventEdit.tsx:63-70 | Uploads to different fields commute, and a second upload to the same field wins. |
| EventForm.NumberInput | src/components/events/EventEdit.tsx:301 | `parseInt(v) \|\| default`: `NaN` and 0 give the default and any other parsed value is kept, so a non-zero default gives a non-zero result. |
| EventForm.NumberInputKeepsPositive | src/components/events/EventEdit.tsx:301-321 | A typed positive numeral is kept; typing 0 gives the default. |
| EventForm.WithNumber | src/components/events/EventEdit.tsx:301-321 | One number input sets only its own field, to `parseInt(v) \|\| default` with that field's default (500, 16, 70); a form whose numbers are non-zero keeps them non-zero. |
| EventForm.NumberEditsCommute | src/components/events/EventEdit.tsx:301-321 | Edits of different number inputs commute; a second edit of one input replaces the first. |
| EventCreate.ImageLength | src/components/events/EventCreate.tsx:145 | The size estimate uses the string's length. |
| EventCreate.SubmitCheck | src/components/events/EventCreate.tsx:137-167 | Checks in order: missing fields, then the main image over 500 KiB, then the event image; each error only when the earlier checks passed. |
| EventCreate.CombinedCheckUnreachable | src/components/events/EventCreate.tsx:143-167 | The combined 1 MiB check never fires once both per-image checks pass, so submit succeeds exactly when fields and both images pass. |
| EventCreate.ApiStatus | src/components/events/EventCreate.tsx:172 | Both buttons send 'upcoming'. |
| EventCreate.CreatePayload | src/components/events/EventCreate.tsx:175-188 | The create payload is the save payload with status 'upcoming'. |
| EventCreate.Submit | src/components/events/EventCreate.tsx:136-211 | Fails exactly when a check fails, with that error; otherwise a POST of the create payload. |
| EventCreate.SubmitFacts | src/components/events/EventCreate.tsx:144-188 | Draft and publish send the same request; a form without images passes once its fields are filled; empty images are dropped. |
| EventCreate.CreatedEventId | src/components/events/EventCreate.tsx:213 | `_id \|\| id` of the created record. |
| EventCreate.AfterCreate | src/components/events/EventCreate.tsx:212-225 | After the backend accepts the create, the detail page opens exactly when the screen was given the shell's `navigate`; otherwise the `catch` shows an error toast. |
| EventCreate.MountedCreateShowsError | src/components/Layout.tsx:73 | As the layout mounts the screen, with no `navigate`, every accepted create ends in the error toast. |
| EventCreate.AfterCreateShowsCreated | src/components/events/EventCreate.tsx:213 | With the shell's `navigate`, the detail screen shows the created event, or event '1' when it has no id. |
| EventCreate.Precheck | src/components/events/EventCreate.tsx:31-41 | Non-image types are refused first, then files over 10 MiB; otherwise no refusal. |
| EventCreate.Encodings | src/components/events/EventCreate.tsx:79-85 | One encoding per quality, six in all. |
| EventCreate.FirstFit | src/components/events/EventCreate.tsx:83-92 | Finds the first encoding from a position on that fits, or reports that none does. |
| EventCreate.Shortest | src/components/events/EventCreate.tsx:94-98 | The earliest of the shortest encodings. |
| EventCreate.Ladder | src/components/events/EventCreate.tsx:79-108 | The result is always one of the encodings. |
| EventCreate.LadderSpec | src/components/events/EventCreate.tsx:79-108 | The first fitting encoding is returned; if none fits, one no longer than any other; never the error. |
| EventCreate.SelectQuality | src/components/events/EventCreate.tsx:79-108 | The loop with its running best returns exactly the ladder's result. |
| EventCreate.FirstFitAt | src/components/events/EventCreate.tsx:83-92 | The first fit is at a position when all before it fail and it fits. |
| EventCreate.CompressImage | src/components/events/EventCreate.tsx:28-120 | Prechecks refuse first; otherwise the ladder's encoding is returned. |
| EventCreate.AfterUpload | src/components/events/EventCreate.tsx:122-134 | A failed upload leaves the form alone; a successful one sets only that image field. |
| EventEdit.EditScreen.constructor | src/components/events/EventEdit.tsx:19-31 | The route id defaults to `''`; no event and the initial form. |
| EventEdit.EditScreen.LoadRequest | src/components/events/EventEdit.tsx:36 | Loading is a GET of the event's path. |
| EventEdit.EditScreen.LoadEvent | src/components/events/EventEdit.tsx:33-57 | A record fills the form from it; a failure changes nothing. |
| EventEdit.EditScreen.UploadImage | src/components/events/EventEdit.tsx:63-70 | Only the named image field changes. |
| EventEdit.EditScreen.EditNumber | src/components/events/EventEdit.tsx:301-321 | A number input re-reads only its own field; the loaded event is kept. |
| EventEdit.EditScreen.Save | src/components/events/EventEdit.tsx:72-94 | The request is the save request of the form; no status is sent. |
| EventEdit.AfterSavePath | src/components/events/EventEdit.tsx:96 | After saving the router goes to `/events/<id>`. |
| EventEdit.AfterSaveMapsToEvents | src/components/events/EventEdit.tsx:96 | `getCurrentPage` maps that path to the page id 'events'. |
| EventDetail.CancelPayloadSpec | src/components/events/EventDetail.tsx:97 | The cancel sends only `status: 'cancelled'`, after which the cancel action is no longer offered. |
| EventDetail.CanEditAsInList | src/components/events/EventDetail.tsx:79 | Editing is allowed exactly for super-admin, content manager and community manager. |
| EventDetail.DetailScreen.constructor | src/components/events/EventDetail.tsx:20-33 | No event, not editing, initial form. |
| EventDetail.DetailScreen.LoadRequest | src/components/events/EventDetail.tsx:61 | Loading is a GET of the screen's `eventId` path. |
| EventDetail.DetailScreen.LoadEvent | src/components/events/EventDetail.tsx:40-69 | A loaded event is kept and, while editing, refills the form; a failure changes nothing. |
| EventDetail.DetailScreen.StartEdit | src/components/events/EventDetail.tsx:40-56 | Entering edit mode fills the form from the event. |
| EventDetail.DetailScreen.CancelEdit | src/components/events/EventDetail.tsx:161-179 | Leaving edit mode resets the form to the same values entering produced. |
| EventDetail.DetailScreen.UploadImage | src/components/events/EventDetail.tsx:118-125 | Only the named image field changes. |
| EventDetail.DetailScreen.EditNumber | src/components/events/EventDetail.tsx:388-408 | A number input re-reads only its own field; the event and edit mode are kept. |
| EventDetail.DetailScreen.Save | src/components/events/EventDetail.tsx:127-159 | Refused without the required fields; otherwise the save request, and a successful reply ends edit mode. |
| EventDetail.DetailScreen.CancelEvent | src/components/events/EventDetail.tsx:93-107 | A request exactly when confirmed, an update carrying only the cancelled status. |
| EventDetail.MountedDetailAddressesUndefined | src/components/Layout.tsx:75 | Mounted without `eventId`, the screen's load, save and cancel all address `/v1/events/undefined`, which is not the path of any other id in the URL, and its back button's `navigate('events')` throws. |
| EventDetail.RoutedDetailAddressesEvent | src/components/events/EventDetail.tsx:61-186 | Given the route's id, the load, save and cancel address exactly that event, and with the shell's `navigate` the back button shows the events list. |
| Filters.SearchMatchesSpec | src/components/communities/CommunitiesList.tsx:23 | The empty term matches everything; a match is an occurrence of the lower-cased term in the lower-cased text. |
| EventsList.FilteredEvents | src/components/events/EventsList.tsx:101-105 | The list is no longer than the loaded events. |
| EventsList.FilteredEventsSpec | src/components/events/EventsList.tsx:101-105 | An event is listed exactly when its title contains the term and the city matches; a missing title never matches; order is kept, and a listed event occurs exactly as often as in the loaded list. |
| EventsList.EmptySearchListsTitled | src/components/events/EventsList.tsx:102-103 | With no search and all cities, every titled event is listed. |
| EventsList.SearchIgnoresCase | src/components/events/EventsList.tsx:102 | The search ignores the case of the term. |
| EventsList.ApiStatusFor | src/components/events/EventsList.tsx:71-74 | 'all' sends no status; 'Published' and 'Draft' send 'upcoming'; any other value is lower-cased. |
| EventsList.LoadRequest | src/components/events/EventsList.tsx:79-83 | The list query carries the mapped status, page 1 and limit 100. |
| EventsList.OfferedStatusesPassThrough | src/components/events/EventsList.tsx:71-83 | The select's lower-case values pass through unchanged. |
| EventsList.CanEditSpec | src/components/events/EventsList.tsx:131 | Everyone but the moderator may edit events. |
| EventsList.ConfirmDelete | src/components/events/EventsList.tsx:112-125 | A delete request exactly when a non-empty target is set, for the target's path. |
| EventsList.RecordKey | src/components/events/EventsList.tsx:40 | `_id \|\| id \|\| ''`. |
| EventsList.CharCodeSumAppend | src/components/events/EventsList.tsx:42 | The code sum of a concatenation is the sum of the parts. |
| EventsList.Clamp | src/components/events/EventsList.tsx:43 | The clamp lies within its bounds and keeps values already inside. |
| EventsList.DemoRatingRange | src/components/events/EventsList.tsx:42-43 | The demo rating is 3 + (sum mod 20)/10, inside [3.0, 4.9]. |
| EventsList.DemoTrack | src/components/events/EventsList.tsx:58-59 | The demo track is `DEMO_TRACKS[sum mod 4]`, always a listed track. |
| EventsList.DemoValuesDependOnSum | src/components/events/EventsList.tsx:42-59 | Reordering an id's parts gives the same demo rating and track. |
| EventsList.Seed | src/components/events/EventsList.tsx:36-47 | Seeding keeps every existing key and adds every non-empty event key that is not a name inherited from `Object.prototype` (which `in` always finds); each new key is non-empty, not inherited, from some event, with the derived value. |
| EventsList.SeedRatings | src/components/events/EventsList.tsx:35-48 | Existing ratings are kept; new ones lie in [3.0, 4.9]; every keyed event gets one unless its key is an inherited name such as "constructor". |
| EventsList.SeedTracks | src/components/events/EventsList.tsx:51-64 | Existing tracks are kept; new ones are demo tracks; every keyed event gets one unless its key is an inherited name such as "constructor". |
| CommunitiesList.FilteredCommunities | src/components/communities/CommunitiesList.tsx:22-28 | The list is no longer than the store and every listed community passes the search and the three selects. |
| CommunitiesList.FilteredCommunitiesSpec | src/components/communities/CommunitiesList.tsx:22-28 | Listed exactly when the name search, city, type and status all match, 'all' being a wildcard; order kept. |
| CommunitiesList.NoFilterListsAll | src/components/communities/CommunitiesList.tsx:22-28 | With every control at rest the whole store is listed. |
| CommunitiesList.PermissionsSpec | src/components/communities/CommunitiesList.tsx:30-31 | Edit and create are allowed exactly for super-admin and community manager. |
| CommunitiesList.TypeColor | src/components/communities/CommunitiesList.tsx:47-57 | Unknown types get '#999'. |
| CommunitiesList.TypeColorSpec | src/components/communities/CommunitiesList.tsx:47-57 | 'Corporate' shares the default '#999'; the five named colours are distinct and differ from it. |
| CommunitiesList.DeleteDialog.constructor | src/components/communities/CommunitiesList.tsx:18-19 | No target, dialog hidden. |
| CommunitiesList.DeleteDialog.Choose | src/components/communities/CommunitiesList.tsx:33-36 | Remembers the community and shows the dialog. |
| CommunitiesList.DeleteDialog.Confirm | src/components/communities/CommunitiesList.tsx:38-45 | With a target every community with its id is deleted, so it can no longer be found, and the target is cleared; without one nothing changes. |
| CommunitiesList.ButtonsOpenScreens | src/components/communities/CommunitiesList.tsx:68-220 | With the shell's `navigate`, the create button shows the create screen, and view and edit show the community's detail screen (id `'1'` for an empty id). |
| CommunitiesList.MountedButtonsThrow | src/components/Layout.tsx:78 | As the layout mounts the list, the create, view and edit buttons throw. |
| CommunityCreate.FilteredTeams | src/components/communities/CommunityCreate.tsx:24-26 | No more teams than available. |
| CommunityCreate.FilteredTeamsSpec | src/components/communities/CommunityCreate.tsx:24-26 | A team is offered exactly when available and matching, in table order. |
| CommunityCreate.EmptySearchOffersAll | src/components/communities/CommunityCreate.tsx:24-26 | The empty search offers every available team. |
| CommunityCreate.ToggleTeam | src/components/communities/CommunityCreate.tsx:28-34 | The team is in the result exactly when it was not selected; other teams are unaffected; an unselected team is appended at the end, and removal keeps the others in order. |
| CommunityCreate.ToggleTwiceRestores | src/components/communities/CommunityCreate.tsx:28-34 | Toggling an absent team twice restores the selection. |
| CommunityCreate.ToggleKeepsDistinct | src/components/communities/CommunityCreate.tsx:29-33 | Toggling never creates a duplicate. |
| CreateStatus.StatusName | src/components/communities/CommunityCreate.tsx:17 | The two submit buttons, on the community and on the track screen (`src/components/tracks/TrackCreate.tsx:26`), give 'Active' and 'Draft', and only the publish button gives 'Active'. |
| CommunityCreate.NewCommunity | src/components/communities/CommunityCreate.tsx:42-52 | The form is spread in with no members or events, the given status, the stock pictures, the picked teams and no admin id. |
| CommunityCreate.Submit | src/components/communities/CommunityCreate.tsx:36-54 | Refused exactly when the name is empty, leaving the store alone; otherwise the new community is appended once. |
| CommunityCreate.SubmittedIsFound | src/components/communities/CommunityCreate.tsx:42-54 | With a fresh id, the new community is the one found under it, and ids stay unique. |
| CommunityCreate.SubmitOpensDetail | src/components/communities/CommunityCreate.tsx:56-63 | With the shell's `navigate`, submitting shows the detail screen of the new community, and the back and cancel buttons (lines 63 and 297) show the communities list. |
| CommunityCreate.MountedSubmitStaysOnForm | src/components/Layout.tsx:79 | As the layout mounts the screen, the `navigate` after the append throws, so the form stays on screen; the back and cancel buttons throw too. |
| TracksList.FilteredTracks | src/components/tracks/TracksList.tsx:22-28 | The list is no longer than the store and every listed track passes the search and the three selects. |
| TracksList.FilteredTracksSpec | src/components/tracks/TracksList.tsx:22-28 | Listed exactly when the name search, city, difficulty and status all match, 'all' being a wildcard; order kept. |
| TracksList.NoFilterListsAll | src/components/tracks/TracksList.tsx:22-28 | With every control at rest the whole store is listed. |
| TracksList.PermissionsSpec | src/components/tracks/TracksList.tsx:30-31 | Edit and create are allowed only for super-admin. |
| TracksList.DifficultyColor | src/components/tracks/TracksList.tsx:47-54 | Unknown difficulties get '#999'. |
| TracksList.SafetyColor | src/components/tracks/TracksList.tsx:56-63 | High, medium and low safety are shown as easy, medium and hard difficulty; unknown levels get '#999'. |
| TracksList.ColorScales | src/components/tracks/TracksList.tsx:47-63 | Each scale has three distinct colours besides '#999', and the scales run opposite: easy matches high safety, hard matches low. |
| TracksList.DeleteDialog.constructor | src/components/tracks/TracksList.tsx:17-18 | No target, dialog hidden. |
| TracksList.DeleteDialog.Choose | src/components/tracks/TracksList.tsx:33-36 | Remembers the track and shows the dialog. |
| TracksList.DeleteDialog.Confirm | src/components/tracks/TracksList.tsx:38-45 | With a target every track with its id is deleted, so it can no longer be found, and the target is cleared; without one nothing changes. |
| TracksList.OpenTrackShowsDetail | src/components/tracks/TracksList.tsx:74-218 | With the shell's `navigate`, the view and edit buttons show the track's detail screen for the current role, and the create button shows the create screen. |
| TracksList.MountedOpenTrackThrows | src/components/Layout.tsx:84 | As the layout mounts the list, the create, view and edit buttons throw instead of opening their screens. |
| TrackCreate.NewTrack | src/components/tracks/TrackCreate.tsx:32-40 | Every form field is copied, with no events, the given status and the stock pictures. |
| TrackCreate.Submit | src/components/tracks/TrackCreate.tsx:26-42 | Refused exactly when name or area is empty, leaving the store alone; otherwise the new track is appended once. |
| TrackCreate.InitialFormIsRefused | src/components/tracks/TrackCreate.tsx:9-30 | The initial form's defaults; it is refused until both name and area are typed. |
| TrackCreate.SubmittedIsFound | src/components/tracks/TrackCreate.tsx:32-42 | With a fresh id, the new track is the one found under it, and ids stay unique. |
| TrackCreate.AfterSubmitMapsToTracks | src/components/tracks/TrackCreate.tsx:44 | `getCurrentPage` maps the path `/tracks/<id>` the router goes to after submitting to the page id 'tracks'. |
| Register.Validate | src/components/auth/Register.tsx:23-55 | Missing fields first, then mismatched passwords, then a short password, then an invalid age, each only after the earlier checks pass; otherwise `register` gets the parsed age. |
| Register.AcceptedRegistration | src/components/auth/Register.tsx:26-55 | A registration is requested only for filled fields, matching passwords of at least six characters and an age in 0..150. |
| Register.InitialFormIsRefused | src/components/auth/Register.tsx:12-29 | The untouched form is refused for missing fields. |
| Register.AgeBounds | src/components/auth/Register.tsx:41-55 | A typed numeral n is accepted, as n, exactly when n is at most 150; 0 and 150 are accepted. |
| Register.NonNumericAgeRefused | src/components/auth/Register.tsx:41-45 | An age that does not parse is refused. |
| Layout.GetCurrentPage | src/components/Layout.tsx:36-52 | The page is always one of the 13 ids, and '/dashboard' gives 'dashboard'. |
| Layout.FirstMatch | src/components/Layout.tsx:39-51 | The reference definition gives 'dashboard' or the page of some prefix. |
| Layout.FirstMatchSpec | src/components/Layout.tsx:39-51 | The first prefix that matches decides; with none, 'dashboard'. |
| Layout.ChainIsFirstMatch | src/components/Layout.tsx:38-51 | The if-chain equals the first-matching-prefix definition. |
| Layout.UnmatchedPathShowsDashboard | src/components/Layout.tsx:51 | Unmatched paths map to 'dashboard'. |
| Layout.MenuPathsMapToTheirItem | src/components/Layout.tsx:38-51 | `getCurrentPage` maps every menu path, followed by anything, to its own menu item's id. |
| Layout.Examples | src/components/Layout.tsx:38-51 | '/dashboard', '/' and '/events/create' map to dashboard, dashboard and events. |
| Sidebar.VisibleItemsSpec | src/components/Sidebar.tsx:55 | An item is visible exactly when its roles include the role, in table order. |
| Sidebar.TableShape | src/components/Sidebar.tsx:38-52 | 13 items with distinct ids, each path being '/' and its id. |
| Sidebar.RoleSpecificItems | src/components/Sidebar.tsx:39-51 | Dashboard and reports are visible to everyone; config and roles only to super-admin. |
| Sidebar.SuperAdminSeesAll | src/components/Sidebar.tsx:38-55 | Super-admin sees all 13 items. |
| Sidebar.ModeratorSees | src/components/Sidebar.tsx:38-55 | The moderator sees exactly dashboard, feed, marketplace, users and reports. |
| TopBar.RoleLabel | src/components/TopBar.tsx:12-17 | Every role has a non-empty label. |
| TopBar.RoleLabelsDistinct | src/components/TopBar.tsx:12-17 | The labels tell the roles apart, and the dropdown lists each role once. |
| TopBar.HandleRoleChange | src/components/TopBar.tsx:49-53 | With the layout's setter, sets the layout's role, keeps the path and so the page id `getCurrentPage` computes, and closes the dropdown. |
| TopBar.HandleRoleChangeIdempotent | src/components/TopBar.tsx:49-53 | Choosing the same role twice is the same as once. |
| TopBar.RoleChangeStaysOnPage | src/components/Layout.tsx:32-60 | Switching role on `/events` keeps the page id 'events' and shows the new role's menu, whereas the shell's own `setRole` would go to the dashboard. |
| TopBar.HeadsAreFirstChars | src/components/TopBar.tsx:114 | Mapping `n => n[0]` and joining is the first characters of the non-empty words. |
| TopBar.Initials | src/components/TopBar.tsx:113-115 | At most two characters; no name gives 'U'. |
| TopBar.InitialsOfName | src/components/TopBar.tsx:114 | The initials are the upper-cased first characters of the non-empty words, cut to two. |
| TopBar.BlankNameShowsNothing | src/components/TopBar.tsx:113-115 | A name of spaces only shows nothing, not 'U'. |
| TopBar.InitialsOfFirstTwoWords | src/components/TopBar.tsx:114 | Two or more words give the upper-cased first letters of the first two. |
| TopBar.InitialsOfOneWord | src/components/TopBar.tsx:114 | One word gives its upper-cased first letter. |
| App.Navigate | src/App.tsx:49-51 | The page is set and then given params override it and the selections. |
| App.NavigateParamsWin | src/App.tsx:49-51 | Keys in params win over the old state and the page; keys not given keep their values. |
| App.NavigateIdempotent | src/App.tsx:49-51 | Navigating twice to the same place is navigating once. |
| App.SetRole | src/App.tsx:53-55 | Sets the role, resets the page to the dashboard and keeps the selected ids. |
| App.SetRoleForgetsPage | src/App.tsx:53-55 | Switching role does not depend on the previous page. |
| App.DashboardFor | src/App.tsx:59-69 | Each role gets its own dashboard. |
| App.OrFirst | src/App.tsx:76 | A missing or empty id becomes '1'. |
| App.RenderContent | src/App.tsx:57-110 | The dashboard page dispatches on the role; unknown pages show the super-admin dashboard; detail pages get a non-empty id and the role. |
| App.InitialView | src/App.tsx:44-47 | The first screen is the super-admin dashboard. |
| App.CreatedEventOpens | src/App.tsx:49-51 | Navigating to a created event shows it, or event '1' without an id. |
| App.CallNavigate | src/App.tsx:49-51 | A screen's `navigate` call updates the shell exactly when the screen was given the shell's updater, and throws otherwise. |
| App.SetRoleShowsDashboard | src/App.tsx:53-70 | Changing role always shows that role's dashboard. |

## Left out

- Token refresh, JWT decoding, request replay and single-flight refresh are not in the code, so they are not in the model.
- The authentication context, the identity provider, the auth and communities API wrappers, the login and auth pages, the route guard and the configuration are service or library wiring and are not part of this model.
- `compressImage`'s decoding and scaling (file reader, image element, canvas, fractional width and height) are browser and floating-point code. The encoder is a parameter: a function from quality to data URL.
- EventCreate.CompressImage: promises a result once the prechecks pass, because the three rejections from the browser are not modelled: no canvas context (`src/components/events/EventCreate.tsx:67-68`), an image that fails to load (110-111), and a file that fails to read (115-116).
- EventForm.Stored: the backend is not part of this model. The save-and-load round trips (`EventForm.SaveLoadRoundTrip`, `EventForm.LoadSaveLoadStable`) and the cancel lemma (`EventDetail.CancelPayloadSpec`) assume that the backend stores a payload's fields unchanged and returns them.
- The layout's routes, including the route-per-role dashboard, are modelled only as the path-to-page map. Which view the router shows is not modelled.
- The page id `getCurrentPage` computes is handed to the sidebar as `currentPage`, which the sidebar never reads (`src/components/Sidebar.tsx:54`). The sidebar's highlight comes from the router's active-link test (`src/components/Sidebar.tsx:74-80`), which is not modelled.
- Toasts, console logging, `Date.now()`, `toISOString()`, date formatting and the loading and saving flags are side effects. Ids and timestamps are parameters.
- Dashboards, charts, the moderation, CMS, media, push, users, configuration and roles screens, and the track and community detail and edit screens are rendering, static data or thin guards.
- Concurrency and staleness of React state are not modelled: each handler runs to completion on the state it reads. Two examples are the stale `formData` closure in the detail screen's upload and an in-flight reload racing a save.
- The events store in `src/data/eventsData.ts` is modelled as written, but the screens read events from the backend.
- The `editingCommunity` parameter of the community-create screen and the extra `communityId` it receives are not modelled, since the screen ignores them.
- Explicit `undefined` values inside a store update are not modelled: the update is a record of `Option` fields, so a field is either absent or set to a value.
- Numbers are exact: counts are `int`, and ratings, distances and elevations are `real`. Floating-point rounding and `Infinity` are not modelled. `NaN` appears only as the `None` of `parseInt`.
- ASCII only: all text is taken to be ASCII. Case conversion and whitespace follow ASCII, so Unicode case mappings such as 'ß' to "SS" are not modelled. Lengths, indexing and character codes count `seq<char>` elements, which agree with JavaScript's UTF-16 units only for such text. This affects the password length (`src/components/auth/Register.tsx:36`), the initials' `n[0]` (`src/components/TopBar.tsx:114`) and the `charCodeAt` sums (`src/components/events/EventsList.tsx:42`).

## Findings

| source | as written | input that shows it | evidently intended | confidence | as-written member | corrected member |
|---|---|---|---|---|---|---|
| src/components/Layout.tsx:73 | The layout mounts `<EventCreate />` without `navigate`. After the backend creates the event, `navigate('event-detail', …)` at `src/components/events/EventCreate.tsx:213` throws, and the `catch` reports a failure. | Any form that passes the checks, with a create the backend accepts. | The created event's detail page opens, as with the shell's `navigate`. | high, not executed | EventCreate.MountedCreateShowsError | EventCreate.AfterCreateShowsCreated |
| src/components/Layout.tsx:75 | The layout mounts `<EventDetail role=… />` without `eventId` or `navigate`. The load at `src/components/events/EventDetail.tsx:61`, the cancel at :97 and the save at :149 all address `/v1/events/undefined`, and `navigate('events')` at :111 and :186 throws. | Opening `/events/<id>` for any id other than "undefined". | The screen uses the route's `:id`, as the edit screen does, and the back button returns to the events list. | high, not executed | EventDetail.MountedDetailAddressesUndefined | EventDetail.RoutedDetailAddressesEvent |
| src/components/Layout.tsx:78 | The layout mounts `<CommunitiesList role=… />` without `navigate`. The create button at `src/components/communities/CommunitiesList.tsx:68` and the view and edit buttons at :210 and :220 throw. | A click on any of these buttons. | The create or detail screen opens. | high, not executed | CommunitiesList.MountedButtonsThrow | CommunitiesList.ButtonsOpenScreens |
| src/components/Layout.tsx:79 | The layout mounts `<CommunityCreate />` without `navigate`. The call at `src/components/communities/CommunityCreate.tsx:56` throws after the community has been stored, and the back and cancel buttons at :63 and :297 throw. | Any submit with a non-empty name, or a click on back or cancel. | The new community's detail page opens; back and cancel return to the list. | high, not executed | CommunityCreate.MountedSubmitStaysOnForm | CommunityCreate.SubmitOpensDetail |
| src/components/Layout.tsx:84 | The layout mounts `<TracksList role=… />` without `navigate`. The create button at `src/components/tracks/TracksList.tsx:74` and the view and edit buttons at :208 and :218 throw. | A click on the create button or on any listed track's view or edit button. | The create or detail page opens. | high, not executed | TracksList.MountedOpenTrackThrows | TracksList.OpenTrackShowsDetail |
