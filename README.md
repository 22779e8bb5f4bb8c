# Location-sharing sessions, modelled in Dafny

A model of a two-role browser demo for sharing a device's location. The
**tracker** page creates a session that lives three hours, shares a link
`<origin><path>?session=<id>`, and polls browser storage every five seconds
for the latest report, moving a map marker to it. The **submitter** page,
opened through that link, checks that the session is still valid, starts
location tracking only after a click, reverse-geocodes every fix through
Nominatim and writes a report to storage. Storage (`localStorage`) is the
only channel between the two: a map from string keys to stored strings.

What is modelled, by source file:

- `app.js` (modules `UrlParameter`, `App`): the `session` query-parameter
  scan, the session validity check with delete-on-expiry, and the role
  dispatch of the page-load handler.
- `mock_api.js` (`MockApi`): send as a last-write-wins put under
  `location_session_<id>`, poll as a read-only get.
- `tracker.js` (`Tracker`): session metadata creation, the tracking link,
  one poll tick and `updateMap` (marker, centre, zoom, popup and status
  text).
- `geocoding.js` (`Geocoding`): the Nominatim response to address-record
  mapping, the in-place removal of empty fields, and the null-on-failure
  result.
- `submitter.js` (`Submitter`): report construction, the address summary,
  error classification and watch cancellation.
- Shared pieces: `Documents` (the stored records; JSON is the identity, with
  a case for text `JSON.parse` rejects), `LocalStorage` (the store as a
  class whose writes may be refused), `AddressText` (the street and
  city/state display rules both pages use), `Optional`.

Time, the fresh session id, the `fetch` outcome, `decodeURIComponent` and
the location service's handles are parameters. State the source updates in
place is a class: the store (`LocalStorage.Store`), the tracker page
(`Tracker.TrackerPage`) and the submitter page (`Submitter.SubmitterPage`).
Each method that changes that state is tied to a pure function on the old
state. The lemmas are stated about those functions.

Behaviour the model keeps as the code has it:
- A location error of any kind cancels the location subscription, not only
  permission denial (submitter.js:109-111).
- Metadata that parses to JSON `null` is "unreadable" too, because reading
  `.expires` of `null` throws inside the `try` (app.js:24-35).
- Every non-null poll updates the map. Nothing checks whether the report
  changed (tracker.js:96-98).
- The poll interval is never cancelled, and the tracker is initialised once
  per page load. No teardown is modelled.

## Model

| member | source | states |
|---|---|---|
| UrlParameter.FirstMatch | app.js:6-7 | the leftmost index where `[?&]name=` matches, None exactly when it matches nowhere |
| UrlParameter.Capture | app.js:6 | the group `([^&#]*)`: the longest prefix free of `&` and `#`, stopping at one of them |
| UrlParameter.PlusToSpace | app.js:8 | every `+` becomes a space and every other character stays |
| UrlParameter.RawValue | app.js:6-8 | None exactly when no `?name=` or `&name=` occurs; a found value holds no `&`, `#` or `+` |
| UrlParameter.RawValueAt | app.js:6-8 | at the leftmost occurrence, the value is the text after `name=` up to the next `&` or `#`, with `+` read as space |
| UrlParameter.GetUrlParameter | app.js:4-9 | `''` when the parameter is absent, otherwise the decoded raw value |
| UrlParameter.QueryRoundTrip | app.js:6-8 | scanning `?name=<id>` gives back `id` when `id` has no `&`, `#` or `+` |
| UrlParameter.QueryRoundTripDecoded | app.js:4-9 | with a decoder that leaves `%`-free text alone, `getUrlParameter` returns `id` |
| App.KeysAgreeAcrossPages | app.js:16-18 | the metadata key and cleanup key are the ones tracker.js and mock_api.js write |
| App.CheckValidity | app.js:15-36 | not found iff metadata is missing or empty; unreadable iff it does not parse or is null; expired iff `expires` is non-zero and `< now`, and then exactly the metadata and report keys are deleted; otherwise valid; only expiry changes the store |
| App.CheckSessionValidity | app.js:15-36 | the in-place check returns the verdict and leaves the store that `CheckValidity` describes |
| App.ExpiryBoundaryIsValid | app.js:26 | `expires == now` is still valid: the comparison is strict |
| App.ExpiryRemovesReport | app.js:26-30 | after an expiry, a poll of the session returns null and the metadata is gone |
| App.FreshSessionIsValid | tracker.js:21-29 | a session the tracker created is valid, with the store untouched, at any time up to creation plus three hours |
| App.SessionExpiresAfterThreeHours | app.js:26-30 | past creation plus three hours, the check says expired and both records are deleted |
| App.SessionLifecycle | mock_api.js:22-60 | create, write a report without an address, poll it back unchanged, then find it expired and deleted three hours and one second later |
| App.PageLoad | app.js:39-69 | an empty `session` always gives the tracker (unless the metadata write throws); a non-empty one gives the submitter exactly when the session is valid, else the invalid-link view with the check's reason and its message |
| App.OnDomContentLoaded | app.js:39-69 | the handler's role and store effect are those of `PageLoad` |
| App.SharedLinkOpensSubmitter | tracker.js:32 | the query part of the link the tracker builds, opened while the session is fresh, opens the submitter for that session and leaves the store unchanged |
| MockApi.LocationKeyInjective | mock_api.js:23 | different sessions never share a report key |
| MockApi.Sent | mock_api.js:22-35 | after a successful send the session's key parses to the report and every other key is unchanged |
| MockApi.Polled | mock_api.js:43-60 | null when the key is absent, empty, unparseable or JSON null; otherwise the parsed document |
| MockApi.SendLocationData | mock_api.js:22-35 | returns true and stores the report when the write goes through; returns false and changes nothing when it throws |
| MockApi.PollLocationData | mock_api.js:43-60 | returns the polled document without changing the store |
| MockApi.SendThenPoll | mock_api.js:28-53 | a poll after a send returns what was sent |
| MockApi.LastWriteWins | mock_api.js:28 | a second send replaces the first; the poll returns the second |
| MockApi.SendIsolatesSessions | mock_api.js:23-28 | a send does not change what a poll of another session returns |
| Tracker.SessionCreated | tracker.js:20-29 | the metadata key holds `{created: now, expires: now + 10800000}` and no other key changes |
| Tracker.TrackingLink | tracker.js:32 | the link is origin and path followed by `?session=<id>` |
| Tracker.NextZoom | tracker.js:143 | the new zoom is at least 15 and never below the old one: max(zoom, 15) |
| Tracker.MissingAddressShowsNotAvailable | tracker.js:110-122 | a report whose address is missing or has no non-empty field (the `{}` after a failed geocode) shows "N/A" on every address line |
| Tracker.TrackerPage.constructor | tracker.js:60-70 | the map starts at the default centre and zoom 13, with a marker there awaiting a location |
| Tracker.TrackerPage.UpdateMap | tracker.js:107-149 | afterwards the marker exists at the report's coordinates, the view is centred there with zoom max(old, 15), and popup and status show the formatted report |
| Tracker.TrackerPage.PollTick | tracker.js:93-99 | the view changes only when the poll returns a report; otherwise nothing changes |
| Tracker.InitializeTracker | tracker.js:16-58 | writes the session's metadata and builds the page centred on the default with zoom 13 and a marker there; builds nothing if the write throws |
| AddressText.OrNotAvailable | tracker.js:120-122 | a field's text, or "N/A" when it is missing or empty |
| AddressText.StreetInfo | tracker.js:119 | "N/A" whenever street is empty, even if number is set; otherwise the street, plus `", " + number` when a number is set |
| AddressText.CityStateInfo | tracker.js:121 | `city - state` when both are set, whichever is set otherwise, "N/A" when neither is |
| Geocoding.FirstNonEmpty | geocoding.js:32-45 | a fallback chain `a.k1 or a.k2 or ...` gives the first non-empty component named, or `''` exactly when none is non-empty |
| Geocoding.Mapped | geocoding.js:30-49 | every field is present and comes from its chain; `display_name` is copied, or `undefined` when missing |
| Geocoding.Cleaned | geocoding.js:52 | exactly the properties not equal to `''` are kept, each with its value unchanged; every `''` property is deleted |
| Geocoding.RemoveEmptyFields | geocoding.js:52 | the in-place deletion loop yields `Cleaned` of the record |
| Geocoding.Geocoded | geocoding.js:13-63 | null exactly when the fetch failed, the status is not ok, or the body has no `address`; otherwise the cleaned mapping |
| Geocoding.ReverseGeocode | geocoding.js:13-63 | the method computes `Geocoded` of the fetch outcome |
| Geocoding.GeocodedField | geocoding.js:32-45 | a field is in the result exactly when its chain found a non-empty component, and then holds it |
| Geocoding.GeocodedDisplayName | geocoding.js:48-52 | `display_name` is kept as received and removed only when it is `''` |
| Geocoding.VillageFillsNeighborhoodAndCity | geocoding.js:36-39 | a `village` with no earlier suburb, quarter, city or town fills both neighbourhood and city |
| Geocoding.GeocodedIsEmptyOnlyWhenNothingResolved | geocoding.js:30-52 | the record has no properties only when every chain is empty and `display_name` is `''` |
| Submitter.BuildReport | submitter.js:44-51 | session, coordinates, accuracy and timestamp are copied unchanged; the address is the geocode result, or `{}` when it is null |
| Submitter.Summarize | submitter.js:61-73 | the "not found" text appears exactly when the details are null or have no properties; otherwise the formatted fields |
| Submitter.SummaryNotFoundMeansNoResult | submitter.js:42-62 | for a geocode result, "not found" means geocoding returned null, or nothing resolved and `display_name` was `''` |
| Submitter.ClassifyError | submitter.js:95-106 | codes 1, 2 and 3 each map to their own error kind; any other code maps to unknown |
| Submitter.SubmitterPage.constructor | submitter.js:8-30 | the page starts with the click prompt and no location subscription |
| Submitter.SubmitterPage.OnTriggerClick | submitter.js:114-162 | only the click opens a subscription and records its handle; without geolocation the page shows it is unsupported |
| Submitter.SubmitterPage.OnPosition | submitter.js:36-88 | the report built from the fix and geocode result is written whatever geocoding returned; success shows the summary, failure shows the error |
| Submitter.SubmitterPage.OnError | submitter.js:90-112 | shows the classified error with its message and, for every kind of error, cancels the subscription when a handle is held |
| Submitter.GeocodingFailureStillStored | submitter.js:42-55 | when geocoding fails, the report is stored with address `{}` and a poll reads it back |

## Left out

- DOM rendering, HTML templating and the clipboard copy: UI only. Popup, status and info texts are kept as the values they show.
- The map widget itself: tiles, the popup mechanics (binding and opening) and `invalidateSize`. The view is reduced to the marker position, the centre, the zoom and the values the popup shows.
- `toFixed` and `toLocaleTimeString` formatting. Coordinates and timestamps are shown unformatted.
- The `fetch` to Nominatim, its URL and `response.json()`. Their outcome is the `FetchOutcome` input.
- UUID generation. The session id is a parameter.
- `Date.now()`. Both calls in `initializeTracker` are one `now` parameter, in milliseconds.
- The simulated 50 ms delays, the `setInterval` schedule and interleaved async callbacks. `PollTick` models one tick run to completion.
- `decodeURIComponent`. It is the `decode` parameter, so full percent-decoding is not modelled.
- The regex escaping of the parameter name (app.js:5). The name is matched literally; the page only uses `session`.
- JSON serialisation. It is the identity, and `Raw` stands for text `JSON.parse` rejects.
- `JSON.stringify` dropping properties whose value is `undefined`. This is not modelled.
- Stored documents other than `null`, metadata-shaped objects and reports. Other JSON values are not modelled.
- Exceptions from `getItem` (storage access denied). These are not modelled.
- The `watchPosition` options (high accuracy, 10 s timeout, 5 s maximum age) and the `beforeunload` listener that clears the watch. These are platform API calls.
- Console logging.
- Tracker.TrackerPage.PollTick: a polled object without coordinates is modelled as leaving the view unchanged, because the map widget throws on it before anything is updated.
