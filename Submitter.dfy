/**
 * The submitter page (submitter.js): after a click it subscribes to device
 * positions; for every fix it resolves an address, writes a report to
 * storage and shows what was sent; on a location error it shows a message
 * and cancels the subscription.
 *
 * The platform's location service is reduced to the set of subscription
 * handles this page holds open. The status text and the info panel keep the
 * values they show rather than their markup.
 */
module Submitter {
  import opened Optional
  import opened Documents
  import opened LocalStorage
  import opened MockApi
  import opened Geocoding
  import opened AddressText

  /** A device fix: `position.coords` and `position.timestamp`. */
  datatype Position = Position(latitude: real, longitude: real, accuracy: real, timestamp: int)

  /**
   * The report sent for a fix: the session and the fix copied unchanged,
   * with the geocoded address, or `{}` when geocoding returned null.
   */
  function BuildReport(sessionId: string, position: Position, details: Option<Address>): (r: LocationReport)
    ensures r.sessionId == sessionId
    ensures r.latitude == position.latitude && r.longitude == position.longitude
    ensures r.accuracy == position.accuracy && r.timestamp == position.timestamp
    ensures details.None? ==> r.address == Some(map[])
    ensures details.Some? ==> r.address == details
  {
    LocationReport(sessionId, position.latitude, position.longitude, position.accuracy,
                   position.timestamp, Some(details.GetOr(map[])))
  }

  /** The address part of the info panel. */
  datatype Summary =
    | AddressNotFound
    | Structured(postcode: string, street: string, neighborhood: string, cityState: string)

  /** The "not found" text appears exactly when the details are null or have no properties. */
  function Summarize(details: Option<Address>): (s: Summary)
    ensures s.AddressNotFound? <==> details.None? || |details.value| == 0
    ensures s.Structured? ==>
      s == Structured(OrNotAvailable(details.value, Postcode), StreetInfo(details.value),
                      OrNotAvailable(details.value, Neighborhood), CityStateInfo(details.value))
  {
    if details.Some? && |details.value| > 0 then
      var a := details.value;
      Structured(OrNotAvailable(a, Postcode), StreetInfo(a), OrNotAvailable(a, Neighborhood), CityStateInfo(a))
    else AddressNotFound
  }

  /**
   * For a geocoding result the "not found" text means geocoding failed,
   * except in the one case where the response resolved nothing at all and
   * its `display_name` was the empty string.
   */
  lemma SummaryNotFoundMeansNoResult(response: FetchOutcome)
    ensures Summarize(Geocoded(response)).AddressNotFound? <==>
      Geocoded(response).None?
      || ResolvedNothing(response)
  {
  }

  /** The response carries an address in which no chain resolved and an empty `display_name`. */
  predicate ResolvedNothing(response: FetchOutcome) {
    && response.Response? && response.body.JsonObject? && response.body.address.Some?
    && response.body.displayName == Some("")
    && forall f :: f != DisplayName ==> FirstNonEmpty(response.body.address.value, KeysFor(f)) == ""
  }

  /** The `code` values of a `GeolocationPositionError`. */
  const PermissionDeniedCode: int := 1
  const PositionUnavailableCode: int := 2
  const TimeoutCode: int := 3

  datatype GeoError = PermissionDenied | PositionUnavailable | Timeout | UnknownError

  /** The `switch (error.code)` of `handleGeolocationError`: each known code its own kind, anything else unknown. */
  function ClassifyError(code: int): (e: GeoError)
    ensures e == PermissionDenied <==> code == PermissionDeniedCode
    ensures e == PositionUnavailable <==> code == PositionUnavailableCode
    ensures e == Timeout <==> code == TimeoutCode
    ensures e == UnknownError <==> code != PermissionDeniedCode && code != PositionUnavailableCode && code != TimeoutCode
  {
    if code == PermissionDeniedCode then PermissionDenied
    else if code == PositionUnavailableCode then PositionUnavailable
    else if code == TimeoutCode then Timeout
    else UnknownError
  }

  /** The message shown for each kind of error. */
  const PermissionDeniedMessage: string :=
    "Permissão de localização negada. Por favor, recarregue a página e aceite a permissão."
  const PositionUnavailableMessage: string := "A informação de localização está indisponível."
  const TimeoutMessage: string := "A requisição para obter a localização expirou."
  const UnknownErrorMessage: string := "Ocorreu um erro desconhecido."

  function ErrorMessage(e: GeoError): string {
    match e
    case PermissionDenied => PermissionDeniedMessage
    case PositionUnavailable => PositionUnavailableMessage
    case Timeout => TimeoutMessage
    case UnknownError => UnknownErrorMessage
  }

  /** The status text. */
  datatype Status = AwaitingPermission | ResolvingAddress | Sending | Sharing | LocationFailed | NotSupported

  /** The info panel. */
  datatype Info =
    | Blank
    | Delivered(timestamp: int, latitude: real, longitude: real, accuracy: real, summary: Summary)
    | DeliveryFailed
    | ErrorShown(error: GeoError, message: string)
    | UnsupportedShown

  /** `if (watchId)`: a handle is held and is not 0. */
  predicate HoldsWatch(watchId: Option<int>) {
    watchId.Some? && watchId.value != 0
  }

  class SubmitterPage {
    const sessionId: string
    var promptVisible: bool
    var watchId: Option<int>
    /** The location subscriptions this page has opened and not cancelled. */
    var activeWatches: set<int>
    var status: Status
    var info: Info

    /** `initializeSubmitter`: shows the click prompt; no location is requested on load. */
    constructor (sessionId: string)
      ensures this.sessionId == sessionId && promptVisible
      ensures watchId == None && activeWatches == {}
      ensures status == AwaitingPermission && info == Blank
    {
      this.sessionId := sessionId;
      promptVisible := true;
      watchId := None;
      activeWatches := {};
      status := AwaitingPermission;
      info := Blank;
    }

    /**
     * The click on the prompt image, the only place geolocation starts:
     * hides the prompt and opens a subscription (`handle` is what
     * `watchPosition` returns), or reports that geolocation is missing.
     */
    method OnTriggerClick(geolocationSupported: bool, handle: int)
      modifies this
      ensures !promptVisible
      ensures geolocationSupported ==>
        watchId == Some(handle) && activeWatches == old(activeWatches) + {handle}
        && status == AwaitingPermission && info == old(info)
      ensures !geolocationSupported ==>
        watchId == old(watchId) && activeWatches == old(activeWatches)
        && status == NotSupported && info == UnsupportedShown
    {
      promptVisible := false;
      if geolocationSupported {
        status := AwaitingPermission;
        watchId := Some(handle);
        activeWatches := activeWatches + {handle};
      } else {
        status := NotSupported;
        info := UnsupportedShown;
      }
    }

    /**
     * A fix arrives (`sendLocation`): geocode it (the fetch outcome is an
     * input), write the report, show the result. A geocoding failure never
     * prevents the write; a write failure leaves the status at "sending".
     */
    method OnPosition(store: Store, position: Position, response: FetchOutcome)
      modifies this, store
      ensures store.acceptsWrites == old(store.acceptsWrites)
      ensures store.items ==
        if old(store.acceptsWrites) then Sent(old(store.items), sessionId, BuildReport(sessionId, position, Geocoded(response)))
        else old(store.items)
      ensures watchId == old(watchId) && activeWatches == old(activeWatches) && promptVisible == old(promptVisible)
      ensures old(store.acceptsWrites) ==>
        status == Sharing
        && info == Delivered(position.timestamp, position.latitude, position.longitude, position.accuracy,
                             Summarize(Geocoded(response)))
      ensures !old(store.acceptsWrites) ==> status == Sending && info == DeliveryFailed
    {
      // the success callback's own status write (submitter.js:129), before `sendLocation` overwrites it
      status := Sharing;
      status := ResolvingAddress;
      var details := ReverseGeocode(response);
      var data := BuildReport(sessionId, position, details);
      status := Sending;
      var ok := SendLocationData(store, sessionId, data);
      if ok {
        status := Sharing;
        info := Delivered(position.timestamp, position.latitude, position.longitude, position.accuracy,
                          Summarize(details));
      } else {
        info := DeliveryFailed;
      }
    }

    /**
     * `handleGeolocationError`: shows the classified message and, for every
     * kind of error, cancels the subscription when a handle is held. The
     * handle itself is kept.
     */
    method OnError(code: int)
      modifies this
      ensures status == LocationFailed
      ensures info.ErrorShown? && info.error == ClassifyError(code) && info.message == ErrorMessage(info.error)
      ensures watchId == old(watchId) && promptVisible == old(promptVisible)
      ensures activeWatches ==
        if HoldsWatch(old(watchId)) then old(activeWatches) - {old(watchId).value} else old(activeWatches)
    {
      status := LocationFailed;
      var error := ClassifyError(code);
      info := ErrorShown(error, ErrorMessage(error));
      if HoldsWatch(watchId) {
        activeWatches := activeWatches - {watchId.value};
      }
    }
  }

  /**
   * A fix whose geocoding failed is still stored, with an empty address,
   * and a poll of the session reads it back.
   */
  lemma GeocodingFailureStillStored(items: map<string, Entry>, sessionId: string, position: Position, response: FetchOutcome)
    requires Geocoded(response).None?
    ensures Polled(Sent(items, sessionId, BuildReport(sessionId, position, Geocoded(response))), sessionId)
         == Some(ReportDoc(LocationReport(sessionId, position.latitude, position.longitude, position.accuracy,
                                          position.timestamp, Some(map[]))))
  {
  }
}
