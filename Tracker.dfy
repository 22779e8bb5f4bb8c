/**
 * The tracker page (tracker.js): creates a session with a three-hour
 * lifetime, builds the link to share, and on every poll tick moves the map
 * marker to the latest report and rewrites the popup and the status line.
 *
 * The page's module-level state (the map view, the marker and the session
 * id) is the `TrackerPage` object. The map widget is reduced to a marker
 * position, a centre and a zoom level; the popup and the status line keep
 * the formatted values they show.
 */
module Tracker {
  import opened Optional
  import opened Documents
  import opened LocalStorage
  import opened MockApi
  import opened AddressText

  const ExpirationHours: int := 3
  const ExpirationMs: int := ExpirationHours * 60 * 60 * 1000
  const MetadataPrefix: string := "session_metadata_"
  const SessionQuery: string := "?session="
  /** Where the map starts, before any report arrives (São Paulo). */
  const DefaultCenter: LatLng := LatLng(-23.5505, -46.6333)
  const DefaultZoom: int := 13
  /** The zoom level a report brings the view to at least. */
  const CloseUpZoom: int := 15

  /** The storage key of a session's metadata. */
  function MetadataKey(sessionId: string): string {
    MetadataPrefix + sessionId
  }

  /**
   * The store after the tracker records a new session at time `now`: the
   * metadata says when it was created and that it expires three hours later;
   * no other key changes.
   */
  function SessionCreated(items: map<string, Entry>, sessionId: string, now: nat): (r: map<string, Entry>)
    ensures MetadataKey(sessionId) in r
    ensures Parse(r[MetadataKey(sessionId)]) == Some(MetaDoc(Some(now), Some(now + 10_800_000)))
    ensures r.Keys == items.Keys + {MetadataKey(sessionId)}
    ensures forall k :: k in items && k != MetadataKey(sessionId) ==> r[k] == items[k]
  {
    items[MetadataKey(sessionId) := Stringify(MetaDoc(Some(now), Some(now + ExpirationMs)))]
  }

  /** The link the tracker shares: the page's own address with the session in its query. */
  function TrackingLink(origin: string, pathname: string, sessionId: string): (link: string)
    ensures |link| == |origin| + |pathname| + |SessionQuery| + |sessionId|
    ensures link[..|origin| + |pathname|] == origin + pathname
    ensures link[|origin| + |pathname|..] == SessionQuery + sessionId
  {
    var prefix := origin + pathname;
    assert (prefix + SessionQuery + sessionId)[..|prefix|] == prefix;
    assert (prefix + SessionQuery + sessionId)[|prefix|..] == SessionQuery + sessionId;
    prefix + SessionQuery + sessionId
  }

  /** `map.getZoom() > 15 ? map.getZoom() : 15`: zoom in to 15, never out. */
  function NextZoom(zoom: int): (r: int)
    ensures r >= CloseUpZoom && r >= zoom
    ensures r == zoom || r == CloseUpZoom
  {
    if zoom > CloseUpZoom then zoom else CloseUpZoom
  }

  /** The marker's popup. */
  datatype Popup =
    | AwaitingLocation
    | LocationPopup(timestamp: int, street: string, neighborhood: string, cityState: string,
                    postcode: string, position: LatLng, accuracy: real)

  /** The status line under the link. */
  datatype Status =
    | Monitoring(sessionId: string)
    | Received(timestamp: int, accuracy: real, street: string, cityState: string)

  /** `data.address || {}`. */
  function AddressOf(data: LocationReport): Address {
    data.address.GetOr(map[])
  }

  function PopupFor(data: LocationReport): Popup {
    var a := AddressOf(data);
    LocationPopup(data.timestamp, StreetInfo(a), OrNotAvailable(a, Neighborhood), CityStateInfo(a),
                  OrNotAvailable(a, Postcode), LatLng(data.latitude, data.longitude), data.accuracy)
  }

  function StatusFor(data: LocationReport): Status {
    var a := AddressOf(data);
    Received(data.timestamp, data.accuracy, StreetInfo(a), CityStateInfo(a))
  }

  /**
   * A report whose address has no non-empty field (none at all, or the `{}`
   * written after a failed geocode) shows "N/A" for every address line.
   */
  lemma MissingAddressShowsNotAvailable(data: LocationReport)
    requires forall f :: !Truthy(AddressOf(data), f)
    ensures var p := PopupFor(data);
            p.street == p.neighborhood == p.cityState == p.postcode == NotAvailable
  {
  }

  class TrackerPage {
    const sessionId: string
    const link: string
    var marker: Option<LatLng>
    var center: LatLng
    var zoom: int
    var popup: Popup
    var status: Status

    /** The view `initMap` builds: centred on the default, with a marker there awaiting a location. */
    constructor (sessionId: string, link: string)
      ensures this.sessionId == sessionId && this.link == link
      ensures marker == Some(DefaultCenter) && center == DefaultCenter && zoom == DefaultZoom
      ensures popup == AwaitingLocation && status == Monitoring(sessionId)
    {
      this.sessionId := sessionId;
      this.link := link;
      marker := Some(DefaultCenter);
      center := DefaultCenter;
      zoom := DefaultZoom;
      popup := AwaitingLocation;
      status := Monitoring(sessionId);
    }

    /** The view shows `data`, reached from a view whose zoom was `priorZoom`. */
    ghost predicate Shows(data: LocationReport, priorZoom: int)
      reads this
    {
      && marker == Some(LatLng(data.latitude, data.longitude))
      && center == LatLng(data.latitude, data.longitude)
      && zoom == NextZoom(priorZoom)
      && popup == PopupFor(data)
      && status == StatusFor(data)
    }

    /**
     * `updateMap`: the marker exists afterwards and sits at the report's
     * coordinates (created if absent, moved otherwise); the view is centred
     * there, zoomed in to at least 15.
     */
    method UpdateMap(data: LocationReport)
      modifies this
      ensures Shows(data, old(zoom))
    {
      var latlng := LatLng(data.latitude, data.longitude);
      // Creating the marker when there is none and moving the existing one end in the same state.
      marker := Some(latlng);
      popup := PopupFor(data);
      zoom := NextZoom(zoom);
      center := latlng;
      status := StatusFor(data);
    }

    /**
     * One tick of the five-second poll: the view changes only when the poll
     * returns a report. A null poll leaves it as it was, and so does an
     * object without coordinates, on which the map widget throws before
     * anything is updated.
     */
    method PollTick(store: Store)
      modifies this
      ensures var data := Polled(store.items, sessionId);
              if data.Some? && data.value.ReportDoc? then Shows(data.value.report, old(zoom))
              else unchanged(this)
    {
      var data := PollLocationData(store, sessionId);
      if data.Some? && data.value.ReportDoc? {
        UpdateMap(data.value.report);
      }
    }
  }

  /**
   * `initializeTracker` with the fresh session id and the clock passed in:
   * records the session's metadata and builds the page. Where the storage
   * write throws, no page is built.
   */
  method InitializeTracker(store: Store, sessionId: string, now: nat, origin: string, pathname: string)
    returns (page: TrackerPage?)
    modifies store
    ensures store.acceptsWrites == old(store.acceptsWrites)
    ensures page == null <==> !old(store.acceptsWrites)
    ensures store.items == if page != null then SessionCreated(old(store.items), sessionId, now) else old(store.items)
    ensures page != null ==> fresh(page) && page.sessionId == sessionId
                             && page.link == TrackingLink(origin, pathname, sessionId)
                             && page.marker == Some(DefaultCenter) && page.center == DefaultCenter
                             && page.zoom == DefaultZoom
                             && page.popup == AwaitingLocation && page.status == Monitoring(sessionId)
  {
    var expires := now + ExpirationMs;
    var ok := store.SetItem(MetadataKey(sessionId), Stringify(MetaDoc(Some(now), Some(expires))));
    if !ok {
      return null;
    }
    var link := TrackingLink(origin, pathname, sessionId);
    page := new TrackerPage(sessionId, link);
  }
}
