/**
 * The page bootstrap (app.js): reads the `session` parameter, checks the
 * session's metadata (deleting an expired session's records), and picks the
 * role: tracker when there is no session, submitter for a valid one, an
 * "invalid link" view otherwise.
 *
 * The clock is the parameter `now` (milliseconds), the fresh session id the
 * tracker would create is `newId`, and `decode` stands for
 * `decodeURIComponent` (None where it throws).
 */
module App {
  import opened Optional
  import opened Documents
  import opened LocalStorage
  import opened UrlParameter
  import MockApi
  import Geocoding
  import Tracker
  import Submitter

  const MetadataPrefix: string := "session_metadata_"
  /** app.js repeats the report key prefix of mock_api.js for its cleanup. */
  const LocationPrefix: string := "location_session_"

  function MetadataKey(sessionId: string): string {
    MetadataPrefix + sessionId
  }

  function CleanupKey(sessionId: string): string {
    LocationPrefix + sessionId
  }

  /** The keys the validity check reads and deletes are the ones the tracker and the submitter write. */
  lemma KeysAgreeAcrossPages(sessionId: string)
    ensures MetadataKey(sessionId) == Tracker.MetadataKey(sessionId)
    ensures CleanupKey(sessionId) == MockApi.LocationKey(sessionId)
  {
  }

  datatype Reason = NotFound | Expired | Unreadable
  datatype Validity = Valid | Invalid(reason: Reason)

  /** The message the "invalid link" view shows. */
  function Message(reason: Reason): string {
    match reason
    case NotFound => "Sessão de rastreamento não encontrada."
    case Expired => "O link de rastreamento expirou (Limite de 3 horas)."
    case Unreadable => "Erro ao processar dados da sessão."
  }

  /** `metadata.expires && metadata.expires < Date.now()`: a missing or zero expiry never expires. */
  predicate ExpiredAt(doc: Doc, now: int) {
    doc.MetaDoc? && doc.expires.Some? && doc.expires.value != 0 && doc.expires.value < now
  }

  /** The outcome of a validity check: the verdict and the store afterwards. */
  datatype Checked = Checked(validity: Validity, items: map<string, Entry>)

  /**
   * `checkSessionValidity`. Missing (or empty) metadata: not found.
   * Metadata that does not parse, or parses to `null` (reading `.expires`
   * then throws): unreadable. Metadata past its expiry: expired, and both
   * the metadata and the session's report are deleted. Anything else: valid.
   * Only the expired path changes the store.
   */
  function CheckValidity(items: map<string, Entry>, sessionId: string, now: nat): (c: Checked)
    ensures c.validity == Invalid(NotFound) <==>
      MetadataKey(sessionId) !in items || !NonEmpty(items[MetadataKey(sessionId)])
    ensures c.validity == Invalid(Unreadable) <==>
      MetadataKey(sessionId) in items && NonEmpty(items[MetadataKey(sessionId)])
      && Parse(items[MetadataKey(sessionId)]) in {None, Some(NullDoc)}
    ensures c.validity == Invalid(Expired) <==>
      MetadataKey(sessionId) in items && Parse(items[MetadataKey(sessionId)]).Some?
      && ExpiredAt(Parse(items[MetadataKey(sessionId)]).value, now)
    ensures c.validity == Invalid(Expired) ==> c.items == items - {MetadataKey(sessionId), CleanupKey(sessionId)}
    ensures c.validity != Invalid(Expired) ==> c.items == items
  {
    var key := MetadataKey(sessionId);
    if key !in items || !NonEmpty(items[key]) then Checked(Invalid(NotFound), items)
    else match Parse(items[key])
      case None => Checked(Invalid(Unreadable), items)
      case Some(NullDoc) => Checked(Invalid(Unreadable), items)
      case Some(metadata) =>
        if ExpiredAt(metadata, now) then Checked(Invalid(Expired), items - {key, CleanupKey(sessionId)})
        else Checked(Valid, items)
  }

  method CheckSessionValidity(store: Store, sessionId: string, now: nat) returns (v: Validity)
    modifies store
    ensures store.acceptsWrites == old(store.acceptsWrites)
    ensures Checked(v, store.items) == CheckValidity(old(store.items), sessionId, now)
  {
    var metadataKey := MetadataKey(sessionId);
    var stored := store.GetItem(metadataKey);
    if stored.None? || !NonEmpty(stored.value) {
      return Invalid(NotFound);
    }
    var metadata := Parse(stored.value);
    if metadata.None? || metadata.value == NullDoc {
      return Invalid(Unreadable);
    }
    if ExpiredAt(metadata.value, now) {
      store.RemoveItem(metadataKey);
      store.RemoveItem(CleanupKey(sessionId));
      return Invalid(Expired);
    }
    return Valid;
  }

  /** An expiry equal to the current instant is not yet past: the check is strict. */
  lemma ExpiryBoundaryIsValid(items: map<string, Entry>, sessionId: string, now: nat, created: Option<int>)
    requires MetadataKey(sessionId) in items && items[MetadataKey(sessionId)] == Json(MetaDoc(created, Some(now)))
    ensures CheckValidity(items, sessionId, now) == Checked(Valid, items)
  {
  }

  /** After an expiry is detected, a poll of the session finds nothing. */
  lemma ExpiryRemovesReport(items: map<string, Entry>, sessionId: string, now: nat)
    requires CheckValidity(items, sessionId, now).validity == Invalid(Expired)
    ensures MockApi.Polled(CheckValidity(items, sessionId, now).items, sessionId).None?
    ensures Tracker.MetadataKey(sessionId) !in CheckValidity(items, sessionId, now).items
  {
  }

  /** A session the tracker created at `created` is valid at any `t` up to its expiry, and nothing is deleted. */
  lemma FreshSessionIsValid(items: map<string, Entry>, sessionId: string, created: nat, t: nat)
    requires t <= created + Tracker.ExpirationMs
    ensures var stored := Tracker.SessionCreated(items, sessionId, created);
            CheckValidity(stored, sessionId, t) == Checked(Valid, stored)
  {
  }

  /**
   * Once the clock passes creation plus three hours, the check reports the
   * session expired and removes its metadata and its report.
   */
  lemma SessionExpiresAfterThreeHours(items: map<string, Entry>, sessionId: string, created: nat, t: nat)
    requires t > created + Tracker.ExpirationMs
    ensures var c := CheckValidity(Tracker.SessionCreated(items, sessionId, created), sessionId, t);
            c.validity == Invalid(Expired)
            && Tracker.MetadataKey(sessionId) !in c.items && MockApi.LocationKey(sessionId) !in c.items
  {
  }

  /**
   * A whole session: created at `t0`, a report written with no resolvable
   * address, polled 1005 ms later and read back unchanged; checked three
   * hours and one second later, it is expired and both records are gone.
   */
  lemma {:induction false} SessionLifecycle(items: map<string, Entry>, sessionId: string, t0: nat,
                                            position: Submitter.Position, response: Geocoding.FetchOutcome)
    requires Geocoding.Geocoded(response).None?
    ensures var created := Tracker.SessionCreated(items, sessionId, t0);
            var report := Submitter.BuildReport(sessionId, position, Geocoding.Geocoded(response));
            var written := MockApi.Sent(created, sessionId, report);
            && report.address == Some(map[])
            && CheckValidity(written, sessionId, t0 + 1005) == Checked(Valid, written)
            && MockApi.Polled(written, sessionId) == Some(ReportDoc(report))
            && var late := CheckValidity(written, sessionId, t0 + Tracker.ExpirationMs + 1000);
               late.validity == Invalid(Expired)
               && MetadataKey(sessionId) !in late.items && MockApi.Polled(late.items, sessionId).None?
  {
    var created := Tracker.SessionCreated(items, sessionId, t0);
    var report := Submitter.BuildReport(sessionId, position, Geocoding.Geocoded(response));
    var written := MockApi.Sent(created, sessionId, report);
    KeysAgreeAcrossPages(sessionId);
    MockApi.SendThenPoll(created, sessionId, report);
    assert MetadataKey(sessionId)[0] == 's' && MockApi.LocationKey(sessionId)[0] == 'l';
    assert written[MetadataKey(sessionId)] == created[MetadataKey(sessionId)];
  }

  /** The page the bootstrap shows. */
  datatype Role =
    | TrackerRole(sessionId: string, link: string)
    | SubmitterRole(sessionId: string)
    | InvalidLinkView(reason: Reason, message: string)
    | Halted  // an exception aborted the handler before any view was built

  datatype Loaded = Loaded(role: Role, items: map<string, Entry>)

  /**
   * The `DOMContentLoaded` handler on a store with contents `items` that
   * accepts writes when `writable`. An empty `session` parameter always
   * leads to the tracker (unless recording the new session throws); a
   * non-empty one leads to the submitter exactly when the session is valid,
   * and to the "invalid link" view otherwise.
   */
  function PageLoad(items: map<string, Entry>, writable: bool, search: string, now: nat, newId: string,
                    origin: string, pathname: string, decode: string -> Option<string>): (l: Loaded)
    ensures var param := GetUrlParameter(search, "session", decode);
      && (l.role.TrackerRole? <==> param == Some("") && writable)
      && (l.role.TrackerRole? ==> l.role.sessionId == newId
                                  && l.role.link == Tracker.TrackingLink(origin, pathname, newId)
                                  && l.items == Tracker.SessionCreated(items, newId, now))
      && (l.role.SubmitterRole? <==>
            param.Some? && param.value != "" && CheckValidity(items, param.value, now).validity == Valid)
      && (l.role.SubmitterRole? ==> l.role.sessionId == param.value && l.items == items)
      && (l.role.InvalidLinkView? ==>
            param.Some? && param.value != ""
            && CheckValidity(items, param.value, now) == Checked(Invalid(l.role.reason), l.items)
            && l.role.message == Message(l.role.reason))
      && (l.role.Halted? <==> param.None? || (param == Some("") && !writable))
      && (l.role.Halted? ==> l.items == items)
  {
    match GetUrlParameter(search, "session", decode)
    case None => Loaded(Halted, items)
    case Some(sessionId) =>
      if sessionId != "" then
        var c := CheckValidity(items, sessionId, now);
        if c.validity.Valid? then Loaded(SubmitterRole(sessionId), c.items)
        else Loaded(InvalidLinkView(c.validity.reason, Message(c.validity.reason)), c.items)
      else if writable then
        Loaded(TrackerRole(newId, Tracker.TrackingLink(origin, pathname, newId)),
               Tracker.SessionCreated(items, newId, now))
      else Loaded(Halted, items)
  }

  method OnDomContentLoaded(store: Store, search: string, now: nat, newId: string,
                            origin: string, pathname: string, decode: string -> Option<string>)
    returns (role: Role)
    modifies store
    ensures store.acceptsWrites == old(store.acceptsWrites)
    ensures Loaded(role, store.items) ==
      PageLoad(old(store.items), old(store.acceptsWrites), search, now, newId, origin, pathname, decode)
  {
    var sessionId := GetUrlParameter(search, "session", decode);
    if sessionId.None? {
      return Halted;
    }
    if sessionId.value != "" {
      var validation := CheckSessionValidity(store, sessionId.value, now);
      if validation.Valid? {
        var page := new Submitter.SubmitterPage(sessionId.value);
        role := SubmitterRole(page.sessionId);
      } else {
        role := InvalidLinkView(validation.reason, Message(validation.reason));
      }
    } else {
      var page := Tracker.InitializeTracker(store, newId, now, origin, pathname);
      if page == null {
        return Halted;
      }
      role := TrackerRole(page.sessionId, page.link);
    }
  }

  /**
   * The link the tracker shares opens the submitter for that session while
   * the session is fresh, for ids the query scan and the decoder leave
   * intact (no `&`, `#`, `+` or `%`).
   */
  lemma SharedLinkOpensSubmitter(items: map<string, Entry>, writable: bool, sessionId: string, created: nat,
                                 t: nat, newId: string, origin: string, pathname: string,
                                 decode: string -> Option<string>)
    requires sessionId != "" && LinkSafe(sessionId) && '%' !in sessionId
    requires DecodesPlainText(decode)
    requires t <= created + Tracker.ExpirationMs
    ensures var stored := Tracker.SessionCreated(items, sessionId, created);
            var search := Tracker.TrackingLink(origin, pathname, sessionId)[|origin| + |pathname|..];
            PageLoad(stored, writable, search, t, newId, origin, pathname, decode)
              == Loaded(SubmitterRole(sessionId), stored)
  {
    assert Tracker.TrackingLink(origin, pathname, sessionId)[|origin| + |pathname|..]
        == "?" + "session" + "=" + sessionId;
    QueryRoundTripDecoded("session", sessionId, decode);
    FreshSessionIsValid(items, sessionId, created, t);
  }
}
