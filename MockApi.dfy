/**
 * The stand-in for a location server (mock_api.js): a report is sent by
 * writing it to storage under a per-session key, and polled by reading that
 * key back. The simulated network delay is not modelled.
 */
module MockApi {
  import opened Optional
  import opened Documents
  import opened LocalStorage

  const LocationPrefix: string := "location_session_"

  /** The storage key of a session's latest report. */
  function LocationKey(sessionId: string): string {
    LocationPrefix + sessionId
  }

  /** Different sessions never share a report key. */
  lemma LocationKeyInjective(id1: string, id2: string)
    requires LocationKey(id1) == LocationKey(id2)
    ensures id1 == id2
  {
    var n := |LocationPrefix|;
    assert id1 == LocationKey(id1)[n..];
    assert id2 == LocationKey(id2)[n..];
  }

  /**
   * The store after a successful send: the report replaces whatever the
   * session's key held (last write wins) and every other key is untouched.
   */
  function Sent(items: map<string, Entry>, sessionId: string, data: LocationReport): (r: map<string, Entry>)
    ensures LocationKey(sessionId) in r && Parse(r[LocationKey(sessionId)]) == Some(ReportDoc(data))
    ensures r.Keys == items.Keys + {LocationKey(sessionId)}
    ensures forall k :: k in items && k != LocationKey(sessionId) ==> r[k] == items[k]
  {
    items[LocationKey(sessionId) := Stringify(ReportDoc(data))]
  }

  /**
   * What a poll returns: None (`null`) when the key is absent, holds the
   * empty string, holds text `JSON.parse` rejects, or holds the JSON `null`;
   * otherwise the parsed document.
   */
  function Polled(items: map<string, Entry>, sessionId: string): (r: Option<Doc>)
    ensures r.None? <==>
      LocationKey(sessionId) !in items || Parse(items[LocationKey(sessionId)]) in {None, Some(NullDoc)}
    ensures r.Some? ==> Parse(items[LocationKey(sessionId)]) == r && r.value != NullDoc
  {
    var key := LocationKey(sessionId);
    if key !in items || !NonEmpty(items[key]) then None
    else match Parse(items[key])
      case None => None
      case Some(NullDoc) => None
      case Some(d) => Some(d)
  }

  /** `sendLocationData`: stores the report; true when the write went through. */
  method SendLocationData(store: Store, sessionId: string, data: LocationReport) returns (ok: bool)
    modifies store
    ensures ok == old(store.acceptsWrites) && store.acceptsWrites == old(store.acceptsWrites)
    ensures store.items == if ok then Sent(old(store.items), sessionId, data) else old(store.items)
  {
    var key := LocationKey(sessionId);
    ok := store.SetItem(key, Stringify(ReportDoc(data)));
  }

  /** `pollLocationData`: reads the session's report without changing the store. */
  method PollLocationData(store: Store, sessionId: string) returns (data: Option<Doc>)
    ensures data == Polled(store.items, sessionId)
  {
    var key := LocationKey(sessionId);
    var stored := store.GetItem(key);
    if stored.Some? && NonEmpty(stored.value) {
      var parsed := Parse(stored.value);
      if parsed.Some? && parsed.value != NullDoc {
        return parsed;
      }
    }
    return None;
  }

  /** A send followed by a poll of the same session returns the report sent. */
  lemma SendThenPoll(items: map<string, Entry>, sessionId: string, data: LocationReport)
    ensures Polled(Sent(items, sessionId, data), sessionId) == Some(ReportDoc(data))
  {
  }

  /** Of two sends to one session, only the second is visible. */
  lemma LastWriteWins(items: map<string, Entry>, sessionId: string, first: LocationReport, second: LocationReport)
    ensures Sent(Sent(items, sessionId, first), sessionId, second) == Sent(items, sessionId, second)
    ensures Polled(Sent(Sent(items, sessionId, first), sessionId, second), sessionId) == Some(ReportDoc(second))
  {
  }

  /** A send to one session does not change what a poll of another session returns. */
  lemma SendIsolatesSessions(items: map<string, Entry>, sessionId: string, other: string, data: LocationReport)
    requires other != sessionId
    ensures Polled(Sent(items, sessionId, data), other) == Polled(items, other)
  {
    if LocationKey(other) == LocationKey(sessionId) {
      LocationKeyInjective(other, sessionId);
    }
  }
}
