/**
 * The browser's `localStorage`, shared by every tab of the origin: a mutable
 * map from string keys to stored strings. A write can be refused (storage
 * full or disabled); `setItem` then throws and nothing changes.
 */
module LocalStorage {
  import opened Optional
  import opened Documents

  class Store {
    var items: map<string, Entry>
    /** False when the browser refuses writes: `setItem` throws. */
    var acceptsWrites: bool

    constructor (items: map<string, Entry>, acceptsWrites: bool)
      ensures this.items == items && this.acceptsWrites == acceptsWrites
    {
      this.items := items;
      this.acceptsWrites := acceptsWrites;
    }

    /** `getItem`: the stored string, or None (`null`) when the key is absent. */
    function GetItem(key: string): Option<Entry>
      reads this
    {
      if key in items then Some(items[key]) else None
    }

    /** `setItem`; `ok` is false where the call throws. */
    method SetItem(key: string, value: Entry) returns (ok: bool)
      modifies this`items
      ensures ok == acceptsWrites
      ensures items == if ok then old(items)[key := value] else old(items)
    {
      ok := acceptsWrites;
      if ok {
        items := items[key := value];
      }
    }

    /** `removeItem`: a no-op for an absent key. */
    method RemoveItem(key: string)
      modifies this`items
      ensures items == old(items) - {key}
    {
      items := items - {key};
    }
  }
}
