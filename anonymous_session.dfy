/**
  The anonymous chat identity of the browser client: an identifier kept in
  `localStorage` under one key, created on first use and removed on demand.
  `crypto.randomUUID()` is the parameter `freshId`.
*/
module AnonymousSession {

  import opened Wrappers

  const AnonymousSessionKey := "anonymous_session_id"

  /** The browser's `localStorage`: string values under string keys. */
  class LocalStorage {
    var items: map<string, string>

    constructor (items: map<string, string>)
      ensures this.items == items
    {
      this.items := items;
    }

    /** `getItem`: the value stored under `key`, or none (`null`). */
    function GetItem(key: string): (r: Option<string>)
      reads this
      ensures r.Some? <==> key in items
      ensures r.Some? ==> r.value == items[key]
    {
      if key in items then Some(items[key]) else None
    }

    method SetItem(key: string, value: string)
      modifies this
      ensures items == old(items)[key := value]
    {
      items := items[key := value];
    }

    method RemoveItem(key: string)
      modifies this
      ensures items == old(items) - {key}
    {
      items := items - {key};
    }
  }

  /**
    The identifier a call to `getAnonymousSessionId` would return without
    creating one: the stored value when it is a non-empty string (an empty
    string is falsy and counts as absent).
  */
  function StoredSessionId(items: map<string, string>): (r: Option<string>)
    ensures r.Some? <==> AnonymousSessionKey in items && items[AnonymousSessionKey] != ""
    ensures r.Some? ==> r.value == items[AnonymousSessionKey]
  {
    if AnonymousSessionKey in items && items[AnonymousSessionKey] != "" then Some(items[AnonymousSessionKey]) else None
  }

  /**
    `getAnonymousSessionId`: returns the stored identifier and writes nothing,
    or stores `freshId` under the key and returns it.  Either way the
    identifier returned is the one now stored, so the next call returns it
    again.
  */
  method GetAnonymousSessionId(storage: LocalStorage, freshId: string) returns (sessionId: string)
    requires freshId != ""
    modifies storage
    ensures StoredSessionId(old(storage.items)).Some? ==>
      sessionId == StoredSessionId(old(storage.items)).value && storage.items == old(storage.items)
    ensures StoredSessionId(old(storage.items)).None? ==>
      sessionId == freshId && storage.items == old(storage.items)[AnonymousSessionKey := freshId]
    ensures StoredSessionId(storage.items) == Some(sessionId)
  {
    var stored := storage.GetItem(AnonymousSessionKey);
    if stored.None? || stored.value == "" {
      sessionId := freshId;
      storage.SetItem(AnonymousSessionKey, sessionId);
    } else {
      sessionId := stored.value;
    }
  }

  /**
    `clearAnonymousSession`: removes the key and only that key, so that the
    next `getAnonymousSessionId` creates a new identifier.
  */
  method ClearAnonymousSession(storage: LocalStorage)
    modifies storage
    ensures storage.items == old(storage.items) - {AnonymousSessionKey}
    ensures forall k :: k != AnonymousSessionKey ==> storage.GetItem(k) == old(storage.GetItem(k))
    ensures StoredSessionId(storage.items).None?
  {
    storage.RemoveItem(AnonymousSessionKey);
  }

  /**
    Two calls with no clear in between return the same identifier, whatever
    fresh identifier the second one would have used; after a clear, the next
    call returns its fresh identifier.
  */
  method GetTwiceThenClear(storage: LocalStorage, fresh1: string, fresh2: string, fresh3: string)
    returns (first: string, second: string, afterClear: string)
    requires fresh1 != "" && fresh2 != "" && fresh3 != ""
    modifies storage
    ensures first == second
    ensures afterClear == fresh3
  {
    first := GetAnonymousSessionId(storage, fresh1);
    second := GetAnonymousSessionId(storage, fresh2);
    ClearAnonymousSession(storage);
    afterClear := GetAnonymousSessionId(storage, fresh3);
  }
}
