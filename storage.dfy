/** The device's asynchronous key-value store, as the consent store and the app shell use it:
    each operation either completes or throws, and whether it throws is an input. Values are
    kept as consent records; their JSON text form is not modelled. */
module Storage {
  import opened Wrappers
  import opened Consents

  /** The storage key both consent holders use. */
  const CONSENT_STORAGE_KEY: string := "userConsent"

  /** What `getItem` yields: a thrown error, or the stored value (null when absent). */
  datatype ReadResult = ReadFailed | Read(value: Option<Consents>)

  class AsyncStorage {
    var items: map<string, Consents>

    constructor(initial: map<string, Consents>)
      ensures items == initial
    {
      items := initial;
    }

    /** `getItem(key)`. */
    method GetItem(key: string, fails: bool) returns (r: ReadResult)
      ensures fails ==> r == ReadFailed
      ensures !fails && key in items ==> r == Read(Some(items[key]))
      ensures !fails && key !in items ==> r == Read(None)
    {
      if fails {
        return ReadFailed;
      }
      if key in items {
        return Read(Some(items[key]));
      }
      return Read(None);
    }

    /** `setItem(key, value)`: on success the key maps to the value; a failed write
        leaves the store as it was. */
    method SetItem(key: string, value: Consents, fails: bool) returns (ok: bool)
      modifies this
      ensures ok == !fails
      ensures items == if ok then old(items)[key := value] else old(items)
    {
      if fails {
        return false;
      }
      items := items[key := value];
      return true;
    }

    /** `removeItem(key)`: on success the key is gone; a failed removal leaves the store as
        it was. */
    method RemoveItem(key: string, fails: bool) returns (ok: bool)
      modifies this
      ensures ok == !fails
      ensures items == if ok then old(items) - {key} else old(items)
    {
      if fails {
        return false;
      }
      items := items - {key};
      return true;
    }
  }
}
