/**
 * `UserDefaults.standard`, the store shared by the iOS app delegate and the
 * startup screen. Only string values are ever written, so the store is a map
 * from keys to strings.
 */
module IosDefaults {
  import opened Wrappers

  /** `string(forKey:)` on a store's entries: `nil` for a key that was never set. */
  function StringFor(entries: map<string, string>, key: string): Option<string> {
    if key in entries then Some(entries[key]) else None
  }

  class UserDefaults {
    var entries: map<string, string>

    constructor (entries: map<string, string>)
      ensures this.entries == entries
    {
      this.entries := entries;
    }

    /** `string(forKey:)`. */
    function StringForKey(key: string): Option<string>
      reads this
    {
      StringFor(entries, key)
    }

    /** `set(_:forKey:)` with a string value. */
    method Set(value: string, key: string)
      modifies this
      ensures entries == old(entries)[key := value]
      ensures StringForKey(key) == Some(value)
    {
      entries := entries[key := value];
    }
  }
}
