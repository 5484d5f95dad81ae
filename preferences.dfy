/** The application's preference files: string-to-string stores edited in place. */
module Preferences {
  import opened Wrappers

  class SharedPreferences {
    var entries: map<string, string>

    constructor (initial: map<string, string>)
      ensures entries == initial
    {
      entries := initial;
    }

    /** `getString(key, null)`: the stored value, or null when the key is absent. */
    function GetString(key: string): (r: Option<string>)
      reads this
      ensures r.Some? <==> key in entries
      ensures r.Some? ==> r.value == entries[key]
    {
      if key in entries then Some(entries[key]) else None
    }

    /** `edit().putString(key, value).apply()`: the key now maps to value, replacing any earlier one. */
    method PutString(key: string, value: string)
      modifies this
      ensures entries == old(entries)[key := value]
    {
      entries := entries[key := value];
    }

    /** `edit().remove(key).apply()`: only that key goes. */
    method Remove(key: string)
      modifies this
      ensures entries == old(entries) - {key}
    {
      entries := entries - {key};
    }
  }
}
