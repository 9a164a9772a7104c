/**
 * The platform's synchronous key/value storage (uni.getStorageSync,
 * uni.setStorageSync, uni.removeStorageSync), shared by every module of the
 * client: the session keys, the error log and the user's preferences.
 */
module Storage {
  import opened Js

  /** `uni.getStorageSync(key)`: the stored value, or the empty string when nothing is stored under `key`. */
  function ReadFrom(items: map<string, Json>, key: string): (v: Json)
    ensures key !in items ==> v == Str("") && !Truthy(v)
  {
    if key in items then items[key] else Str("")
  }

  class Store {
    var items: map<string, Json>

    constructor (initial: map<string, Json>)
      ensures items == initial
    {
      items := initial;
    }

    /** `uni.setStorageSync(key, v)`. */
    method Set(key: string, v: Json)
      modifies this
      ensures items == old(items)[key := v]
    {
      items := items[key := v];
    }

    /** `uni.removeStorageSync(key)`. */
    method Remove(key: string)
      modifies this
      ensures items == old(items) - {key}
    {
      items := items - {key};
    }
  }
}
