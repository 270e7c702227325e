/** Browser `localStorage` as a map from keys to strings. */
module Storage {
  import opened Wrappers

  type Store = map<string, string>

  /** `localStorage.getItem(key)`: `None` stands for `null`, an absent key. */
  function GetItem(storage: Store, key: string): (r: Option<string>)
    ensures r.Some? <==> key in storage
    ensures r.Some? ==> r.value == storage[key]
  {
    if key in storage then Some(storage[key]) else None
  }
}
