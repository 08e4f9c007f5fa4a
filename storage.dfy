/** The on-device key-value store (`AsyncStorage`), seen as a map from keys to
    the lists stored under them. Encoding the lists as JSON text is not part
    of this model. */
module Storage {

  class ListStore<T> {
    var items: map<string, seq<T>>

    constructor ()
      ensures items == map[]
    {
      items := map[];
    }

    /** `getItem(key)` followed by `existing ? JSON.parse(existing) : []`:
        a key that holds nothing reads as the empty list. */
    function GetList(key: string): (list: seq<T>)
      reads this
      ensures key !in items ==> list == []
      ensures key in items ==> list == items[key]
    {
      if key in items then items[key] else []
    }

    /** `setItem(key, list)`. */
    method SetItem(key: string, list: seq<T>)
      modifies this
      ensures items == old(items)[key := list]
      ensures GetList(key) == list
    {
      items := items[key := list];
    }

    /** `removeItem(key)`: the key reads as empty afterwards and no other key changes. */
    method RemoveItem(key: string)
      modifies this
      ensures items == old(items) - {key}
      ensures GetList(key) == []
      ensures forall k :: k != key ==> GetList(k) == old(GetList(k))
    {
      items := items - {key};
    }
  }
}
