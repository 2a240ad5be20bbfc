/** Browser `localStorage`, one typed slot per key. A slot holds the value its JSON text
    parses back to, or nothing when the key is absent. */
module Storage {
  import opened Wrappers

  class Slot<T> {
    var item: Option<T>

    constructor (initial: Option<T>)
      ensures item == initial
    {
      item := initial;
    }

    /** `JSON.parse(localStorage.getItem(key) || fallback)`. */
    function Load(fallback: T): T
      reads this
    {
      item.GetOr(fallback)
    }

    /** `localStorage.setItem(key, JSON.stringify(v))`. */
    method SetItem(v: T)
      modifies this
      ensures item == Some(v)
      ensures forall fallback: T :: Load(fallback) == v
    {
      item := Some(v);
    }

    /** `localStorage.removeItem(key)`. */
    method RemoveItem()
      modifies this
      ensures item == None
      ensures forall fallback: T :: Load(fallback) == fallback
    {
      item := None;
    }
  }
}
