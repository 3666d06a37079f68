/** The browser's `localStorage`: one string slot per key, shared by every module of the client. */
module Browser {
  import opened Wrappers

  /** What `localStorage.getItem(key)` yields: the stored string, or null for an absent slot. */
  function Lookup(items: map<string, string>, key: string): Option<string>
  {
    if key in items then Some(items[key]) else None
  }

  /** `localStorage.getItem(key) || ''`: an absent slot and an empty one both read as ''. */
  function ItemOrEmpty(items: map<string, string>, key: string): string
  {
    if key in items then items[key] else ""
  }

  /** JavaScript truthiness of a nullable string: present and non-empty. */
  predicate Truthy(v: Option<string>)
  {
    v.Some? && v.value != ""
  }

  class LocalStorage {
    var items: map<string, string>

    constructor (items: map<string, string>)
      ensures this.items == items
    {
      this.items := items;
    }

    function GetItem(key: string): Option<string>
      reads this
    {
      Lookup(items, key)
    }

    method SetItem(key: string, value: string)
      modifies this
      ensures items == old(items)[key := value]
    {
      items := items[key := value];
    }

    method RemoveItem(key: string)
      modifies this
      ensures items == old(items) - {key}
    {
      items := items - {key};
    }
  }
}
