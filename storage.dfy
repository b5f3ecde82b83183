/** The safe adapter over the browser's local storage: a string-keyed,
    string-valued store whose every failure is caught and absorbed. The
    store's state is its map plus one flag saying whether the underlying
    storage currently fails (storage disabled, private browsing, quota). A
    failing read yields `None`, as a missing key does; a failing write or
    removal changes nothing. No operation has a precondition: none of them
    can raise to the caller. */
module Storage {
  import opened Base

  datatype StoreState = StoreState(items: map<string, string>, failing: bool)

  /** `getFromLocalStorage(key)`. */
  function Get(s: StoreState, key: string): (r: Option<string>)
    ensures s.failing ==> r == None
    ensures r.Some? ==> key in s.items && r.value == s.items[key]
    ensures !s.failing && key in s.items ==> r.Some?
  {
    if s.failing then None
    else if key in s.items then Some(s.items[key])
    else None
  }

  /** `setToLocalStorage(key, value)`: afterwards a healthy store yields
      `value` for `key` and the same as before for every other key; a
      failing store is left exactly as it was. */
  function Set(s: StoreState, key: string, value: string): (r: StoreState)
    ensures r.failing == s.failing
    ensures s.failing ==> r == s
    ensures !s.failing ==> Get(r, key) == Some(value)
    ensures forall k :: k != key ==> Get(r, k) == Get(s, k)
  {
    if s.failing then s else StoreState(s.items[key := value], false)
  }

  /** `removeFromLocalStorage(key)`: afterwards `key` reads as absent and
      every other key reads as before; a failing store is left as it was. */
  function Remove(s: StoreState, key: string): (r: StoreState)
    ensures r.failing == s.failing
    ensures s.failing ==> r == s
    ensures Get(r, key) == None
    ensures forall k :: k != key ==> Get(r, k) == Get(s, k)
  {
    if s.failing then s else StoreState(s.items - {key}, false)
  }

  /** The browser storage the pages share, updated in place. */
  class SafeStorage {
    var items: map<string, string>
    const failing: bool

    function State(): StoreState
      reads this
    {
      StoreState(items, failing)
    }

    constructor (items: map<string, string>, failing: bool)
      ensures State() == StoreState(items, failing)
    {
      this.items := items;
      this.failing := failing;
    }

    method GetItem(key: string) returns (r: Option<string>)
      ensures r == Get(State(), key)
    {
      if failing {
        r := None;
      } else if key in items {
        r := Some(items[key]);
      } else {
        r := None;
      }
    }

    method SetItem(key: string, value: string)
      modifies this`items
      ensures State() == Set(old(State()), key, value)
    {
      if !failing {
        items := items[key := value];
      }
    }

    method RemoveItem(key: string)
      modifies this`items
      ensures State() == Remove(old(State()), key)
    {
      if !failing {
        items := items - {key};
      }
    }
  }
}
