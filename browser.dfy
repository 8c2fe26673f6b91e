/**
 * The browser services the handlers act on: `localStorage` as a map from
 * keys to strings and the client router as the list of paths pushed so far.
 * An `Effect` records everything one run of a handler does to them.
 */
module Browser {
  import opened Wrappers
  import opened ToastContext

  type Storage = map<string, string>

  class LocalStorage {
    var items: Storage

    constructor (initial: Storage)
      ensures items == initial
    {
      items := initial;
    }

    method SetItem(key: string, value: string)
      modifies this
      ensures items == old(items)[key := value]
    {
      items := items[key := value];
    }

    /** Removing a key that is not there is allowed and changes nothing. */
    method RemoveItem(key: string)
      modifies this
      ensures items == old(items) - {key}
    {
      items := items - {key};
    }
  }

  class Router {
    var history: seq<string>

    constructor ()
      ensures history == []
    {
      history := [];
    }

    method Push(path: string)
      modifies this
      ensures history == old(history) + [path]
    {
      history := history + [path];
    }
  }

  /**
   * What one run of a handler does: the storage keys it removes, the entries it
   * writes, the one notification it shows and the navigation it performs, if any.
   */
  datatype Effect = Effect(removals: set<string>, writes: Storage, toast: ToastProps, navigation: Option<string>)

  /** The storage after an effect: removals first, then writes. */
  function Apply(items: Storage, e: Effect): (r: Storage)
    ensures r.Keys == (items.Keys - e.removals) + e.writes.Keys
    ensures forall k :: k in e.writes ==> r[k] == e.writes[k]
    ensures forall k :: k in items && k !in e.removals && k !in e.writes ==> r[k] == items[k]
  {
    (items - e.removals) + e.writes
  }

  /** The paths an effect pushes onto the router: none or one. */
  function Pushed(e: Effect): (paths: seq<string>)
    ensures |paths| <= 1
    ensures |paths| == 1 <==> e.navigation.Some?
  {
    match e.navigation
    case None => []
    case Some(path) => [path]
  }
}
