/**
 * What the client pages do to the browser: `localStorage` and an ordered
 * trace of the effects a page has on the outside (storage writes,
 * navigations, requests), so that the order of those effects can be stated.
 */
module Browser {

  datatype Effect =
    | SetItem(key: string, value: string)
    | RemoveItem(key: string)
    | Navigate(path: string)
    | Request(verb: string, path: string)
    | ReplaceUrl(path: string)
    | Reload

  class Window {
    var storage: map<string, string>
    var trace: seq<Effect>

    constructor ()
      ensures storage == map[] && trace == []
    {
      storage, trace := map[], [];
    }

    /** `localStorage.setItem`. */
    method SetItem(key: string, value: string)
      modifies this
      ensures storage == old(storage)[key := value]
      ensures trace == old(trace) + [Effect.SetItem(key, value)]
    {
      storage := storage[key := value];
      trace := trace + [Effect.SetItem(key, value)];
    }

    /** `localStorage.removeItem`. */
    method RemoveItem(key: string)
      modifies this
      ensures storage == old(storage) - {key}
      ensures trace == old(trace) + [Effect.RemoveItem(key)]
    {
      storage := storage - {key};
      trace := trace + [Effect.RemoveItem(key)];
    }

    /** `router.push` or an assignment to `window.location.href`. */
    method Navigate(path: string)
      modifies this`trace
      ensures trace == old(trace) + [Effect.Navigate(path)]
    {
      trace := trace + [Effect.Navigate(path)];
    }

    /** An API request leaving the page. */
    method Request(verb: string, path: string)
      modifies this`trace
      ensures trace == old(trace) + [Effect.Request(verb, path)]
    {
      trace := trace + [Effect.Request(verb, path)];
    }

    /** `history.replaceState`: the address changes without a navigation. */
    method ReplaceUrl(path: string)
      modifies this`trace
      ensures trace == old(trace) + [Effect.ReplaceUrl(path)]
    {
      trace := trace + [Effect.ReplaceUrl(path)];
    }

    /** `location.reload`. */
    method Reload()
      modifies this`trace
      ensures trace == old(trace) + [Effect.Reload]
    {
      trace := trace + [Effect.Reload];
    }
  }
}
