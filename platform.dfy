/**
 * The browser as the front end sees it: `localStorage` as a string-to-string
 * map, and an append-only log of what the user can observe (router
 * navigations, hard `window.location` navigations, toasts, confirm dialogs)
 * together with the calls made to the remote API.
 */
module Platform {
  import opened Wrappers

  const AccessTokenKey := "access_token"
  const RefreshTokenKey := "refresh_token"
  const UserKey := "user"
  const PendingAssessmentKey := "pending_assessment"

  /** The three keys that make up a stored session. */
  const SessionKeys: set<string> := {AccessTokenKey, RefreshTokenKey, UserKey}

  datatype ToastKind = Success | Error | Info | Plain

  datatype Verb = Get | Post | Put | Delete

  datatype Event =
    | Navigate(path: string)                   // router.push(path)
    | Redirect(path: string)                   // window.location.href = path
    | NavigateLater(path: string, delayMs: nat) // setTimeout(() => router.push(path), delayMs)
    | Notify(kind: ToastKind, message: string, icon: Option<string>)
    | Call(verb: Verb, path: string)           // a request handed to the HTTP client
    | Ask(question: string)                    // window.confirm(question)

  /** `if (value)` on a string: present and not the empty string. */
  predicate Truthy(value: Option<string>) {
    value.Some? && value.value != ""
  }

  /** The error toast of a rejected call: the server's `message` when there is one, else `fallback`. */
  function ErrorToast(message: Option<string>, fallback: string): (r: string)
    ensures Truthy(message) ==> r == message.value
    ensures !Truthy(message) ==> r == fallback
  {
    if Truthy(message) then message.value else fallback
  }

  class Browser {
    var storage: map<string, string>
    var events: seq<Event>

    constructor (initial: map<string, string>)
      ensures storage == initial && events == []
    {
      storage := initial;
      events := [];
    }

    /** `localStorage.getItem(key)`. */
    function GetItem(key: string): (r: Option<string>)
      reads this
      ensures r.Some? <==> key in storage
      ensures r.Some? ==> r.value == storage[key]
    {
      if key in storage then Some(storage[key]) else None
    }

    /** `localStorage.setItem(key, value)`. */
    method SetItem(key: string, value: string)
      modifies this
      ensures storage == old(storage)[key := value] && events == old(events)
    {
      storage := storage[key := value];
    }

    /** `localStorage.removeItem(key)`; removing an absent key is harmless. */
    method RemoveItem(key: string)
      modifies this
      ensures storage == old(storage) - {key} && events == old(events)
    {
      storage := storage - {key};
    }

    /** Something the user observes, or a request leaving the client. */
    method Emit(e: Event)
      modifies this
      ensures events == old(events) + [e] && storage == old(storage)
    {
      events := events + [e];
    }
  }
}
