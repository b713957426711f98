/**
 * The real-time channel (contexts/socket-context.tsx): a connection opened
 * for a signed-in user with a stored token and closed when the user goes,
 * the list of users the server reports online, and the toasts and the
 * forced sign-out pushed by the server.
 */
module Socket {
  import opened Wrappers
  import opened Platform
  import opened Seqs

  const Bell := "\U{1F514}"
  const Megaphone := "\U{1F4E2}"
  const Clipboard := "\U{1F4CB}"
  const CheckMark := "✅"
  const CrossMark := "❌"
  const Card := "\U{1F4B3}"
  const Hourglass := "⏳"

  /** `prev` after `user:online`: `[...new Set([...prev, id])]`. */
  function Online(prev: seq<string>, id: string): seq<string> {
    Unique(prev + [id])
  }

  /** `prev` after `user:offline`: every occurrence of `id` dropped. */
  function Offline(prev: seq<string>, id: string): seq<string> {
    Filter(prev, (x: string) => x != id)
  }

  /** `user:online` leaves a duplicate-free list naming `id` and every id named before. */
  lemma OnlineContents(prev: seq<string>, id: string)
    ensures NoDuplicates(Online(prev, id))
    ensures id in Online(prev, id)
    ensures forall x :: x in Online(prev, id) <==> x in prev || x == id
  {
    var all := prev + [id];
    assert all[|prev|] == id;
    forall x
      ensures x in Online(prev, id) <==> x in prev || x == id
    {
      if x in prev {
        var k :| 0 <= k < |prev| && prev[k] == x;
        assert all[k] == x;
      }
      if x in Online(prev, id) {
        var k :| 0 <= k < |Online(prev, id)| && Online(prev, id)[k] == x;
        assert x in all;
      }
    }
  }

  /** An id already online changes nothing; a new one is appended at the end. */
  lemma OnlineOnDuplicateFree(prev: seq<string>, id: string)
    requires NoDuplicates(prev)
    ensures id in prev ==> Online(prev, id) == prev
    ensures id !in prev ==> Online(prev, id) == prev + [id]
  {
    UniqueAppend(prev, id);
    UniqueOfNoDuplicates(prev);
  }

  /** Announcing the same user twice is announcing it once. */
  lemma OnlineIdempotent(prev: seq<string>, id: string)
    ensures Online(Online(prev, id), id) == Online(prev, id)
  {
    OnlineContents(prev, id);
    OnlineOnDuplicateFree(Online(prev, id), id);
  }

  /** `user:offline` removes `id` and keeps every other id, in its original order. */
  lemma OfflineContents(prev: seq<string>, id: string)
    ensures id !in Offline(prev, id)
    ensures forall x :: x in prev && x != id ==> x in Offline(prev, id)
    ensures IsSubsequence(Offline(prev, id), prev)
  {
    FilterIsSubsequence(prev, (x: string) => x != id);
  }

  /** A user who comes online and goes offline again leaves the list as it was. */
  lemma OfflineUndoesOnline(prev: seq<string>, id: string)
    requires NoDuplicates(prev) && id !in prev
    ensures Offline(Online(prev, id), id) == prev
  {
    var p := (x: string) => x != id;
    OnlineOnDuplicateFree(prev, id);
    FilterAppend(prev, [id], p);
    assert Filter([id], p) == [];
    FilterKeepsAll(prev, p);
  }

  /** Icon of `document:statusChanged`. */
  function DocumentIcon(newStatus: string): (icon: string)
    ensures icon == CheckMark <==> newStatus == "approved"
    ensures icon == CrossMark <==> newStatus != "approved"
  {
    if newStatus == "approved" then CheckMark else CrossMark
  }

  /** Icon of `payment:statusUpdate`. */
  function PaymentIcon(status: string): (icon: string)
    ensures icon == Card <==> status == "completed"
    ensures icon == Hourglass <==> status != "completed"
  {
    if status == "completed" then Card else Hourglass
  }

  /** Icon of `system:broadcast`. */
  function BroadcastIcon(kind: string): (icon: string)
    ensures icon == CrossMark <==> kind == "error"
    ensures icon == Megaphone <==> kind != "error"
  {
    if kind == "error" then CrossMark else Megaphone
  }

  /** A socket.io client connection, authenticated with `token`. */
  class Connection {
    const token: string
    var disconnected: bool

    constructor (token: string)
      ensures this.token == token && !disconnected
    {
      this.token := token;
      disconnected := false;
    }

    method Disconnect()
      modifies this
      ensures disconnected
    {
      disconnected := true;
    }
  }

  class SocketProvider {
    var socket: Connection?
    var connected: bool
    var onlineUsers: seq<string>
    /** The connection the last effect run will close when it is cleaned up. */
    var cleanup: Connection?
    const browser: Browser

    /** The presence list never names a user twice. */
    predicate Valid()
      reads this
    {
      NoDuplicates(onlineUsers)
    }

    constructor (browser: Browser)
      ensures Valid() && socket == null && cleanup == null && !connected && onlineUsers == []
      ensures this.browser == browser
    {
      socket := null;
      connected := false;
      onlineUsers := [];
      cleanup := null;
      this.browser := browser;
    }

    /**
     * The effect that re-runs whenever the signed-in user changes: the
     * previous run's connection is closed first; then, with a user and a
     * stored token, a fresh connection takes its place, and without a user
     * the current connection is closed and forgotten.
     */
    method OnUserChange(signedIn: bool) returns (created: Connection?)
      requires Valid()
      modifies this, socket, cleanup
      ensures Valid() && onlineUsers == old(onlineUsers)
      ensures old(cleanup) != null ==> old(cleanup).disconnected
      ensures signedIn && Truthy(browser.GetItem(AccessTokenKey)) ==>
                && created != null && fresh(created) && !created.disconnected
                && created.token == browser.storage[AccessTokenKey]
                && socket == created && cleanup == created && connected == old(connected)
      ensures signedIn && !Truthy(browser.GetItem(AccessTokenKey)) ==>
                created == null && socket == old(socket) && cleanup == null && connected == old(connected)
      ensures !signedIn && old(socket) != null ==>
                created == null && old(socket).disconnected && socket == null && !connected && cleanup == null
      ensures !signedIn && old(socket) == null ==>
                created == null && socket == null && connected == old(connected) && cleanup == null
    {
      if cleanup != null {
        cleanup.Disconnect();
        cleanup := null;
      }
      created := null;
      if signedIn {
        var token := browser.GetItem(AccessTokenKey);
        if !Truthy(token) {
          return;
        }
        created := new Connection(token.value);
        socket := created;
        cleanup := created;
      } else if socket != null {
        socket.Disconnect();
        socket := null;
        connected := false;
      }
    }

    /** `connect` from the server. */
    method OnConnect()
      modifies this
      ensures connected
      ensures socket == old(socket) && cleanup == old(cleanup) && onlineUsers == old(onlineUsers)
    {
      connected := true;
    }

    /** `disconnect` from the server. */
    method OnDisconnect()
      modifies this
      ensures !connected
      ensures socket == old(socket) && cleanup == old(cleanup) && onlineUsers == old(onlineUsers)
    {
      connected := false;
    }

    /** `user:online`. */
    method OnUserOnline(id: string)
      requires Valid()
      modifies this
      ensures Valid() && onlineUsers == Online(old(onlineUsers), id)
      ensures socket == old(socket) && cleanup == old(cleanup) && connected == old(connected)
    {
      onlineUsers := Unique(onlineUsers + [id]);
    }

    /** `user:offline`. */
    method OnUserOffline(id: string)
      requires Valid()
      modifies this
      ensures Valid() && onlineUsers == Offline(old(onlineUsers), id)
      ensures socket == old(socket) && cleanup == old(cleanup) && connected == old(connected)
    {
      FilterNoDuplicates(onlineUsers, (x: string) => x != id);
      onlineUsers := Filter(onlineUsers, (x: string) => x != id);
    }

    /** `notification:new`: the message with a bell. */
    method OnNotification(message: string)
      modifies browser
      ensures browser.events == old(browser.events) + [Notify(Plain, message, Some(Bell))]
      ensures browser.storage == old(browser.storage)
    {
      browser.Emit(Notify(Plain, message, Some(Bell)));
    }

    /** `system:broadcast`. */
    method OnBroadcast(kind: string, message: string)
      modifies browser
      ensures browser.events == old(browser.events) + [Notify(Plain, message, Some(BroadcastIcon(kind)))]
      ensures browser.storage == old(browser.storage)
    {
      browser.Emit(Notify(Plain, message, Some(if kind == "error" then CrossMark else Megaphone)));
    }

    /**
     * `auth:forceLogout`: both tokens are dropped, the stored user is left
     * in place, and the page is hard-navigated to `/login`.
     */
    method OnForceLogout(message: string)
      modifies browser
      ensures browser.storage == old(browser.storage) - {AccessTokenKey, RefreshTokenKey}
      ensures UserKey in old(browser.storage) ==> browser.storage[UserKey] == old(browser.storage)[UserKey]
      ensures browser.events == old(browser.events) + [Notify(Error, message, None), Redirect("/login")]
    {
      browser.Emit(Notify(Error, message, None));
      browser.RemoveItem(AccessTokenKey);
      browser.RemoveItem(RefreshTokenKey);
      browser.Emit(Redirect("/login"));
    }

    /** `application:statusUpdated`. */
    method OnApplicationStatus(newStatus: string)
      modifies browser
      ensures browser.events == old(browser.events) +
                [Notify(Plain, "Application status updated to: " + newStatus, Some(Clipboard))]
      ensures browser.storage == old(browser.storage)
    {
      browser.Emit(Notify(Plain, "Application status updated to: " + newStatus, Some(Clipboard)));
    }

    /** `document:statusChanged`. */
    method OnDocumentStatus(newStatus: string)
      modifies browser
      ensures browser.events == old(browser.events) + [Notify(Plain, "Document " + newStatus, Some(DocumentIcon(newStatus)))]
      ensures browser.storage == old(browser.storage)
    {
      browser.Emit(Notify(Plain, "Document " + newStatus, Some(if newStatus == "approved" then CheckMark else CrossMark)));
    }

    /** `payment:statusUpdate`. */
    method OnPaymentStatus(status: string)
      modifies browser
      ensures browser.events == old(browser.events) + [Notify(Plain, "Payment " + status, Some(PaymentIcon(status)))]
      ensures browser.storage == old(browser.storage)
    {
      browser.Emit(Notify(Plain, "Payment " + status, Some(if status == "completed" then Card else Hourglass)));
    }
  }
}
