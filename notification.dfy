/** The notification-socket manager of
    modern-chat-app/contexts/NotificationContext.tsx. The provider's refs
    and state are the fields of `NotificationProvider`; the browser's
    WebSocket is `Socket`, whose only state is its readyState. The socket
    callbacks are the event methods `OnOpen`, `OnMessage`, `OnError` and
    `OnClose`, a scheduled reconnect is an entry of `timers` until
    `TimerFire` runs it, and whether a token is in localStorage is passed in
    with each event that reads it. */
module NotificationContext {
  import opened Common

  /** WebSocket.readyState values. */
  const CONNECTING := 0
  const OPEN := 1
  const CLOSING := 2
  const CLOSED := 3

  /** Close codes that mean "closed on purpose". */
  const NORMAL_CLOSURE := 1000
  const GOING_AWAY := 1001

  const DEFAULT_WS_URL := "ws://localhost:8080"

  /** The presence endpoint for a user: `NEXT_PUBLIC_WS_URL` when set and
      non-empty, else the local default. */
  function SocketUrl(envUrl: string, userId: string): string {
    (if envUrl != "" then envUrl else DEFAULT_WS_URL) + "/ws/join_app?user_id=" + userId
  }

  /** What `JSON.parse(event.data)` yields: a parse error, `null` (on which
      reading `.type` throws), or a value with the given `type` field. */
  datatype Parsed = Unparseable | JsonNull | JsonValue(typeField: Option<string>, raw: string)

  class Socket {
    const url: string
    /** The `userId` the socket's handlers close over. */
    const owner: string
    var readyState: int
    /** The code passed to `close`, if it was called while the socket was
        connecting or open. */
    var requestedClose: Option<int>

    constructor (url: string, owner: string)
      ensures this.url == url && this.owner == owner && readyState == CONNECTING && requestedClose == None
    {
      this.url := url;
      this.owner := owner;
      readyState := CONNECTING;
      requestedClose := None;
    }

    /** WebSocket.close: starts the closing handshake unless one is already
        under way. */
    method Close(code: int)
      modifies this
      ensures old(readyState) == CONNECTING || old(readyState) == OPEN ==> readyState == CLOSING && requestedClose == Some(code)
      ensures !(old(readyState) == CONNECTING || old(readyState) == OPEN) ==> unchanged(this)
    {
      if readyState == CONNECTING || readyState == OPEN {
        readyState := CLOSING;
        requestedClose := Some(code);
      }
    }
  }

  /** The reconnect test of `onclose` (NotificationContext.tsx:82-84). */
  predicate ShouldReconnect(code: int, tokenPresent: bool, owner: string, boundUser: Option<string>) {
    code != NORMAL_CLOSURE && code != GOING_AWAY && tokenPresent && owner != "" && boundUser == Some(owner)
  }

  /** A deliberate close never schedules a reconnect, and neither does the
      close of a socket whose user is no longer the bound one. */
  lemma ReconnectOnlyForCurrentUser(code: int, tokenPresent: bool, owner: string, boundUser: Option<string>)
    ensures code == NORMAL_CLOSURE || code == GOING_AWAY ==> !ShouldReconnect(code, tokenPresent, owner, boundUser)
    ensures ShouldReconnect(code, tokenPresent, owner, boundUser) ==> tokenPresent && boundUser == Some(owner)
  {
  }

  class NotificationProvider {
    /** `process.env.NEXT_PUBLIC_WS_URL` ("" when unset). */
    const envUrl: string
    /** `currentUserIdRef.current`. */
    var boundUser: Option<string>
    /** `onlineRef.current`. */
    var socket: Socket?
    var isConnected: bool
    /** The `notification` state (`JsonValue` entries only). */
    var notification: Option<Parsed>
    /** The details of the `onlineStatusUpdate` events dispatched, in order. */
    var dispatched: seq<Parsed>
    /** Pending reconnect timers, by the user id each closes over. */
    var timers: seq<string>
    /** Every socket this provider has created. */
    ghost var sockets: set<Socket>

    /** At most one socket is live: every socket other than the current one
        is closing or closed. */
    ghost predicate Valid()
      reads this, sockets
    {
      && (socket != null ==> socket in sockets)
      && (forall s :: s in sockets ==> CONNECTING <= s.readyState <= CLOSED)
      && (forall s :: s in sockets && s != socket ==> s.readyState == CLOSING || s.readyState == CLOSED)
    }

    constructor (envUrl: string)
      ensures Valid() && this.envUrl == envUrl
      ensures boundUser == None && socket == null && !isConnected && notification == None
      ensures dispatched == [] && timers == [] && sockets == {}
    {
      this.envUrl := envUrl;
      boundUser := None;
      socket := null;
      isConnected := false;
      notification := None;
      dispatched := [];
      timers := [];
      sockets := {};
    }

    /** setupNotificationSocket (NotificationContext.tsx:30-99).
        `constructOk` says whether `new WebSocket(url)` returned rather
        than threw. */
    method Setup(userId: string, constructOk: bool)
      requires Valid()
      modifies this, socket
      ensures Valid()
      ensures dispatched == old(dispatched) && timers == old(timers) && notification == old(notification)
      // an empty id is ignored
      ensures userId == "" ==> unchanged(this) && (old(socket) != null ==> unchanged(old(socket)))
      // so is a second setup for the bound user while its socket is open
      ensures old(boundUser) == Some(userId) && old(isConnected) && old(socket) != null && old(socket.readyState) == OPEN ==>
        unchanged(this) && unchanged(old(socket))
      // otherwise the user is bound, the previous socket is closed with 1000 unless
      // already closed, and a new socket is opened on the user's URL
      ensures userId != "" && !(old(boundUser) == Some(userId) && old(isConnected) && old(socket) != null && old(socket.readyState) == OPEN) ==>
        && boundUser == Some(userId)
        && (old(socket) != null && old(socket.readyState) != CLOSED ==>
              old(socket).readyState == (if old(socket.readyState) == OPEN || old(socket.readyState) == CONNECTING then CLOSING else old(socket.readyState))
              && (old(socket.readyState) == OPEN || old(socket.readyState) == CONNECTING ==> old(socket).requestedClose == Some(NORMAL_CLOSURE)))
        && (old(socket) != null && old(socket.readyState) == CLOSED ==> unchanged(old(socket)))
        && (constructOk ==>
              && socket != null && fresh(socket) && socket.url == SocketUrl(envUrl, userId) && socket.owner == userId
              && socket.readyState == CONNECTING && isConnected == old(isConnected))
        && (!constructOk ==> socket == old(socket) && !isConnected)
    {
      if userId == "" {
        return;
      }
      if boundUser == Some(userId) && isConnected && socket != null && socket.readyState == OPEN {
        return;
      }
      Rebind(userId, constructOk);
    }

    /** The part of setupNotificationSocket past its two early returns
        (NotificationContext.tsx:39-49). */
    method Rebind(userId: string, constructOk: bool)
      requires Valid()
      modifies this, socket
      ensures Valid()
      ensures dispatched == old(dispatched) && timers == old(timers) && notification == old(notification)
      ensures boundUser == Some(userId)
      ensures old(socket) != null && old(socket.readyState) != CLOSED ==>
        old(socket).readyState == (if old(socket.readyState) == OPEN || old(socket.readyState) == CONNECTING then CLOSING else old(socket.readyState))
        && (old(socket.readyState) == OPEN || old(socket.readyState) == CONNECTING ==> old(socket).requestedClose == Some(NORMAL_CLOSURE))
      ensures old(socket) != null && old(socket.readyState) == CLOSED ==> unchanged(old(socket))
      ensures constructOk ==>
        && socket != null && fresh(socket) && socket.url == SocketUrl(envUrl, userId) && socket.owner == userId
        && socket.readyState == CONNECTING && isConnected == old(isConnected)
      ensures !constructOk ==> socket == old(socket) && !isConnected
    {
      boundUser := Some(userId);
      if socket != null && socket.readyState != CLOSED {
        socket.Close(NORMAL_CLOSURE);
      }
      var url := SocketUrl(envUrl, userId);
      if !constructOk {
        isConnected := false;
        return;
      }
      var s := new Socket(url, userId);
      socket := s;
      sockets := sockets + {s};
    }

    /** `onopen`: the socket is open and the provider reports connected. */
    method OnOpen(s: Socket)
      requires Valid() && s in sockets && s.readyState == CONNECTING
      modifies this, s
      ensures Valid()
      ensures s == socket
      ensures s.readyState == OPEN && isConnected
      ensures boundUser == old(boundUser) && socket == old(socket) && timers == old(timers)
      ensures dispatched == old(dispatched) && notification == old(notification)
    {
      s.readyState := OPEN;
      isConnected := true;
    }

    /** `onmessage` (NotificationContext.tsx:56-70): every parsed frame is
        dispatched; only a notification becomes the notification state. */
    method OnMessage(frame: Parsed)
      modifies this
      ensures frame.JsonValue? ==> dispatched == old(dispatched) + [frame]
      ensures !frame.JsonValue? ==> dispatched == old(dispatched)
      ensures notification == (if frame.JsonValue? && frame.typeField == Some("notification") then Some(frame) else old(notification))
      ensures boundUser == old(boundUser) && socket == old(socket) && isConnected == old(isConnected)
      ensures timers == old(timers) && sockets == old(sockets)
    {
      match frame
      case Unparseable =>
      case JsonNull =>
      case JsonValue(typeField, _) =>
        if typeField == Some("notification") {
          notification := Some(frame);
        }
        dispatched := dispatched + [frame];
    }

    /** `onerror`. */
    method OnError()
      modifies this
      ensures !isConnected
      ensures boundUser == old(boundUser) && socket == old(socket) && timers == old(timers)
      ensures dispatched == old(dispatched) && notification == old(notification) && sockets == old(sockets)
    {
      isConnected := false;
    }

    /** `onclose` (NotificationContext.tsx:77-94) for socket `s`, which need
        not be the current one. */
    method OnClose(s: Socket, code: int, tokenPresent: bool)
      requires Valid() && s in sockets
      modifies this, s
      ensures Valid()
      ensures s.readyState == CLOSED && !isConnected
      ensures timers == old(timers) + (if ShouldReconnect(code, tokenPresent, s.owner, old(boundUser)) then [s.owner] else [])
      ensures boundUser == old(boundUser) && socket == old(socket)
      ensures dispatched == old(dispatched) && notification == old(notification)
    {
      s.readyState := CLOSED;
      isConnected := false;
      if code != NORMAL_CLOSURE && code != GOING_AWAY {
        if tokenPresent && s.owner != "" && boundUser == Some(s.owner) {
          timers := timers + [s.owner];
        }
      }
    }

    /** The deferred reconnect (NotificationContext.tsx:86-90): it re-checks
        the token and the bound user before calling setup. */
    method TimerFire(k: int, tokenPresent: bool, constructOk: bool)
      requires Valid() && 0 <= k < |timers|
      modifies this, socket
      ensures Valid()
      ensures timers == old(timers[..k] + timers[k + 1..])
      ensures dispatched == old(dispatched) && notification == old(notification)
      ensures boundUser == old(boundUser)
      // refused: no token, or another user is bound now (an empty id is ignored by setup)
      ensures !(tokenPresent && old(boundUser) == Some(old(timers[k]))) || old(timers[k]) == "" ==>
        && socket == old(socket) && isConnected == old(isConnected)
        && (old(socket) != null ==> unchanged(old(socket)))
      // accepted while the bound user's socket is still open: setup's duplicate guard
      ensures (&& tokenPresent && old(boundUser) == Some(old(timers[k])) && old(timers[k]) != ""
               && old(isConnected) && old(socket) != null && old(socket.readyState) == OPEN) ==>
        socket == old(socket) && isConnected && unchanged(old(socket))
      // accepted otherwise: the old socket is closed with 1000 unless already closed,
      // and a fresh socket is opened on the user's URL
      ensures (&& tokenPresent && old(boundUser) == Some(old(timers[k])) && old(timers[k]) != ""
               && !(old(isConnected) && old(socket) != null && old(socket.readyState) == OPEN)) ==>
        && (old(socket) != null && (old(socket.readyState) == OPEN || old(socket.readyState) == CONNECTING) ==>
              old(socket).readyState == CLOSING && old(socket).requestedClose == Some(NORMAL_CLOSURE))
        && (old(socket) != null && old(socket.readyState) != OPEN && old(socket.readyState) != CONNECTING ==>
              old(socket).readyState == old(socket.readyState))
        && (constructOk ==>
              && socket != null && fresh(socket) && socket.url == SocketUrl(envUrl, old(timers[k]))
              && socket.owner == old(timers[k]) && socket.readyState == CONNECTING
              && isConnected == old(isConnected))
        && (!constructOk ==> socket == old(socket) && !isConnected)
    {
      var userId := timers[k];
      timers := timers[..k] + timers[k + 1..];
      if tokenPresent && boundUser == Some(userId) {
        Setup(userId, constructOk);
      }
    }

    /** closeNotificationSocket (NotificationContext.tsx:101-108): only an
        open socket is closed and forgotten. */
    method CloseNotificationSocket()
      requires Valid()
      modifies this, socket
      ensures Valid()
      ensures !isConnected && boundUser == None
      ensures old(socket) != null && old(socket.readyState) == OPEN ==>
        socket == null && old(socket).readyState == CLOSING && old(socket).requestedClose == Some(NORMAL_CLOSURE)
      ensures !(old(socket) != null && old(socket.readyState) == OPEN) ==>
        socket == old(socket) && (old(socket) != null ==> unchanged(old(socket)))
      ensures timers == old(timers) && dispatched == old(dispatched) && notification == old(notification)
    {
      isConnected := false;
      boundUser := None;
      if socket != null && socket.readyState == OPEN {
        socket.Close(NORMAL_CLOSURE);
        socket := null;
      }
    }

    /** handleCloseNotification. */
    method CloseNotification()
      modifies this
      ensures notification == None
      ensures boundUser == old(boundUser) && socket == old(socket) && isConnected == old(isConnected)
      ensures timers == old(timers) && dispatched == old(dispatched) && sockets == old(sockets)
    {
      notification := None;
    }
  }

  /** An entry of the `chats` list in localStorage, as handleViewChat reads
      it (`userId` is absent from the entries the home page builds). */
  datatype StoredChat = StoredChat(userId: Option<string>, roomId: string, name: string, email: string)

  /** The room entry written to sessionStorage and the route pushed. */
  datatype ChatNavigation = ChatNavigation(storageKey: string, name: string, email: string, route: string)

  predicate ChatOf(userId: string, c: StoredChat) {
    c.userId == Some(userId)
  }

  /** handleViewChat (NotificationContext.tsx:110-121); `stored` is the
      parsed `chats` entry, the empty list when the key is missing. */
  function ViewChat(stored: seq<StoredChat>, userId: string): (r: Option<ChatNavigation>)
    // navigates exactly when some stored chat belongs to that user
    ensures r.Some? <==> exists i :: 0 <= i < |stored| && stored[i].userId == Some(userId)
    // and then to that chat's room, with its name and email stored under the room's key
    // the first such chat, as `find` returns
    ensures r.Some? ==> exists i :: (0 <= i < |stored| && stored[i].userId == Some(userId) &&
      (forall j :: 0 <= j < i ==> stored[j].userId != Some(userId)) &&
      r.value == ChatNavigation("room_" + stored[i].roomId, stored[i].name, stored[i].email, "/chat/" + stored[i].roomId))
  {
    match Find(stored, c => ChatOf(userId, c))
    case None => None
    case Some(c) =>
      FindFirst(stored, c => ChatOf(userId, c));
      Some(ChatNavigation("room_" + c.roomId, c.name, c.email, "/chat/" + c.roomId))
  }
}
