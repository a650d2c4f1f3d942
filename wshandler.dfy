/** The websocket entry points of server/internal/ws/ws_handler.go: joining
    a chat room (which writes the package-level room table, not the hub's)
    and the app-wide presence channel `EnterApp`, whose `OnlineUsers`
    directory maps a user id to that user's presence connection.

    Sockets are I/O: a connection is an object with no state of its own,
    the writes made to connections are returned as a log of deliveries, the
    outcome of the upgrade is a parameter (null when it fails) and the
    blocking `ReadJSON` that separates arrival from departure splits
    `EnterApp` into the two steps `Enter` and `Leave`. */
module WsHandler {
  import opened Common
  import opened Models
  import opened Http
  import opened WsClient
  import WsHub
  import Store
  import Conversations

  predicate HasRoomId(roomId: string, c: Conversation) {
    c.roomId == roomId
  }

  /** getConversationByRoomId (ws_handler.go:120-129): the first stored
      conversation with that room id. */
  function GetConversationByRoomId(conversations: seq<Conversation>, roomId: string): (r: Option<Conversation>)
    ensures r.Some? ==> r.value in conversations && r.value.roomId == roomId
    ensures r.None? <==> forall i :: 0 <= i < |conversations| ==> conversations[i].roomId != roomId
  {
    Find(conversations, c => HasRoomId(roomId, c))
  }

  /** Hub.HandleJoinRoom (ws_handler.go:131-167) up to the point where it
      starts the client's writer and reader (`WsClient.Client.WriteMessage`
      and `WsClient.Client.ReadMessage`). */
  method HandleJoinRoom(hub: WsHub.Hub, table: RoomTable, conversations: seq<Conversation>,
                        roomId: string, userId: string, userName: string, upgradeOk: bool)
    returns (status: int, client: Client?)
    requires table.Valid()
    modifies table
    ensures table.Valid()
    // the hub's own table is a different map and is never written here
    ensures hub.rooms == old(hub.rooms)
    // an unknown room is refused before the table is touched
    ensures GetConversationByRoomId(conversations, roomId).None? ==>
      status == NOT_FOUND && client == null && table.rooms == old(table.rooms)
    ensures GetConversationByRoomId(conversations, roomId).Some? && !upgradeOk ==>
      status == INTERNAL_SERVER_ERROR && client == null && table.rooms == old(table.rooms)
    ensures GetConversationByRoomId(conversations, roomId).Some? && upgradeOk ==>
      && status == SWITCHING_PROTOCOLS && client != null && fresh(client)
      // the client's fields come from the request
      && client.id == userId && client.roomId == roomId && client.username == userName
      && client.outbox == [] && !client.closed && !client.connClosed
      // a new room holds only this client; in an existing room it overwrites any client with its id
      && table.rooms == old(table.rooms)[roomId :=
           if roomId in old(table.rooms) then old(table.rooms)[roomId].(clients := old(table.rooms)[roomId].clients[userId := client])
           else Room(roomId, map[userId := client])]
  {
    if GetConversationByRoomId(conversations, roomId).None? {
      return NOT_FOUND, null;
    }
    if !upgradeOk {
      return INTERNAL_SERVER_ERROR, null;
    }
    var c := new Client(userId, roomId, userName);
    if roomId !in table.rooms {
      table.rooms := table.rooms[roomId := Room(roomId, map[])];
      table.rooms := table.rooms[roomId := table.rooms[roomId].(clients := table.rooms[roomId].clients[c.id := c])];
    } else {
      table.rooms := table.rooms[roomId := table.rooms[roomId].(clients := table.rooms[roomId].clients[c.id := c])];
    }
    return SWITCHING_PROTOCOLS, c;
  }

  /** A presence connection; it carries no state the model needs. */
  class Conn {
    constructor ()
    {
    }
  }

  /** The `msg` struct EnterApp writes: whose presence changed, and how. */
  datatype Presence = Presence(userId: string, online: bool)

  /** One `WriteJSON` on a connection. */
  datatype Delivery = Delivery(to: Conn, notice: Presence)

  /** The package-level `OnlineUsers` directory. A key whose upgrade
      failed holds null. */
  class OnlineDirectory {
    var users: map<string, Conn?>

    constructor ()
      ensures users == map[]
    {
      users := map[];
    }
  }

  /** `OnlineUsers[id] != nil`: an absent key reads as nil too. */
  predicate IsOnline(dir: map<string, Conn?>, id: string) {
    id in dir && dir[id] != null
  }

  /** What the inner loop body does for one participant: another user who
      is online is told about `userId`; on arrival `self` is also told
      about that participant. */
  function PeerNotices(p: Participant, userId: string, online: bool, self: Conn, dir: map<string, Conn?>): seq<Delivery> {
    if p.id != userId && IsOnline(dir, p.id) then
      [Delivery(dir[p.id], Presence(userId, online))] + (if online then [Delivery(self, Presence(p.id, true))] else [])
    else []
  }

  function ParticipantNotices(ps: seq<Participant>, userId: string, online: bool, self: Conn, dir: map<string, Conn?>): seq<Delivery>
    decreases |ps|
  {
    if ps == [] then []
    else ParticipantNotices(ps[..|ps| - 1], userId, online, self, dir) + PeerNotices(ps[|ps| - 1], userId, online, self, dir)
  }

  /** The deliveries of the nested loops over conversations and their
      participants, in loop order. */
  function Notices(convs: seq<Conversation>, userId: string, online: bool, self: Conn, dir: map<string, Conn?>): seq<Delivery>
    decreases |convs|
  {
    if convs == [] then []
    else Notices(convs[..|convs| - 1], userId, online, self, dir)
         + ParticipantNotices(convs[|convs| - 1].participants, userId, online, self, dir)
  }

  /** The nested fan-out loops of EnterApp (ws_handler.go:76-93 with
      `online` true, 102-115 with `online` false): the outer loop over the
      conversations. */
  method SendNotices(convs: seq<Conversation>, userId: string, online: bool, self: Conn, dir: map<string, Conn?>)
    returns (sent: seq<Delivery>)
    ensures sent == Notices(convs, userId, online, self, dir)
  {
    sent := [];
    var i := 0;
    while i < |convs|
      invariant 0 <= i <= |convs|
      invariant sent == Notices(convs[..i], userId, online, self, dir)
    {
      var step := SendParticipantNotices(convs[i].participants, userId, online, self, dir);
      NoticesStep(convs, i, userId, online, self, dir);
      sent := sent + step;
      i := i + 1;
    }
    assert convs[..i] == convs;
  }

  /** The inner loop over one conversation's participants. */
  method SendParticipantNotices(ps: seq<Participant>, userId: string, online: bool, self: Conn, dir: map<string, Conn?>)
    returns (sent: seq<Delivery>)
    ensures sent == ParticipantNotices(ps, userId, online, self, dir)
  {
    sent := [];
    var j := 0;
    while j < |ps|
      invariant 0 <= j <= |ps|
      invariant sent == ParticipantNotices(ps[..j], userId, online, self, dir)
    {
      var p := ps[j];
      var step: seq<Delivery> := [];
      if p.id != userId {
        if p.id in dir && dir[p.id] != null {
          var other: Conn := dir[p.id];
          step := [Delivery(other, Presence(userId, online))];
          if online {
            step := step + [Delivery(self, Presence(p.id, true))];
          }
        }
      }
      assert step == PeerNotices(p, userId, online, self, dir);
      ParticipantNoticesStep(ps, j, userId, online, self, dir);
      sent := sent + step;
      j := j + 1;
    }
    assert ps[..j] == ps;
  }

  /** One more participant adds its own notices at the end. */
  lemma ParticipantNoticesStep(ps: seq<Participant>, j: int, userId: string, online: bool, self: Conn, dir: map<string, Conn?>)
    requires 0 <= j < |ps|
    ensures ParticipantNotices(ps[..j + 1], userId, online, self, dir)
         == ParticipantNotices(ps[..j], userId, online, self, dir) + PeerNotices(ps[j], userId, online, self, dir)
  {
    assert ps[..j + 1][..j] == ps[..j];
  }

  /** One more conversation adds its participants' notices at the end. */
  lemma NoticesStep(convs: seq<Conversation>, i: int, userId: string, online: bool, self: Conn, dir: map<string, Conn?>)
    requires 0 <= i < |convs|
    ensures Notices(convs[..i + 1], userId, online, self, dir)
         == Notices(convs[..i], userId, online, self, dir) + ParticipantNotices(convs[i].participants, userId, online, self, dir)
  {
    assert convs[..i + 1][..i] == convs[..i];
  }

  /** Why a delivery was made: participant `p` is another user, online in
      `dir`, and the delivery is the notice to them or (on arrival) the
      reply to `self`. */
  predicate Explains(p: Participant, d: Delivery, userId: string, online: bool, self: Conn, dir: map<string, Conn?>) {
    && p.id != userId && IsOnline(dir, p.id)
    && (d == Delivery(dir[p.id], Presence(userId, online)) || (online && d == Delivery(self, Presence(p.id, true))))
  }

  lemma {:induction false} ParticipantNoticesSound(ps: seq<Participant>, userId: string, online: bool, self: Conn,
                                                   dir: map<string, Conn?>, d: Delivery)
    requires d in ParticipantNotices(ps, userId, online, self, dir)
    ensures exists j :: 0 <= j < |ps| && Explains(ps[j], d, userId, online, self, dir)
    decreases |ps|
  {
    var last := |ps| - 1;
    if d in PeerNotices(ps[last], userId, online, self, dir) {
      assert Explains(ps[last], d, userId, online, self, dir);
    } else {
      ParticipantNoticesSound(ps[..last], userId, online, self, dir, d);
      var j :| 0 <= j < |ps[..last]| && Explains(ps[..last][j], d, userId, online, self, dir);
      assert ps[..last][j] == ps[j];
    }
  }

  /** Every delivery is explained by a participant of one of the
      conversations: the user itself and offline participants get nothing. */
  lemma {:induction false} NoticesSound(convs: seq<Conversation>, userId: string, online: bool, self: Conn,
                                        dir: map<string, Conn?>, d: Delivery)
    requires d in Notices(convs, userId, online, self, dir)
    ensures exists i, j :: 0 <= i < |convs| && 0 <= j < |convs[i].participants|
                           && Explains(convs[i].participants[j], d, userId, online, self, dir)
    decreases |convs|
  {
    var last := |convs| - 1;
    if d in ParticipantNotices(convs[last].participants, userId, online, self, dir) {
      ParticipantNoticesSound(convs[last].participants, userId, online, self, dir, d);
      var j :| 0 <= j < |convs[last].participants| && Explains(convs[last].participants[j], d, userId, online, self, dir);
      assert Explains(convs[last].participants[j], d, userId, online, self, dir);
    } else {
      NoticesSound(convs[..last], userId, online, self, dir, d);
      var i, j :| 0 <= i < |convs[..last]| && 0 <= j < |convs[..last][i].participants|
                  && Explains(convs[..last][i].participants[j], d, userId, online, self, dir);
      assert convs[..last][i] == convs[i];
    }
  }

  lemma {:induction false} ParticipantNoticesComplete(ps: seq<Participant>, userId: string, online: bool, self: Conn,
                                                      dir: map<string, Conn?>, j: int)
    requires 0 <= j < |ps| && ps[j].id != userId && IsOnline(dir, ps[j].id)
    ensures Delivery(dir[ps[j].id], Presence(userId, online)) in ParticipantNotices(ps, userId, online, self, dir)
    ensures online ==> Delivery(self, Presence(ps[j].id, true)) in ParticipantNotices(ps, userId, online, self, dir)
    decreases |ps|
  {
    var last := |ps| - 1;
    if j < last {
      ParticipantNoticesComplete(ps[..last], userId, online, self, dir, j);
      assert ps[..last][j] == ps[j];
    }
  }

  /** Every other participant who is online gets the notice, and on
      arrival the user is told about each of them. */
  lemma {:induction false} NoticesComplete(convs: seq<Conversation>, userId: string, online: bool, self: Conn,
                                           dir: map<string, Conn?>, i: int, j: int)
    requires 0 <= i < |convs| && 0 <= j < |convs[i].participants|
    requires convs[i].participants[j].id != userId && IsOnline(dir, convs[i].participants[j].id)
    ensures Delivery(dir[convs[i].participants[j].id], Presence(userId, online)) in Notices(convs, userId, online, self, dir)
    ensures online ==> Delivery(self, Presence(convs[i].participants[j].id, true)) in Notices(convs, userId, online, self, dir)
    decreases |convs|
  {
    var last := |convs| - 1;
    if i == last {
      ParticipantNoticesComplete(convs[i].participants, userId, online, self, dir, j);
    } else {
      NoticesComplete(convs[..last], userId, online, self, dir, i, j);
      assert convs[..last][i] == convs[i];
    }
  }

  /** The arrival half of EnterApp (ws_handler.go:31-93). `upgraded` is the
      connection the upgrade returned (null on failure); `findOk` and
      `decodeOk` are the outcomes of the conversation query. `joined` is
      what the departure half iterates over. */
  method Enter(online: OnlineDirectory, users: map<string, User>, conversations: seq<Conversation>,
               userId: string, upgraded: Conn?, findOk: bool, decodeOk: bool)
    returns (status: int, joined: seq<Conversation>, sent: seq<Delivery>)
    requires Store.UniqueUserIds(users)
    modifies online
    // an empty id is refused without touching the directory
    ensures userId == "" ==> status == BAD_REQUEST && online.users == old(online.users) && sent == []
    ensures userId != "" && Store.UserById(users, userId).None? ==>
      status == INTERNAL_SERVER_ERROR && online.users == old(online.users) && sent == []
    // a known user is entered under its id with whatever the upgrade returned, even null
    ensures userId != "" && Store.UserById(users, userId).Some? ==> online.users == old(online.users)[userId := upgraded]
    ensures userId != "" && Store.UserById(users, userId).Some? && (upgraded == null || !findOk || !decodeOk) ==>
      status == INTERNAL_SERVER_ERROR && sent == []
    ensures userId != "" && Store.UserById(users, userId).Some? && upgraded != null && findOk && decodeOk ==>
      && status == SWITCHING_PROTOCOLS
      && joined == Conversations.CallerConversations(conversations, userId)
      && sent == Notices(joined, userId, true, upgraded, online.users)
  {
    joined := [];
    sent := [];
    if userId == "" {
      return BAD_REQUEST, joined, sent;
    }
    if Store.UserById(users, userId).None? {
      return INTERNAL_SERVER_ERROR, joined, sent;
    }
    online.users := online.users[userId := upgraded];
    if upgraded == null || !findOk || !decodeOk {
      return INTERNAL_SERVER_ERROR, joined, sent;
    }
    joined := Conversations.CallerConversations(conversations, userId);
    sent := SendNotices(joined, userId, true, upgraded, online.users);
    status := SWITCHING_PROTOCOLS;
  }

  /** The departure half of EnterApp (ws_handler.go:95-117), after the
      user's `ReadJSON` returns. The loop runs over the conversations read
      on arrival against the directory as it is now; `reDecodeOk` is the
      outcome of the second `cursor.All`, whose failure returns before the
      user's key is removed. */
  method Leave(online: OnlineDirectory, userId: string, joined: seq<Conversation>, self: Conn, reDecodeOk: bool)
    returns (status: int, sent: seq<Delivery>)
    modifies online
    ensures !reDecodeOk ==> status == INTERNAL_SERVER_ERROR && sent == [] && online.users == old(online.users)
    // each other online participant is told the user went offline, then the key is removed
    ensures reDecodeOk ==>
      && status == SWITCHING_PROTOCOLS
      && sent == Notices(joined, userId, false, self, old(online.users))
      && online.users == old(online.users) - {userId}
  {
    if !reDecodeOk {
      return INTERNAL_SERVER_ERROR, [];
    }
    sent := SendNotices(joined, userId, false, self, online.users);
    online.users := online.users - {userId};
    status := SWITCHING_PROTOCOLS;
  }

  /** Departure notices only ever say "offline" and go to other users'
      connections, never back to the leaving user. */
  lemma LeaveNoticesAreOffline(convs: seq<Conversation>, userId: string, self: Conn, dir: map<string, Conn?>, d: Delivery)
    requires d in Notices(convs, userId, false, self, dir)
    ensures d.notice == Presence(userId, false)
    ensures exists i, j :: 0 <= i < |convs| && 0 <= j < |convs[i].participants|
                           && convs[i].participants[j].id != userId && IsOnline(dir, convs[i].participants[j].id)
                           && d.to == dir[convs[i].participants[j].id]
  {
    NoticesSound(convs, userId, false, self, dir, d);
  }
}
