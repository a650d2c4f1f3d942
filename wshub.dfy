/** The room hub of server/internal/ws/hub.go. Each `select` case of
    `Hub.Run` is one atomic operation on the hub's own room table; the
    three channels are the sequence of requests Run receives. */
module WsHub {
  import opened Models
  import opened WsClient

  class Hub {
    /** The hub's own table (hub.go:6), distinct from the package-level
        `WsClient.RoomTable`. */
    var rooms: map<string, Room>

    ghost predicate Valid()
      reads this
    {
      WellKeyed(rooms)
    }

    /** Every client the hub's table holds. */
    function Members(): (s: set<Client>)
      reads this
      ensures forall r, k :: r in rooms && k in rooms[r].clients ==> rooms[r].clients[k] in s
    {
      set r, k | r in rooms && k in rooms[r].clients :: rooms[r].clients[k]
    }

    /** The clients of one room (none when the room is not in the table). */
    function ClientsOf(roomId: string): set<Client>
      reads this
    {
      if roomId in rooms then rooms[roomId].clients.Values else {}
    }

    /** NewHub (hub.go:12-19). */
    constructor ()
      ensures Valid() && rooms == map[]
    {
      rooms := map[];
    }

    /** The Register case (hub.go:24-34). */
    method Register(client: Client)
      requires Valid()
      modifies this
      ensures Valid()
      // an unknown room, or a client id already present, leaves the table as it was
      ensures client.roomId !in old(rooms) ==> rooms == old(rooms)
      ensures client.roomId in old(rooms) && client.id in old(rooms)[client.roomId].clients ==> rooms == old(rooms)
      // otherwise exactly this client is added to its room, nothing else changes
      ensures client.roomId in old(rooms) && client.id !in old(rooms)[client.roomId].clients ==>
        rooms == old(rooms)[client.roomId := old(rooms)[client.roomId].(
          clients := old(rooms)[client.roomId].clients[client.id := client])]
      ensures rooms.Keys == old(rooms).Keys
    {
      if client.roomId !in rooms {
        return;
      }
      var room := rooms[client.roomId];
      if client.id in room.clients {
        return;
      }
      rooms := rooms[client.roomId := room.(clients := room.clients[client.id := client])];
    }

    /** The Unregister case (hub.go:35-45): the entry under the client's id
        is removed and the channel of the client that was SENT is closed. */
    method Unregister(client: Client)
      requires Valid()
      modifies this, client
      ensures Valid()
      ensures client.outbox == old(client.outbox) && client.connClosed == old(client.connClosed)
      // an unknown room or an absent id changes nothing
      ensures !(client.roomId in old(rooms) && client.id in old(rooms)[client.roomId].clients) ==>
        rooms == old(rooms) && client.closed == old(client.closed)
      // otherwise only that entry goes, and the channel is closed
      ensures client.roomId in old(rooms) && client.id in old(rooms)[client.roomId].clients ==>
        && rooms == old(rooms)[client.roomId := old(rooms)[client.roomId].(
             clients := old(rooms)[client.roomId].clients - {client.id})]
        && client.closed
      ensures rooms.Keys == old(rooms).Keys
    {
      if client.roomId !in rooms {
        return;
      }
      var room := rooms[client.roomId];
      if client.id !in room.clients {
        return;
      }
      rooms := rooms[client.roomId := room.(clients := room.clients - {client.id})];
      client.closed := true;
    }

    /** The Broadcast case (hub.go:46-54): the message is sent once on the
        channel of every client of its room. */
    method Broadcast(msg: Message)
      requires Valid()
      modifies ClientsOf(msg.roomId)
      ensures rooms == old(rooms)
      // an unknown room: no client receives anything
      ensures msg.roomId !in rooms ==> ClientsOf(msg.roomId) == {}
      // each client of the room gets the message appended exactly once
      ensures forall k :: msg.roomId in rooms && k in rooms[msg.roomId].clients ==>
        rooms[msg.roomId].clients[k].outbox == old(rooms[msg.roomId].clients[k].outbox) + [msg]
      // clients of every other room are untouched
      ensures forall r, k :: r in rooms && r != msg.roomId && k in rooms[r].clients ==>
        rooms[r].clients[k].outbox == old(rooms[r].clients[k].outbox)
      ensures forall c :: c in ClientsOf(msg.roomId) ==> c.closed == old(c.closed) && c.connClosed == old(c.connClosed)
    {
      if msg.roomId !in rooms {
        return;
      }
      var clients := rooms[msg.roomId].clients;
      var remaining := clients.Keys;
      while remaining != {}
        invariant remaining <= clients.Keys
        invariant forall k :: k in clients && k !in remaining ==> clients[k].outbox == old(clients[k].outbox) + [msg]
        invariant forall k :: k in remaining ==> clients[k].outbox == old(clients[k].outbox)
        invariant forall k :: k in clients ==> clients[k].closed == old(clients[k].closed) && clients[k].connClosed == old(clients[k].connClosed)
        decreases remaining
      {
        var k :| k in remaining;
        clients[k].outbox := clients[k].outbox + [msg];
        remaining := remaining - {k};
      }
    }

    /** Hub.Run (hub.go:21-57) over a finite prefix of the requests it
        receives, one `select` case per request. */
    method Run(requests: seq<HubRequest>)
      requires Valid()
      modifies this, Members(), RequestClients(requests)
      ensures Valid()
      // no request ever adds or removes a room
      ensures rooms.Keys == old(rooms).Keys
      // NewHub's table is empty and Register only adds to rooms already
      // present, so from a new hub no request changes the table or closes
      // any channel, and every broadcast reaches nobody
      ensures old(rooms) == map[] ==> (rooms == map[] &&
        forall j :: 0 <= j < |requests| && !requests[j].Broadcast? ==>
          requests[j].client.closed == old(requests[j].client.closed) && requests[j].client.outbox == old(requests[j].client.outbox))
    {
      var i := 0;
      while i < |requests|
        invariant 0 <= i <= |requests|
        invariant Valid()
        invariant rooms.Keys == old(rooms).Keys
        invariant Members() <= old(Members()) + RequestClients(requests)
        invariant old(rooms) == map[] ==> (rooms == map[] &&
          forall j :: 0 <= j < |requests| && !requests[j].Broadcast? ==>
          requests[j].client.closed == old(requests[j].client.closed) && requests[j].client.outbox == old(requests[j].client.outbox))
      {
        match requests[i] {
          case Register(c) =>
            assert c in RequestClients(requests);
            Register(c);
          case Unregister(c) =>
            assert c in RequestClients(requests);
            Unregister(c);
          case Broadcast(m) =>
            Broadcast(m);
        }
        i := i + 1;
      }
    }
  }

  /** The clients named in Register and Unregister requests. */
  function RequestClients(requests: seq<HubRequest>): set<Client> {
    set i | 0 <= i < |requests| && !requests[i].Broadcast? :: requests[i].client
  }
}
