/** The chat-room client of server/internal/ws/client.go. A `Client` is the
    server's end of one member's room socket: its identity fields never
    change, and its `Message` channel is modelled as a FIFO outbox of the
    messages sent to it and not yet taken by its writer, plus a closed
    flag. The socket itself is I/O: reads are an input sequence, writes
    are an output log. */
module WsClient {
  import opened Common
  import opened Models
  import Store

  class Client {
    const id: string
    const roomId: string
    const username: string
    /** Messages sent on the channel and not yet received by WriteMessage. */
    var outbox: seq<Message>
    /** The channel has been closed (by the hub's Unregister). */
    var closed: bool
    /** The websocket connection has been closed (by a deferred Conn.Close). */
    var connClosed: bool

    /** The `&Client{...}` literal of HandleJoinRoom: a fresh, open channel. */
    constructor (id: string, roomId: string, username: string)
      ensures this.id == id && this.roomId == roomId && this.username == username
      ensures outbox == [] && !closed && !connClosed
    {
      this.id := id;
      this.roomId := roomId;
      this.username := username;
      outbox := [];
      closed := false;
      connClosed := false;
    }

    /** WriteMessage (client.go:30-44): receive from the channel and write
        each message to the socket, in order, until the channel is closed
        or a write fails. `failAt` is the attempt whose write fails, if any;
        when the outbox runs dry on an open channel the writer is left
        waiting for the next message. */
    method WriteMessage(failAt: Option<nat>) returns (written: seq<Message>, end: WriteEnd)
      modifies this
      ensures written == Delivered(old(outbox), failAt)
      ensures end == WriteStop(old(outbox), old(closed), failAt)
      // FIFO: what was written is the front of the outbox; the outbox keeps the rest
      ensures written <= old(outbox)
      ensures outbox == old(outbox)[(if end == WriteFailed then |written| + 1 else |written|)..]
      ensures closed == old(closed) && connClosed == (old(connClosed) || end != AwaitingMessage)
    {
      written := [];
      while true
        invariant written <= old(outbox)
        invariant outbox == old(outbox)[|written|..]
        invariant failAt.Some? ==> |written| <= failAt.value
        invariant closed == old(closed) && connClosed == old(connClosed)
        decreases |outbox|
      {
        if outbox == [] {
          if closed {
            end := ChannelClosed;
            connClosed := true;
          } else {
            end := AwaitingMessage;
          }
          return;
        }
        var msg := outbox[0];
        outbox := outbox[1..];
        if failAt == Some(|written|) {
          end := WriteFailed;
          connClosed := true;
          return;
        }
        written := written + [msg];
      }
    }

    /** ReadMessage (client.go:45-82): read frames until a read fails, an
        insert fails or the input ends; each frame is stored as a message
        and then broadcast. On every exit the deferred function sends this
        client to Unregister once. The hub's channels are the returned log
        of requests, in the order they were sent. */
    method ReadMessage(messages: Store.MessageCollection, frames: seq<ReadResult>)
      returns (sent: seq<HubRequest>, end: ReadEnd)
      modifies messages, this
      ensures var t := ReadTrace(id, roomId, username, frames);
        && end == t.end
        && messages.docs == old(messages.docs) + t.stored
        && sent == t.sent + (if end == AwaitingFrame then [] else [Unregister(this)])
      ensures connClosed == (old(connClosed) || end != AwaitingFrame)
      ensures outbox == old(outbox) && closed == old(closed)
      // exactly one Unregister on every exit, and it is the last request sent
      ensures end != AwaitingFrame ==> |sent| >= 1 && sent[|sent| - 1] == Unregister(this)
      ensures forall i :: 0 <= i < |sent| - 1 ==> sent[i].Broadcast?
      ensures end == AwaitingFrame ==> forall i :: 0 <= i < |sent| ==> sent[i].Broadcast?
    {
      ghost var full := ReadTrace(id, roomId, username, frames);
      var stored: seq<Message> := [];
      var broadcasts: seq<HubRequest> := [];
      var i := 0;
      end := AwaitingFrame;
      while i < |frames|
        invariant 0 <= i <= |frames|
        invariant messages.docs == old(messages.docs) + stored
        invariant var t := ReadTrace(id, roomId, username, frames[i..]);
          full.stored == stored + t.stored && full.sent == broadcasts + t.sent && full.end == t.end
        invariant outbox == old(outbox) && closed == old(closed) && connClosed == old(connClosed)
        invariant end == AwaitingFrame
      {
        match frames[i]
        case ReadFailed =>
          assert ReadTrace(id, roomId, username, frames[i..]) == Trace([], [], ReadError);
          end := ReadError;
          break;
        case Frame(data, msgId, at, insertOk) =>
          var userMessage := Message(msgId, roomId, username, data, id, at);
          if !insertOk {
            assert ReadTrace(id, roomId, username, frames[i..]) == Trace([], [], InsertFailed);
            end := InsertFailed;
            break;
          }
          ReadTraceStep(id, roomId, username, frames, i);
          messages.docs := messages.docs + [userMessage];
          stored := stored + [userMessage];
          broadcasts := broadcasts + [Broadcast(userMessage)];
        i := i + 1;
      }
      assert end == AwaitingFrame ==> frames[i..] == [];
      assert full.stored == stored && full.sent == broadcasts && full.end == end;
      ReadTraceBroadcasts(id, roomId, username, frames);
      sent := broadcasts;
      if end != AwaitingFrame {
        sent := sent + [Unregister(this)];
        connClosed := true;
      }
    }
  }

  /** How WriteMessage's loop ended. */
  datatype WriteEnd = ChannelClosed | WriteFailed | AwaitingMessage

  /** The messages WriteMessage writes: the outbox up to the failing attempt. */
  function Delivered(outbox: seq<Message>, failAt: Option<nat>): (r: seq<Message>)
    ensures r <= outbox
    ensures failAt.Some? && failAt.value < |outbox| ==> |r| == failAt.value
    ensures !(failAt.Some? && failAt.value < |outbox|) ==> r == outbox
  {
    if failAt.Some? && failAt.value < |outbox| then outbox[..failAt.value] else outbox
  }

  function WriteStop(outbox: seq<Message>, closed: bool, failAt: Option<nat>): WriteEnd {
    if failAt.Some? && failAt.value < |outbox| then WriteFailed
    else if closed then ChannelClosed
    else AwaitingMessage
  }

  /** The outcome of one `Conn.ReadMessage`: a frame with the ObjectID and
      time its message will get and the outcome of its insert, or an error. */
  datatype ReadResult = Frame(data: string, msgId: ObjectId, at: Instant, insertOk: bool) | ReadFailed

  /** How ReadMessage's loop ended; AwaitingFrame means the input ran out
      while the loop was still reading. */
  datatype ReadEnd = ReadError | InsertFailed | AwaitingFrame

  /** A request to the hub, i.e. a value sent on one of its three channels. */
  datatype HubRequest = Register(client: Client) | Unregister(client: Client) | Broadcast(msg: Message)

  datatype Trace = Trace(stored: seq<Message>, sent: seq<HubRequest>, end: ReadEnd)

  /** What ReadMessage's loop does with a sequence of frames: the messages it
      stores, the broadcasts it sends, and why it stops. */
  function ReadTrace(clientId: string, roomId: string, username: string, frames: seq<ReadResult>): Trace {
    if frames == [] then Trace([], [], AwaitingFrame)
    else match frames[0]
      case ReadFailed => Trace([], [], ReadError)
      case Frame(data, msgId, at, insertOk) =>
        if !insertOk then Trace([], [], InsertFailed)
        else
          var m := Message(msgId, roomId, username, data, clientId, at);
          var rest := ReadTrace(clientId, roomId, username, frames[1..]);
          Trace([m] + rest.stored, [Broadcast(m)] + rest.sent, rest.end)
  }

  /** The read loop, characterised: the stored messages are built from the
      first frames, one each and in order, carrying the client's room, id and
      username and the frame's bytes verbatim; each is broadcast exactly
      when its insert succeeded; the loop stops at the first read error or
      failed insert. */
  lemma {:induction false} ReadTraceMeaning(clientId: string, roomId: string, username: string, frames: seq<ReadResult>)
    ensures var t := ReadTrace(clientId, roomId, username, frames);
      && |t.stored| <= |frames|
      && (forall i :: 0 <= i < |t.stored| ==>
           && frames[i].Frame? && frames[i].insertOk
           && t.stored[i] == Message(frames[i].msgId, roomId, username, frames[i].data, clientId, frames[i].at))
      && |t.sent| == |t.stored|
      && (forall i :: 0 <= i < |t.sent| ==> t.sent[i] == Broadcast(t.stored[i]))
      && (t.end == AwaitingFrame <==> |t.stored| == |frames|)
      && (t.end == ReadError ==> frames[|t.stored|].ReadFailed?)
      && (t.end == InsertFailed ==> frames[|t.stored|].Frame? && !frames[|t.stored|].insertOk)
  {
    if frames != [] && frames[0].Frame? && frames[0].insertOk {
      ReadTraceMeaning(clientId, roomId, username, frames[1..]);
      var rest := ReadTrace(clientId, roomId, username, frames[1..]);
      var t := ReadTrace(clientId, roomId, username, frames);
      forall i | 1 <= i < |t.stored|
        ensures t.stored[i] == rest.stored[i - 1] && frames[i] == frames[1..][i - 1]
      {
      }
    }
  }

  /** One stored frame: the trace from frame `i` starts with its message
      and continues with the trace from frame `i + 1`. */
  lemma ReadTraceStep(clientId: string, roomId: string, username: string, frames: seq<ReadResult>, i: int)
    requires 0 <= i < |frames| && frames[i].Frame? && frames[i].insertOk
    ensures var m := Message(frames[i].msgId, roomId, username, frames[i].data, clientId, frames[i].at);
      var rest := ReadTrace(clientId, roomId, username, frames[i + 1..]);
      ReadTrace(clientId, roomId, username, frames[i..]) == Trace([m] + rest.stored, [Broadcast(m)] + rest.sent, rest.end)
  {
  }

  /** The loop itself only ever sends broadcasts. */
  lemma ReadTraceBroadcasts(clientId: string, roomId: string, username: string, frames: seq<ReadResult>)
    ensures var t := ReadTrace(clientId, roomId, username, frames);
      forall i :: 0 <= i < |t.sent| ==> t.sent[i].Broadcast?
  {
  }

  /** A room and its members, keyed by client id. */
  datatype Room = Room(id: string, clients: map<string, Client>)

  /** A room table keeps each client under its own room and id. */
  ghost predicate WellKeyed(rooms: map<string, Room>) {
    forall r, k :: r in rooms && k in rooms[r].clients ==>
      rooms[r].clients[k].roomId == r && rooms[r].clients[k].id == k
  }

  /** The package-level `Rooms` table (client.go:22), written by
      HandleJoinRoom. It is a separate object from every Hub's own table. */
  class RoomTable {
    var rooms: map<string, Room>

    ghost predicate Valid()
      reads this
    {
      && WellKeyed(rooms)
      && forall r :: r in rooms ==> rooms[r].id == r
    }

    constructor ()
      ensures Valid() && rooms == map[]
    {
      rooms := map[];
    }
  }
}
