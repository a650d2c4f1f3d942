/** The conversation handlers of server/internal/conversation/conversation.go:
    creating a two-person conversation behind a guard chain, listing the
    messages of a room, and selecting the caller's conversations. The
    identity keys come from the context `Middleware.Authenticate` fills. */
module Conversations {
  import opened Common
  import opened Models
  import opened Http
  import Store

  /** The guard chain of AddUserToConversation (conversation.go:26-63):
      the rejection status, or None when the conversation may be created. */
  function AddGuard(keys: Keys, users: map<string, User>, secondUserId: string): (r: Option<int>)
    requires Store.UniqueUserIds(users)
    // a caller without the identity keys is unauthorized
    ensures !("user_id" in keys && "email" in keys && "username" in keys) ==> r == Some(UNAUTHORIZED)
    // creation is allowed exactly for two different, existing users of whom the second is verified
    ensures r.None? <==>
      && "user_id" in keys && "email" in keys && "username" in keys
      && keys["user_id"] != secondUserId
      && Store.UserById(users, keys["user_id"]).Some?
      && Store.UserById(users, secondUserId).Some?
      && Store.UserById(users, secondUserId).value.verified
    // a missing caller or target is refused with 404
    ensures && "user_id" in keys && "email" in keys && "username" in keys
            && keys["user_id"] != secondUserId
            && (Store.UserById(users, keys["user_id"]).None? || Store.UserById(users, secondUserId).None?) ==>
      r == Some(NOT_FOUND)
    // an unverified target is refused with 401
    ensures && "user_id" in keys && "email" in keys && "username" in keys
            && keys["user_id"] != secondUserId
            && Store.UserById(users, keys["user_id"]).Some? && Store.UserById(users, secondUserId).Some?
            && !Store.UserById(users, secondUserId).value.verified ==>
      r == Some(UNAUTHORIZED)
    ensures r.Some? ==> r.value in {UNAUTHORIZED, BAD_REQUEST, NOT_FOUND}
  {
    if !("user_id" in keys && "email" in keys && "username" in keys) then Some(UNAUTHORIZED)
    else if keys["user_id"] == secondUserId then Some(BAD_REQUEST)
    else if Store.UserById(users, keys["user_id"]).None? then Some(NOT_FOUND)
    else if Store.UserById(users, secondUserId).None? then Some(NOT_FOUND)
    else if !Store.UserById(users, secondUserId).value.verified then Some(UNAUTHORIZED)
    else None
  }

  /** Adding yourself is refused before any lookup: the answer is the same
      whatever the users collection holds. */
  lemma SelfAddRejectedBeforeLookup(keys: Keys, users1: map<string, User>, users2: map<string, User>)
    requires Store.UniqueUserIds(users1) && Store.UniqueUserIds(users2)
    requires "user_id" in keys && "email" in keys && "username" in keys
    ensures AddGuard(keys, users1, keys["user_id"]) == AddGuard(keys, users2, keys["user_id"]) == Some(BAD_REQUEST)
  {
  }

  /** The record AddUserToConversation inserts (conversation.go:64-84). */
  function NewConversation(keys: Keys, current: User, second: User, secondUserId: string,
                           newId: ObjectId, now: Instant): (c: Conversation)
    requires "user_id" in keys && "email" in keys && "username" in keys
    ensures c.id == newId && c.roomId == newId.hex
    ensures |c.participants| == 2
    // the caller first, described by the token's claims and its stored image
    ensures c.participants[0] == Participant(keys["user_id"], keys["username"], keys["email"], current.image)
    // the target second, described by its stored record
    ensures c.participants[1] == Participant(secondUserId, second.username, second.email, second.image)
    ensures c.lastMessage.None? && c.createdAt == now && c.updatedAt == now
  {
    Conversation(newId,
      [Participant(keys["user_id"], keys["username"], keys["email"], current.image),
       Participant(secondUserId, second.username, second.email, second.image)],
      None, now, now, newId.hex)
  }

  /** AddUserToConversation (conversation.go:21-93). `newId`, `now` and
      `insertOk` stand for `primitive.NewObjectID()`, `time.Now()` and the
      outcome of `InsertOne`. */
  method AddUserToConversation(conversations: Store.ConversationCollection, users: map<string, User>,
                               keys: Keys, secondUserId: string, newId: ObjectId, now: Instant, insertOk: bool)
    returns (status: int)
    requires Store.UniqueUserIds(users)
    modifies conversations
    // a refused guard inserts nothing and reports the guard's status
    ensures AddGuard(keys, users, secondUserId).Some? ==>
      status == AddGuard(keys, users, secondUserId).value && conversations.docs == old(conversations.docs)
    // otherwise exactly one record is appended; there is no duplicate check against the existing ones
    ensures AddGuard(keys, users, secondUserId).None? ==>
      if insertOk then
        && status == OK
        && conversations.docs == old(conversations.docs) + [NewConversation(keys,
             Store.UserById(users, keys["user_id"]).value, Store.UserById(users, secondUserId).value,
             secondUserId, newId, now)]
      else
        status == INTERNAL_SERVER_ERROR && conversations.docs == old(conversations.docs)
  {
    var guard := AddGuard(keys, users, secondUserId);
    if guard.Some? {
      return guard.value;
    }
    var currentUser := Store.UserById(users, keys["user_id"]).value;
    var secondUser := Store.UserById(users, secondUserId).value;
    var conversation := NewConversation(keys, currentUser, secondUser, secondUserId, newId, now);
    if !insertOk {
      return INTERNAL_SERVER_ERROR;
    }
    conversations.docs := conversations.docs + [conversation];
    status := OK;
  }

  /** A list response: the documents found, a failure status, or (for the
      Aggregate error of GetConversationByUserId, which writes a 500 and
      does not return) a response that has already failed. */
  datatype ListResponse<T> = Listed(data: seq<T>) | Failed(status: int) | AlreadyFailed

  predicate InRoom(roomId: string, m: Message) {
    m.roomId == roomId
  }

  /** GetRoomMessages (conversation.go:144-166): the `room_id` equality
      filter over the messages collection; `findOk` and `decodeOk` are the
      outcomes of `Find` and `cursor.All`. */
  function GetRoomMessages(messages: seq<Message>, roomId: string, findOk: bool, decodeOk: bool): (r: ListResponse<Message>)
    ensures r.Listed? <==> findOk && decodeOk
    ensures !r.Listed? ==> r == Failed(INTERNAL_SERVER_ERROR)
    // only messages of the room, and every stored message of the room
    ensures r.Listed? ==> (forall i :: 0 <= i < |r.data| ==> r.data[i] in messages && r.data[i].roomId == roomId)
    ensures r.Listed? ==> forall i :: 0 <= i < |messages| && messages[i].roomId == roomId ==> messages[i] in r.data
  {
    if !findOk || !decodeOk then Failed(INTERNAL_SERVER_ERROR)
    else Listed(Filter(messages, m => InRoom(roomId, m)))
  }

  /** The listing follows insertion order: storing one more message adds it
      at the end of its own room's list and leaves every other room's list
      as it was. */
  lemma {:induction false} RoomMessagesAfterInsert(messages: seq<Message>, m: Message, roomId: string)
    ensures GetRoomMessages(messages + [m], roomId, true, true).data ==
      GetRoomMessages(messages, roomId, true, true).data + (if m.roomId == roomId then [m] else [])
  {
    FilterConcat(messages, [m], x => InRoom(roomId, x));
  }

  /** The `$match` stage of GetConversationByUserId: some participant has
      the caller's id. */
  predicate HasParticipant(userId: string, c: Conversation) {
    exists i :: 0 <= i < |c.participants| && c.participants[i].id == userId
  }

  /** The caller's conversations, in stored order. */
  function CallerConversations(conversations: seq<Conversation>, userId: string): seq<Conversation> {
    Filter(conversations, c => HasParticipant(userId, c))
  }

  /** GetConversationByUserId (conversation.go:94-142), restricted to its
      `$match` stage; `aggregateOk` and `decodeOk` are the outcomes of
      `Aggregate` and `cursor.All`. */
  function GetConversationByUserId(conversations: seq<Conversation>, keys: Keys,
                                   aggregateOk: bool, decodeOk: bool): (r: ListResponse<Conversation>)
    ensures "user_id" !in keys ==> r == Failed(UNAUTHORIZED)
    ensures "user_id" in keys && !aggregateOk ==> r == AlreadyFailed
    ensures r.Listed? <==> "user_id" in keys && aggregateOk && decodeOk
    // exactly the caller's conversations
    ensures r.Listed? ==> forall i :: 0 <= i < |r.data| ==> r.data[i] in conversations && HasParticipant(keys["user_id"], r.data[i])
    ensures r.Listed? ==> forall i :: 0 <= i < |conversations| && HasParticipant(keys["user_id"], conversations[i]) ==> conversations[i] in r.data
  {
    if "user_id" !in keys then Failed(UNAUTHORIZED)
    else if !aggregateOk then AlreadyFailed
    else if !decodeOk then Failed(INTERNAL_SERVER_ERROR)
    else Listed(CallerConversations(conversations, keys["user_id"]))
  }

  /** A conversation AddUserToConversation creates is listed for both of
      its participants. */
  lemma CreatedConversationListedForBoth(conversations: seq<Conversation>, keys: Keys, current: User, second: User,
                                         secondUserId: string, newId: ObjectId, now: Instant, other: Keys)
    requires "user_id" in keys && "email" in keys && "username" in keys
    requires "user_id" in other && (other["user_id"] == keys["user_id"] || other["user_id"] == secondUserId)
    ensures NewConversation(keys, current, second, secondUserId, newId, now) in
      GetConversationByUserId(conversations + [NewConversation(keys, current, second, secondUserId, newId, now)], other, true, true).data
  {
    var c := NewConversation(keys, current, second, secondUserId, newId, now);
    var all := conversations + [c];
    assert all[|conversations|] == c;
    if other["user_id"] == keys["user_id"] {
      assert c.participants[0].id == other["user_id"];
    } else {
      assert c.participants[1].id == other["user_id"];
    }
    assert HasParticipant(other["user_id"], all[|conversations|]);
  }
}
