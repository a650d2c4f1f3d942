/** The MongoDB collections the handlers read and write. The database
    driver is not part of this model: a collection is the sequence (or, for
    users, the email-keyed map) of its documents, and a handler's write is
    an assignment to it. */
module Store {
  import opened Common
  import opened Models

  /** No two stored users share a `user_id` (each is the hex of a freshly
      generated ObjectID). */
  predicate UniqueUserIds(users: map<string, User>) {
    forall e1, e2 :: e1 in users && e2 in users && users[e1].userId == users[e2].userId ==> e1 == e2
  }

  /** `FindOne({"user_id": id})` over the users collection. */
  function UserById(users: map<string, User>, id: string): (r: Option<User>)
    requires UniqueUserIds(users)
    ensures r.Some? ==> r.value in users.Values && r.value.userId == id
    ensures r.None? <==> forall e :: e in users ==> users[e].userId != id
  {
    if exists e :: e in users && users[e].userId == id then
      var e :| e in users && users[e].userId == id; Some(users[e])
    else None
  }

  /** An ObjectID that no stored user's `user_id` renders. */
  predicate FreshUserId(users: map<string, User>, id: ObjectId) {
    forall e :: e in users ==> users[e].userId != id.hex
  }

  /** The `users` collection, keyed by email: every lookup the handlers make
      by email finds at most one document. */
  class UserCollection {
    var byEmail: map<string, User>

    ghost predicate Valid()
      reads this
    {
      && (forall e :: e in byEmail ==> byEmail[e].email == e)
      && UniqueUserIds(byEmail)
    }

    constructor ()
      ensures Valid() && byEmail == map[]
    {
      byEmail := map[];
    }
  }

  /** The `conversations` collection, in insertion order. */
  class ConversationCollection {
    var docs: seq<Conversation>

    constructor ()
      ensures docs == []
    {
      docs := [];
    }
  }

  /** The `messages` collection, in insertion order. */
  class MessageCollection {
    var docs: seq<Message>

    constructor ()
      ensures docs == []
    {
      docs := [];
    }
  }
}
