/** The chat list of modern-chat-app/app/home/page.tsx: turning the
    server's conversations into chat rows, the search filter, avatar
    initials and the navigation a click makes. Values the page reads from
    JSON may be missing; `Option` stands for that, and JavaScript's `||`
    treats both a missing value and "" as absent. Time formatting
    (`toLocaleTimeString`) is a parameter. */
module HomePage {
  import opened Common
  import opened Text
  import NotificationContext

  /** A participant as the conversation list returns it. */
  datatype ApiParticipant = ApiParticipant(id: string, username: Option<string>, email: Option<string>, image: Option<string>)

  datatype ApiMessage = ApiMessage(content: Option<string>, createdAt: string)

  datatype ApiConversation = ApiConversation(
    id: string, participants: seq<ApiParticipant>, lastMessage: Option<ApiMessage>, createdAt: string)

  /** The page's `Chat` row. */
  datatype Chat = Chat(
    id: string, name: string, email: string, lastMessage: string, timestamp: string,
    unreadCount: int, avatar: Option<string>, roomId: string)

  /** `v || fallback` on a string that may be undefined. */
  function OrElse(v: Option<string>, fallback: string): string {
    if v.Some? && v.value != "" then v.value else fallback
  }

  /** `p.id !== currentUser.id`; an undefined current id differs from every id. */
  predicate IsOther(currentUserId: Option<string>, p: ApiParticipant) {
    currentUserId != Some(p.id)
  }

  /** One conversation becomes one chat row (home/page.tsx:76-101). */
  function ToChat(conv: ApiConversation, currentUserId: Option<string>, format: string -> string): (r: Chat)
    ensures r.id == conv.id && r.roomId == conv.id && r.unreadCount == 0
    // no other participant: an unknown user with no email and no avatar
    ensures (forall i :: 0 <= i < |conv.participants| ==> !IsOther(currentUserId, conv.participants[i])) ==>
      r.name == "Unknown User" && r.email == "" && r.avatar == None
    // otherwise the FIRST participant that is not the current user names the chat
    ensures forall i :: 0 <= i < |conv.participants| && IsOther(currentUserId, conv.participants[i])
                        && (forall j :: 0 <= j < i ==> !IsOther(currentUserId, conv.participants[j])) ==>
      && r.name == OrElse(conv.participants[i].username, "Unknown User")
      && r.email == OrElse(conv.participants[i].email, "")
      && r.avatar == conv.participants[i].image
    ensures r.name != ""
    ensures r.lastMessage == (if conv.lastMessage.Some? then OrElse(conv.lastMessage.value.content, "No messages yet") else "No messages yet")
    ensures r.timestamp == format(if conv.lastMessage.Some? then conv.lastMessage.value.createdAt else conv.createdAt)
  {
    var other := Find(conv.participants, p => IsOther(currentUserId, p));
    assert forall i :: 0 <= i < |conv.participants| && IsOther(currentUserId, conv.participants[i])
                       && (forall j :: 0 <= j < i ==> !IsOther(currentUserId, conv.participants[j])) ==>
      other == Some(conv.participants[i]) by {
      forall i | 0 <= i < |conv.participants| && IsOther(currentUserId, conv.participants[i])
                 && (forall j :: 0 <= j < i ==> !IsOther(currentUserId, conv.participants[j]))
        ensures other == Some(conv.participants[i])
      {
        FindAt(conv.participants, p => IsOther(currentUserId, p), i);
      }
    }
    Chat(conv.id,
         if other.Some? then OrElse(other.value.username, "Unknown User") else "Unknown User",
         if other.Some? then OrElse(other.value.email, "") else "",
         if conv.lastMessage.Some? then OrElse(conv.lastMessage.value.content, "No messages yet") else "No messages yet",
         format(if conv.lastMessage.Some? then conv.lastMessage.value.createdAt else conv.createdAt),
         0,
         if other.Some? then other.value.image else None,
         conv.id)
  }

  /** `response.data.map(...)`: one row per conversation, in order. */
  function ToChats(convs: seq<ApiConversation>, currentUserId: Option<string>, format: string -> string): (r: seq<Chat>)
    ensures |r| == |convs|
    ensures forall i :: 0 <= i < |convs| ==> r[i] == ToChat(convs[i], currentUserId, format)
  {
    seq(|convs|, i requires 0 <= i < |convs| => ToChat(convs[i], currentUserId, format))
  }

  /** The fallback list shown when fetching fails (home/page.tsx:109-137). */
  const MOCK_CHATS: seq<Chat> := [
    Chat("1", "John Doe", "john@example.com", "Hey, how are you doing?", "2:30 PM", 2, None, "mock-room-1"),
    Chat("2", "Jane Smith", "jane@example.com", "Thanks for the help!", "1:15 PM", 0, None, "mock-room-2"),
    Chat("3", "Mike Johnson", "mike@example.com", "See you tomorrow", "12:45 PM", 1, None, "mock-room-3")
  ]

  /** How `apiClient.getConversations()` ended: it threw, or it returned a
      body whose `data` is an array (Some) or is missing or not an array (None). */
  datatype FetchResult = Threw | Responded(data: Option<seq<ApiConversation>>)

  /** The stored user as `JSON.parse` reads it: its `id` may be missing. */
  datatype StoredUser = StoredUser(id: Option<string>)

  datatype FetchOutcome = RedirectToLogin | SetChats(chats: seq<Chat>)

  /** fetchChats (home/page.tsx:52-140). `token` and `userStr` are the
      localStorage entries; `parseUser` is `JSON.parse` on the user entry
      (None when it throws, which the surrounding `catch` turns into the
      fallback list). */
  function FetchChats(token: Option<string>, userStr: Option<string>, parseUser: string -> Option<StoredUser>,
                      response: FetchResult, format: string -> string): (r: FetchOutcome)
    ensures r.RedirectToLogin? <==> OrElse(token, "") == "" || OrElse(userStr, "") == ""
    ensures r.SetChats? && (parseUser(userStr.value).None? || response.Threw?) ==> r.chats == MOCK_CHATS
    ensures r.SetChats? && parseUser(userStr.value).Some? && response.Responded? && response.data.None? ==> r.chats == []
    ensures r.SetChats? && parseUser(userStr.value).Some? && response.Responded? && response.data.Some? ==>
      r.chats == ToChats(response.data.value, parseUser(userStr.value).value.id, format)
  {
    if OrElse(token, "") == "" || OrElse(userStr, "") == "" then RedirectToLogin
    else match parseUser(userStr.value)
      case None => SetChats(MOCK_CHATS)
      case Some(user) =>
        match response
        case Threw => SetChats(MOCK_CHATS)
        case Responded(data) =>
          if data.None? then SetChats([]) else SetChats(ToChats(data.value, user.id, format))
  }

  /** The search test: the lower-cased query occurs in the lower-cased
      name or email. */
  predicate MatchesQuery(query: string, chat: Chat) {
    Includes(ToLower(chat.name), ToLower(query)) || Includes(ToLower(chat.email), ToLower(query))
  }

  /** filteredChats (home/page.tsx:142-146). */
  function FilteredChats(chats: seq<Chat>, query: string): (r: seq<Chat>)
    // only matching chats, and every matching chat
    ensures forall i :: 0 <= i < |r| ==> r[i] in chats && MatchesQuery(query, r[i])
    ensures forall i :: 0 <= i < |chats| && MatchesQuery(query, chats[i]) ==> chats[i] in r
  {
    Filter(chats, c => MatchesQuery(query, c))
  }

  /** The filter keeps the list's order: filtering a concatenation is the
      concatenation of the filtered parts. */
  lemma FilteredChatsOrder(a: seq<Chat>, b: seq<Chat>, query: string)
    ensures FilteredChats(a + b, query) == FilteredChats(a, query) + FilteredChats(b, query)
  {
    FilterConcat(a, b, c => MatchesQuery(query, c));
  }

  /** An empty query keeps every chat. */
  lemma EmptyQueryKeepsAll(chats: seq<Chat>)
    ensures FilteredChats(chats, "") == chats
  {
    forall i | 0 <= i < |chats| ensures MatchesQuery("", chats[i]) {
      IncludesEmpty(ToLower(chats[i].name));
    }
    FilterKeepsAll(chats, c => MatchesQuery("", c));
  }

  /** The match is case-insensitive on ASCII letters: upper-casing the
      query's letters changes nothing. */
  lemma QueryCaseInsensitive(chat: Chat, query: string)
    ensures MatchesQuery(ToUpper(query), chat) == MatchesQuery(query, chat)
  {
    assert ToLower(ToUpper(query)) == ToLower(query) by {
      forall i | 0 <= i < |query| ensures ToLower(ToUpper(query))[i] == ToLower(query)[i] {
        var c := query[i];
        if 'a' <= c <= 'z' {
          assert UpperChar(c) == (c as int - 32) as char;
        }
      }
    }
  }

  /** handleChatClick (home/page.tsx:173-182): the chat's name and email are
      stored under "room_" + roomId and the page moves to its room. */
  function ChatClick(chat: Chat): (r: NotificationContext.ChatNavigation)
    ensures r.storageKey == "room_" + chat.roomId && r.route == "/chat/" + chat.roomId
    ensures r.name == chat.name && r.email == chat.email
  {
    NotificationContext.ChatNavigation("room_" + chat.roomId, chat.name, chat.email, "/chat/" + chat.roomId)
  }

  /** Viewing a chat from a notification navigates as clicking that chat in
      the list does, when the stored entry is the chat's. */
  lemma ViewChatIsChatClick(stored: seq<NotificationContext.StoredChat>, userId: string, chat: Chat, i: int)
    requires 0 <= i < |stored| && stored[i].userId == Some(userId)
    requires forall j :: 0 <= j < i ==> stored[j].userId != Some(userId)
    requires stored[i].roomId == chat.roomId && stored[i].name == chat.name && stored[i].email == chat.email
    ensures NotificationContext.ViewChat(stored, userId) == Some(ChatClick(chat))
  {
    FindAt(stored, c => NotificationContext.ChatOf(userId, c), i);
  }
}
