# Chat-App-Go: a Dafny model of the chat server and its web client

This project models the core of a two-part chat application.

The Go server (`server/`) does four things:

- It registers users with an emailed one-time code, logs them in, and links Google accounts.
- It creates two-person conversations and lists them.
- It authenticates requests with a bearer token.
- It relays messages over WebSockets. A per-room hub fans out messages, a presence channel (`/ws/join_app`) tells contacts who is online, and room sockets store every message before broadcasting it.

The Next.js client (`modern-chat-app/`) has these parts:

- The notification socket provider.
- The chat list on the home page.
- The add-contact dialog.
- The message toast.
- The one-time-code page.
- The profile-image settings page.
- The landing page for Google sign-in.

## How the model is built

Each source file keeps its own form.

**State.** State that the source updates in place is a Dafny `class`. The classes are:

- the three MongoDB collections (`Store`);
- the hub and the package-level room table;
- a room client with its outgoing channel;
- the online directory;
- the notification provider and its browser sockets;
- each page's or dialog's React state.

Their methods say in `ensures` what the whole new state is.

**Pure logic.** Guards, filters, record builders and string functions are `function`s with named results. Lemmas state the properties that relate them.

**Loops.** Loops in the source become `while` loops with invariants:

- the hub's broadcast over a room;
- the client's read and write loops;
- the nested presence loops of `EnterApp`.

Each of these is proved against a specification function: `Delivered`, `ReadTrace` or `Notices`.

**Everything outside the program** is a parameter. This covers:

- Database and network results, which are success flags or result values.
- The clock (`now`), generated ids and codes.
- Hashing, token signing and token validation, which are functions or results passed in.
- `JSON.parse`, `decodeURIComponent` and the time formatter.
- Socket reads, which are a sequence of read outcomes.

**Asynchronous handlers.** Each client handler that awaits a request is split at its `await`. The first half returns the request it would send. The second half takes the outcome.

**Modules.** One module per core file: `Users`, `Middleware`, `Conversations`, `WsClient`, `WsHub`, `WsHandler`, `NotificationContext`, `HomePage`, `AddUserModal`, `MessageNotification`, `VerifyOtpPage`, `SettingsPage` and `GoogleCallback`. The shared modules are:

- `Common`: `Option`, and the `Filter` and `Find` list operations.
- `Text`: the JavaScript string operations used, with ASCII case mapping.
- `Http`: the status codes.
- `Models`: the records of `server/models/models.go`.
- `Store`: the collections.

**A property the hub's code implies.** Nothing in the server ever adds a room to a `Hub`'s own table. `HandleJoinRoom` writes the package-level `Rooms`, which is a different map. As a result, a hub started by `NewHub` never changes:

- every Register finds no room;
- every Unregister finds no client;
- every Broadcast reaches nobody.

`WsHub.Hub.Run` proves this for any sequence of requests, and `WsHandler.HandleJoinRoom` proves it leaves the hub's table untouched.

## Model

| member | source | states |
|---|---|---|
| Users.MarkVerified | server/internal/users/user.go:290-293 | the record written after a good code is verified, with the code cleared and the expiry zeroed; every other field is as before |
| Users.OtpSingleUse | server/internal/users/user.go:286-293 | once a non-empty code has been accepted and the account marked verified, that code is never accepted again, at any time |
| Users.OtpExpiryBoundary | server/internal/users/user.go:286-289 | the expiry instant itself is accepted; one second later is not |
| Users.RegisterUser | server/internal/users/user.go:45-125 | the outcomes: a malformed body gives 400 and leaves the store unchanged; a verified email gives 409 and leaves it unchanged; an unverified email is refreshed in place (new code, expiry now+600 s, name and hash) with no new record, still unverified; a new email gets exactly one unverified record whose user_id is its id's hex; hash or write failure gives 500 with no change; mail failure gives 500 after the write |
| Users.LoginUser | server/internal/users/user.go:126-165 | a token is issued iff the body binds, the email is known, the account is verified, the password matches and signing succeeds; the 401 reasons are checked in the order unknown, then unverified, then wrong password; a malformed body is 400 and a signing failure 500; the response carries the stored record's fields |
| Users.GetUserByEmail | server/internal/users/user.go:166-180 | found iff the email is stored, and then returns the stored id, name, email and image |
| Users.SocialLoginCallback | server/internal/users/user.go:190-266 | an account already linked to Google is left as it is; an unlinked account gets only google_login set (verified untouched); an unknown email is inserted verified and linked; a redirect is given exactly when authentication completed, a needed google_login update succeeded and the token was signed, and it carries the signed token and that account's fields; every other answer is 500 |
| Users.SocialAccount | server/internal/users/user.go:204-250 | the account the token is signed for: the stored record of a known email, else the new record with a fresh id, its hex as user_id, the Google nickname, email and avatar, verified and linked, with no password or code |
| Users.VerifyOtp | server/internal/users/user.go:268-300 | 400 for an empty email or code, 404 for an unknown email, 401 unless the code matches and has not expired, otherwise the record is marked verified (500 if the write fails); after a 200 no non-empty code is accepted for that account |
| Middleware.Authenticate | server/middleware/middleware.go:10-30 | an empty header gives 401 and the validator is never called; otherwise the validator sees the header minus its first seven bytes; a failed validation gives 401 and sets no key; it proceeds iff validation succeeds, and then sets user_id, email and username from the claims and keeps every other key |
| Middleware.PrefixNotChecked | server/middleware/middleware.go:18-19 | two headers that differ only in their first seven bytes are treated the same, so the "Bearer " text itself is never checked |
| Store.UserById | server/internal/conversation/conversation.go:47-59 | the FindOne by user_id: a stored user with that id, or None exactly when no stored user has it |
| Conversations.AddGuard | server/internal/conversation/conversation.go:26-63 | missing identity keys give 401; creation is allowed exactly when the caller and the target are different users, both exist, and the target is verified; a self-add is 400, a missing caller or target 404 and an unverified target 401 |
| Conversations.SelfAddRejectedBeforeLookup | server/internal/conversation/conversation.go:41-45 | adding yourself gives 400 whatever the user store holds, so it is decided before any lookup |
| Conversations.NewConversation | server/internal/conversation/conversation.go:64-84 | the new record's room id is its id's hex; it has exactly two participants, the caller first (from the token's claims and its stored image) and the target second (from its stored record); no last message; created and updated now |
| Conversations.AddUserToConversation | server/internal/conversation/conversation.go:21-93 | a refused guard inserts nothing and returns the guard's status; otherwise exactly one record is appended (200), or nothing on a failed insert (500); there is no duplicate check |
| Conversations.GetRoomMessages | server/internal/conversation/conversation.go:144-166 | lists only messages of that room and every stored message of that room; 500 when finding or decoding fails |
| Conversations.RoomMessagesAfterInsert | server/internal/conversation/conversation.go:148-150 | storing a message adds it to the end of its own room's list and to no other room's list |
| Conversations.GetConversationByUserId | server/internal/conversation/conversation.go:94-142 | 401 without a caller id; response already failed when the aggregate fails; otherwise exactly the conversations having a participant with the caller's id |
| Conversations.CreatedConversationListedForBoth | server/internal/conversation/conversation.go:108 | a conversation just created is in the list of the caller and in the list of the target |
| WsClient.Client.WriteMessage | server/internal/ws/client.go:30-44 | writes the front of the outbox in FIFO order until the channel is closed and drained, or a write fails; the outbox keeps exactly what was not taken; the connection is closed on every exit |
| WsClient.Delivered | server/internal/ws/client.go:34-43 | what is written is a prefix of the outbox: all of it, or the messages before the first failed write |
| WsClient.Client.ReadMessage | server/internal/ws/client.go:45-82 | stores and broadcasts the messages of the frames read, in order; a read error or a failed insert ends the loop; every exit sends the client to Unregister exactly once, as the last request |
| WsClient.ReadTraceMeaning | server/internal/ws/client.go:52-80 | each stored message has the client's room id, id and username and the frame's bytes verbatim as content; a message is broadcast only after its insert succeeds; the loop stops before the last frame only at a failed read or a failed insert |
| WsClient.RoomTable.constructor | server/internal/ws/client.go:22 | the package-level room table starts empty |
| WsHub.Hub.constructor | server/internal/ws/hub.go:12-19 | NewHub starts with an empty room table |
| WsHub.Hub.Register | server/internal/ws/hub.go:24-34 | no change when the client's room is absent or its id is already present; otherwise exactly that client is added to its room and nothing else changes |
| WsHub.Hub.Unregister | server/internal/ws/hub.go:35-45 | no change when the room or the id is absent; otherwise only that entry is removed and the client's channel is closed |
| WsHub.Hub.Broadcast | server/internal/ws/hub.go:46-54 | an unknown room reaches nobody; every client of the room gets the message appended exactly once; clients of other rooms are untouched |
| WsHub.Hub.Run | server/internal/ws/hub.go:21-57 | no request adds or removes a room; from NewHub's empty table the table stays empty, and no Register or Unregister request touches its client's channel or closed flag |
| WsHandler.GetConversationByRoomId | server/internal/ws/ws_handler.go:120-129 | a stored conversation with that room id, or None exactly when there is none |
| WsHandler.HandleJoinRoom | server/internal/ws/ws_handler.go:131-167 | an unknown room gives 404 before the table is touched; a failed upgrade gives 500; otherwise a fresh client built from user_id, room_id and username is put in a new room holding only it, or it overwrites any client with its id in an existing room; the hub's own table is never written |
| WsHandler.SendNotices | server/internal/ws/ws_handler.go:76-93 | the nested loops send exactly the specified presence notices, in conversation and participant order |
| WsHandler.SendParticipantNotices | server/internal/ws/ws_handler.go:77-91 | the inner loop over one conversation's participants sends exactly the specified notices, in participant order |
| WsHandler.ParticipantNoticesSound | server/internal/ws/ws_handler.go:77-91 | every notice sent for one conversation goes to an online participant other than the user, or is the reply to the user about that participant |
| WsHandler.ParticipantNoticesComplete | server/internal/ws/ws_handler.go:77-91 | every other participant of the conversation who is online is told, and on entry the user is told about them |
| WsHandler.NoticesSound | server/internal/ws/ws_handler.go:76-93 | every notice is explained by some participant of some joined conversation |
| WsHandler.NoticesComplete | server/internal/ws/ws_handler.go:76-93 | every other online participant of every joined conversation receives the notice |
| WsHandler.Enter | server/internal/ws/ws_handler.go:31-93 | an empty user_id gives 400 with the directory untouched; an unknown user gives 500 with it untouched; a known user is entered under its id with whatever the upgrade returned (even nothing); on success both sides get online=true for every other online participant of the user's conversations |
| WsHandler.Leave | server/internal/ws/ws_handler.go:95-117 | when the second decode fails, nothing is sent and the user stays in the directory; otherwise each other online participant gets online=false, and then the user's key is removed |
| WsHandler.LeaveNoticesAreOffline | server/internal/ws/ws_handler.go:102-115 | every notice sent on exit says the user is offline and goes to an online participant other than the user |
| NotificationContext.Socket.Close | modern-chat-app/contexts/NotificationContext.tsx:42-44 | closing a connecting or open socket moves it to CLOSING with the code recorded; closing one that is already closing or closed changes nothing |
| NotificationContext.ReconnectOnlyForCurrentUser | modern-chat-app/contexts/NotificationContext.tsx:82-85 | a close with 1000 or 1001 never schedules a reconnect; any reconnect needs a token and the socket's user still bound |
| NotificationContext.NotificationProvider.constructor | modern-chat-app/contexts/NotificationContext.tsx:24-27 | no notification, not connected, no socket, no bound user |
| NotificationContext.NotificationProvider.Setup | modern-chat-app/contexts/NotificationContext.tsx:30-99 | an empty id changes nothing; so does a second setup for the bound user while its socket is open; otherwise the user is bound, a previous socket that is not closed is closed with 1000, and a new socket is opened on base + "/ws/join_app?user_id=" + id |
| NotificationContext.NotificationProvider.Rebind | modern-chat-app/contexts/NotificationContext.tsx:39-49 | binds the user, closes a previous socket that is not closed with 1000, and opens a new connecting socket on the user's URL, or leaves the provider disconnected when construction throws |
| NotificationContext.NotificationProvider.OnOpen | modern-chat-app/contexts/NotificationContext.tsx:51-54 | the socket becomes open and the provider connected |
| NotificationContext.NotificationProvider.OnMessage | modern-chat-app/contexts/NotificationContext.tsx:56-70 | every parsed frame is dispatched; the notification is set only when its type is "notification"; a frame that does not parse, or that is null, causes neither |
| NotificationContext.NotificationProvider.OnError | modern-chat-app/contexts/NotificationContext.tsx:72-75 | only marks the provider disconnected |
| NotificationContext.NotificationProvider.OnClose | modern-chat-app/contexts/NotificationContext.tsx:77-94 | the socket is closed and the provider disconnected; a reconnect timer is scheduled for the socket's user exactly when the reconnect condition holds |
| NotificationContext.NotificationProvider.TimerFire | modern-chat-app/contexts/NotificationContext.tsx:86-90 | the fired timer is removed and the bound user never changes; without a token, or when another user is bound, nothing else changes; when the checks pass, setup runs for the timer's user: an open connected socket is kept, otherwise the old socket is closed with 1000 unless already closed and a fresh connecting socket is opened on that user's URL with the connected flag as it was (or the provider is disconnected when construction throws) |
| NotificationContext.NotificationProvider.CloseNotificationSocket | modern-chat-app/contexts/NotificationContext.tsx:101-108 | disconnects and unbinds the user; the socket is closed with 1000 and cleared only when it is open, and otherwise kept as it is |
| NotificationContext.NotificationProvider.CloseNotification | modern-chat-app/contexts/NotificationContext.tsx:123-125 | clears only the notification |
| NotificationContext.ViewChat | modern-chat-app/contexts/NotificationContext.tsx:110-121 | navigates exactly when some stored chat belongs to the user, and then to the first such chat's room, with its name and email stored under "room_" + roomId |
| HomePage.ToChat | modern-chat-app/app/home/page.tsx:76-101 | id and roomId are the conversation's id and unreadCount is 0; the FIRST participant other than the current user gives name, email and avatar, with "Unknown User" and "" as defaults; the name is never empty; lastMessage defaults to "No messages yet"; the timestamp is that of the last message, else of the conversation |
| HomePage.ToChats | modern-chat-app/app/home/page.tsx:76-101 | exactly one chat per conversation, in order |
| HomePage.FetchChats | modern-chat-app/app/home/page.tsx:52-140 | redirects to login iff the token or the user entry is missing; a thrown fetch or an unparsable user entry gives exactly the three mock chats; data that is not an array gives the empty list; otherwise the transformed conversations |
| HomePage.FilteredChats | modern-chat-app/app/home/page.tsx:142-146 | keeps only chats whose lower-cased name or email contains the lower-cased query, and keeps every such chat |
| HomePage.FilteredChatsOrder | modern-chat-app/app/home/page.tsx:142-146 | the filter keeps the list's order |
| HomePage.EmptyQueryKeepsAll | modern-chat-app/app/home/page.tsx:142-146 | an empty query keeps every chat |
| HomePage.QueryCaseInsensitive | modern-chat-app/app/home/page.tsx:142-146 | upper-casing the query's ASCII letters does not change the result |
| Text.FirstCharsOfSplit | modern-chat-app/app/home/page.tsx:165-171 | joining the first characters of the space-split pieces gives the first character of each word, so empty pieces contribute nothing |
| Text.Initials | modern-chat-app/app/home/page.tsx:165-171 | getInitials is the upper-cased first characters of the words, as above; AddUserModal.tsx:103-109 is the same function |
| HomePage.ChatClick | modern-chat-app/app/home/page.tsx:173-182 | stores the chat's name and email under "room_" + roomId and goes to "/chat/" + roomId |
| HomePage.ViewChatIsChatClick | modern-chat-app/app/home/page.tsx:173-182 | viewing a chat from a notification navigates exactly as clicking that chat in the list, when the first stored entry for the user is that chat's |
| Text.TrimEmptyIff | modern-chat-app/components/AddUserModal.tsx:38-41 | a trimmed email is empty exactly when every character is whitespace |
| AddUserModal.SomeHasEmail | modern-chat-app/components/AddUserModal.tsx:101 | some existing chat has exactly that email |
| AddUserModal.IsUserAlreadyAdded | modern-chat-app/components/AddUserModal.tsx:101 | true iff a user was found and some existing chat's email equals that user's email exactly |
| AddUserModal.AddUserModal.constructor | modern-chat-app/components/AddUserModal.tsx:30-35 | all six state fields start in the reset state |
| AddUserModal.AddUserModal.SetSearchEmail | modern-chat-app/components/AddUserModal.tsx:147 | only the email field changes |
| AddUserModal.AddUserModal.StartSearch | modern-chat-app/components/AddUserModal.tsx:37-48 | a blank email only sets the error, with no request and the searched user kept; otherwise it requests the trimmed email and clears the error and the searched user |
| AddUserModal.AddUserModal.FinishSearch | modern-chat-app/components/AddUserModal.tsx:49-59 | a found user is kept and is online iff its username is in the online list; a failure clears the user and shows the error's message or "User not found"; searching ends either way |
| AddUserModal.AddUserModal.StartAdd | modern-chat-app/components/AddUserModal.tsx:62-70 | nothing happens without a searched user; otherwise it requests a room with that user's id |
| AddUserModal.AddUserModal.FinishAdd | modern-chat-app/components/AddUserModal.tsx:71-82 | success shows "<username> added to your conversations!" and schedules the close; failure shows the message or "Failed to add user" |
| AddUserModal.AddUserModal.AddDisabled | modern-chat-app/components/AddUserModal.tsx:204 | the add button is disabled iff adding is in progress or the found user's email is already among the chats |
| AddUserModal.AddUserModal.ResetModal | modern-chat-app/components/AddUserModal.tsx:85-92 | all six fields are restored to the initial state |
| AddUserModal.AddUserModal.HandleOpenChange | modern-chat-app/components/AddUserModal.tsx:94-99 | the parent is told the new state; closing always resets; opening changes nothing |
| MessageNotification.Truncate | modern-chat-app/components/MessageNotification.tsx:58-61 | a content no longer than the limit is returned unchanged; a longer one is its first maxLength characters plus "...", maxLength+3 in all; an undefined content gives "undefined..." |
| MessageNotification.TruncateBounds | modern-chat-app/components/MessageNotification.tsx:58-61 | the result is at most maxLength+3 long and starts with the first min(length, maxLength) characters of the content |
| MessageNotification.TruncateIdempotent | modern-chat-app/components/MessageNotification.tsx:58-61 | truncating a truncated text changes nothing |
| MessageNotification.CardInitials | modern-chat-app/components/MessageNotification.tsx:53-56 | this getInitials returns the name unchanged |
| MessageNotification.Render | modern-chat-app/components/MessageNotification.tsx:63-99 | a card is shown iff there is a notification; the title and the avatar fallback are both the username; the body is the content truncated to 50 characters, so a defined content is shown in at most 53 |
| MessageNotification.Toast.OnNotification | modern-chat-app/components/MessageNotification.tsx:24-37 | the card is visible and the dismiss timer is started exactly when a notification is present |
| MessageNotification.Toast.HandleClose | modern-chat-app/components/MessageNotification.tsx:39-44 | hides the card and schedules the parent's close |
| MessageNotification.Toast.HandleViewChat | modern-chat-app/components/MessageNotification.tsx:46-51 | with a notification, its UserId is passed on and the card closes; without one nothing happens |
| VerifyOtpPage.StripNonDigits | modern-chat-app/app/verify-otp/page.tsx:98 | the result is all ASCII digits, keeps every digit of the input and contains no character the input lacks |
| VerifyOtpPage.StripDigitsUnchanged | modern-chat-app/app/verify-otp/page.tsx:98 | an all-digit input passes through unchanged |
| VerifyOtpPage.StripIdempotent | modern-chat-app/app/verify-otp/page.tsx:98 | stripping twice equals stripping once |
| VerifyOtpPage.StripConcat | modern-chat-app/app/verify-otp/page.tsx:98 | stripping keeps order: the digits of a concatenation are the digits of its parts |
| VerifyOtpPage.MissingEmailRedirect | modern-chat-app/app/verify-otp/page.tsx:23-27 | goes to /register exactly when the email parameter is missing or empty |
| VerifyOtpPage.OtpForm.HandleOtpChange | modern-chat-app/app/verify-otp/page.tsx:50-54 | a value of at most six characters replaces the code; a longer one is dropped and the code kept, never truncated |
| VerifyOtpPage.OtpForm.OnInput | modern-chat-app/app/verify-otp/page.tsx:93-102 | the code is always a string of at most six digits |
| VerifyOtpPage.OtpForm.SubmitDisabled | modern-chat-app/app/verify-otp/page.tsx:110 | submit is enabled iff not loading and the code has exactly six characters |
| VerifyOtpPage.EnabledMeansSixDigits | modern-chat-app/app/verify-otp/page.tsx:108-111 | an enabled submit means the code is exactly six digits |
| VerifyOtpPage.OtpForm.StartSubmit | modern-chat-app/app/verify-otp/page.tsx:29-38 | without an email nothing happens; otherwise the code is sent as it stands and the messages are cleared |
| VerifyOtpPage.OtpForm.FinishSubmit | modern-chat-app/app/verify-otp/page.tsx:39-47 | success shows its message and schedules the move to /login; failure shows the error's message or the fallback; loading ends |
| SettingsPage.FileError | modern-chat-app/app/settings/page.tsx:55-63 | a file is accepted iff it is at most 5 MiB and its type starts with "image/"; the size error is reported first, whatever the type |
| SettingsPage.SizeBoundary | modern-chat-app/app/settings/page.tsx:55-58 | exactly 5 MiB is accepted; one byte more gives the size error, even for a non-image |
| SettingsPage.WithImage | modern-chat-app/app/settings/page.tsx:84 | the merged user has the new image and every other field of the old one |
| SettingsPage.AvatarSource | modern-chat-app/app/settings/page.tsx:153 | the preview, else the user's image, else the default picture; never empty |
| SettingsPage.UploadedImageShown | modern-chat-app/app/settings/page.tsx:84-89 | after an upload the avatar is the preview when there is one, else the uploaded image |
| SettingsPage.SettingsForm.Load | modern-chat-app/app/settings/page.tsx:31-50 | a missing token or user entry, or an entry that does not parse, goes to /login with nothing changed; otherwise the user is loaded and its image, if set, becomes the preview |
| SettingsPage.SettingsForm.HandleFileSelect | modern-chat-app/app/settings/page.tsx:52-70 | no file changes nothing; a refused file only sets the error and keeps the earlier selection and preview; an accepted file is selected and previewed and the error cleared |
| SettingsPage.SettingsForm.StartUpload | modern-chat-app/app/settings/page.tsx:72-80 | nothing without a selected file; otherwise that file is uploaded and the messages cleared |
| SettingsPage.SettingsForm.FinishUpload | modern-chat-app/app/settings/page.tsx:81-94 | on success the user, and the record stored back, are the old user with only the image replaced, and the selection is cleared; on failure the error shows and the selection is kept |
| GoogleCallback.Callback | modern-chat-app/app/auth/google/callback/page.tsx:10-34 | an error parameter goes to google_auth_failed with nothing stored, whatever else is present; a token and a user that parses store the token, then the re-serialised user, then go home; a user that fails to parse goes to invalid_user_data; a missing token or user goes to missing_auth_data |
| GoogleCallback.StoresOnlyOnSuccess | modern-chat-app/app/auth/google/callback/page.tsx:21-33 | something is stored exactly when the page goes home, and the first write is a non-empty token |
| GoogleCallback.RoutesAreKnown | modern-chat-app/app/auth/google/callback/page.tsx:15-33 | the page only ever goes to one of its four routes |

## Left out

- Goroutines, channels and `select`: each `select` case of `Hub.Run` is one atomic step, and each channel is a FIFO sequence (an outbox). Blocking and interleaving are not modelled.
- WsHub.Hub.Run: covers a finite prefix of the requests, not the endless loop.
- WsClient.Client.WriteMessage and WsClient.Client.ReadMessage: cover a finite run of writes or reads. A read loop that has not ended is the AwaitingFrame result.
- WsHandler.Enter and WsHandler.Leave: `EnterApp` blocks in `ReadJSON` between arrival and departure, so it is modelled as two steps. The second step takes the conversations the first one decoded, as the Go code iterates them.
- Rooms are values inside the tables (`Room` holds its client map), not shared references; aliasing through Go's `*Room` is not modelled.
- The Go code mixes `*models.Message` and `*ws.Message` for one channel; one `Message` type stands for both.
- MongoDB, the aggregation pipeline, bcrypt, JWT, SMTP, S3, gothic OAuth and `url.QueryEscape` are foreign code. Their results are parameters (success flags, `Option` results, a `sign` or `validate` function).
- Conversations.GetConversationByUserId: only the `$match` stage of the pipeline is modelled. When Aggregate fails, the handler writes 500 and carries on with an empty cursor; this is the AlreadyFailed result.
- Users.RegisterUser: a failing password hash calls `log.Panic`; the model answers it with 500 and no write.
- Users.LoginUser: `VerifyPassword` is the `passwordMatches` parameter, applied to the stored hash and the submitted password.
- Middleware.Authenticate: the header is its raw bytes, one byte per character, because Go slices the string by bytes. It requires the header to be empty or at least seven bytes long. A shorter non-empty header makes the Go slice panic, and that panic is not modelled.
- The OTP generator, the clock, ids and generated `ObjectId`s are parameters; there is no wall-clock time.
- Timers (3 s reconnect, 5 s and 300 ms dismiss, 2 s redirect) are recorded as scheduled events. A fired timer is a separate step; durations are not modelled.
- NotificationContext.NotificationProvider.OnOpen: requires the socket to be connecting, because the browser fires `open` only then.
- NotificationContext.NotificationProvider: reads the current `isConnected`, not a stale closure's copy; React's render and closure timing are not modelled.
- NotificationContext.SocketUrl: has no contract of its own; the URL it builds is stated through `Setup`.
- `JSON.parse`, `decodeURIComponent`, `JSON.stringify` and `toLocaleTimeString` are parameters.
- MessageNotification.Truncate and Text.Initials: lengths and indexes count Unicode code points, while JavaScript's `length`, `substring` and `[0]` count UTF-16 code units. The two differ on characters outside the Basic Multilingual Plane. For example, 26 emoji are 52 units, so JavaScript truncates them, but the model keeps them whole. For a name starting with an emoji, JavaScript takes a lone high surrogate, but the model takes the whole emoji. The same holds for the other string operations of `Text`.
- Users.RegisterUser and Users.SocialLoginCallback: the Go code takes the new-user path on any `FindOne(...).Decode` error, including a timeout or a decode failure on an existing email. The model decides by whether the email is stored, so a failed lookup cannot be represented. In Go, such a failure can insert a second record for a known email. The store is keyed by email and cannot hold two records for one email.
- Case mapping is ASCII only. `String.prototype.trim`'s whitespace set is the one in `Text.IsJsSpace`.
- MessageNotification.Notification: the card reads the lower-case `content` and `username`, which the declared `NotificationData` interface does not have, so both are optional values.
- VerifyOtpPage.OtpForm: the input's `maxLength` attribute is browser behaviour and is not modelled; any typed or pasted text reaches `OnInput`.
- The settings page's `handleLogout`, the home page's logout and socket wiring, the chat room page, `lib/api.ts`, routing and server wiring are outside the core.
- JSX rendering, CSS and animations are not modelled. Navigation is recorded as the route pushed.
- `server/internal/users/user_service.go` refers to declarations that do not exist and is not part of this model.
