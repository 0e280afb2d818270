# Chat client session and conversation core, in Dafny

This project models the two state machines under the React glue of a chat web
client: the **chat provider** (`context/ChatContext.jsx`) and the **auth
provider** (`context/AuthContext.jsx`).

- The chat provider holds the open conversation's message list, the peer
  directory, the selected peer and the unseen-count map (peer id to count).
  It inserts messages with a deduplication rule keyed on `String(_id)`.
  History and directory fetches replace state wholesale, and history entries
  are normalised with defaults. A push handler either inserts a message from
  the open conversation (marked seen, that sender's count reset to 0) or adds
  one to the sender's unseen count.
- The auth provider holds the token, the token persisted in local storage, the
  request client's default `Authorization` header, the signed-in user, the
  online users, the push socket and a loading flag. `checkAuth`, `login`,
  `logout`, `updateProfile` and `connectSocket` each make a transition chosen
  by the outcome of one request.

Every request outcome is an input value: `Reply<T>` is `Success(data)` (a
reply with a truthy `success`), `Unsuccessful` (a reply without it) or
`Thrown` (the request threw). JavaScript values that may be missing are
`JsStr = Undefined | Null | Str(s)`. Truthiness and `String()` coercion are
written out, because the source relies on both: `!msg._id`, `m.text || ""`,
`prev[senderId] ? … : 1`, and `String(m._id)` for identity.

Layout:

- `js_values.dfy`: the `Wrappers` module (`Option`) and the `JsValues` module (JS values, `User`, `Message`, `Reply`).
- `conversation.dfy`: the chat provider's state updaters and its operations as pure transitions on a `Chat` value.
- `conversation_props.dfy`: lemmas about those transitions.
- `chat_provider.dfy`: class `ChatProvider`. Its methods update the fields step by step and are proved to perform the transitions above.
- `session.dfy`: the auth provider's operations as pure transitions on a `Session` value.
- `session_props.dfy`: lemmas about those transitions.
- `auth_provider.dfy`: class `AuthProvider`, proved against `session.dfy`.

The token effect (`useEffect(…, [token])`) is modelled as React runs it. After
an operation, the header is reset from the token only if the operation changed
the token. This makes one corner case visible. A login whose token is `""`,
made while the token already is `""`, leaves the header `"Bearer "`. See
`SessionProps.EmptyTokenLoginKeepsBearerHeader`.

The provider renders its children only once loading is over
(`!loading ? children : null`). The predicate `Session.RendersChildren`
states this rule, and `SessionProps.MountEndsLoading` is stated in its terms.

The code lacks some behaviours that the system's design describes. The model
follows the code in each case:

- A history reply is applied even if the selected peer changed while it was
  in flight. There is no guard against stale history.
- Loading history never resets unseen counts.
- `logout` leaves the chat provider's messages, directory and unseen counts
  as they are. It disconnects the socket but keeps it in state.
- A successful check without user data keeps the token, and a successful
  login without user data sets one, but neither opens a socket. So "signed in
  iff token iff socket open" is not an invariant of the code. See `SessionProps.SuccessWithoutUserOpensNoSocket`.
- A history load does not deduplicate: entries the server repeats are loaded
  twice. So pairwise distinct identities hold only for lists that sends and
  pushes have built. See `ConversationProps.HistoryMayRepeatIds`.

## Model

| member | source | states |
|---|---|---|
| Conversation.HasId | context/ChatContext.jsx:18 | true exactly when some element's `String(_id)` equals the key |
| Conversation.Accepts | context/ChatContext.jsx:16-18 | the dedup rule takes a message exactly when it is present, has a truthy `_id`, and no element of the list has the same `String(_id)` |
| Conversation.AddSafely | context/ChatContext.jsx:15-21 | the old list is kept as a prefix and the list grows by at most one. It grows exactly when the message is present, has a truthy `_id` and that identity is new; the new last element is the message. Afterwards the identity of a message with a truthy `_id` is always present (the copy kept is the first one seen) |
| Conversation.Normalize | context/ChatContext.jsx:41-47 | `_id` is kept. A falsy `senderId`, `text`, `image` or `createdAt` becomes "unknown", "", null or the clock reading; truthy values are kept. `receiverId` and `seen` are dropped |
| Conversation.NormalizeAll | context/ChatContext.jsx:41-52 | succeeds exactly when no entry is null (a null entry throws inside the map). On success the list has the same length and order, entry i being entry i normalised with the clock reading taken for it |
| Conversation.ResetUnseen | context/ChatContext.jsx:103 | the sender's count is 0, the key set gains the sender, and every other count is unchanged |
| Conversation.BumpUnseen | context/ChatContext.jsx:106-109 | the sender's count becomes its old value plus one, a missing entry counting as 0 (the truthiness test never changes that), and every other count is unchanged |
| Conversation.OpenUserId | context/ChatContext.jsx:90 | defined exactly when a peer with a truthy `_id` is selected, and is then that non-empty id |
| Conversation.SenderKey | context/ChatContext.jsx:89 | the unseen-map key of the sender: "undefined" for a missing payload or sender, "null" for a null sender, the sender id itself otherwise |
| Conversation.FromOpenChat | context/ChatContext.jsx:89-92 | true exactly when a peer with a truthy `_id` is selected and the push's `senderId` is that same string |
| Conversation.GetUsers | context/ChatContext.jsx:24-34 | success replaces the directory and the unseen map by the reply's, defaulting to `[]` and `{}`. Failure or an exception changes nothing. Messages and selection never change |
| Conversation.GetMessages | context/ChatContext.jsx:37-53 | the list either stays or becomes the normalised reply list, with the same length and order, entry i normalised with the i-th clock reading. Failure changes nothing. Directory, selection and unseen counts never change |
| Conversation.SendMessage | context/ChatContext.jsx:56-70 | with no peer selected, or on failure, nothing changes. On success `newMessage` goes through the dedup rule. Only the message list can change |
| Conversation.OnNewMessage | context/ChatContext.jsx:87-114 | a push from the open peer is inserted with `seen = true` through the dedup rule and the sender's count becomes 0. Any other push leaves messages alone and adds one to the sender's count. Other counts, the directory and the selection are unchanged |
| ConversationProps.AddSafelyIdempotent | context/ChatContext.jsx:17-19 | adding a message twice gives the list that adding it once gives |
| ConversationProps.AddSafelyKeepsDistinct | context/ChatContext.jsx:15-21 | pairwise-distinct identities stay pairwise distinct |
| ConversationProps.AddSafelyCount | context/ChatContext.jsx:15-21 | no identity's number of copies changes, except that an accepted (absent) identity gets exactly one |
| ConversationProps.HistoryReplacesMessages | context/ChatContext.jsx:37-48 | a successful history load holds the server list with its length, order and `_id`s, whatever the list held before |
| ConversationProps.HistoryDistinctIffServerDistinct | context/ChatContext.jsx:41-48 | the loaded list has pairwise distinct identities exactly when the server's list has |
| ConversationProps.HistoryMayRepeatIds | context/ChatContext.jsx:41-48 | a server list holding the same entry twice loads a list with a repeated identity |
| ConversationProps.PushFromOpenChatIdempotent | context/ChatContext.jsx:92-103 | redelivering a push from the open peer leaves the state the first delivery left |
| ConversationProps.PushKeepsDistinct | context/ChatContext.jsx:92-95 | the push handler keeps identities pairwise distinct |
| ConversationProps.SendKeepsDistinct | context/ChatContext.jsx:63-66 | a send confirmation keeps identities pairwise distinct |
| ConversationProps.SendAndPushLeaveOneCopy | context/ChatContext.jsx:63-95 | starting from at most one copy of an identity, with a peer selected, a send confirmation and a push with that `_id` leave exactly one copy of it, in either order |
| ConversationProps.DistinctSendAndPushLeaveOneCopy | context/ChatContext.jsx:15-21 | with a peer selected, a send confirmation and a push with the same `_id` leave exactly one copy of it, in either order, in any conversation whose identities are pairwise distinct |
| ConversationProps.UnseenCountsPushes | context/ChatContext.jsx:104-110 | N pushes from a sender whose conversation is not open raise its count by exactly N. Messages, the selection and every other count stay as they were |
| ConversationProps.HistoryThenDuplicatePush | context/ChatContext.jsx:40-103 | for any history without null entries, loaded for the open peer and followed by a redelivered push of a message whose `_id` it holds, the list is exactly the normalised history and the peer's count is 0 |
| ChatStore.ChatProvider.constructor | context/ChatContext.jsx:8-11 | empty messages, empty directory, no selection, empty unseen map |
| ChatStore.ChatProvider.AddMessageSafely | context/ChatContext.jsx:15-21 | the list becomes `AddSafely` of the old list; the other fields are unchanged |
| ChatStore.ChatProvider.GetUsers | context/ChatContext.jsx:24-34 | the new state is `Conversation.GetUsers` of the old |
| ChatStore.ChatProvider.GetMessages | context/ChatContext.jsx:37-53 | the new state is `Conversation.GetMessages` of the old |
| ChatStore.ChatProvider.SendMessage | context/ChatContext.jsx:56-70 | the new state is `Conversation.SendMessage` of the old |
| ChatStore.ChatProvider.OnNewMessage | context/ChatContext.jsx:87-114 | the new state is `Conversation.OnNewMessage` of the old |
| ChatStore.ChatProvider.SetSelectedUser | context/ChatContext.jsx:10 | only the selection changes |
| Session.HeaderFor | context/AuthContext.jsx:26-32 | a header exists exactly for a truthy token, and is then "Bearer " + token |
| Session.Initial | context/AuthContext.jsx:9-23 | token and persisted token are the stored value, and the header mirrors it. Loading is on exactly when the stored token is truthy. No user, no online users, no socket |
| Session.AfterTokenEffect | context/AuthContext.jsx:26-32 | a changed token leaves the header mirroring it; an unchanged token leaves the state untouched; only the header can change |
| Session.ConnectSocket | context/AuthContext.jsx:112-125 | no user data, or a connected socket, changes nothing. Otherwise a new, not yet connected socket for `userData._id` replaces the old one and nothing else changes |
| Session.SocketConnectionChanged | context/AuthContext.jsx:113 | the current socket's `connected` flag takes the reported value; no socket, no change |
| Session.CheckAuth | context/AuthContext.jsx:35-61 | loading always ends. Success signs in `data.user`, or `data.userData` when the former is missing, connects the socket for that user as `connectSocket` does, and leaves token, persisted token and header alone. Failure or an exception clears the user, token, persisted token and header and leaves the socket alone |
| Session.Login | context/AuthContext.jsx:64-82 | success signs in `data.userData`, connects the socket for it as `connectSocket` does, and sets token and persisted token to `data.token`. The header becomes "Bearer " + token for a non-empty token; for "" it stays "Bearer " when the token already was "" and is removed otherwise. Online list and loading are unchanged. Failure or an exception changes nothing |
| Session.Logout | context/AuthContext.jsx:85-96 | token, persisted token, header and user are cleared and the online list is empty. The socket, if any, is disconnected. Loading is unchanged |
| Session.UpdateProfile | context/AuthContext.jsx:99-109 | success replaces only the user; failure or an exception changes nothing |
| Session.OnlineUsers | context/AuthContext.jsx:122-124 | the online list becomes the event's list; nothing else changes |
| Session.Mount | context/AuthContext.jsx:128-135 | loading ends. Without a truthy token only the header is removed; with one, the header is installed and the session check runs |
| SessionProps.MountEndsLoading | context/AuthContext.jsx:128-135 | at start children are withheld exactly when a truthy token is stored; after mounting they render, whatever the check returns |
| SessionProps.MountWithRejectedToken | context/AuthContext.jsx:45-57 | a stored token the check rejects leaves no token, persisted token, header or user |
| SessionProps.LogoutIdempotent | context/AuthContext.jsx:85-96 | logging out twice gives the state logging out once gives |
| SessionProps.OnlineUsersSupersedes | context/AuthContext.jsx:122-124 | a presence event fully supersedes the previous one |
| SessionProps.ReconnectOpensNothing | context/AuthContext.jsx:112-120 | once a user's socket is opened and connected, connecting again opens no second socket |
| SessionProps.SuccessWithoutUserOpensNoSocket | context/AuthContext.jsx:40-70 | a successful check or login without user data opens no socket; the login still sets the token |
| SessionProps.OperationsKeepTokenPersisted | context/AuthContext.jsx:35-109 | every operation keeps the persisted token equal to the token in state |
| SessionProps.OperationsKeepHeaderMirror | context/AuthContext.jsx:26-32 | every operation keeps the header mirroring the token, except a login with token "" over token "" |
| SessionProps.EmptyTokenLoginKeepsBearerHeader | context/AuthContext.jsx:72-74 | that exception happens: the header stays "Bearer " while the token is "" |
| AuthStore.AuthProvider.constructor | context/AuthContext.jsx:9-23 | the state is `Session.Initial` of the stored token |
| AuthStore.AuthProvider.SyncAuthHeader | context/AuthContext.jsx:26-32 | only the header changes, to the header for the current token |
| AuthStore.AuthProvider.ConnectSocket | context/AuthContext.jsx:112-125 | the new state is `Session.ConnectSocket` of the old |
| AuthStore.AuthProvider.OnSocketConnectionChanged | context/AuthContext.jsx:113 | the new state is `Session.SocketConnectionChanged` of the old |
| AuthStore.AuthProvider.CheckAuth | context/AuthContext.jsx:35-61 | the new state is `Session.CheckAuth` of the old |
| AuthStore.AuthProvider.Login | context/AuthContext.jsx:64-82 | the new state is `Session.Login` of the old |
| AuthStore.AuthProvider.Logout | context/AuthContext.jsx:85-96 | the new state is `Session.Logout` of the old |
| AuthStore.AuthProvider.UpdateProfile | context/AuthContext.jsx:99-109 | the new state is `Session.UpdateProfile` of the old |
| AuthStore.AuthProvider.OnGetOnlineUsers | context/AuthContext.jsx:122-124 | the new state is `Session.OnlineUsers` of the old |
| AuthStore.AuthProvider.Mount | context/AuthContext.jsx:128-135 | the new state is `Session.Mount` of the old |

## Left out

- Network and socket I/O. Each axios request is replaced by its outcome, passed as a `Reply` parameter. The request payloads are left out: credentials, the signup/login choice, message data, profile body and peer id. They only shape URLs and bodies.
- Socket I/O (`io()`, `connect()`, `disconnect()`) is reduced to a socket value with a `connected` flag, flipped by `OnSocketConnectionChanged`. Handler registration and removal are not modelled (context/ChatContext.jsx:80-129, context/AuthContext.jsx:122-124). Neither is `unsubscribeFromMessages`.
- The socket object is mutated in place by `disconnect()`; the model holds it as a value.
- The pushed message object is mutated in place by `newMessage.seen = true`; the model inserts a copy with `seen` set.
- React effect timing and interleaving are not modelled. This includes the effects that re-run `getUsers` on socket or connect events and the subscription effect. Each operation or push handler runs atomically, including the `await` between insertion and the count reset.
- The mark-seen request's outcome is not a parameter. The code resets the count whether the request succeeds or fails.
- The clock read for a missing `createdAt` becomes the parameter `clock`: `clock(i)` is the reading taken while entry i is normalised.
- Toasts and console output are left out; they are side effects with no state.
- Identifiers and optional string fields are strings, undefined or null. Numeric or object ids are not modelled, nor are non-array `users` or non-object `unseenMessages` values. Unseen counts are unbounded integers: no floating point, no NaN.
- Session.Login: a successful reply is taken to carry a string `token`. A reply without one would store the string "undefined" in local storage; that is not modelled.
- The stale closure of `checkAuth` is not modelled. `checkAuth` runs only from the mount effect, so its `connectSocket` sees the first render's socket, which is null. The model reads the current socket, which is also none when mounting is the first operation.
- The `setUnseenMessages` setter that the chat provider exposes to the UI is not modelled.
- src/components/ChatContainer.jsx, src/pages/LoginPage.jsx, src/pages/ProfilePage.jsx and src/App.jsx are rendering, form handling and routing, and are not part of this model.
