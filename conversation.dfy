/**
  The conversation store of the chat provider, as values: the state updaters
  (dedup-insert, history normaliser, unseen-count reducers) and, built from them,
  the transition each operation applies to the provider's state once the reply
  of its request is known.
 */
module Conversation {
  import opened Wrappers
  import opened JsValues

  // ---------------------------------------------------------------------------
  // Message identity and deduplication
  // ---------------------------------------------------------------------------

  /** The identity a message is compared by: `String(m._id)`. */
  function IdKey(m: Message): string {
    Key(m.id)
  }

  /** `prev.some((m) => String(m._id) === key)`. */
  function HasId(ms: seq<Message>, key: string): (r: bool)
    ensures r <==> exists i | 0 <= i < |ms| :: IdKey(ms[i]) == key
  {
    if ms == [] then false else IdKey(ms[0]) == key || HasId(ms[1..], key)
  }

  /** How many elements of `ms` carry the identity `key`. */
  function CountId(ms: seq<Message>, key: string): nat {
    if ms == [] then 0 else (if IdKey(ms[0]) == key then 1 else 0) + CountId(ms[1..], key)
  }

  /** No two elements share an identity. */
  predicate DistinctIds(ms: seq<Message>) {
    forall i, j | 0 <= i < j < |ms| :: IdKey(ms[i]) != IdKey(ms[j])
  }

  /** Whether `addMessageSafely` accepts `msg` into `prev`: present, with a truthy `_id` that is new. */
  predicate Accepts(prev: seq<Message>, msg: Option<Message>)
    ensures Accepts(prev, msg) <==>
      msg.Some? && Truthy(msg.value.id) && forall i | 0 <= i < |prev| :: IdKey(prev[i]) != IdKey(msg.value)
  {
    msg.Some? && Truthy(msg.value.id) && !HasId(prev, IdKey(msg.value))
  }

  /**
    The `addMessageSafely` updater: a missing message or one without a truthy `_id`
    is ignored, a message whose identity is already present is ignored, anything
    else is appended.
   */
  function AddSafely(prev: seq<Message>, msg: Option<Message>): (r: seq<Message>)
    ensures |prev| <= |r| <= |prev| + 1 && r[..|prev|] == prev
    ensures |r| == |prev| + 1 <==> Accepts(prev, msg)
    ensures |r| == |prev| + 1 ==> r[|prev|] == msg.value
    ensures msg.Some? && Truthy(msg.value.id) ==> HasId(r, IdKey(msg.value))
  {
    if msg.None? || !Truthy(msg.value.id) then prev
    else if HasId(prev, IdKey(msg.value)) then prev
    else prev + [msg.value]
  }

  // ---------------------------------------------------------------------------
  // History normalisation
  // ---------------------------------------------------------------------------

  /**
    The `.map` normaliser of a history entry: keeps `_id`, defaults a falsy
    `senderId` to "unknown", `text` to "", `image` to null and `createdAt` to
    the clock reading `now`; every other property (`receiverId`, `seen`) is dropped.
   */
  function Normalize(m: Message, now: string): (n: Message)
    ensures n.id == m.id
    ensures Truthy(m.senderId) ==> n.senderId == m.senderId
    ensures !Truthy(m.senderId) ==> n.senderId == Str("unknown")
    ensures Truthy(m.text) ==> n.text == m.text
    ensures !Truthy(m.text) ==> n.text == Str("")
    ensures Truthy(m.image) ==> n.image == m.image
    ensures !Truthy(m.image) ==> n.image == Null
    ensures Truthy(m.createdAt) ==> n.createdAt == m.createdAt
    ensures !Truthy(m.createdAt) ==> n.createdAt == Str(now)
    ensures n.receiverId == Undefined && n.seen == None
  {
    Message(
      id := m.id,
      senderId := Or(m.senderId, Str("unknown")),
      receiverId := Undefined,
      text := Or(m.text, Str("")),
      image := Or(m.image, Null),
      createdAt := Or(m.createdAt, Str(now)),
      seen := None)
  }

  /**
    The normaliser over a whole history array. The clock is read afresh for
    each entry: `clock(i)` is the reading taken while normalising entry i.
    A null entry makes `m._id` throw, which aborts the whole load: None.
   */
  function NormalizeAll(raw: seq<Option<Message>>, clock: nat -> string): (r: Option<seq<Message>>)
    ensures r.Some? <==> forall i | 0 <= i < |raw| :: raw[i].Some?
    ensures r.Some? ==> |r.value| == |raw|
    ensures r.Some? ==> forall i | 0 <= i < |raw| :: r.value[i] == Normalize(raw[i].value, clock(i))
  {
    if raw == [] then Some([])
    else
      var last := |raw| - 1;
      match NormalizeAll(raw[..last], clock)
      case None => None
      case Some(init) =>
        if raw[last].None? then None else Some(init + [Normalize(raw[last].value, clock(last))])
  }

  // ---------------------------------------------------------------------------
  // Unseen counters
  // ---------------------------------------------------------------------------

  /** The unseen count of `key`, a missing entry read as 0. */
  function Count(u: map<string, int>, key: string): int {
    if key in u then u[key] else 0
  }

  /** `{ ...prev, [key]: 0 }`. */
  function ResetUnseen(u: map<string, int>, key: string): (r: map<string, int>)
    ensures r.Keys == u.Keys + {key}
    ensures r[key] == 0
    ensures forall k | k in u && k != key :: r[k] == u[k]
  {
    u[key := 0]
  }

  /**
    `{ ...prev, [key]: prev[key] ? prev[key] + 1 : 1 }`: whether the entry is
    missing, zero or anything else, the count goes up by exactly one.
   */
  function BumpUnseen(u: map<string, int>, key: string): (r: map<string, int>)
    ensures r.Keys == u.Keys + {key}
    ensures r[key] == Count(u, key) + 1
    ensures forall k | k in u && k != key :: r[k] == u[k]
  {
    u[key := if key in u && u[key] != 0 then u[key] + 1 else 1]
  }

  // ---------------------------------------------------------------------------
  // The provider's state and its transitions
  // ---------------------------------------------------------------------------

  /** The state the chat provider holds. */
  datatype Chat = Chat(
    messages: seq<Message>,
    users: seq<User>,
    selectedUser: Option<User>,
    unseenMessages: map<string, int>)

  /** The fields of a successful peer-directory reply. */
  datatype UsersData = UsersData(users: Option<seq<User>>, unseenMessages: Option<map<string, int>>)

  /** `selectedUser?._id && String(selectedUser._id)`, when truthy. */
  function OpenUserId(selected: Option<User>): (r: Option<string>)
    ensures r.Some? <==> selected.Some? && Truthy(selected.value.id)
    ensures r.Some? ==> r.value != "" && Str(r.value) == selected.value.id
  {
    if selected.Some? && Truthy(selected.value.id) then Some(selected.value.id.s) else None
  }

  /**
    The unseen-map key of a pushed message's sender: the property key that
    `newMessage?.senderId && String(newMessage.senderId)` becomes.
   */
  function SenderKey(msg: Option<Message>): (k: string)
    ensures msg.None? || msg.value.senderId.Undefined? ==> k == "undefined"
    ensures msg.Some? && msg.value.senderId.Null? ==> k == "null"
    ensures msg.Some? && msg.value.senderId.Str? ==> k == msg.value.senderId.s
  {
    if msg.None? then "undefined" else Key(msg.value.senderId)
  }

  /** `openUserId && senderId === openUserId`: the pushed message belongs to the conversation currently open. */
  function FromOpenChat(selected: Option<User>, msg: Option<Message>): (r: bool)
    ensures r <==> selected.Some? && Truthy(selected.value.id) && msg.Some? && msg.value.senderId == selected.value.id
  {
    OpenUserId(selected).Some? && msg.Some? && msg.value.senderId == Str(OpenUserId(selected).value)
  }

  /** `getUsers`, given its reply: success replaces the directory and the unseen map wholesale. */
  function GetUsers(c: Chat, reply: Reply<UsersData>): (r: Chat)
    ensures r.messages == c.messages && r.selectedUser == c.selectedUser
    ensures reply.Success? ==> r.users == reply.data.users.GetOr([])
    ensures reply.Success? ==> r.unseenMessages == reply.data.unseenMessages.GetOr(map[])
    ensures !reply.Success? ==> r == c
  {
    match reply
    case Success(data) =>
      c.(users := data.users.GetOr([]), unseenMessages := data.unseenMessages.GetOr(map[]))
    case _ => c
  }

  /**
    `getMessages`, given the reply's `messages` field (None when missing) and
    the clock readings used for missing timestamps, one per entry.
   */
  function GetMessages(c: Chat, reply: Reply<Option<seq<Option<Message>>>>, clock: nat -> string): (r: Chat)
    ensures r.users == c.users && r.selectedUser == c.selectedUser
    ensures r.unseenMessages == c.unseenMessages
    ensures r.messages == c.messages || (reply.Success? && NormalizeAll(reply.data.GetOr([]), clock) == Some(r.messages))
    ensures reply.Success? && NormalizeAll(reply.data.GetOr([]), clock).Some? ==>
      |r.messages| == |reply.data.GetOr([])| &&
      forall i | 0 <= i < |r.messages| :: r.messages[i] == Normalize(reply.data.GetOr([])[i].value, clock(i))
    ensures !reply.Success? ==> r == c
  {
    match reply
    case Success(data) =>
      (match NormalizeAll(data.GetOr([]), clock)
       case Some(ms) => c.(messages := ms)
       case None => c)
    case _ => c
  }

  /** `sendMessage`, given its reply's `newMessage` (None when missing). */
  function SendMessage(c: Chat, reply: Reply<Option<Message>>): (r: Chat)
    ensures r.users == c.users && r.selectedUser == c.selectedUser
    ensures r.unseenMessages == c.unseenMessages
    ensures c.selectedUser.None? || !reply.Success? ==> r == c
    ensures c.selectedUser.Some? && reply.Success? ==> r.messages == AddSafely(c.messages, reply.data)
  {
    if c.selectedUser.None? then c
    else match reply
      case Success(newMessage) => c.(messages := AddSafely(c.messages, newMessage))
      case _ => c
  }

  /**
    The `newMessage` push handler. A message from the open conversation is
    marked seen, inserted through the dedup rule and its sender's count reset
    to 0 (whatever the mark-seen request does); any other push only adds one to
    its sender's count.
   */
  function OnNewMessage(c: Chat, msg: Option<Message>): (r: Chat)
    ensures r.users == c.users && r.selectedUser == c.selectedUser
    ensures FromOpenChat(c.selectedUser, msg) ==>
      r.messages == AddSafely(c.messages, Some(msg.value.(seen := Some(true))))
    ensures FromOpenChat(c.selectedUser, msg) ==>
      r.unseenMessages.Keys == c.unseenMessages.Keys + {SenderKey(msg)} &&
      r.unseenMessages[SenderKey(msg)] == 0
    ensures !FromOpenChat(c.selectedUser, msg) ==>
      r.messages == c.messages &&
      r.unseenMessages.Keys == c.unseenMessages.Keys + {SenderKey(msg)} &&
      r.unseenMessages[SenderKey(msg)] == Count(c.unseenMessages, SenderKey(msg)) + 1
    ensures forall k | k in c.unseenMessages && k != SenderKey(msg) :: r.unseenMessages[k] == c.unseenMessages[k]
  {
    var key := SenderKey(msg);
    if FromOpenChat(c.selectedUser, msg) then
      c.(messages := AddSafely(c.messages, Some(msg.value.(seen := Some(true)))),
         unseenMessages := ResetUnseen(c.unseenMessages, key))
    else
      c.(unseenMessages := BumpUnseen(c.unseenMessages, key))
  }

  /** A run of push events handled one after the other. */
  function ApplyPushes(c: Chat, msgs: seq<Option<Message>>): Chat
    decreases |msgs|
  {
    if msgs == [] then c else ApplyPushes(OnNewMessage(c, msgs[0]), msgs[1..])
  }
}
