/**
  The chat provider as the stateful object it is: its four state fields and
  the operations that update them, each proved to perform the transition the
  Conversation module defines for it.
 */
module ChatStore {
  import opened Wrappers
  import opened JsValues
  import Conversation

  class ChatProvider {
    var messages: seq<Message>
    var users: seq<User>
    var selectedUser: Option<User>
    var unseenMessages: map<string, int>

    /** The provider's state as a value. */
    ghost function State(): Conversation.Chat
      reads this
    {
      Conversation.Chat(messages, users, selectedUser, unseenMessages)
    }

    /** Empty list, empty directory, no peer selected, no unseen counts. */
    constructor ()
      ensures State() == Conversation.Chat([], [], None, map[])
    {
      messages := [];
      users := [];
      selectedUser := None;
      unseenMessages := map[];
    }

    /** `addMessageSafely`: only the message list changes, through the dedup rule. */
    method AddMessageSafely(msg: Option<Message>)
      modifies this
      ensures messages == Conversation.AddSafely(old(messages), msg)
      ensures users == old(users) && selectedUser == old(selectedUser)
      ensures unseenMessages == old(unseenMessages)
    {
      if msg.None? || !Truthy(msg.value.id) {
        return;
      }
      var present := Conversation.HasId(messages, Conversation.IdKey(msg.value));
      if !present {
        messages := messages + [msg.value];
      }
    }

    /** `getUsers`, once the reply of GET /api/messages/users is known. */
    method GetUsers(reply: Reply<Conversation.UsersData>)
      modifies this
      ensures State() == Conversation.GetUsers(old(State()), reply)
    {
      match reply
      case Success(data) =>
        users := data.users.GetOr([]);
        unseenMessages := data.unseenMessages.GetOr(map[]);
      case _ =>
    }

    /**
      `getMessages`, once the reply of GET /api/messages/:userId is known;
      `clock(i)` is the clock reading that stands in for entry i's missing timestamp.
     */
    method GetMessages(reply: Reply<Option<seq<Option<Message>>>>, clock: nat -> string)
      modifies this
      ensures State() == Conversation.GetMessages(old(State()), reply, clock)
    {
      match reply
      case Success(data) =>
        var safeMessages := Conversation.NormalizeAll(data.GetOr([]), clock);
        if safeMessages.Some? {
          messages := safeMessages.value;
        }
      case _ =>
    }

    /** `sendMessage`, once the reply of POST /api/messages/send/:id is known. */
    method SendMessage(reply: Reply<Option<Message>>)
      modifies this
      ensures State() == Conversation.SendMessage(old(State()), reply)
    {
      if selectedUser.None? {
        return;
      }
      match reply
      case Success(newMessage) => AddMessageSafely(newMessage);
      case _ =>
    }

    /**
      The `newMessage` push handler. The mark-seen request it awaits has no
      effect on the state whichever way it ends, so it is not a parameter.
     */
    method OnNewMessage(newMessage: Option<Message>)
      modifies this
      ensures State() == Conversation.OnNewMessage(old(State()), newMessage)
    {
      var senderId := Conversation.SenderKey(newMessage);
      var openUserId := Conversation.OpenUserId(selectedUser);
      if openUserId.Some? && newMessage.Some? && newMessage.value.senderId == Str(openUserId.value) {
        var seenMessage := newMessage.value.(seen := Some(true));
        AddMessageSafely(Some(seenMessage));
        unseenMessages := Conversation.ResetUnseen(unseenMessages, senderId);
      } else {
        unseenMessages := Conversation.BumpUnseen(unseenMessages, senderId);
      }
    }

    /** `setSelectedUser`: opens a conversation (or closes it with None); nothing else changes. */
    method SetSelectedUser(user: Option<User>)
      modifies this
      ensures State() == old(State()).(selectedUser := user)
    {
      selectedUser := user;
    }
  }
}
