/**
  Properties of the conversation store: the dedup rule is idempotent and never
  creates a second copy of an identity, a history load keeps the server's
  order and identities (repeats included), a push from the open conversation
  can be redelivered harmlessly, and N pushes from a peer whose conversation
  is not open raise its unseen count by exactly N.
 */
module ConversationProps {
  import opened Wrappers
  import opened JsValues
  import opened Conversation

  // ---------------------------------------------------------------------------
  // Counting identities
  // ---------------------------------------------------------------------------

  lemma {:induction false} CountIdAppend(ms: seq<Message>, m: Message, key: string)
    ensures CountId(ms + [m], key) == CountId(ms, key) + (if IdKey(m) == key then 1 else 0)
  {
    if ms != [] {
      assert (ms + [m])[1..] == ms[1..] + [m];
      CountIdAppend(ms[1..], m, key);
    }
  }

  /** An identity is present exactly when it is counted at least once. */
  lemma {:induction false} CountIdPositive(ms: seq<Message>, key: string)
    ensures CountId(ms, key) > 0 <==> HasId(ms, key)
  {
    if ms != [] {
      CountIdPositive(ms[1..], key);
      assert HasId(ms, key) == (IdKey(ms[0]) == key || HasId(ms[1..], key)) by {
        if HasId(ms, key) && IdKey(ms[0]) != key {
          var i :| 0 <= i < |ms| && IdKey(ms[i]) == key;
          assert IdKey(ms[1..][i - 1]) == key;
        }
      }
    }
  }

  /** A list with distinct identities holds each identity at most once. */
  lemma {:induction false} DistinctCountAtMostOne(ms: seq<Message>, key: string)
    requires DistinctIds(ms)
    ensures CountId(ms, key) <= 1
  {
    if ms != [] {
      var tail := ms[1..];
      assert DistinctIds(tail) by {
        forall i, j | 0 <= i < j < |tail| ensures IdKey(tail[i]) != IdKey(tail[j]) {
          assert tail[i] == ms[i + 1] && tail[j] == ms[j + 1];
        }
      }
      DistinctCountAtMostOne(tail, key);
      if IdKey(ms[0]) == key {
        forall i | 0 <= i < |tail| ensures IdKey(tail[i]) != key {
          assert tail[i] == ms[i + 1];
        }
        CountIdPositive(tail, key);
      }
    }
  }

  // ---------------------------------------------------------------------------
  // The dedup rule
  // ---------------------------------------------------------------------------

  /** Adding the same message twice gives the same list as adding it once. */
  lemma AddSafelyIdempotent(prev: seq<Message>, msg: Option<Message>)
    ensures AddSafely(AddSafely(prev, msg), msg) == AddSafely(prev, msg)
  {
  }

  /** Adding safely keeps all identities pairwise distinct. */
  lemma AddSafelyKeepsDistinct(prev: seq<Message>, msg: Option<Message>)
    requires DistinctIds(prev)
    ensures DistinctIds(AddSafely(prev, msg))
  {
    var r := AddSafely(prev, msg);
    if |r| == |prev| + 1 {
      forall i | 0 <= i < |prev| ensures IdKey(r[i]) != IdKey(r[|prev|]) {
        assert r[i] == prev[i];
      }
    }
  }

  /**
    The count of every identity is unchanged by an insertion, except that an
    accepted message's identity, absent before, is counted exactly once.
   */
  lemma AddSafelyCount(prev: seq<Message>, msg: Option<Message>, key: string)
    ensures CountId(AddSafely(prev, msg), key) ==
      if Accepts(prev, msg) && IdKey(msg.value) == key then 1 else CountId(prev, key)
  {
    if Accepts(prev, msg) {
      assert AddSafely(prev, msg) == prev + [msg.value];
      CountIdAppend(prev, msg.value, key);
      CountIdPositive(prev, key);
    }
  }

  // ---------------------------------------------------------------------------
  // History normalisation
  // ---------------------------------------------------------------------------

  /**
    A successful history load replaces the list, whatever it held, by the
    normalised server list: same length, same order, same identities.
   */
  lemma HistoryReplacesMessages(c: Chat, raw: seq<Message>, clock: nat -> string)
    ensures var r := GetMessages(c, Success(Some(seq(|raw|, i requires 0 <= i < |raw| => Some(raw[i])))), clock);
      |r.messages| == |raw| &&
      forall i | 0 <= i < |raw| :: r.messages[i].id == raw[i].id && r.messages[i] == Normalize(raw[i], clock(i))
  {
  }

  /**
    A history load does not deduplicate: the loaded list has pairwise distinct
    identities exactly when the server's list had, so distinct identities are
    not an invariant of the store.
   */
  lemma HistoryDistinctIffServerDistinct(c: Chat, raw: seq<Option<Message>>, clock: nat -> string)
    requires NormalizeAll(raw, clock).Some?
    ensures DistinctIds(GetMessages(c, Success(Some(raw)), clock).messages) <==>
      forall i, j | 0 <= i < j < |raw| :: IdKey(raw[i].value) != IdKey(raw[j].value)
  {
    var loaded := GetMessages(c, Success(Some(raw)), clock).messages;
    assert forall i | 0 <= i < |raw| :: IdKey(loaded[i]) == IdKey(raw[i].value);
  }

  /** The same entry delivered twice by the server is loaded twice. */
  lemma HistoryMayRepeatIds(c: Chat, m: Message, clock: nat -> string)
    ensures !DistinctIds(GetMessages(c, Success(Some([Some(m), Some(m)])), clock).messages)
  {
    HistoryDistinctIffServerDistinct(c, [Some(m), Some(m)], clock);
  }

  // ---------------------------------------------------------------------------
  // The push handler
  // ---------------------------------------------------------------------------

  /** A push from the open conversation delivered twice leaves the state it left the first time. */
  lemma PushFromOpenChatIdempotent(c: Chat, msg: Option<Message>)
    requires FromOpenChat(c.selectedUser, msg)
    ensures OnNewMessage(OnNewMessage(c, msg), msg) == OnNewMessage(c, msg)
  {
    var once := OnNewMessage(c, msg);
    AddSafelyIdempotent(c.messages, Some(msg.value.(seen := Some(true))));
    assert once.unseenMessages[SenderKey(msg) := 0] == once.unseenMessages;
  }

  /** Pushes and send confirmations keep identities pairwise distinct. */
  lemma PushKeepsDistinct(c: Chat, msg: Option<Message>)
    requires DistinctIds(c.messages)
    ensures DistinctIds(OnNewMessage(c, msg).messages)
  {
    if FromOpenChat(c.selectedUser, msg) {
      AddSafelyKeepsDistinct(c.messages, Some(msg.value.(seen := Some(true))));
    }
  }

  lemma SendKeepsDistinct(c: Chat, reply: Reply<Option<Message>>)
    requires DistinctIds(c.messages)
    ensures DistinctIds(SendMessage(c, reply).messages)
  {
    if c.selectedUser.Some? && reply.Success? {
      AddSafelyKeepsDistinct(c.messages, reply.data);
    }
  }

  /**
    The send confirmation and a push of the same message, in either order,
    leave exactly one element with that identity in the open conversation.
   */
  lemma SendAndPushLeaveOneCopy(c: Chat, sent: Message, pushed: Message)
    requires c.selectedUser.Some? && Truthy(sent.id) && pushed.id == sent.id
    requires CountId(c.messages, IdKey(sent)) <= 1
    ensures CountId(OnNewMessage(SendMessage(c, Success(Some(sent))), Some(pushed)).messages, IdKey(sent)) == 1
    ensures CountId(SendMessage(OnNewMessage(c, Some(pushed)), Success(Some(sent))).messages, IdKey(sent)) == 1
  {
    var key := IdKey(sent);
    var seenPush := pushed.(seen := Some(true));
    assert IdKey(seenPush) == key;
    CountIdPositive(c.messages, key);
    // send first
    var afterSend := SendMessage(c, Success(Some(sent)));
    AddSafelyCount(c.messages, Some(sent), key);
    CountIdPositive(afterSend.messages, key);
    if FromOpenChat(afterSend.selectedUser, Some(pushed)) {
      AddSafelyCount(afterSend.messages, Some(seenPush), key);
    }
    // push first
    var afterPush := OnNewMessage(c, Some(pushed));
    if FromOpenChat(c.selectedUser, Some(pushed)) {
      AddSafelyCount(c.messages, Some(seenPush), key);
    }
    CountIdPositive(afterPush.messages, key);
    AddSafelyCount(afterPush.messages, Some(sent), key);
  }

  /**
    The same, for a conversation whose identities are pairwise distinct, as
    every sequence of sends and pushes keeps them.
   */
  lemma DistinctSendAndPushLeaveOneCopy(c: Chat, sent: Message, pushed: Message)
    requires c.selectedUser.Some? && Truthy(sent.id) && pushed.id == sent.id
    requires DistinctIds(c.messages)
    ensures CountId(OnNewMessage(SendMessage(c, Success(Some(sent))), Some(pushed)).messages, IdKey(sent)) == 1
    ensures CountId(SendMessage(OnNewMessage(c, Some(pushed)), Success(Some(sent))).messages, IdKey(sent)) == 1
  {
    DistinctCountAtMostOne(c.messages, IdKey(sent));
    SendAndPushLeaveOneCopy(c, sent, pushed);
  }

  /**
    N pushes whose sender is `key` and whose conversation is not open raise
    that sender's unseen count by exactly N (a missing entry counting as 0),
    and leave the message list and every other count as they were.
   */
  lemma {:induction false} UnseenCountsPushes(c: Chat, msgs: seq<Option<Message>>, key: string)
    requires forall i | 0 <= i < |msgs| :: SenderKey(msgs[i]) == key && !FromOpenChat(c.selectedUser, msgs[i])
    ensures var r := ApplyPushes(c, msgs);
      r.messages == c.messages && r.selectedUser == c.selectedUser &&
      Count(r.unseenMessages, key) == Count(c.unseenMessages, key) + |msgs| &&
      forall k | k in c.unseenMessages && k != key :: k in r.unseenMessages && r.unseenMessages[k] == c.unseenMessages[k]
    decreases |msgs|
  {
    if msgs != [] {
      var next := OnNewMessage(c, msgs[0]);
      assert forall i | 0 <= i < |msgs[1..]| :: msgs[1..][i] == msgs[i + 1];
      UnseenCountsPushes(next, msgs[1..], key);
    }
  }

  /**
    History for the open peer followed by a redelivered push of a message the
    history holds: the list is exactly the normalised history, with no second
    copy, and the peer's unseen count is 0.
   */
  lemma HistoryThenDuplicatePush(c: Chat, raw: seq<Option<Message>>, clock: nat -> string, m: Message, k: nat)
    requires FromOpenChat(c.selectedUser, Some(m)) && Truthy(m.id)
    requires NormalizeAll(raw, clock).Some? && k < |raw| && raw[k].value.id == m.id
    ensures var r := OnNewMessage(GetMessages(c, Success(Some(raw)), clock), Some(m));
      r.messages == NormalizeAll(raw, clock).value && r.unseenMessages[SenderKey(Some(m))] == 0
  {
    var loaded := GetMessages(c, Success(Some(raw)), clock);
    assert IdKey(loaded.messages[k]) == IdKey(m.(seen := Some(true)));
  }
}
