/** The client's `socket` state slice (socket id, online users, typing users,
    unread counters, the latest unread source) and the socket event handlers
    that dispatch into it and into the chat slice. */
module SocketSlice {
  import opened Wrappers
  import opened Lists
  import opened ChatSlice

  /** Unread counter of `key`: a missing key reads as 0. */
  function UnreadCount(unread: map<string, nat>, key: string): nat {
    if key in unread then unread[key] else 0
  }

  /** `incrementUnreadMessage(key)`: a falsy counter (missing or 0) becomes
      1, any other grows by one. */
  function Incremented(unread: map<string, nat>, key: string): (r: map<string, nat>)
    ensures r.Keys == unread.Keys + {key}
    ensures UnreadCount(r, key) == UnreadCount(unread, key) + 1
    ensures forall k :: k in unread && k != key ==> r[k] == unread[k]
  {
    if key !in unread || unread[key] == 0 then unread[key := 1]
    else unread[key := unread[key] + 1]
  }

  /** `clearUserUnreadMessages(key)`: a truthy counter is reset to 0; a
      missing key is not created. */
  function Cleared(unread: map<string, nat>, key: string): (r: map<string, nat>)
    ensures r.Keys == unread.Keys
    ensures UnreadCount(r, key) == 0
    ensures forall k :: k in unread && k != key ==> r[k] == unread[k]
  {
    if key in unread && unread[key] != 0 then unread[key := 0] else unread
  }

  /** Clearing undoes any number of increments of the same key, and leaves
      every other counter as it was. */
  lemma {:induction false} ClearAfterIncrements(unread: map<string, nat>, key: string, n: nat)
    ensures var after := Cleared(IncrementedTimes(unread, key, n), key);
            UnreadCount(after, key) == 0 &&
            (forall k :: k != key ==> UnreadCount(after, k) == UnreadCount(unread, k))
    ensures UnreadCount(IncrementedTimes(unread, key, n), key) == UnreadCount(unread, key) + n
  {
    if n > 0 {
      ClearAfterIncrements(unread, key, n - 1);
    }
  }

  function IncrementedTimes(unread: map<string, nat>, key: string, n: nat): (r: map<string, nat>)
    ensures forall k :: k != key ==> UnreadCount(r, k) == UnreadCount(unread, k)
  {
    if n == 0 then unread else Incremented(IncrementedTimes(unread, key, n - 1), key)
  }

  /** The duplicate test of the `newMessage` handler: same `_id` (two
      missing ids compare equal), the same truthy `tempId`, or the same text
      with creation times less than a second apart (a missing time never
      matches). */
  predicate SameMessage(existing: ChatMessage, incoming: ChatMessage) {
    || existing.id == incoming.id
    || (Truthy(existing.tempId) && existing.tempId == incoming.tempId)
    || (existing.text == incoming.text && existing.createdAt.Some? && incoming.createdAt.Some?
        && -1000 < existing.createdAt.value - incoming.createdAt.value < 1000)
  }

  /** `messages.some(msg => SameMessage(msg, incoming))`, scanning from the front. */
  function AnyMatch(messages: seq<ChatMessage>, incoming: ChatMessage): bool {
    if |messages| == 0 then false
    else SameMessage(messages[0], incoming) || AnyMatch(messages[1..], incoming)
  }

  lemma {:induction false} AnyMatchExists(messages: seq<ChatMessage>, incoming: ChatMessage)
    ensures AnyMatch(messages, incoming) <==> exists i :: 0 <= i < |messages| && SameMessage(messages[i], incoming)
  {
    if |messages| > 0 {
      AnyMatchExists(messages[1..], incoming);
      if !SameMessage(messages[0], incoming) && AnyMatch(messages[1..], incoming) {
        var j :| 0 <= j < |messages[1..]| && SameMessage(messages[1..][j], incoming);
        assert SameMessage(messages[j + 1], incoming);
      }
      if exists i :: 0 <= i < |messages| && SameMessage(messages[i], incoming) {
        var i :| 0 <= i < |messages| && SameMessage(messages[i], incoming);
        if i > 0 {
          assert SameMessage(messages[1..][i - 1], incoming);
        }
      }
    }
  }

  /** The incoming message is appended only when nothing already listed
      matches it and it was not sent by the signed-in user. */
  predicate ShouldAppend(messages: seq<ChatMessage>, incoming: ChatMessage, currentUserId: Id) {
    !AnyMatch(messages, incoming) && SenderIdOf(incoming.senderId) != currentUserId
  }

  /** The conversation whose unread counter the message bumps: its group
      when it has one, otherwise its sender, unless that conversation is the
      one on screen. */
  function UnreadTarget(incoming: ChatMessage, selected: Option<Conversation>): (r: Option<string>)
    ensures r.Some? ==> selected.None? || selected.value.id != r.value
    ensures Truthy(incoming.groupId) ==> (r.Some? ==> r.value == incoming.groupId.value)
    ensures !Truthy(incoming.groupId) ==> (r.Some? ==> r.value == SenderIdOf(incoming.senderId))
    ensures r.None? ==> selected.Some?
  {
    var key := if Truthy(incoming.groupId) then incoming.groupId.value else SenderIdOf(incoming.senderId);
    if selected.None? || selected.value.id != key then Some(key) else None
  }

  /** The `typing`/`stopTyping` handlers: the indicator changes only for the
      conversation on screen, the group when the event names one, else the
      sender. */
  function TypingUpdate(senderId: Option<Id>, groupId: Option<Id>, selected: Option<Conversation>, isTyping: bool)
    : (r: Option<TypingStatus>)
    ensures r.Some? ==> selected.Some? && r.value == TypingOf(selected.value.id, isTyping)
    ensures r.Some? <==>
              selected.Some? &&
              (if Truthy(groupId) then groupId.value == selected.value.id
               else senderId == Some(selected.value.id))
  {
    if Truthy(groupId) && selected.Some? && selected.value.id == groupId.value then
      Some(TypingOf(groupId.value, isTyping))
    else if !Truthy(groupId) && selected.Some? && senderId == Some(selected.value.id) then
      Some(TypingOf(senderId.value, isTyping))
    else None
  }

  class SocketState {
    var socketId: Option<string>
    var onlineUsers: seq<Id>
    var typingUsers: seq<Id>
    var unreadMessages: map<string, nat>
    var newMessageFrom: Option<string>

    constructor ()
      ensures socketId.None? && onlineUsers == [] && typingUsers == []
      ensures unreadMessages == map[] && newMessageFrom.None?
    {
      socketId, onlineUsers, typingUsers := None, [], [];
      unreadMessages, newMessageFrom := map[], None;
    }

    method SetOnlineUsers(userIds: seq<Id>)
      modifies this`onlineUsers
      ensures onlineUsers == userIds
    {
      onlineUsers := userIds;
    }

    method SetSocket(id: Option<string>)
      modifies this`socketId
      ensures socketId == id
    {
      socketId := id;
    }

    method SetNewMessageFrom(source: Option<string>)
      modifies this`newMessageFrom
      ensures newMessageFrom == source
    {
      newMessageFrom := source;
    }

    method AddTypingUser(userId: Id)
      modifies this`typingUsers
      ensures typingUsers == AddedOnce(old(typingUsers), userId)
      ensures userId in typingUsers
      ensures NoDuplicates(old(typingUsers)) ==> NoDuplicates(typingUsers)
    {
      AddedOnceProperties(typingUsers, userId);
      if userId !in typingUsers {
        typingUsers := typingUsers + [userId];
      }
    }

    method RemoveTypingUser(userId: Id)
      modifies this`typingUsers
      ensures typingUsers == Without(old(typingUsers), userId)
      ensures userId !in typingUsers
      ensures forall u :: u != userId ==> (u in typingUsers <==> u in old(typingUsers))
    {
      WithoutMembers(typingUsers, userId);
      typingUsers := Without(typingUsers, userId);
    }

    method ClearUserUnreadMessages(key: string)
      modifies this`unreadMessages
      ensures unreadMessages == Cleared(old(unreadMessages), key)
    {
      if key in unreadMessages && unreadMessages[key] != 0 {
        unreadMessages := unreadMessages[key := 0];
      }
    }

    method IncrementUnreadMessage(key: string)
      modifies this`unreadMessages
      ensures unreadMessages == Incremented(old(unreadMessages), key)
    {
      if key !in unreadMessages || unreadMessages[key] == 0 {
        unreadMessages := unreadMessages[key := 1];
      } else {
        unreadMessages := unreadMessages[key := unreadMessages[key] + 1];
      }
    }

    /** `connectSocket.fulfilled`: a falsy socket id is stored as `null`. */
    method ConnectFulfilled(payload: Option<string>)
      modifies this`socketId
      ensures socketId == if Truthy(payload) then payload else None
    {
      socketId := if Truthy(payload) then payload else None;
    }

    method DisconnectFulfilled()
      modifies this`socketId, this`onlineUsers
      ensures socketId.None? && onlineUsers == []
    {
      socketId := None;
      onlineUsers := [];
    }
  }

  /** The `newMessage` handler, with the signed-in user's id. The selection
      and message list are read once, before anything is dispatched. */
  method OnNewMessage(chat: ChatState, sock: SocketState, currentUserId: Id, incoming: ChatMessage)
    modifies chat`messages, sock`unreadMessages, sock`newMessageFrom
    ensures chat.messages ==
              if ShouldAppend(old(chat.messages), incoming, currentUserId)
              then old(chat.messages) + [incoming] else old(chat.messages)
    ensures var target := UnreadTarget(incoming, old(chat.selectedUser));
            && sock.unreadMessages == (if target.Some? then Incremented(old(sock.unreadMessages), target.value)
                                       else old(sock.unreadMessages))
            && sock.newMessageFrom == (if target.Some? then target else old(sock.newMessageFrom))
  {
    var selected := chat.selectedUser;
    var alreadyListed := AnyMatch(chat.messages, incoming);
    var senderId := SenderIdOf(incoming.senderId);
    if !alreadyListed && senderId != currentUserId {
      chat.AddMessage(incoming);
    }
    var target := UnreadTarget(incoming, selected);
    if target.Some? {
      sock.IncrementUnreadMessage(target.value);
      sock.SetNewMessageFrom(target);
    }
  }

  /** The `typing` (`isTyping` true) and `stopTyping` (false) handlers. */
  method OnTyping(chat: ChatState, senderId: Option<Id>, groupId: Option<Id>, isTyping: bool)
    modifies chat`typing
    ensures var u := TypingUpdate(senderId, groupId, old(chat.selectedUser), isTyping);
            chat.typing == if u.Some? then u.value else old(chat.typing)
  {
    var u := TypingUpdate(senderId, groupId, chat.selectedUser, isTyping);
    if u.Some? {
      chat.SetTyping(u.value);
    }
  }

  /** The `messagesRead` handler. */
  method OnMessagesRead(chat: ChatState, readerId: Option<Id>)
    modifies chat`messages
    ensures chat.messages == MarkedRead(old(chat.messages), readerId)
  {
    chat.MarkMessagesAsRead(readerId);
  }

  /** A message from the open conversation never raises its badge; a
      message from any other conversation raises exactly that conversation's
      counter by one. */
  lemma UnreadBadgeOnlyOffScreen(unread: map<string, nat>, incoming: ChatMessage, selected: Conversation)
    ensures var key := if Truthy(incoming.groupId) then incoming.groupId.value else SenderIdOf(incoming.senderId);
            var t := UnreadTarget(incoming, Some(selected));
            (t.None? <==> key == selected.id) &&
            (t.Some? ==> UnreadCount(Incremented(unread, t.value), key) == UnreadCount(unread, key) + 1)
  {
  }

  /** An incoming message that is already listed is never appended twice:
      appending it makes a second call a no-op. */
  lemma NoDoubleAppend(messages: seq<ChatMessage>, incoming: ChatMessage, currentUserId: Id)
    ensures !ShouldAppend(messages + [incoming], incoming, currentUserId)
  {
    var all := messages + [incoming];
    assert SameMessage(all[|messages|], incoming);
    AnyMatchExists(all, incoming);
  }
}
