/** The client's `chat` state slice: the open conversation's messages, the
    contact list, the selected user or group, loading flags and the typing
    indicator, with the reducers that update them in place. */
module ChatSlice {
  import opened Wrappers

  type Id = string

  /** `senderId` arrives either as a plain id or populated with the
      sender's profile. */
  datatype SenderRef = PlainSender(id: Id) | PopulatedSender(id: Id, fullName: string)

  /** `typeof senderId === 'object' ? senderId._id : senderId`. */
  function SenderIdOf(s: SenderRef): Id {
    match s
    case PlainSender(id) => id
    case PopulatedSender(id, _) => id
  }

  /** A message as the client holds it; `createdAt` in milliseconds. */
  datatype ChatMessage = ChatMessage(
    id: Option<Id>,
    tempId: Option<string>,
    senderId: SenderRef,
    receiverId: Option<Id>,
    groupId: Option<Id>,
    text: Option<string>,
    image: Option<string>,
    createdAt: Option<int>,
    isRead: bool)

  /** A populated user reference (a group's creator or member). */
  datatype UserRef = UserRef(id: Id, fullName: string)

  /** A user or a group as the client receives it: groups carry `name`,
      `createdBy` and `members`, users `fullName` and `email`. */
  datatype Conversation = Conversation(
    id: Id,
    fullName: Option<string>,
    email: Option<string>,
    name: Option<string>,
    groupAvatar: Option<string>,
    createdBy: Option<UserRef>,
    members: Option<seq<UserRef>>)

  /** The `typing` field: initially `false`, afterwards the last
      `{ targetId, isTyping }` payload. */
  datatype TypingStatus = NotTyping | TypingOf(targetId: Id, isTyping: bool)

  /** `markMessagesAsRead(readerId)`: the messages addressed to `readerId`
      become read. */
  function MarkedRead(messages: seq<ChatMessage>, readerId: Option<Id>): (r: seq<ChatMessage>)
    ensures |r| == |messages|
  {
    if |messages| == 0 then []
    else
      var m := messages[0];
      [if m.receiverId == readerId then m.(isRead := true) else m] + MarkedRead(messages[1..], readerId)
  }

  /** Exactly the messages whose receiver is the reader become read; all
      other fields, the order and every other message stay as they were. */
  lemma {:induction false} MarkedReadAt(messages: seq<ChatMessage>, readerId: Option<Id>, i: nat)
    requires i < |messages|
    ensures MarkedRead(messages, readerId)[i].isRead == (messages[i].isRead || messages[i].receiverId == readerId)
    ensures MarkedRead(messages, readerId)[i].(isRead := messages[i].isRead) == messages[i]
  {
    if i > 0 {
      MarkedReadAt(messages[1..], readerId, i - 1);
    }
  }

  /** Marking twice is marking once. */
  lemma {:induction false} MarkedReadIdempotent(messages: seq<ChatMessage>, readerId: Option<Id>)
    ensures MarkedRead(MarkedRead(messages, readerId), readerId) == MarkedRead(messages, readerId)
  {
    if |messages| > 0 {
      MarkedReadIdempotent(messages[1..], readerId);
    }
  }

  class ChatState {
    var messages: seq<ChatMessage>
    var users: Option<seq<Conversation>>   // None: the last payload was not an array
    var selectedUser: Option<Conversation>
    var isUsersLoading: bool
    var isMessagesLoading: bool
    var typing: TypingStatus

    constructor ()
      ensures messages == [] && users == Some([]) && selectedUser.None?
      ensures !isUsersLoading && !isMessagesLoading && typing == NotTyping
    {
      messages, users, selectedUser := [], Some([]), None;
      isUsersLoading, isMessagesLoading, typing := false, false, NotTyping;
    }

    /** Deselecting (`null`) empties the message list; selecting keeps it. */
    method SetSelectedUser(selection: Option<Conversation>)
      modifies this
      ensures selectedUser == selection
      ensures messages == if selection.None? then [] else old(messages)
      ensures users == old(users) && typing == old(typing)
      ensures isUsersLoading == old(isUsersLoading) && isMessagesLoading == old(isMessagesLoading)
    {
      selectedUser := selection;
      if selection.None? {
        messages := [];
      }
    }

    method AddMessage(m: ChatMessage)
      modifies this`messages
      ensures messages == old(messages) + [m]
    {
      messages := messages + [m];
    }

    method ClearMessages()
      modifies this`messages
      ensures messages == []
    {
      messages := [];
    }

    method SetTyping(t: TypingStatus)
      modifies this`typing
      ensures typing == t
    {
      typing := t;
    }

    method MarkMessagesAsRead(readerId: Option<Id>)
      modifies this`messages
      ensures messages == MarkedRead(old(messages), readerId)
    {
      messages := MarkedRead(messages, readerId);
    }

    method GetUsersPending()
      modifies this`isUsersLoading
      ensures isUsersLoading
    {
      isUsersLoading := true;
    }

    method GetUsersFulfilled(payload: Option<seq<Conversation>>)
      modifies this`isUsersLoading, this`users
      ensures !isUsersLoading && users == payload
    {
      isUsersLoading := false;
      users := payload;
    }

    method GetUsersRejected()
      modifies this`isUsersLoading
      ensures !isUsersLoading
    {
      isUsersLoading := false;
    }

    method GetMessagesPending()
      modifies this`isMessagesLoading
      ensures isMessagesLoading
    {
      isMessagesLoading := true;
    }

    method GetMessagesFulfilled(payload: seq<ChatMessage>)
      modifies this`isMessagesLoading, this`messages
      ensures !isMessagesLoading && messages == payload
    {
      isMessagesLoading := false;
      messages := payload;
    }

    method GetMessagesRejected()
      modifies this`isMessagesLoading
      ensures !isMessagesLoading
    {
      isMessagesLoading := false;
    }

    method SendMessageFulfilled(m: ChatMessage)
      modifies this`messages
      ensures messages == old(messages) + [m]
    {
      messages := messages + [m];
    }
  }
}
