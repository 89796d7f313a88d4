/** The contact list: which users are listed, the unread badge and status
    line of each row, the notice shown when nobody is listed, and what a
    click on a row does. */
module Sidebar {
  import opened Wrappers
  import opened Text
  import opened ChatSlice
  import SocketSlice

  /** Whether a user gets a row: never the system account (matched by
      email; an unset `SYSTEM_EMAIL` matches users without one), and only
      online users when the toggle is on. The page starts with the toggle
      off and has no control that switches it on, so as written every
      non-system user is listed, online or not. */
  predicate Listed(u: Conversation, onlineUsers: seq<Id>, showOnlineOnly: bool, systemEmail: Option<string>) {
    u.email != systemEmail && (!showOnlineOnly || u.id in onlineUsers)
  }

  /** `filteredUsers`: `None` stands for a `users` value that is not an
      array. */
  function FilteredUsers(users: Option<seq<Conversation>>, onlineUsers: seq<Id>, showOnlineOnly: bool,
                         systemEmail: Option<string>): (r: seq<Conversation>)
    ensures users.None? ==> r == []
    ensures users.Some? ==> |r| <= |users.value|
    ensures forall u :: u in r <==> users.Some? && u in users.value && Listed(u, onlineUsers, showOnlineOnly, systemEmail)
  {
    if users.None? then [] else Kept(users.value, onlineUsers, showOnlineOnly, systemEmail)
  }

  function Kept(users: seq<Conversation>, onlineUsers: seq<Id>, showOnlineOnly: bool,
                systemEmail: Option<string>): (r: seq<Conversation>)
    ensures |r| <= |users|
    ensures forall u :: u in r <==> u in users && Listed(u, onlineUsers, showOnlineOnly, systemEmail)
  {
    if |users| == 0 then []
    else
      var rest := Kept(users[1..], onlineUsers, showOnlineOnly, systemEmail);
      assert forall u :: u in users <==> u == users[0] || u in users[1..];
      if Listed(users[0], onlineUsers, showOnlineOnly, systemEmail) then [users[0]] + rest else rest
  }

  /** The filter keeps the users' order: it distributes over concatenation. */
  lemma {:induction false} KeptAppend(a: seq<Conversation>, b: seq<Conversation>, onlineUsers: seq<Id>,
                                      showOnlineOnly: bool, systemEmail: Option<string>)
    ensures Kept(a + b, onlineUsers, showOnlineOnly, systemEmail)
            == Kept(a, onlineUsers, showOnlineOnly, systemEmail) + Kept(b, onlineUsers, showOnlineOnly, systemEmail)
  {
    if |a| > 0 {
      assert (a + b)[1..] == a[1..] + b;
      KeptAppend(a[1..], b, onlineUsers, showOnlineOnly, systemEmail);
    } else {
      assert a + b == b;
    }
  }

  /** The toggle as the page holds it: `useState(false)`, never set. */
  const ShowOnlineOnly: bool := false

  /** "No online users" is shown exactly when nobody is listed: when
      `users` is not an array, or no user in it qualifies. With the toggle
      off, as the page keeps it, that is when every user is the system
      account, so an offline user still gets a row and no notice appears;
      with the toggle on, it is when every non-system user is offline. */
  lemma EmptyNotice(users: Option<seq<Conversation>>, onlineUsers: seq<Id>, showOnlineOnly: bool,
                    systemEmail: Option<string>)
    ensures |FilteredUsers(users, onlineUsers, showOnlineOnly, systemEmail)| == 0 <==>
            users.None? || forall u :: u in users.value ==> !Listed(u, onlineUsers, showOnlineOnly, systemEmail)
    ensures !showOnlineOnly ==>
              (|FilteredUsers(users, onlineUsers, showOnlineOnly, systemEmail)| == 0 <==>
               users.None? || forall u :: u in users.value ==> u.email == systemEmail)
    ensures showOnlineOnly ==>
              (|FilteredUsers(users, onlineUsers, showOnlineOnly, systemEmail)| == 0 <==>
               users.None? || forall u :: u in users.value ==> u.email == systemEmail || u.id !in onlineUsers)
  {
    var r := FilteredUsers(users, onlineUsers, showOnlineOnly, systemEmail);
    if |r| > 0 {
      assert r[0] in r;
    }
  }

  /** On the page as written, an offline non-system user is listed, so
      the notice stays hidden although nobody is online. */
  lemma OfflineUserStillListed(u: Conversation, systemEmail: Option<string>)
    requires u.email != systemEmail
    ensures FilteredUsers(Some([u]), [], ShowOnlineOnly, systemEmail) == [u]
  {
  }

  datatype Badge = NoBadge | BadgeLabel(caption: string)

  /** The unread badge of a row: hidden unless the counter is positive,
      "9+" above nine, otherwise the count itself. */
  function UnreadBadge(unread: map<string, nat>, id: Id): (r: Badge)
    ensures r.NoBadge? <==> SocketSlice.UnreadCount(unread, id) == 0
    ensures SocketSlice.UnreadCount(unread, id) > 9 ==> r == BadgeLabel("9+")
    ensures 0 < SocketSlice.UnreadCount(unread, id) <= 9 ==>
              r.BadgeLabel? && |r.caption| == 1 && IsDigit(r.caption[0])
              && DigitValue(r.caption[0]) == unread[id]
  {
    var n := SocketSlice.UnreadCount(unread, id);
    if n == 0 then NoBadge
    else if n > 9 then BadgeLabel("9+")
    else BadgeLabel(NatToString(n))
  }

  /** The status line: typing beats online, online beats offline. */
  function StatusLabel(typing: bool, online: bool): (r: string)
    ensures r == "Typing..." <==> typing
    ensures r == "Online" <==> !typing && online
    ensures r == "Offline" <==> !typing && !online
  {
    if typing then "Typing..." else if online then "Online" else "Offline"
  }

  /** A user row's status line. */
  function RowStatus(id: Id, typingUsers: seq<Id>, onlineUsers: seq<Id>): string {
    StatusLabel(id in typingUsers, id in onlineUsers)
  }

  /** A click on a user or group row (group rows need a `groups` list,
      which chatSlice.js does not define): select it, clear its unread counter,
      and emit `markAsRead` with its id as `senderId`, which is returned. */
  method Click(chat: ChatState, sock: SocketSlice.SocketState, row: Conversation) returns (markAsReadSender: Id)
    modifies chat, sock`unreadMessages
    ensures chat.selectedUser == Some(row)
    ensures chat.messages == old(chat.messages) && chat.typing == old(chat.typing)
    ensures chat.users == old(chat.users) && chat.isUsersLoading == old(chat.isUsersLoading)
            && chat.isMessagesLoading == old(chat.isMessagesLoading)
    ensures sock.unreadMessages == SocketSlice.Cleared(old(sock.unreadMessages), row.id)
    ensures SocketSlice.UnreadCount(sock.unreadMessages, row.id) == 0
    ensures UnreadBadge(sock.unreadMessages, row.id) == NoBadge
    ensures markAsReadSender == row.id
  {
    chat.SetSelectedUser(Some(row));
    sock.ClearUserUnreadMessages(row.id);
    markAsReadSender := row.id;
  }
}
