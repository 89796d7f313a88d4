# lynkup chat — a Dafny model of its core

lynkup is a real-time chat application: a Node/Express server with a
Socket.IO presence registry and group-chat request handlers over a document
store, and a React/Redux client whose slices hold the signed-in user, the
open conversation, the contact list, presence and unread counters. This
project models that core in Dafny and proves what it promises.

Server side:
- `Presence` (registry.dfy): the `userSocketMap` registry as a class whose
  `Connect`, `Disconnect` and `Typing` handlers update the map in place and
  record what they emit. It is specified by a replay of connect/disconnect
  events: every reachable registry lists each online user once, and a lookup
  returns the latest connect unless a later disconnect of that user id
  removed it.
- `Models` (models.dfy): the group and message schemas, covering required
  paths, defaults that apply only to absent values, and timestamps.
- `GroupController` (group_controller.dfy): create, add members, delete,
  leave, send to a group and edit. Each handler is a function from the
  looked-up group to an error response or to the saved group and system
  message. It keeps the same checks in the same order, the same status codes
  and the same texts.

Client side:
- `ChatSlice`, `SocketSlice`, `AuthSlice`: the Redux slices as classes whose
  reducer methods update fields in place. Each is tied to pure functions:
  read-marking, unread counters, the duplicate test for incoming messages,
  typing updates, and the auth lifecycle.
- `SocketSlice` also holds the socket event handlers that dispatch into both
  slices.
- Pages and components (`SignUp`, `GroupPage`, `AddMembers`, `EditGroup`,
  `MessageInput`, `Sidebar`, `ChatHeader`): their checks and derived values.
  Cross-module lemmas connect them to the server handlers. For example, every
  group creation request the page can send passes the server's validation,
  and the created group lists exactly the selected users followed by the
  creator.

Shared modules:
- `Lists`: JavaScript's `Array.from(new Set(xs))`, `filter`, toggling and
  add-if-absent.
- `Text`: `trim`, the `\s` class, `join`, and decimal rendering.
- `Wrappers`: JavaScript truthiness and property keys.

Where the repository's documentation and its code differ, the model follows
the code:
- `sendGroupMessage` rejects a message without text even when an image is
  attached (server/controllers/group.controller.js:206-208).
- The join announcement's last branch also covers an empty name list, which
  renders as "... and -2 others have joined the group."
  (server/controllers/group.controller.js:75-77).

## Model

| member | source | states |
|---|---|---|
| Lists.DedupIsFirstOccurrences | server/controllers/group.controller.js:20 | `Array.from(new Set(xs))` keeps the first occurrence of each element, scanning left to right |
| Lists.DedupNoDuplicates | server/controllers/group.controller.js:55 | a deduplicated member list holds no id twice |
| Lists.DedupMembers | server/controllers/group.controller.js:55 | deduplication keeps exactly the elements of its input |
| Lists.DedupAppend | server/controllers/group.controller.js:55 | deduplicating `a + b` keeps `a`'s distinct elements first, then the first occurrences in `b` of those not already present |
| Lists.DedupOfDistinct | server/controllers/group.controller.js:20 | a list without duplicates is left unchanged |
| Lists.WithoutMembers | server/controllers/group.controller.js:141-143 | filtering out an id removes exactly that id and keeps every other element |
| Lists.WithoutNoDuplicates | server/controllers/group.controller.js:141-143 | filtering preserves the absence of duplicates |
| Lists.WithoutIdempotent | client/src/features/socketSlice.js:200-202 | removing the same typing user twice is removing it once |
| Lists.AddedOnceProperties | client/src/features/socketSlice.js:195-199 | add-if-absent includes the element, keeps the old list as a prefix, keeps lists duplicate-free, and is idempotent |
| Lists.ToggleMembership | client/src/pages/GroupPage.jsx:39-45 | toggling flips the membership of the clicked id and of no other |
| Lists.ToggleTwiceAbsent | client/src/pages/AddMembersPage.jsx:29-35 | clicking an unselected user twice restores the selection |
| Lists.FilterOutKeeps | client/src/pages/GroupPage.jsx:157-158 | the system-user filter keeps every element whose key differs |
| Text.TrimEmptyIffBlank | client/src/components/MessageInput.jsx:38 | `s.trim()` is empty exactly when `s` is all white space |
| Text.TrimShape | client/src/components/MessageInput.jsx:44 | the trimmed text is a contiguous piece of the input with no white space at either end |
| Text.TrimIdempotent | client/src/components/MessageInput.jsx:44 | trimming a trimmed text changes nothing |
| Text.NatToStringRoundTrip | server/controllers/group.controller.js:76 | the decimal count rendered into a message reads back as the same number |
| Models.NewMessage | server/models/message.model.js:3-31 | a message is rejected exactly when `senderId` is missing; `isRead`/`isSystem` default to false; both timestamps are the save time; the other fields are stored as given |
| Models.MessageTargetUnconstrained | server/models/message.model.js:9-16 | the schema accepts a message with both a receiver and a group, and one with neither |
| Models.NewGroup | server/models/group.model.js:3-21 | a group saves exactly when it has a non-empty name and a creator; the avatar defaults only when absent; members default to empty |
| Models.GroupAvatarDefault | server/models/group.model.js:8-11 | an absent avatar becomes "/group2.png" while an explicit `null` is stored as `null` |
| Models.GroupMembersUnconstrained | server/models/group.model.js:17-20 | the schema neither deduplicates members nor requires the creator among them |
| Presence.RegisteredWellFormed | server/lib/socket.js:26-30 | a connection keeps the key list duplicate-free and equal to the map's key set |
| Presence.UnregisteredWellFormed | server/lib/socket.js:37 | deleting a key keeps the key list duplicate-free and equal to the map's key set |
| Presence.ReplayWellFormed | server/lib/socket.js:20-39 | every registry reachable by connects and disconnects lists each online user exactly once, and exactly the map's keys |
| Presence.ReplayLookup | server/lib/socket.js:20-39 | a user is registered exactly when the last event concerning them was a connect, and then maps to that connect's socket; deletion is by user id, so an old socket's disconnect removes a newer registration |
| Presence.Registry.constructor | server/lib/socket.js:20 | the registry starts empty and consistent |
| Presence.Registry.ReceiverSocketId | server/lib/socket.js:15-17 | the lookup finds a socket exactly for registered users, and it is their current one |
| Presence.Registry.Connect | server/lib/socket.js:22-33 | a truthy handshake id is (re)bound to the socket, a falsy one changes nothing; the registry stays consistent; the online list is broadcast |
| Presence.Registry.Disconnect | server/lib/socket.js:35-39 | the captured user id's key (the key "undefined" when it was missing) is removed, every other entry is unchanged, and the new list is broadcast |
| Presence.Registry.Typing | server/lib/socket.js:41-47 | `typing` is relayed, carrying the sender's bound id, to the receiver's socket only when one is registered |
| GroupController.CreateGroup | server/controllers/group.controller.js:7-35 | a falsy name gives 400, then a missing or empty member list gives 400; otherwise the group is created with the deduplicated members plus the creator |
| GroupController.CreatedGroupMembers | server/controllers/group.controller.js:20-27 | a created group contains the creator, has no duplicate members, and lists exactly the requested ids plus the creator, in first-occurrence order |
| GroupController.JoinedText | server/controllers/group.controller.js:69-77 | the join announcement always opens with the first joiner's name; its other properties are the `JoinedText*` lemmas below |
| GroupController.JoinedTextAgreement | server/controllers/group.controller.js:67-77 | the announcement says "has joined" exactly for one name and "have joined" otherwise |
| GroupController.JoinedTextMany | server/controllers/group.controller.js:75-77 | with four or more names, the first two are named and the rest are counted in decimal |
| GroupController.JoinedTextNoNames | server/controllers/group.controller.js:75-77 | with no names the text counts "-2 others" |
| GroupController.JoinedTextFive | server/controllers/group.controller.js:75-77 | five joiners are announced as the first two and "3 others" |
| GroupController.AddGroupMembers | server/controllers/group.controller.js:37-99 | 400 without members, then 404 without group, then 403 for a non-creator; otherwise members become the deduplicated union and an unread system message announces the joiners to the group |
| GroupController.AddedMembers | server/controllers/group.controller.js:55-57 | after adding, existing members keep their positions, no id repeats, every requested id is present, and nothing else is added |
| GroupController.DeleteGroup | server/controllers/group.controller.js:102-120 | deletion succeeds exactly for the creator of an existing group (404 and 403 otherwise) |
| GroupController.LeaveGroup | server/controllers/group.controller.js:123-164 | 404 without group, 403 for the creator, 400 for a non-member; otherwise the member is filtered out and a system message says they left |
| GroupController.LeftMembers | server/controllers/group.controller.js:141-143 | after leaving, the member is gone, everyone else stays, and the member list shrinks |
| GroupController.SendGroupMessage | server/controllers/group.controller.js:201-249 | a falsy text gives 400 even with an image, then 404, then 403 for a non-member; otherwise the message is saved to the group with the uploaded image |
| GroupController.ImageWithoutTextRejected | server/controllers/group.controller.js:206-208 | an image-only group message is refused |
| GroupController.EditGroupDetails | server/controllers/group.controller.js:265-291 | the name is replaced, the avatar only when an upload produced a URL, members and creator are untouched, a missing group yields a null result |
| GroupController.EditIgnoresRequester | server/controllers/group.controller.js:265-291 | a user who is not the creator can rename a group, although the creator-checked handler refuses that same request with an error |
| GroupController.EditGroupDetailsChecked | server/controllers/group.controller.js:265-291 | corrected: 404 for a missing group, 403 for a non-creator, otherwise exactly the edit as written |
| ChatSlice.MarkedReadAt | client/src/features/chatSlice.js:71-80 | a message becomes read exactly when addressed to the reader (two missing receivers compare equal); nothing else in it changes |
| ChatSlice.MarkedReadIdempotent | client/src/features/chatSlice.js:71-80 | marking as read twice equals marking once |
| ChatSlice.ChatState.constructor | client/src/features/chatSlice.js:46-54 | the chat slice starts with no messages, no users, no selection, no loading and no typing |
| ChatSlice.ChatState.SetSelectedUser | client/src/features/chatSlice.js:56-61 | deselecting empties the messages; selecting keeps them |
| ChatSlice.ChatState.AddMessage | client/src/features/chatSlice.js:62-64 | the message is appended |
| ChatSlice.ChatState.ClearMessages | client/src/features/chatSlice.js:65-67 | the list is emptied |
| ChatSlice.ChatState.SetTyping | client/src/features/chatSlice.js:68-70 | the typing indicator is replaced |
| ChatSlice.ChatState.MarkMessagesAsRead | client/src/features/chatSlice.js:71-80 | the list becomes its read-marked version |
| ChatSlice.ChatState.GetUsersPending | client/src/features/chatSlice.js:85-87 | the users spinner turns on |
| ChatSlice.ChatState.GetUsersFulfilled | client/src/features/chatSlice.js:88-91 | the spinner turns off and the payload, array or not, becomes the user list |
| ChatSlice.ChatState.GetUsersRejected | client/src/features/chatSlice.js:92-94 | the spinner turns off, the list is kept |
| ChatSlice.ChatState.GetMessagesPending | client/src/features/chatSlice.js:97-99 | the messages spinner turns on |
| ChatSlice.ChatState.GetMessagesFulfilled | client/src/features/chatSlice.js:100-103 | the spinner turns off and the fetched messages replace the list |
| ChatSlice.ChatState.GetMessagesRejected | client/src/features/chatSlice.js:104-106 | the spinner turns off, the list is kept |
| ChatSlice.ChatState.SendMessageFulfilled | client/src/features/chatSlice.js:107-109 | the sent message is appended |
| SocketSlice.Incremented | client/src/features/socketSlice.js:209-216 | the key's counter (missing reads as 0) grows by exactly one, the key is created if needed, other counters are unchanged |
| SocketSlice.Cleared | client/src/features/socketSlice.js:203-208 | the key's counter reads 0 afterwards, no key is created, other counters are unchanged |
| SocketSlice.ClearAfterIncrements | client/src/features/socketSlice.js:203-216 | n increments raise a counter by n, and clearing then brings it to 0 without touching any other counter |
| SocketSlice.AnyMatchExists | client/src/features/socketSlice.js:57-63 | the duplicate scan succeeds exactly when some listed message matches by id, by truthy temporary id, or by text within a second |
| SocketSlice.UnreadTarget | client/src/features/socketSlice.js:75-85 | the counter bumped is the group's when the message has one, otherwise the sender's, and never that of the conversation on screen |
| SocketSlice.TypingUpdate | client/src/features/socketSlice.js:89-107 | the indicator changes exactly when the event concerns the conversation on screen (its group, or the sender when no group) and then targets it |
| SocketSlice.UnreadBadgeOnlyOffScreen | client/src/features/socketSlice.js:75-85 | a message for the open conversation raises no counter; any other raises its conversation's counter by one |
| SocketSlice.NoDoubleAppend | client/src/features/socketSlice.js:57-72 | a message already listed is never appended again |
| SocketSlice.OnNewMessage | client/src/features/socketSlice.js:52-86 | the message is appended exactly when it is new and not the user's own, and the unread counter and latest source follow `UnreadTarget` computed from the selection before the dispatch |
| SocketSlice.OnTyping | client/src/features/socketSlice.js:89-107 | the indicator becomes the update for the conversation on screen and is otherwise unchanged |
| SocketSlice.OnMessagesRead | client/src/features/socketSlice.js:109-111 | a read receipt marks the reader's messages as read |
| SocketSlice.SocketState.constructor | client/src/features/socketSlice.js:178-184 | the socket slice starts with no socket, nobody online or typing, no counters and no source |
| SocketSlice.SocketState.SetOnlineUsers | client/src/features/socketSlice.js:186-188 | the online list is replaced |
| SocketSlice.SocketState.SetSocket | client/src/features/socketSlice.js:189-191 | the socket id is replaced |
| SocketSlice.SocketState.SetNewMessageFrom | client/src/features/socketSlice.js:192-194 | the latest unread source is replaced |
| SocketSlice.SocketState.AddTypingUser | client/src/features/socketSlice.js:195-199 | the user is added unless present, and the list stays duplicate-free |
| SocketSlice.SocketState.RemoveTypingUser | client/src/features/socketSlice.js:200-202 | every occurrence of the user is removed and nobody else is |
| SocketSlice.SocketState.ClearUserUnreadMessages | client/src/features/socketSlice.js:203-208 | the counters become their cleared version |
| SocketSlice.SocketState.IncrementUnreadMessage | client/src/features/socketSlice.js:209-216 | the counters become their incremented version |
| SocketSlice.SocketState.ConnectFulfilled | client/src/features/socketSlice.js:220-222 | a falsy socket id is stored as null |
| SocketSlice.SocketState.DisconnectFulfilled | client/src/features/socketSlice.js:223-226 | the socket id and the online list are cleared |
| AuthSlice.MergeProfile | client/src/features/authSlice.js:164-171 | the updated profile has the old and the new properties; new values win and the others are kept |
| AuthSlice.MergeProfileIdempotent | client/src/features/authSlice.js:164-171 | applying the same profile update twice equals applying it once |
| AuthSlice.InFlightTracksLastAction | client/src/features/authSlice.js:86-175 | each request's flag is set exactly while that request's latest lifecycle action is its pending one (the session check starts in flight), and no action touches another request's flag |
| AuthSlice.LogoutSignsOut | client/src/features/authSlice.js:141-145 | a successful logout leaves nobody signed in, whatever came before |
| AuthSlice.AuthState.constructor | client/src/features/authSlice.js:86-94 | the slice starts signed out, with only the session check in flight |
| AuthSlice.AuthState.SetAuthUser | client/src/features/authSlice.js:100-102 | the user is replaced |
| AuthSlice.AuthState.SetSigningUp | client/src/features/authSlice.js:104-106 | the flag is replaced |
| AuthSlice.AuthState.SetLoggingIn | client/src/features/authSlice.js:107-109 | the flag is replaced |
| AuthSlice.AuthState.SetUpdatingProfile | client/src/features/authSlice.js:110-112 | the flag is replaced |
| AuthSlice.AuthState.Dispatch | client/src/features/authSlice.js:114-176 | each lifecycle action updates the slice as the reducer table says |
| SignUp.EmailShapeIsPattern | client/src/pages/SignUpPage.jsx:29 | the character-level email check agrees, in both directions, with the unanchored pattern `\S+@\S+\.\S+` |
| SignUp.ValidateForm | client/src/pages/SignUpPage.jsx:26-34 | the form is valid exactly with a non-blank name, a non-blank email matching the pattern and a password of at least six characters; otherwise the message of the first failing check in source order is returned: "Full name is required", "Email is required", "Invalid email format", "Password is required", "Password must be at least 6 characters" |
| SignUp.HandleSubmit | client/src/pages/SignUpPage.jsx:36-41 | the unchanged form is submitted exactly when it validates |
| SignUp.SubmittedFormValid | client/src/pages/SignUpPage.jsx:26-41 | whatever is submitted has a name and email that trim to non-empty, an email matching the pattern, and a password of six or more characters |
| SignUp.SpacesPasswordAccepted | client/src/pages/SignUpPage.jsx:30-31 | a password of six spaces passes: it is not trimmed |
| GroupPage.Selectable | client/src/pages/GroupPage.jsx:157-158 | only users other than the system user are offered |
| GroupPage.SelectableKeepsOthers | client/src/pages/GroupPage.jsx:157-158 | every user but the system user is offered |
| GroupPage.SelectionAfterDistinct | client/src/pages/GroupPage.jsx:39-45 | a selection built by clicks never holds an id twice and holds exactly the ids clicked an odd number of times |
| GroupPage.HandleCreateGroup | client/src/pages/GroupPage.jsx:47-62 | an empty name, then an empty selection, is refused with its message; otherwise name, selection and image are posted as they are |
| GroupPage.PageRequestAccepted | client/src/pages/GroupPage.jsx:47-62 | a request the page posts always passes the server's checks and creates the group with the deduplicated selection plus creator: the selection followed by the creator, or the selection alone when the creator selected themselves; without an image it stores a null avatar rather than the default |
| AddMembers.ExcludedIds | client/src/pages/AddMembersPage.jsx:22-25 | the excluded ids are the creator's (possibly undefined) and every member's, and nothing else |
| AddMembers.Available | client/src/pages/AddMembersPage.jsx:27 | exactly the users whose id is not excluded |
| AddMembers.ShownUsers | client/src/pages/AddMembersPage.jsx:22-27 | no member, creator or system user is offered, and every other user is |
| AddMembers.HandleAddMembers | client/src/pages/AddMembersPage.jsx:37-44 | an empty selection is refused with its message; otherwise it is posted unchanged |
| AddMembers.PageAdditionAppends | client/src/pages/AddMembersPage.jsx:29-44 | when the creator adds offered users, the server appends exactly the selection, in click order, after the existing members |
| EditGroup.OrElse | client/src/pages/EditGroupPage.jsx:23-24 | the or-default yields a truthy value itself and the fallback otherwise |
| EditGroup.EditGroupForm.constructor | client/src/pages/EditGroupPage.jsx:14-17 | the form starts empty and unlocked |
| EditGroup.EditGroupForm.Seed | client/src/pages/EditGroupPage.jsx:21-26 | a selection with an id seeds the name (or "") and the preview (or "/avatar.png"); otherwise nothing changes |
| EditGroup.EditGroupForm.SetGroupName | client/src/pages/EditGroupPage.jsx:112-119 | the typed name is stored while the input is enabled (creator, no update in flight); a disabled input keeps the name |
| EditGroup.EditGroupForm.PressSave | client/src/pages/EditGroupPage.jsx:124-130 | a disabled save button (non-creator, or an update in flight) sends nothing and leaves the lock; an enabled one sends the queued image and typed name and locks the form, so no second request leaves while one is in flight |
| EditGroup.EditGroupForm.PickImage | client/src/pages/EditGroupPage.jsx:29-40 | the picked image is both previewed and queued |
| EditGroup.EditGroupForm.StartUpdate | client/src/pages/EditGroupPage.jsx:42-53 | a non-creator is refused and nothing is sent; the creator's request carries the queued image and the name as typed, and the form locks |
| EditGroup.EditGroupForm.FinishUpdate | client/src/pages/EditGroupPage.jsx:65-67 | the form unlocks whatever the outcome |
| EditGroup.SaveFromPage | client/src/pages/EditGroupPage.jsx:50-53 | saving without a new picture keeps the avatar; a cleared name is stored as "", which the schema would refuse on creation |
| MessageInput.Composer.constructor | client/src/components/MessageInput.jsx:11-15 | the composer starts empty |
| MessageInput.Composer.ImageChange | client/src/components/MessageInput.jsx:17-29 | a non-image file is refused with a message and leaves the preview; an image becomes the preview |
| MessageInput.Composer.RemoveImage | client/src/components/MessageInput.jsx:31-34 | the preview is dropped |
| MessageInput.Composer.Send | client/src/components/MessageInput.jsx:36-57 | nothing is sent unless the text is non-blank or an image is attached; otherwise the trimmed text and image go to the selected conversation and the composer resets |
| MessageInput.Composer.EmojiClick | client/src/components/MessageInput.jsx:59-61 | the emoji is appended to the text |
| MessageInput.Composer.ToggleEmojiPicker | client/src/components/MessageInput.jsx:63-65 | the picker flips |
| MessageInput.Composer.Change | client/src/components/MessageInput.jsx:67-71 | the text is stored and `typing` is emitted to the selected id exactly when a conversation is selected and the socket is connected |
| MessageInput.SentRequestShape | client/src/components/MessageInput.jsx:38-47 | a sent text is already trimmed, and when it is blank an image is attached |
| Sidebar.FilteredUsers | client/src/components/Sidebar.jsx:42-46 | a non-array gives no rows; otherwise exactly the non-system users (only the online ones with the toggle on) |
| Sidebar.KeptAppend | client/src/components/Sidebar.jsx:42-46 | the filter keeps the users' order |
| Sidebar.EmptyNotice | client/src/components/Sidebar.jsx:146-148 | "No online users" shows exactly when `users` is not an array or nobody in it is listed: with the toggle off (as the page keeps it, :26) when every user is the system account, with it on when every non-system user is offline |
| Sidebar.OfflineUserStillListed | client/src/components/Sidebar.jsx:26-46 | with the toggle as the page leaves it, an offline non-system user still gets a row, so no notice shows although nobody is online |
| Sidebar.UnreadBadge | client/src/components/Sidebar.jsx:98-104 | no badge at zero, "9+" above nine, otherwise the single digit of the count |
| Sidebar.StatusLabel | client/src/components/Sidebar.jsx:107-113 | "Typing..." whenever typing, else "Online" whenever online, else "Offline" |
| Sidebar.Click | client/src/components/Sidebar.jsx:65-69 | a click selects the row, zeroes its counter so its badge disappears, and sends `markAsRead` for its id; the messages, typing status, user list and loading flags are unchanged |
| ChatHeader.IsTyping | client/src/components/ChatHeader.jsx:12 | the indicator is on exactly when the last typing payload is "typing" for the conversation on screen |
| ChatHeader.TypingEventShown | client/src/components/ChatHeader.jsx:12 | an event for the open conversation sets the indicator as it says, any other leaves it as it was |
| ChatHeader.RelayedTypingNeverShownInGroup | client/src/components/ChatHeader.jsx:12 | the server's relay carries no group id, so a group on screen never shows a relayed typing event |
| ChatHeader.FindByName | client/src/components/ChatHeader.jsx:50-52 | "you" is found exactly when a member has the signed-in user's full name |
| ChatHeader.OthersOf | client/src/components/ChatHeader.jsx:53-55 | "others" are exactly the members with another full name |
| ChatHeader.OthersAndYou | client/src/components/ChatHeader.jsx:50-59 | others and you together never outnumber the members |
| ChatHeader.SummaryShape | client/src/components/ChatHeader.jsx:57-64 | at most five names; "You" last exactly when a member; other names in member order, cut only at five names; remaining ≥ 0 and equal to the members not named |
| ChatHeader.MemberSummaryNeverShown | client/src/components/ChatHeader.jsx:43 | as written, the subtitle is always the presence status, so no group ever shows its member summary |
| ChatHeader.Subtitle | client/src/components/ChatHeader.jsx:43-91 | corrected: a conversation with a member list shows "Someone is typing..." while the indicator is on and the member summary otherwise; others show the status line |
| ChatHeader.SubtitleAgreesForUsers | client/src/components/ChatHeader.jsx:85-91 | for a conversation without members the written and corrected subtitles agree |

## Left out

- Persistence: `findById`, `save`, `populate`, `sort`, `findByIdAndUpdate`/`Delete` are abstracted. A handler receives the looked-up group and returns what it would save. Status-500 paths are not modelled.
- `getUserGroups`, `getGroupMessages`, `getGroupById`: pure queries whose ordering and population happen in the database.
- The client pages assume a chat slice that provides a `groups` list and the `getAllGroups` and `getGroupDetails` thunks. client/src/features/chatSlice.js defines none of them: it exports only `getUsers`, `getMessages`, `sendMessage`, five actions and the reducer. The Sidebar, GroupPage, EditGroupPage and AddMembersPage import those names anyway. Under ES modules the missing imports fail at load time, and even a tolerated `undefined` makes `groups.map` (Sidebar.jsx:119) throw before the "No online users" notice renders. The page models (`Sidebar`, `GroupPage`, `AddMembers`, `EditGroup`) therefore describe the renders and handlers as they would run with such a slice. Group rows and group refetches are not reachable with chatSlice.js as written.
- The group router is not mounted by the server's entry point, so none of the group handlers is reachable over HTTP. They are modelled as written.
- Image uploads, password hashing, tokens and the auth and message controllers are outside the core. An upload's resulting URL is a parameter.
- User names looked up for the join announcement are a parameter, as is the system user's id. The id is assumed to be configured.
- The broadcast of a system message to the group's room is represented by returning the message, not as an emission.
- Socket.IO transport and delivery are not modelled. There is no server handler for `stopTyping`, `sendMessage` or `markAsRead`: the client's emissions of them go nowhere, and the model records only the emission.
- Thunks and HTTP calls, toasts, JSX rendering, the theme slice and utilities are not modelled. Typing debounce timers and `emitMessage` are wall-clock behaviour and are left out. The `clearUnreadMessages` thunk is modelled by the reducer it dispatches.
- Presence: user ids from the handshake and the `typing` event are taken to be 24-hex ObjectId strings. Numeric keys (which `Object.keys` orders first) and names inherited from `Object.prototype` (such as "constructor" or "__proto__") are not modelled.
- Models.NewGroup: the validation error names only the first failing path (`name` before `createdBy`), whereas Mongoose's ValidationError lists every failing path.
- Object ids are modelled as strings. Malformed ids, which make the store throw, are not modelled.
- `createdAt` values are milliseconds as integers. Date parsing and invalid dates are covered only as a missing time.
- ChatSlice.ChatState.SetSelectedUser: an `undefined` payload is treated like `null`, although the source empties the messages only for `null`.
- SignUp.ValidateForm: lengths are counted in characters, not UTF-16 code units, and no Unicode normalisation is modelled.
- AddMembers.ExcludedIds: requires the selected group to carry a member list. The page throws otherwise.
- GroupPage.Selectable: takes the user list as a sequence. The page throws when `users` is not an array.
- MessageInput.Composer.ImageChange: the file is read at once. The asynchronous reader is not modelled, nor a cancelled file dialog, where `file.type` on the missing file throws.
- EditGroup.EditGroupForm.StartUpdate: the response handling after the request (refetch, reselect, close) is not modelled. Only the lock, its effect on the input and the button (`Editable`, `PressSave`, `SetGroupName`), and its release are.
- Sidebar.Listed: the online-only toggle is kept as a parameter, but the page never switches it on (`useState(false)` with no call to its setter), so only its off value (`ShowOnlineOnly`) is reachable.
- GroupController.JoinedTextMany: states the count as rendered. That it reads back as the number is the separate `Text.NatToStringRoundTrip`.

## Findings

| source | as written | input that shows it | evidently intended | confidence | as-written member | corrected member |
|---|---|---|---|---|---|---|
| client/src/components/ChatHeader.jsx:43 | the member summary is guarded by `Array.isArray(selectedUser) && selectedUser?.members`, and the selected conversation is an object | any selected group with members, e.g. two members and no one typing: the header shows "Online"/"Offline" | show the member summary (or "Someone is typing...") for a conversation that has members | high, not executed | ChatHeader.MemberSummaryNeverShown | ChatHeader.Subtitle |
| server/controllers/group.controller.js:265-291 | `editGroupDetails` never checks who is asking | a user who is not the group's creator sends a new name: it is saved | only the creator may edit, as for adding members and deleting, and as the edit page enforces | medium, not executed | GroupController.EditIgnoresRequester | GroupController.EditGroupDetailsChecked |
