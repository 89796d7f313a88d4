/** The header of the open conversation: the typing indicator and the
    subtitle, which for a group is meant to summarise its members and
    otherwise shows the presence status. */
module ChatHeader {
  import opened Wrappers
  import opened Text
  import opened ChatSlice
  import Sidebar
  import SocketSlice

  /** `typing?.isTyping && typing?.targetId === selectedUser?._id`. */
  function IsTyping(typing: TypingStatus, selected: Option<Conversation>): (r: bool)
    ensures r ==> selected.Some? && typing == TypingOf(selected.value.id, true)
    ensures selected.Some? && typing == TypingOf(selected.value.id, true) ==> r
  {
    match typing
    case NotTyping => false
    case TypingOf(target, on) => on && selected.Some? && target == selected.value.id
  }

  /** A typing event for the open conversation shows or hides the
      indicator as the event says; an event for another conversation is
      ignored, so what is shown does not change. */
  lemma TypingEventShown(typing: TypingStatus, senderId: Option<Id>, groupId: Option<Id>,
                         selected: Option<Conversation>, isTyping: bool)
    ensures var u := SocketSlice.TypingUpdate(senderId, groupId, selected, isTyping);
            IsTyping(if u.Some? then u.value else typing, selected) ==
            (if u.Some? then isTyping else IsTyping(typing, selected))
  {
  }

  /** The server relays `typing` with the sender's id and no group id, so
      while a group is open a relayed event never lights the indicator
      (group ids are never user ids). */
  lemma RelayedTypingNeverShownInGroup(typing: TypingStatus, senderId: Option<Id>, group: Conversation)
    requires senderId != Some(group.id)
    ensures SocketSlice.TypingUpdate(senderId, None, Some(group), true).None?
  {
  }

  /** The first member with the given full name (`members.find`). */
  function FindByName(members: seq<UserRef>, fullName: string): (r: Option<UserRef>)
    ensures r.Some? <==> exists m :: m in members && m.fullName == fullName
    ensures r.Some? ==> r.value in members && r.value.fullName == fullName
  {
    if |members| == 0 then None
    else if members[0].fullName == fullName then Some(members[0])
    else
      var rest := FindByName(members[1..], fullName);
      assert forall m :: m in members <==> m == members[0] || m in members[1..];
      rest
  }

  /** The members with any other full name, in order. */
  function OthersOf(members: seq<UserRef>, fullName: string): (r: seq<UserRef>)
    ensures |r| <= |members|
    ensures forall m :: m in r <==> m in members && m.fullName != fullName
  {
    if |members| == 0 then []
    else
      var rest := OthersOf(members[1..], fullName);
      assert forall m :: m in members <==> m == members[0] || m in members[1..];
      if members[0].fullName != fullName then [members[0]] + rest else rest
  }

  /** The signed-in user, when a member, is not among the others, so the
      two together never outnumber the members. */
  lemma {:induction false} OthersAndYou(members: seq<UserRef>, fullName: string)
    ensures |OthersOf(members, fullName)| + (if FindByName(members, fullName).Some? then 1 else 0) <= |members|
  {
    if |members| > 0 {
      OthersAndYou(members[1..], fullName);
    }
  }

  function FullNames(members: seq<UserRef>): (r: seq<string>)
    ensures |r| == |members|
    ensures forall i :: 0 <= i < |members| ==> r[i] == members[i].fullName
  {
    if |members| == 0 then [] else [members[0].fullName] + FullNames(members[1..])
  }

  /** The names listed and the number of members left unnamed. */
  datatype MemberSummary = MemberSummary(names: seq<string>, remaining: int)

  /** The member summary for the signed-in user named `authName`. */
  function Summary(members: seq<UserRef>, authName: string): MemberSummary {
    var you := FindByName(members, authName);
    var others := OthersOf(members, authName);
    var limit := if you.Some? then 4 else 5;
    var visible := if |others| <= limit then others else others[..limit];
    MemberSummary(FullNames(visible) + (if you.Some? then ["You"] else []),
                  |members| - |visible| - (if you.Some? then 1 else 0))
  }

  /** At most five names appear; "You" comes last exactly when the
      signed-in user is a member, and every other name is another member's,
      taken in member order; others are cut only when five names are
      shown; and the remaining count is never negative and accounts for
      every member not named. */
  lemma SummaryShape(members: seq<UserRef>, authName: string)
    ensures var s := Summary(members, authName);
            var isMember := exists m :: m in members && m.fullName == authName;
            var others := OthersOf(members, authName);
            var shown := if isMember then |s.names| - 1 else |s.names|;
            && |s.names| <= 5
            && (isMember <==> |s.names| > 0 && s.names[|s.names| - 1] == "You" && shown < |s.names|)
            && 0 <= shown <= |others|
            && (forall i :: 0 <= i < shown ==> s.names[i] == others[i].fullName && s.names[i] != authName)
            && (shown < |others| ==> |s.names| == 5)
            && s.remaining >= 0
            && s.remaining == |members| - |s.names|
  {
    OthersAndYou(members, authName);
    var others := OthersOf(members, authName);
    assert forall i :: 0 <= i < |others| ==> others[i] in others;
  }

  /** The summary as text: names separated by ", ", then " and N more"
      when some members are unnamed. */
  function SummaryText(s: MemberSummary): string {
    Join(s.names, ", ") + (if s.remaining > 0 then " and " + NatToString(s.remaining) + " more" else "")
  }

  datatype SubtitleLine = SomeoneTyping | Members(summary: MemberSummary) | Status(text: string)

  /** `Array.isArray(selectedUser)`: the selected user or group is a plain
      object, never an array. */
  predicate IsArray(selected: Conversation) {
    false
  }

  /** The status line: "Typing..." over "Online" over "Offline". */
  function StatusLine(selected: Conversation, typing: TypingStatus, onlineUsers: seq<Id>): SubtitleLine {
    Status(Sidebar.StatusLabel(IsTyping(typing, Some(selected)), selected.id in onlineUsers))
  }

  /** The subtitle as written: the member branch is guarded by
      `Array.isArray(selectedUser) && selectedUser?.members`. */
  function SubtitleAsWritten(selected: Conversation, typing: TypingStatus, onlineUsers: seq<Id>,
                             authName: string): SubtitleLine
  {
    if IsArray(selected) && selected.members.Some? then
      if IsTyping(typing, Some(selected)) then SomeoneTyping
      else Members(Summary(selected.members.value, authName))
    else StatusLine(selected, typing, onlineUsers)
  }

  /** The subtitle as intended: a conversation that carries a member list
      (a group; an empty list is truthy too) shows the member summary, or
      "Someone is typing..." while the indicator is on. */
  function Subtitle(selected: Conversation, typing: TypingStatus, onlineUsers: seq<Id>,
                    authName: string): (r: SubtitleLine)
    ensures selected.members.None? ==> r == StatusLine(selected, typing, onlineUsers)
    ensures selected.members.Some? ==>
              (r.SomeoneTyping? <==> IsTyping(typing, Some(selected))) &&
              (!r.SomeoneTyping? ==> r == Members(Summary(selected.members.value, authName)))
  {
    if selected.members.Some? then
      if IsTyping(typing, Some(selected)) then SomeoneTyping
      else Members(Summary(selected.members.value, authName))
    else StatusLine(selected, typing, onlineUsers)
  }

  /** As written, no group's member summary is ever shown, nor its
      "Someone is typing..." line: a group gets the one-to-one presence
      status instead, unlike the intended subtitle. */
  lemma MemberSummaryNeverShown(selected: Conversation, typing: TypingStatus, onlineUsers: seq<Id>,
                                authName: string)
    ensures SubtitleAsWritten(selected, typing, onlineUsers, authName).Status?
    ensures selected.members.Some? ==>
              SubtitleAsWritten(selected, typing, onlineUsers, authName)
              != Subtitle(selected, typing, onlineUsers, authName)
  {
  }

  /** The two agree on every conversation without a member list. */
  lemma SubtitleAgreesForUsers(selected: Conversation, typing: TypingStatus, onlineUsers: seq<Id>,
                               authName: string)
    requires selected.members.None?
    ensures SubtitleAsWritten(selected, typing, onlineUsers, authName)
            == Subtitle(selected, typing, onlineUsers, authName)
  {
  }
}
