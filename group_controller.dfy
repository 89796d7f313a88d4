/** The group request handlers of the server. The document store is
    abstracted: a handler receives what `Group.findById` returned (`None`
    when no group has that id) and returns either the error response it
    sends, or the group as it saves it together with the system message it
    saves and broadcasts to the group's room. Upload results and looked-up
    user names are parameters. Persistence failures (status 500) are not
    modelled. */
module GroupController {
  import opened Wrappers
  import opened Lists
  import opened Text
  import opened Models

  datatype Response<+T> = Error(status: int, message: string) | Ok(value: T)

  /** A membership change: the group as saved, and the system message saved
      and emitted as `newMessage` to the room named by the group id. */
  datatype Change = Change(group: Group, systemMessage: Message)

  // ---------------------------------------------------------------- create

  /** `createGroup`: `members` is `None` when the body's value is not an
      array. */
  function CreateGroup(name: Option<string>, groupAvatar: Field<string>, members: Option<seq<Id>>,
                       creatorId: Id, now: int): (r: Response<Group>)
    ensures !Truthy(name) ==> r == Error(400, "Group name is required")
    ensures Truthy(name) && (members.None? || |members.value| == 0) ==>
              r == Error(400, "At least one member is required")
    ensures r.Ok? <==> Truthy(name) && members.Some? && |members.value| > 0
    ensures r.Ok? ==>
      && r.value.name == name.value && r.value.createdBy == creatorId
      && r.value.groupAvatar == AvatarWithDefault(groupAvatar)
      && r.value.members == Dedup(members.value + [creatorId])
  {
    if !Truthy(name) then Error(400, "Group name is required")
    else if members.None? || |members.value| == 0 then Error(400, "At least one member is required")
    else
      var fields := GroupFields(Given(name.value), groupAvatar, Some(creatorId),
                                Some(Dedup(members.value + [creatorId])));
      match NewGroup(fields, now)
      case Success(g) => Ok(g)
      case Failure(_) => Error(500, "Internal server error")
  }

  /** A created group lists the requested members once each, in the order of
      their first occurrence, followed by the creator unless the creator was
      already requested; so the creator is always a member. */
  lemma CreatedGroupMembers(name: Option<string>, groupAvatar: Field<string>, members: Option<seq<Id>>,
                            creatorId: Id, now: int)
    requires CreateGroup(name, groupAvatar, members, creatorId, now).Ok?
    ensures var g := CreateGroup(name, groupAvatar, members, creatorId, now).value;
      && creatorId in g.members
      && NoDuplicates(g.members)
      && (forall m :: m in g.members <==> m in members.value || m == creatorId)
      && g.members == Dedup(members.value) + (if creatorId in members.value then [] else [creatorId])
  {
    var ms := members.value;
    DedupSnoc(ms, creatorId);
    DedupMembers(ms + [creatorId]);
    DedupNoDuplicates(ms + [creatorId]);
  }

  // ----------------------------------------------------------- add members

  const HasJoined: string := " has joined the group."
  const HaveJoined: string := " have joined the group."

  /** The system-message text announcing joiners by name. Only one, two or
      three names are spelled out; every other count, including zero, takes
      the last branch. */
  function JoinedText(names: seq<string>): (r: string)
    ensures |names| > 0 ==> StartsWith(r, names[0])
  {
    JoinStartsWith(names[..if |names| < 2 then |names| else 2], ", ");
    if |names| == 1 then names[0] + HasJoined
    else if |names| == 2 then names[0] + " and " + names[1] + HaveJoined
    else if |names| == 3 then names[0] + ", " + names[1] + " and " + names[2] + HaveJoined
    else Join(names[..if |names| < 2 then |names| else 2], ", ") + " and "
         + IntToString(|names| - 2) + " others" + HaveJoined
  }

  /** A joined list starts with its first element. */
  lemma JoinStartsWith(xs: seq<string>, sep: string)
    ensures |xs| > 0 ==> StartsWith(Join(xs, sep), xs[0])
  {
  }

  lemma EndsWithAppended(x: string, suffix: string)
    ensures EndsWith(x + suffix, suffix)
  {
    assert (x + suffix)[|x + suffix| - |suffix|..] == suffix;
  }

  lemma NotEndsWithAt(t: string, suffix: string, k: nat)
    requires k < |suffix| <= |t| ==> t[|t| - |suffix| + k] != suffix[k]
    ensures k < |suffix| ==> !EndsWith(t, suffix)
  {
  }

  /** The verb agrees with the number of names: the singular form is used
      for exactly one joiner. */
  lemma JoinedTextAgreement(names: seq<string>)
    ensures EndsWith(JoinedText(names), HasJoined) <==> |names| == 1
    ensures EndsWith(JoinedText(names), HaveJoined) <==> |names| != 1
  {
    var t := JoinedText(names);
    assert |HasJoined| == 22 && |HaveJoined| == 23;
    assert HasJoined[0] == ' ' && HaveJoined[1] == 'h';
    if |names| == 1 {
      EndsWithAppended(names[0], HasJoined);
      assert |t| >= 23 ==> t[|t| - 23 + 1] == HasJoined[0];
      NotEndsWithAt(t, HaveJoined, 1);
    } else {
      var p := t[..|t| - 23];
      assert t == p + HaveJoined;
      EndsWithAppended(p, HaveJoined);
      assert t[|t| - 22] == HaveJoined[1];
      NotEndsWithAt(t, HasJoined, 0);
    }
  }

  lemma JoinTwo(a: string, b: string)
    ensures Join([a, b], ", ") == a + ", " + b
  {
    assert [a, b][1..] == [b];
  }

  /** With four or more names the text names the first two and counts the
      others in decimal (`NatToStringRoundTrip` reads that count back). */
  lemma JoinedTextMany(names: seq<string>)
    requires |names| >= 4
    ensures JoinedText(names)
      == names[0] + ", " + names[1] + " and " + NatToString(|names| - 2) + " others" + HaveJoined
  {
    assert names[..2] == [names[0], names[1]];
    JoinTwo(names[0], names[1]);
  }

  /** With no names at all the last branch still runs and reports "-2
      others". */
  lemma JoinedTextNoNames()
    ensures JoinedText([]) == " and " + "-2" + " others" + HaveJoined
  {
    assert IntToString(-2) == "-2";
  }

  /** Five joiners. */
  lemma JoinedTextFive()
    ensures JoinedText(["X", "Y", "Z", "W", "V"]) == "X, Y and 3 others" + HaveJoined
  {
    JoinedTextMany(["X", "Y", "Z", "W", "V"]);
    assert NatToString(3) == "3";
  }

  /** `addGroupMembers`. `newMembers` is `None` when not an array; `names`
      are the full names the user lookup returned for the new member ids. */
  function AddGroupMembers(group: Option<Group>, groupId: Id, requesterId: Id,
                           newMembers: Option<seq<Id>>, names: seq<string>,
                           systemUserId: Id, now: int): (r: Response<Change>)
    ensures newMembers.None? || |newMembers.value| == 0 ==> r == Error(400, "No members provided")
    ensures newMembers.Some? && |newMembers.value| > 0 && group.None? ==>
              r == Error(404, "Group not found")
    ensures newMembers.Some? && |newMembers.value| > 0 && group.Some? && group.value.createdBy != requesterId ==>
              r == Error(403, "Only the group creator can add members")
    ensures r.Ok? <==> newMembers.Some? && |newMembers.value| > 0 && group.Some? && group.value.createdBy == requesterId
    ensures r.Ok? ==>
      && group.Some? && group.value.createdBy == requesterId
      && r.value.group == group.value.(members := Dedup(group.value.members + newMembers.value),
                                       updatedAt := now)
      && r.value.systemMessage.senderId == systemUserId
      && r.value.systemMessage.groupId == Some(groupId)
      && r.value.systemMessage.text == Some(JoinedText(names))
      && r.value.systemMessage.isSystem && !r.value.systemMessage.isRead
  {
    if newMembers.None? || |newMembers.value| == 0 then Error(400, "No members provided")
    else if group.None? then Error(404, "Group not found")
    else if group.value.createdBy != requesterId then Error(403, "Only the group creator can add members")
    else
      var g := group.value.(members := Dedup(group.value.members + newMembers.value), updatedAt := now);
      var fields := MessageFields(Some(systemUserId), None, Some(groupId), Some(JoinedText(names)),
                                  None, None, Some(true));
      Ok(Change(g, NewMessage(fields, now).value))
  }

  /** After adding, the existing members (deduplicated) keep their positions
      at the front, no id appears twice, and every requested id is present. */
  lemma AddedMembers(group: Option<Group>, groupId: Id, requesterId: Id, newMembers: Option<seq<Id>>,
                     names: seq<string>, systemUserId: Id, now: int)
    requires AddGroupMembers(group, groupId, requesterId, newMembers, names, systemUserId, now).Ok?
    ensures var after := AddGroupMembers(group, groupId, requesterId, newMembers, names, systemUserId, now).value.group.members;
      && Dedup(group.value.members) <= after
      && (NoDuplicates(group.value.members) ==> group.value.members <= after)
      && NoDuplicates(after)
      && (forall m :: m in newMembers.value ==> m in after)
      && (forall m :: m in after ==> m in group.value.members || m in newMembers.value)
  {
    var old_ := group.value.members;
    var add := newMembers.value;
    DedupPrefix(old_, add);
    DedupNoDuplicates(old_ + add);
    DedupMembers(old_ + add);
    if NoDuplicates(old_) {
      DedupOfDistinct(old_);
    }
  }

  // ---------------------------------------------------------------- delete

  /** `deleteGroup`: `Ok(())` means the group was deleted. */
  function DeleteGroup(group: Option<Group>, requesterId: Id): (r: Response<()>)
    ensures group.None? ==> r == Error(404, "Group not found")
    ensures group.Some? && group.value.createdBy != requesterId ==>
              r == Error(403, "Only the group creator can delete this group")
    ensures r.Ok? <==> group.Some? && group.value.createdBy == requesterId
  {
    if group.None? then Error(404, "Group not found")
    else if group.value.createdBy != requesterId then Error(403, "Only the group creator can delete this group")
    else Ok(())
  }

  // ----------------------------------------------------------------- leave

  /** `leaveGroup`; `fullName` is the leaver's name from the user lookup. */
  function LeaveGroup(group: Option<Group>, groupId: Id, userId: Id, fullName: string,
                      systemUserId: Id, now: int): (r: Response<Change>)
    ensures group.None? ==> r == Error(404, "Group not found")
    ensures group.Some? && group.value.createdBy == userId ==>
              r == Error(403, "Group creator cannot leave the group. Delete it instead.")
    ensures group.Some? && group.value.createdBy != userId && userId !in group.value.members ==>
              r == Error(400, "You are not a member of this group")
    ensures r.Ok? <==> group.Some? && group.value.createdBy != userId && userId in group.value.members
    ensures r.Ok? ==>
      && r.value.systemMessage.text == Some(fullName + " has left the group.")
      && r.value.systemMessage.isSystem
      && r.value.systemMessage.senderId == systemUserId
      && r.value.systemMessage.groupId == Some(groupId)
  {
    if group.None? then Error(404, "Group not found")
    else if group.value.createdBy == userId then
      Error(403, "Group creator cannot leave the group. Delete it instead.")
    else if userId !in group.value.members then Error(400, "You are not a member of this group")
    else
      var fields := MessageFields(Some(systemUserId), None, Some(groupId),
                                  Some(fullName + " has left the group."), None, None, Some(true));
      var g := group.value.(members := Without(group.value.members, userId), updatedAt := now);
      Ok(Change(g, NewMessage(fields, now).value))
  }

  /** Leaving removes exactly the leaver, every copy of the id, and keeps the
      other members in their order; the creator stays a member. */
  lemma LeftMembers(group: Option<Group>, groupId: Id, userId: Id, fullName: string,
                    systemUserId: Id, now: int)
    requires LeaveGroup(group, groupId, userId, fullName, systemUserId, now).Ok?
    ensures var after := LeaveGroup(group, groupId, userId, fullName, systemUserId, now).value.group;
      && after.members == Without(group.value.members, userId)
      && userId !in after.members
      && (forall m :: m != userId ==> (m in after.members <==> m in group.value.members))
      && |after.members| < |group.value.members|
      && (group.value.createdBy in group.value.members ==> group.value.createdBy in after.members)
      && after.(members := group.value.members, updatedAt := group.value.updatedAt) == group.value
  {
    WithoutMembers(group.value.members, userId);
    WithoutShorter(group.value.members, userId);
  }

  lemma {:induction false} WithoutShorter(xs: seq<Id>, x: Id)
    requires x in xs
    ensures |Without(xs, x)| < |xs|
  {
    if xs[0] != x {
      WithoutShorter(xs[1..], x);
    }
  }

  // ----------------------------------------------------------- send message

  /** `sendGroupMessage`; `imageUrl` is the upload result when an image was
      given. */
  function SendGroupMessage(group: Option<Group>, groupId: Id, senderId: Id, text: Option<string>,
                            imageUrl: Option<string>, now: int): (r: Response<Message>)
    ensures !Truthy(text) ==> r == Error(400, "Message content is required.")
    ensures Truthy(text) && group.None? ==> r == Error(404, "Group not found")
    ensures Truthy(text) && group.Some? && senderId !in group.value.members ==>
              r == Error(403, "You are not a member of this group.")
    ensures r.Ok? <==> Truthy(text) && group.Some? && senderId in group.value.members
    ensures r.Ok? ==>
      && r.value.senderId == senderId && r.value.groupId == Some(groupId)
      && r.value.receiverId.None? && r.value.text == text && r.value.image == imageUrl
      && !r.value.isRead && !r.value.isSystem
  {
    if !Truthy(text) then Error(400, "Message content is required.")
    else if group.None? then Error(404, "Group not found")
    else if senderId !in group.value.members then Error(403, "You are not a member of this group.")
    else Ok(NewMessage(MessageFields(Some(senderId), None, Some(groupId), text, imageUrl, None, None), now).value)
  }

  /** An image alone is not enough: a message without text is refused
      whatever image accompanies it. */
  lemma ImageWithoutTextRejected(group: Option<Group>, groupId: Id, senderId: Id, url: string, now: int)
    ensures SendGroupMessage(group, groupId, senderId, None, Some(url), now).Error?
    ensures SendGroupMessage(group, groupId, senderId, Some(""), Some(url), now).status == 400
  {
  }

  // ------------------------------------------------------------------ edit

  /** `editGroupDetails` as written: no requester, no creator check. The name
      is set to `groupName`; the avatar is replaced only when an upload
      produced a URL. A missing group yields `Ok(None)` (status 200 with
      a null group). */
  function EditGroupDetails(group: Option<Group>, groupName: string, groupPicUrl: Option<string>,
                            now: int): (r: Response<Option<Group>>)
    ensures r.Ok?
    ensures r.value.Some? <==> group.Some?
    ensures r.value.Some? ==>
      && r.value.value.name == groupName
      && r.value.value.groupAvatar == (if Truthy(groupPicUrl) then groupPicUrl else group.value.groupAvatar)
      && r.value.value.members == group.value.members
      && r.value.value.createdBy == group.value.createdBy
  {
    if group.None? then Ok(None)
    else
      var g := group.value.(name := groupName, updatedAt := now);
      Ok(Some(if Truthy(groupPicUrl) then g.(groupAvatar := groupPicUrl) else g))
  }

  /** Anyone can rename a group: the handler never looks at who asks, so a
      non-creator's rename, which the checked handler refuses, is saved. */
  lemma EditIgnoresRequester(g: Group, requesterId: Id, newName: string, now: int)
    requires requesterId != g.createdBy
    ensures EditGroupDetailsChecked(Some(g), requesterId, newName, None, now).Error?
    ensures EditGroupDetails(Some(g), newName, None, now).value.value.name == newName
  {
  }

  /** `editGroupDetails` with the creator check its group's rules call for:
      a missing group is 404 and a non-creator is refused with 403, the
      group left unchanged. */
  function EditGroupDetailsChecked(group: Option<Group>, requesterId: Id, groupName: string,
                                   groupPicUrl: Option<string>, now: int): (r: Response<Group>)
    ensures group.None? ==> r == Error(404, "Group not found")
    ensures group.Some? && group.value.createdBy != requesterId ==>
              r == Error(403, "Only the group creator can edit this group")
    ensures r.Ok? <==> group.Some? && group.value.createdBy == requesterId
    ensures r.Ok? ==> Ok(Some(r.value)) == EditGroupDetails(group, groupName, groupPicUrl, now)
  {
    if group.None? then Error(404, "Group not found")
    else if group.value.createdBy != requesterId then Error(403, "Only the group creator can edit this group")
    else Ok(EditGroupDetails(group, groupName, groupPicUrl, now).value.value)
  }
}
