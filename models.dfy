/** The two persisted records of the chat server, as their document schemas
    declare them: which paths are required, which have defaults, and the
    `createdAt`/`updatedAt` pair that the `timestamps` option adds. Object ids
    are represented by their hexadecimal strings; times are milliseconds. */
module Models {
  import opened Wrappers

  type Id = string

  /** A property of a request body as the document layer sees it: absent,
      explicitly `null`, or a value. Defaults apply only to an absent path. */
  datatype Field<+T> = Absent | Null | Given(value: T)

  datatype SchemaError = Required(path: string)

  datatype Message = Message(
    senderId: Id,
    receiverId: Option<Id>,
    groupId: Option<Id>,
    text: Option<string>,
    image: Option<string>,
    isRead: bool,
    isSystem: bool,
    createdAt: int,
    updatedAt: int)

  /** The fields handed to `new Message({...})`. */
  datatype MessageFields = MessageFields(
    senderId: Option<Id>,
    receiverId: Option<Id>,
    groupId: Option<Id>,
    text: Option<string>,
    image: Option<string>,
    isRead: Option<bool>,
    isSystem: Option<bool>)

  /** Validating and saving a new message at time `now`. */
  function NewMessage(f: MessageFields, now: int): (r: Result<Message, SchemaError>)
    ensures r.Failure? <==> f.senderId.None?
    ensures r.Failure? ==> r.error == Required("senderId")
    ensures r.Success? ==>
      && r.value.senderId == f.senderId.value
      && r.value.receiverId == f.receiverId && r.value.groupId == f.groupId
      && r.value.text == f.text && r.value.image == f.image
      && (r.value.isRead <==> f.isRead == Some(true))
      && (r.value.isSystem <==> f.isSystem == Some(true))
      && r.value.createdAt == r.value.updatedAt == now
  {
    if f.senderId.None? then Failure(Required("senderId"))
    else Success(Message(f.senderId.value, f.receiverId, f.groupId, f.text, f.image,
                         f.isRead.GetOr(false), f.isSystem.GetOr(false), now, now))
  }

  /** The schema does not require exactly one of receiver and group: a
      message with both, and one with neither, are both accepted. */
  lemma MessageTargetUnconstrained(sender: Id, receiver: Id, group: Id, now: int)
    ensures NewMessage(MessageFields(Some(sender), Some(receiver), Some(group), None, None, None, None), now).Success?
    ensures NewMessage(MessageFields(Some(sender), None, None, None, None, None, None), now).Success?
  {
  }

  const DefaultGroupAvatar: string := "/group2.png"

  datatype Group = Group(
    name: string,
    groupAvatar: Option<string>,
    createdBy: Id,
    members: seq<Id>,
    createdAt: int,
    updatedAt: int)

  /** The fields handed to `new Group({...})`. */
  datatype GroupFields = GroupFields(
    name: Field<string>,
    groupAvatar: Field<string>,
    createdBy: Option<Id>,
    members: Option<seq<Id>>)

  /** A required string path rejects a missing value, `null` and `""`. */
  predicate RequiredStringPresent(f: Field<string>) {
    f.Given? && f.value != ""
  }

  function AvatarWithDefault(f: Field<string>): Option<string> {
    match f
    case Absent => Some(DefaultGroupAvatar)
    case Null => None
    case Given(url) => Some(url)
  }

  /** Validating and saving a new group at time `now`. The error names only
      the first failing path, `name` before `createdBy`. */
  function NewGroup(f: GroupFields, now: int): (r: Result<Group, SchemaError>)
    ensures r.Success? <==> RequiredStringPresent(f.name) && f.createdBy.Some?
    ensures !RequiredStringPresent(f.name) ==> r == Failure(Required("name"))
    ensures r.Success? ==>
      && r.value.name == f.name.value && r.value.createdBy == f.createdBy.value
      && r.value.members == f.members.GetOr([])
      && r.value.groupAvatar == AvatarWithDefault(f.groupAvatar)
      && r.value.createdAt == r.value.updatedAt == now
  {
    if !RequiredStringPresent(f.name) then Failure(Required("name"))
    else if f.createdBy.None? then Failure(Required("createdBy"))
    else Success(Group(f.name.value, AvatarWithDefault(f.groupAvatar), f.createdBy.value,
                       f.members.GetOr([]), now, now))
  }

  /** The avatar falls back to "/group2.png" only when none is given; an
      explicit `null` is stored as `null`. */
  lemma GroupAvatarDefault(name: string, creator: Id, now: int)
    requires name != ""
    ensures NewGroup(GroupFields(Given(name), Absent, Some(creator), None), now).value.groupAvatar
            == Some("/group2.png")
    ensures NewGroup(GroupFields(Given(name), Null, Some(creator), None), now).value.groupAvatar
            == None
  {
  }

  /** The schema neither deduplicates members nor requires the creator to be
      one of them. */
  lemma GroupMembersUnconstrained(name: string, creator: Id, other: Id, now: int)
    requires name != "" && other != creator
    ensures NewGroup(GroupFields(Given(name), Absent, Some(creator), Some([other, other])), now).value.members
            == [other, other]
  {
  }
}
