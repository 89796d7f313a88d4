/** The group creation page: the member picker, which hides the system user
    and toggles a selection, and the submit handler, which checks the form
    before posting it to the server. */
module GroupPage {
  import opened Wrappers
  import opened Lists
  import opened Models
  import ChatSlice
  import GroupController

  /** The users offered for selection: every user except the system user
      (`SYSTEM_ID` may be unset, in which case nobody is hidden). */
  function Selectable(users: seq<ChatSlice.Conversation>, systemId: Option<Id>): (r: seq<ChatSlice.Conversation>)
    ensures forall u :: u in r ==> u in users && Some(u.id) != systemId
  {
    FilterOut(users, (u: ChatSlice.Conversation) => Some(u.id), systemId)
  }

  /** Nobody but the system user is hidden, and nobody at all when it is
      unset. */
  lemma SelectableKeepsOthers(users: seq<ChatSlice.Conversation>, systemId: Option<Id>)
    ensures forall u :: u in users && Some(u.id) != systemId ==> u in Selectable(users, systemId)
  {
    FilterOutKeeps(users, (u: ChatSlice.Conversation) => Some(u.id), systemId);
  }

  /** The selection after clicking the given user ids in turn, starting
      from none: each click is `toggleMember`. */
  function SelectionAfter(clicks: seq<Id>): seq<Id> {
    if |clicks| == 0 then []
    else Toggle(SelectionAfter(clicks[..|clicks| - 1]), clicks[|clicks| - 1])
  }

  /** A selection built by toggling never holds an id twice, and holds
      exactly the ids clicked an odd number of times. */
  lemma {:induction false} SelectionAfterDistinct(clicks: seq<Id>)
    ensures NoDuplicates(SelectionAfter(clicks))
    ensures forall id :: id in SelectionAfter(clicks) <==> multiset(clicks)[id] % 2 == 1
  {
    if |clicks| > 0 {
      var prev := clicks[..|clicks| - 1];
      var x := clicks[|clicks| - 1];
      SelectionAfterDistinct(prev);
      ToggleMembership(SelectionAfter(prev), x);
      assert clicks == prev + [x];
      assert multiset(clicks) == multiset(prev) + multiset{x};
      if x in SelectionAfter(prev) {
        WithoutNoDuplicates(SelectionAfter(prev), x);
      }
    }
  }

  /** The body of `POST /group/create`. */
  datatype CreateRequest = CreateRequest(name: string, members: seq<Id>, groupAvatar: Option<string>)

  /** `handleCreateGroup`: the request posted, or the message shown
      instead. The name is not trimmed. */
  function HandleCreateGroup(groupName: string, selected: seq<Id>, selectedImg: Option<string>)
    : (r: Result<CreateRequest, string>)
    ensures groupName == "" ==> r == Failure("Please provide a group name.")
    ensures groupName != "" && |selected| == 0 ==> r == Failure("Please select at least one member.")
    ensures r.Success? <==> groupName != "" && |selected| > 0
    ensures r.Success? ==> r.value == CreateRequest(groupName, selected, selectedImg)
  {
    if groupName == "" then Failure("Please provide a group name.")
    else if |selected| == 0 then Failure("Please select at least one member.")
    else Success(CreateRequest(groupName, selected, selectedImg))
  }

  /** How the server's document layer reads the posted `groupAvatar`: no
      image is sent as `null`. */
  function AvatarField(img: Option<string>): Field<string> {
    if img.Some? then Given(img.value) else Null
  }

  /** Every request the page sends passes the server's validation; the
      group is created with the selected users followed by the creator,
      each once (the creator is not appended again when they selected
      themselves); and a group created without an image stores a `null`
      avatar, so the schema's default picture never applies. */
  lemma PageRequestAccepted(groupName: string, clicks: seq<Id>, selectedImg: Option<string>,
                            creatorId: Id, now: int)
    requires HandleCreateGroup(groupName, SelectionAfter(clicks), selectedImg).Success?
    ensures var req := HandleCreateGroup(groupName, SelectionAfter(clicks), selectedImg).value;
            var resp := GroupController.CreateGroup(Some(req.name), AvatarField(req.groupAvatar),
                                                    Some(req.members), creatorId, now);
            && resp.Ok?
            && resp.value.members == Dedup(SelectionAfter(clicks) + [creatorId])
            && (creatorId !in SelectionAfter(clicks) ==> resp.value.members == SelectionAfter(clicks) + [creatorId])
            && (creatorId in SelectionAfter(clicks) ==> resp.value.members == SelectionAfter(clicks))
            && (selectedImg.None? ==> resp.value.groupAvatar.None?)
  {
    var sel := SelectionAfter(clicks);
    SelectionAfterDistinct(clicks);
    GroupController.CreatedGroupMembers(Some(groupName), AvatarField(selectedImg), Some(sel), creatorId, now);
    DedupOfDistinct(sel);
    DedupSnoc(sel, creatorId);
  }
}
