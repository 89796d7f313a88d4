/** The page that adds members to the selected group: it offers the users
    who are neither the group's creator nor already members, and posts the
    toggled selection. */
module AddMembers {
  import opened Wrappers
  import opened Lists
  import opened Models
  import ChatSlice
  import GroupController
  import GroupPage

  /** `excludedIds`: the creator's id (undefined when the group carries no
      creator) followed by every member's id. The page needs a selected
      group whose members are listed; otherwise building the list throws. */
  function ExcludedIds(group: ChatSlice.Conversation): (r: seq<Option<Id>>)
    requires group.members.Some?
    ensures |r| == |group.members.value| + 1
    ensures forall m :: m in group.members.value ==> Some(m.id) in r
    ensures group.createdBy.Some? ==> Some(group.createdBy.value.id) in r
    ensures forall x :: x in r && x.Some? ==>
              (group.createdBy.Some? && x.value == group.createdBy.value.id)
              || exists m :: m in group.members.value && m.id == x.value
  {
    var creator := if group.createdBy.Some? then Some(group.createdBy.value.id) else None;
    [creator] + MemberIds(group.members.value)
  }

  function MemberIds(members: seq<ChatSlice.UserRef>): (r: seq<Option<Id>>)
    ensures |r| == |members|
    ensures forall i :: 0 <= i < |members| ==> r[i] == Some(members[i].id)
  {
    if |members| == 0 then [] else [Some(members[0].id)] + MemberIds(members[1..])
  }

  /** `availableUsers`: the users whose id is not excluded, in order. */
  function Available(users: seq<ChatSlice.Conversation>, excluded: seq<Option<Id>>): (r: seq<ChatSlice.Conversation>)
    ensures forall u :: u in r <==> u in users && Some(u.id) !in excluded
  {
    if |users| == 0 then []
    else
      var rest := Available(users[1..], excluded);
      assert forall u :: u in users <==> u == users[0] || u in users[1..];
      if Some(users[0].id) in excluded then rest else [users[0]] + rest
  }

  /** The rows shown: the available users without the system user. */
  function Shown(users: seq<ChatSlice.Conversation>, group: ChatSlice.Conversation, systemId: Option<Id>)
    : seq<ChatSlice.Conversation>
    requires group.members.Some?
  {
    GroupPage.Selectable(Available(users, ExcludedIds(group)), systemId)
  }

  /** No current member, nor the creator, nor the system user is offered;
      every other listed user is. */
  lemma ShownUsers(users: seq<ChatSlice.Conversation>, group: ChatSlice.Conversation, systemId: Option<Id>)
    requires group.members.Some?
    ensures forall u :: u in Shown(users, group, systemId) ==>
              u in users && Some(u.id) != systemId
              && (forall m :: m in group.members.value ==> m.id != u.id)
              && (group.createdBy.Some? ==> group.createdBy.value.id != u.id)
    ensures forall u :: u in users && Some(u.id) != systemId && Some(u.id) !in ExcludedIds(group) ==>
              u in Shown(users, group, systemId)
  {
    GroupPage.SelectableKeepsOthers(Available(users, ExcludedIds(group)), systemId);
  }

  /** `handleAddMembers`: the `newMembers` posted, or the message shown. */
  function HandleAddMembers(selected: seq<Id>): (r: Result<seq<Id>, string>)
    ensures r.Success? <==> |selected| > 0
    ensures r.Failure? ==> r.error == "Please select at least one member!"
    ensures r.Success? ==> r.value == selected
  {
    if |selected| == 0 then Failure("Please select at least one member!") else Success(selected)
  }

  lemma {:induction false} AppendDistinct(a: seq<Id>, b: seq<Id>)
    requires NoDuplicates(a) && NoDuplicates(b)
    requires forall x :: x in b ==> x !in a
    ensures NoDuplicates(a + b)
  {
    forall i, j | 0 <= i < j < |a + b|
      ensures (a + b)[i] != (a + b)[j]
    {
      if j >= |a| && i < |a| {
        assert (a + b)[j] in b;
      }
    }
  }

  /** When the creator adds users the page offered (none already a member)
      to a group whose members are distinct, the server appends exactly the
      selection, in click order, after the existing members. */
  lemma PageAdditionAppends(g: Group, groupId: Id, clicks: seq<Id>, names: seq<string>,
                            systemUserId: Id, now: int)
    requires NoDuplicates(g.members)
    requires forall id :: id in clicks ==> id !in g.members
    requires HandleAddMembers(GroupPage.SelectionAfter(clicks)).Success?
    ensures var sel := HandleAddMembers(GroupPage.SelectionAfter(clicks)).value;
            var resp := GroupController.AddGroupMembers(Some(g), groupId, g.createdBy, Some(sel),
                                                        names, systemUserId, now);
            resp.Ok? && resp.value.group.members == g.members + sel
  {
    var sel := GroupPage.SelectionAfter(clicks);
    GroupPage.SelectionAfterDistinct(clicks);
    forall x | x in sel
      ensures x !in g.members
    {
      assert multiset(clicks)[x] > 0;
    }
    AppendDistinct(g.members, sel);
    DedupOfDistinct(g.members + sel);
  }
}
