/** The group settings page: only the group's creator may edit, the form is
    seeded from the selected group, and the name input and the save button
    are disabled while an update is in flight. */
module EditGroup {
  import opened Wrappers
  import opened Models
  import ChatSlice
  import GroupController

  /** `selectedUser?.createdBy?._id === authUser._id`. */
  predicate IsCreator(selected: Option<ChatSlice.Conversation>, authUserId: Id) {
    selected.Some? && selected.value.createdBy.Some? && selected.value.createdBy.value.id == authUserId
  }

  /** `x || fallback` on an optional string. */
  function OrElse(x: Option<string>, fallback: string): (r: string)
    ensures Truthy(x) ==> r == x.value
    ensures !Truthy(x) ==> r == fallback
  {
    if Truthy(x) then x.value else fallback
  }

  /** The body of `PUT /group/edit-group/:id`. */
  datatype EditRequest = EditRequest(groupId: Id, groupPic: string, groupName: string)

  class EditGroupForm {
    var groupName: string
    var selectedImg: string
    var base64Image: string
    var isUpdating: bool

    constructor ()
      ensures groupName == "" && selectedImg == "" && base64Image == "" && !isUpdating
    {
      groupName, selectedImg, base64Image, isUpdating := "", "", "", false;
    }

    /** The effect run when the selection changes: a selection with a
        truthy id seeds the name and the preview. */
    method Seed(selected: Option<ChatSlice.Conversation>)
      modifies this`groupName, this`selectedImg
      ensures selected.Some? && selected.value.id != "" ==>
                groupName == OrElse(selected.value.name, "") &&
                selectedImg == OrElse(selected.value.groupAvatar, "/avatar.png")
      ensures !(selected.Some? && selected.value.id != "") ==>
                groupName == old(groupName) && selectedImg == old(selectedImg)
    {
      if selected.Some? && selected.value.id != "" {
        groupName := OrElse(selected.value.name, "");
        selectedImg := OrElse(selected.value.groupAvatar, "/avatar.png");
      }
    }

    /** The name input and the save button are enabled exactly for the
        creator while no update is in flight. */
    predicate Editable(selected: Option<ChatSlice.Conversation>, authUserId: Id)
      reads this
    {
      IsCreator(selected, authUserId) && !isUpdating
    }

    /** Typing into the name input: a disabled input ignores it. */
    method SetGroupName(name: string, selected: Option<ChatSlice.Conversation>, authUserId: Id)
      modifies this`groupName
      ensures old(Editable(selected, authUserId)) ==> groupName == name
      ensures !old(Editable(selected, authUserId)) ==> groupName == old(groupName)
    {
      if Editable(selected, authUserId) {
        groupName := name;
      }
    }

    /** A picked file, read as a data URL, is both previewed and queued for
        upload. */
    method PickImage(dataUrl: string)
      modifies this`selectedImg, this`base64Image
      ensures selectedImg == dataUrl && base64Image == dataUrl
    {
      selectedImg := dataUrl;
      base64Image := dataUrl;
    }

    /** The synchronous part of `handleUpdate`: a non-creator gets the
        error message and nothing is sent; otherwise the form locks and the
        request goes out with the queued image (possibly "") and the name as
        typed, unchecked. */
    method StartUpdate(selected: Option<ChatSlice.Conversation>, authUserId: Id)
      returns (r: Result<EditRequest, string>)
      modifies this`isUpdating
      ensures !IsCreator(selected, authUserId) ==>
                r == Failure("Only the creator can update the group!") && isUpdating == old(isUpdating)
      ensures IsCreator(selected, authUserId) ==>
                r == Success(EditRequest(selected.value.id, base64Image, groupName)) && isUpdating
    {
      if !IsCreator(selected, authUserId) {
        return Failure("Only the creator can update the group!");
      }
      isUpdating := true;
      r := Success(EditRequest(selected.value.id, base64Image, groupName));
    }

    /** A press on "Save Changes": a disabled button does nothing, so
        nothing is sent while an update is in flight or to a non-creator;
        an enabled one runs `handleUpdate`, whose creator check then always
        passes. */
    method PressSave(selected: Option<ChatSlice.Conversation>, authUserId: Id)
      returns (r: Option<EditRequest>)
      modifies this`isUpdating
      ensures !old(Editable(selected, authUserId)) ==> r.None? && isUpdating == old(isUpdating)
      ensures old(Editable(selected, authUserId)) ==>
                r == Some(EditRequest(selected.value.id, base64Image, groupName)) && isUpdating
      ensures r.Some? ==> !old(isUpdating) && isUpdating
    {
      if !Editable(selected, authUserId) {
        return None;
      }
      var sent := StartUpdate(selected, authUserId);
      r := Some(sent.value);
    }

    /** The `finally` block: whatever the response, the form unlocks. */
    method FinishUpdate()
      modifies this`isUpdating
      ensures !isUpdating
    {
      isUpdating := false;
    }
  }

  /** What the server stores for a page request: the image is uploaded
      only when one was queued, the name is stored as sent. */
  function ServerResult(g: Group, req: EditRequest, uploadedUrl: string, now: int): Group {
    var url := if req.groupPic != "" then Some(uploadedUrl) else None;
    GroupController.EditGroupDetails(Some(g), req.groupName, url, now).value.value
  }

  /** A save without a new picture keeps the group's avatar; a cleared name
      is stored as "", which the group schema would refuse on creation. */
  lemma SaveFromPage(g: Group, groupId: Id, groupName: string, uploadedUrl: string, now: int)
    ensures ServerResult(g, EditRequest(groupId, "", groupName), uploadedUrl, now).groupAvatar == g.groupAvatar
    ensures ServerResult(g, EditRequest(groupId, "", ""), uploadedUrl, now).name == ""
    ensures !RequiredStringPresent(Given(ServerResult(g, EditRequest(groupId, "", ""), uploadedUrl, now).name))
  {
  }
}
