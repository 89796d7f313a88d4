/** The message composer: its text, the attached image preview and the
    emoji picker, the send guard shared by the form and the send button, and
    the `typing` notification sent on every keystroke. */
module MessageInput {
  import opened Wrappers
  import opened Text

  type Id = string

  /** The payload of the `sendMessage` action. */
  datatype SendRequest = SendRequest(userId: Id, text: string, image: Option<string>)

  class Composer {
    var text: string
    var imagePreview: Option<string>   // a data URL, or `null`
    var showEmojiPicker: bool

    constructor ()
      ensures text == "" && imagePreview.None? && !showEmojiPicker
    {
      text, imagePreview, showEmojiPicker := "", None, false;
    }

    /** The form submits, and the button is enabled, exactly when the text
        is not blank or an image is attached. */
    predicate CanSend()
      reads this
    {
      Trim(text) != "" || Truthy(imagePreview)
    }

    /** `handleImageChange`: anything whose MIME type does not start with
        "image/" is refused with a message and leaves the preview alone. */
    method ImageChange(fileType: string, dataUrl: string) returns (refusal: Option<string>)
      modifies this`imagePreview
      ensures StartsWith(fileType, "image/") ==> refusal.None? && imagePreview == Some(dataUrl)
      ensures !StartsWith(fileType, "image/") ==>
                refusal == Some("Please select an image file") && imagePreview == old(imagePreview)
    {
      if !StartsWith(fileType, "image/") {
        return Some("Please select an image file");
      }
      imagePreview := Some(dataUrl);
      refusal := None;
    }

    method RemoveImage()
      modifies this`imagePreview
      ensures imagePreview.None?
    {
      imagePreview := None;
    }

    /** `handleSendMessage` to the selected conversation: nothing happens
        unless `CanSend()`; otherwise the trimmed text and the preview are
        sent and the composer is reset (the thunk settles either way). */
    method Send(selectedId: Id) returns (sent: Option<SendRequest>)
      modifies this
      ensures !old(CanSend()) ==> sent.None? && text == old(text) && imagePreview == old(imagePreview)
                                  && showEmojiPicker == old(showEmojiPicker)
      ensures old(CanSend()) ==>
                && sent == Some(SendRequest(selectedId, Trim(old(text)), old(imagePreview)))
                && text == "" && imagePreview.None? && !showEmojiPicker
    {
      if !CanSend() {
        return None;
      }
      sent := Some(SendRequest(selectedId, Trim(text), imagePreview));
      text, imagePreview, showEmojiPicker := "", None, false;
    }

    method EmojiClick(emoji: string)
      modifies this`text
      ensures text == old(text) + emoji
    {
      text := text + emoji;
    }

    method ToggleEmojiPicker()
      modifies this`showEmojiPicker
      ensures showEmojiPicker == !old(showEmojiPicker)
    {
      showEmojiPicker := !showEmojiPicker;
    }

    /** The text input's change handler: store the text and, when a
        conversation is selected and the socket is connected, emit `typing`
        with the selected id as the receiver. */
    method Change(newText: string, selectedId: Option<Id>, connected: bool) returns (typingTo: Option<Id>)
      modifies this`text
      ensures text == newText
      ensures typingTo == if selectedId.Some? && connected then selectedId else None
    {
      text := newText;
      typingTo := if selectedId.Some? && connected then selectedId else None;
    }
  }

  /** What `Send` puts on the wire is never empty: its text is already
      trimmed (trimming again changes nothing), and when it is blank an
      image is attached. */
  lemma SentRequestShape(text: string, image: Option<string>, selectedId: Id)
    requires Trim(text) != "" || Truthy(image)
    ensures var req := SendRequest(selectedId, Trim(text), image);
            Trim(req.text) == req.text &&
            (req.text == "" ==> Truthy(req.image)) &&
            (req.text != "" ==> !AllWhitespace(text))
  {
    TrimIdempotent(text);
    TrimEmptyIffBlank(text);
  }
}
