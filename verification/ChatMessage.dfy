/** One entry of the conversation log. */
module ChatMessages {
  import opened Wrappers

  /** Stands for the UUID a message is created with. */
  type MessageId = nat

  /** Stands for a UIImage reference; image contents are not modelled. */
  type ImageId = nat

  datatype Role = User | Assistant | System

  /** `id`, `role` and `image` are fixed at creation; `text` and
      `isStreaming` are the fields the view-model edits. The defaults
      are those of the record's initializer. */
  datatype ChatMessage = ChatMessage(
    id: MessageId,
    role: Role,
    text: string,
    image: Option<ImageId> := None,
    isStreaming: bool := false)

  /** The in-place edits the view-model applies to a message: the
      streaming loop's `$0.text = partial`, and the closures that write
      a final text and clear `isStreaming`. */
  datatype Edit = SetText(text: string) | Finalize(text: string)

  function ApplyEdit(e: Edit, m: ChatMessage): (r: ChatMessage)
    ensures r.id == m.id && r.role == m.role && r.image == m.image
    ensures r.text == e.text
    ensures r.isStreaming == (m.isStreaming && e.SetText?)
  {
    match e
    case SetText(t) => m.(text := t)
    case Finalize(t) => m.(text := t, isStreaming := false)
  }

  /** A later edit that rewrites the text and clears or keeps the
      streaming flag makes an earlier `SetText` invisible. */
  lemma SetTextIsOverwritten(t: string, e: Edit, m: ChatMessage)
    ensures ApplyEdit(e, ApplyEdit(SetText(t), m)) == ApplyEdit(e, m)
  {
  }
}
