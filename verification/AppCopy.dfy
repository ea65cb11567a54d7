/** The fixed status and marker strings of the chat screen, and the one
    string that depends on a flag. */
module AppCopy {

  // Status messages
  const LoadingModel: string := "⏳✨"
  const ImageAttachedAwaitingMessage: string := "🖼️➡️💬"
  const ImageClearedKeepChatting: string := "🧹✨💬"
  const ModelReadyToChat: string := "🤖✅💬"
  const GenerationCancelled: string := "⛔️🛑"
  const ModelSessionNotReady: string := "⚠️🤖⏸️"
  const ModelStillLoading: string := "🌀⏳"
  const GeneratingResponse: string := "🛠️💬"
  const StreamingResponse: string := "📡💬"
  const SendToTryAgain: string := "🔁📨"
  const ImageFailedToLoad: string := "📵🖼️"
  const ModelSessionUnavailable: string := "📴🤖"
  const ImageConversionFailed: string := "🚫🔄🖼️"
  const ModelLoadFailed: string := "🚫🤖"
  const StreamedError: string := "⚠️💬"

  /** Status copy shown once a turn has completed; a follow-up turn and a
      first turn get different copy. */
  function ReadyForNextMessage(isFollowUp: bool): (r: string)
    ensures r != GenerationCancelled && r != StreamedError && r != SendToTryAgain
    ensures r != ModelReadyToChat && r != ImageClearedKeepChatting
  {
    if isFollowUp then "➕💬🖼️" else "💡❓🖼️"
  }

  /** The completion copy tells a follow-up completion apart from a
      first-turn completion, and never reads as a cancellation or an error. */
  lemma ReadyForNextMessageDistinguishesTurns(a: bool, b: bool)
    ensures ReadyForNextMessage(a) == ReadyForNextMessage(b) <==> a == b
    ensures ReadyForNextMessage(a) != GenerationCancelled
    ensures ReadyForNextMessage(a) != SendToTryAgain
  {
    if a != b {
      assert ReadyForNextMessage(a)[0] != ReadyForNextMessage(b)[0];
    }
  }

  /** A cancelled placeholder is distinguishable from a failed one. */
  lemma CancelMarkerDiffersFromErrorMarker()
    ensures GenerationCancelled != StreamedError
  {
    assert GenerationCancelled[0] != StreamedError[0];
  }

  /** The two ready statuses set when an image is removed are distinguishable. */
  lemma ReadyCopiesDiffer()
    ensures ModelReadyToChat != ImageClearedKeepChatting
  {
    assert ModelReadyToChat[0] != ImageClearedKeepChatting[0];
  }
}
