# Chat view-model of the on-device vision-language app

The iOS app runs a vision-language model on the phone and shows a chat
screen. The user can attach an image and ask about it, then send
follow-up questions. The screen is driven by one main-actor object,
`VLMViewModel`. It holds the following:

- the message log;
- the loading and readiness flags;
- a tagged status (`loading`, `ready`, `needsImage`, `error`) whose text
  comes from a table of fixed copy strings;
- the attached image;
- the model session;
- the handle of the one request in flight.

A send passes a chain of guards and then starts a task. The task converts
the image, logs the user message and an empty streaming assistant
placeholder, asks the model, checks for cancellation, and reveals the
answer into the placeholder one character at a time. A deferred cleanup
clears the loading flag and the task handle at every exit. Cancellation
and errors write a marker into the placeholder instead.

This project models that object and proves what each operation does to it.

- `AppCopy`: the status and marker strings and the flag-dependent
  completion copy.
- `ChatMessages`: the message record, its three roles, and the two in-place
  edits the view-model applies: overwrite the text, or finalize the text
  and clear the streaming flag.
- `ChatStatus`: the tagged status with its `message`, `isLoading` and
  `isError` accessors.
- `Trimming`: trimming of whitespace and newlines from both ends of a
  prompt.
- `MessageLog`: lookup by identifier (`firstIndex(where:)`) and the edit
  of the first match (`updateMessage`).
- `Conversation`: the view-model's fields as one value, `ChatState`, with
  one step function per operation. It also holds the invariant every step
  keeps, and lemmas about single turns and about any sequence of
  operations from a fresh view-model.
- `ViewModel`: the class `VLMViewModel`. It has the same fields, updated in
  place by one method per operation. Each method is proved to move the
  fields exactly as the matching step function says, and `StreamAnswer` is
  the character-by-character loop with its invariants.

Each operation of the main actor is modelled as one atomic step. For the
synchronous methods this is exact. The turn task is not atomic in the app:
it suspends at the model call and at every delay of the reveal loop, and
other main-actor calls run meanwhile. The model still treats the whole turn
as one step, the method `PerformConversation`; "## Left out" says what this
loses. `SuspendedTurnHasOnePlaceholder` covers the states at the
suspension points separately, at the model call and at every reveal
delay: whatever operations run there, the turn's placeholder stays the
only streaming message. The turn's inputs stand for what the
model cannot compute itself:

- whether the image converts (`makeMLXImage`);
- what the model call returns: an answer, or an error that either is or is
  not a cancellation;
- the checkpoint at which the task first notices that it was cancelled:
  right after the model call, or after a given number of revealed
  characters.

A task that was cancelled before it ran notices at the first checkpoint.

Three behaviours of the code are worth stating outright:

- After a failed model load there is no session. A later send of a
  non-blank prompt then sets the status to the "session not ready" copy
  (ios_vlm/VLMViewModel.swift:93-95); it is not ignored. A blank prompt is
  still ignored, by the guard before it (:91).
- Cancelling while the answer is being revealed replaces the partial text
  with the cancellation marker (ios_vlm/VLMViewModel.swift:190-196). The
  partial text does not survive.
- The image slot is not empty whenever a request is in flight. A send
  leaves the attached image in the slot (ios_vlm/VLMViewModel.swift:102-110)
  until the turn takes it (:151-161), and the slot can be filled while the
  task is queued. `ImageStaysWhileQueued` shows both states, each satisfying
  the invariant. The turn takes whatever image the slot holds when it runs.

The session and the readiness flag are set together and never cleared, so
once the session guard of `runConversation` has passed, the "model still
loading" guard cannot fire. `RunConversation` still models it, and the
public sends, which keep the invariant, call it.

The branch of the turn that finds no session would leave the placeholder
streaming (ios_vlm/VLMViewModel.swift:169-172). `TurnKeepsInv` shows that
this branch is unreachable: a task only exists while a session does, and
nothing removes the session.

## Model

| member | source | states |
|---|---|---|
| AppCopy.ReadyForNextMessage | ios_vlm/AppCopy.swift:26-32 | the completion copy is never the cancellation, streamed-error or try-again copy, nor either of the ready-to-chat copies |
| AppCopy.ReadyForNextMessageDistinguishesTurns | ios_vlm/AppCopy.swift:26-32 | the completion copy for a follow-up and for a first turn are equal exactly when the flags are; it is never the cancellation copy or the try-again copy |
| AppCopy.CancelMarkerDiffersFromErrorMarker | ios_vlm/AppCopy.swift:16-36 | the cancellation marker differs from the streamed-error marker, so a cancelled placeholder can be told from a failed one |
| AppCopy.ReadyCopiesDiffer | ios_vlm/AppCopy.swift:14-15 | "ready to chat" and "image cleared, keep chatting" are different strings |
| ChatMessages.ApplyEdit | ios_vlm/ChatMessage.swift:18-22 | an edit keeps the immutable `id`, `role` and `image`; it sets the text; the message stays streaming only when it was streaming and the edit only sets the text |
| ChatMessages.SetTextIsOverwritten | ios_vlm/VLMViewModel.swift:190-197 | an edit made after a text overwrite leaves no trace of the overwritten text |
| ChatStatus.ChatViewStatus.Message | ios_vlm/VLMViewModel.swift:21-29 | the result is the payload of whichever case the status is |
| ChatStatus.ChatViewStatus.IsLoading | ios_vlm/VLMViewModel.swift:31-34 | true exactly for a `loading` status, whatever its text |
| ChatStatus.ChatViewStatus.IsError | ios_vlm/VLMViewModel.swift:36-39 | true exactly for an `error` status, whatever its text |
| ChatStatus.StatusIsCaseAndMessage | ios_vlm/VLMViewModel.swift:15-39 | no status is both loading and an error; a loading or error status is rebuilt from its case and `message` |
| Trimming.DropLeading | ios_vlm/VLMViewModel.swift:90 | the result is a suffix of the input; everything dropped is whitespace or a newline; the result does not start with one |
| Trimming.DropTrailing | ios_vlm/VLMViewModel.swift:90 | the result is a prefix of the input; everything dropped is whitespace or a newline; the result does not end with one |
| Trimming.Trimmed | ios_vlm/VLMViewModel.swift:90 | the trimmed prompt is no longer than the prompt; if not empty, it starts and ends with a character outside the set |
| Trimming.TrimmedEmptyIffAllWhitespace | ios_vlm/VLMViewModel.swift:90-91 | a prompt trims to the empty string exactly when all its characters are whitespace and newlines |
| Trimming.TrimmedIsIdempotent | ios_vlm/VLMViewModel.swift:90 | trimming a trimmed prompt changes nothing |
| MessageLog.FirstIndex | ios_vlm/VLMViewModel.swift:241 | a found index is a position of the log |
| MessageLog.FirstIndexIsFirstMatch | ios_vlm/VLMViewModel.swift:241 | the lookup finds the first message with the identifier, and finds none exactly when no message has it |
| MessageLog.FirstIndexIsUnique | ios_vlm/VLMViewModel.swift:241 | any position holding the first message with the identifier is the position the lookup returns |
| MessageLog.UpdatedLog | ios_vlm/VLMViewModel.swift:240-243 | `updateMessage` never changes the length of the log |
| MessageLog.UpdatedLogEditsFirstMatch | ios_vlm/VLMViewModel.swift:240-243 | only the first message with the identifier is edited; every other message and every identifier stays the same; an unknown identifier leaves the log unchanged |
| MessageLog.SetTextIsOverwrittenInLog | ios_vlm/VLMViewModel.swift:210-222 | a partial text written into a message and then finalized or rewritten leaves no trace in the log |
| Conversation.Initial | ios_vlm/VLMViewModel.swift:44-56 | a fresh view-model satisfies the invariant: empty log, the loading-model status, model not ready, no task, no image |
| Conversation.Appended | ios_vlm/VLMViewModel.swift:225-238 | an append keeps the earlier log and adds exactly one message at the end, with the next fresh identifier and the given role, text, image and streaming flag; only the log and the identifier counter change |
| Conversation.AppendedKeepsInv | ios_vlm/ChatMessage.swift:24-36 | a message created with a fresh identifier and not streaming keeps identifiers unique and the log settled |
| Conversation.LoadStep | ios_vlm/VLMViewModel.swift:113-125 | success: session present, model ready, ready status, nothing else changed. Failure: error status with the load-failed copy and exactly one system message with that text appended; nothing else changes but the identifier counter |
| Conversation.AttachStep | ios_vlm/VLMViewModel.swift:58-69 | the slot always takes the argument. Before the model is ready the status is untouched. After, it is `needsImage` for an image, "image cleared" once a turn has completed, and "ready to chat" otherwise. Nothing else changes |
| Conversation.ClearedImageStatusRevealsStart | ios_vlm/VLMViewModel.swift:64-67 | once the model is ready, clearing the image shows the "image cleared" copy exactly when a turn has completed |
| Conversation.SendGate | ios_vlm/VLMViewModel.swift:90-100 | a send passes exactly when the trimmed prompt is not empty, no task exists, a session exists and the model is ready; it is turned away as busy only while a task exists |
| Conversation.SendGateGuards | ios_vlm/VLMViewModel.swift:89-100 | each guard stops the send exactly when its condition holds and the earlier guards pass: blank prompt, request in flight, no session, model not ready; a send passes exactly when none of them holds |
| Conversation.RunStep | ios_vlm/VLMViewModel.swift:89-111 | a send never touches the log, the identifiers or the image slot; a send that starts a task marks loading and gives the task the trimmed prompt |
| Conversation.RunStepEffects | ios_vlm/VLMViewModel.swift:89-111 | no guard appends a message; blank prompts and sends during a request change nothing; a missing session or a loading model only set the status; only a send that passes starts a task, and it marks loading and carries the trimmed, non-empty prompt |
| Conversation.SentPromptIsTrimmed | ios_vlm/VLMViewModel.swift:90-107 | the prompt a started task carries is non-empty and already trimmed |
| Conversation.SendWithoutSession | ios_vlm/VLMViewModel.swift:91-96 | without a session a send changes nothing or only sets the "session not ready" status |
| Conversation.CancelStep | ios_vlm/VLMViewModel.swift:83-87 | a no-op when idle; otherwise the task is marked cancelled and the status shows the cancellation copy; the log is untouched |
| Conversation.Settled | ios_vlm/VLMViewModel.swift:143-146 | the deferred cleanup clears the loading flag and the task handle and keeps the log, the status and the image slot |
| Conversation.NoticedAt | ios_vlm/VLMViewModel.swift:181 | a task cancelled before it ran notices it at the check right after the model call; a task notices nothing only when it was not cancelled and no checkpoint sees a cancellation |
| Conversation.TurnCancelled | ios_vlm/VLMViewModel.swift:190-197 | a turn that ends cancelled did not fail with a plain error; a task cancelled before it ran and answered by the model always ends cancelled |
| Conversation.Opened | ios_vlm/VLMViewModel.swift:158-166 | opening the turn keeps the earlier log and appends exactly the user message (the trimmed prompt and the image taken from the slot) and the empty, streaming assistant placeholder, with the next two fresh identifiers; it empties the slot and changes nothing else |
| Conversation.Finished | ios_vlm/VLMViewModel.swift:168-207 | settling the placeholder keeps the length of the log, the identifiers, the task and the image slot |
| Conversation.TurnStep | ios_vlm/VLMViewModel.swift:140-208 | every turn ends with the loading flag cleared and no task |
| Conversation.ConversionFailureTurn | ios_vlm/VLMViewModel.swift:151-157 | an image that does not convert appends exactly one system message with the conversion-failed copy, sets the image-failed error, and leaves `hasStarted` alone |
| Conversation.FinishedFrame | ios_vlm/VLMViewModel.swift:168-207 | settling the placeholder changes only the log contents, the status and `hasStarted`, and never the length of the log |
| Conversation.TurnSettles | ios_vlm/VLMViewModel.swift:143-146 | every way a turn ends clears the loading flag, the task handle and the image slot; it keeps readiness and session and logs at least one message |
| Conversation.PlaceholderIsFound | ios_vlm/VLMViewModel.swift:166-192 | the identifier returned for the placeholder finds the placeholder in the log |
| Conversation.TurnOutcome | ios_vlm/VLMViewModel.swift:151-207 | an opened turn keeps the earlier log and adds exactly the user message and the placeholder. The user message has the prompt and the captured image. The placeholder ends not streaming, with the whole answer and the completion status on success, the cancellation marker and status on cancellation, and the error marker and try-again status on any other error |
| Conversation.TurnKeepsInv | ios_vlm/VLMViewModel.swift:140-208 | every turn keeps identifiers unique and below the next fresh one, leaves no message streaming, and keeps session, readiness, loading flag and task handle consistent |
| Conversation.CancelBeforeResponse | ios_vlm/VLMViewModel.swift:181-197 | a cancel while the task is queued makes the turn end with the cancellation marker and status, whatever the answer |
| Conversation.StepKeepsInv | ios_vlm/VLMViewModel.swift:58-243 | every operation keeps the invariant |
| Conversation.RunKeepsInv | ios_vlm/VLMViewModel.swift:58-243 | any sequence of operations keeps the invariant |
| Conversation.AtMostOneStreamingAlways | ios_vlm/VLMViewModel.swift:165-222 | from a fresh view-model, after any sequence of operations: at most one message is streaming, identifiers are unique, and `isLoading` holds exactly while a task exists |
| Conversation.InterleavedStep | ios_vlm/VLMViewModel.swift:89-92 | while a task exists, any attach, send or cancel leaves the log and the identifiers alone and starts no second task: the task keeps its prompt and follow-up flag |
| Conversation.InterleavedRun | ios_vlm/VLMViewModel.swift:89-92 | the same for any sequence of attaches, sends and cancels |
| Conversation.Suspended | ios_vlm/VLMViewModel.swift:165-217 | a suspended turn keeps its task, and its log is two messages longer than before the turn |
| Conversation.SuspendedPlaceholderStreams | ios_vlm/VLMViewModel.swift:165-217 | at the model call and at every reveal delay, whatever partial text is shown, the placeholder is the only streaming message |
| Conversation.SuspendedTurnHasOnePlaceholder | ios_vlm/VLMViewModel.swift:165-217 | at the model call or at any reveal delay, after any attaches, sends and cancels, the log is unchanged, the placeholder is still the only streaming message, and the suspended task keeps its prompt and flag |
| Conversation.ImageStaysWhileQueued | ios_vlm/VLMViewModel.swift:58-111 | an image attached before a send, or while the task is queued, stays in the slot while the task exists, and the invariant holds in both states |
| Conversation.FailedLoadIsTerminal | ios_vlm/VLMViewModel.swift:93-96 | after a failed load no operation adds to the log, starts a task or makes the model ready |
| Conversation.FailedLoadScenario | ios_vlm/VLMViewModel.swift:119-124 | a failed first load leaves exactly one system message with the load-failed copy and an error status with that copy |
| ViewModel.VLMViewModel.constructor | ios_vlm/VLMViewModel.swift:44-56 | a fresh view-model has an empty log, no session, no task, no image, the loading-model status, and satisfies the invariant |
| ViewModel.VLMViewModel.LoadVLM | ios_vlm/VLMViewModel.swift:113-125 | the fields move exactly as `LoadStep` says, and the invariant is kept |
| ViewModel.VLMViewModel.SetAttachedImage | ios_vlm/VLMViewModel.swift:58-69 | the fields move exactly as `AttachStep` says, and the invariant is kept |
| ViewModel.VLMViewModel.StartConversation | ios_vlm/VLMViewModel.swift:71-73 | a first-turn send through the guard chain (`RunStep` with the flag off); the invariant is kept |
| ViewModel.VLMViewModel.SendFollowUp | ios_vlm/VLMViewModel.swift:75-81 | before the first completed turn it is exactly `StartConversation`; after it, a follow-up send; the invariant is kept |
| ViewModel.VLMViewModel.CancelCurrentRequest | ios_vlm/VLMViewModel.swift:83-87 | the fields move exactly as `CancelStep` says, and the invariant is kept |
| ViewModel.VLMViewModel.RunConversation | ios_vlm/VLMViewModel.swift:89-111 | for any field values, the fields move exactly as `RunStep` says |
| ViewModel.VLMViewModel.PerformConversation | ios_vlm/VLMViewModel.swift:140-208 | the fields move exactly as `TurnStep` says, and the invariant is kept |
| ViewModel.VLMViewModel.AbandonTurn | ios_vlm/VLMViewModel.swift:151-157 | the conversion-failure exit of the turn, as `TurnStep` says |
| ViewModel.VLMViewModel.CompleteTurn | ios_vlm/VLMViewModel.swift:158-207 | the rest of the turn after the image converted, as `TurnStep` says |
| ViewModel.VLMViewModel.Settle | ios_vlm/VLMViewModel.swift:143-146 | the deferred cleanup clears the loading flag and the task handle and nothing else |
| ViewModel.VLMViewModel.OpenTurn | ios_vlm/VLMViewModel.swift:165-207 | logs the user message and the placeholder, then settles the placeholder as `Finished` says |
| ViewModel.VLMViewModel.RespondAndReveal | ios_vlm/VLMViewModel.swift:168-207 | the `do`/`catch` of the turn moves the fields exactly as `Finished` says for each outcome and cancellation checkpoint |
| ViewModel.VLMViewModel.StreamAnswer | ios_vlm/VLMViewModel.swift:210-223 | it reports a cancellation exactly when one is noticed at a checkpoint of a non-empty answer. Without one, the message holds the whole answer and is no longer streaming. With one, the message holds the first k characters, or is untouched when k is 0 |
| ViewModel.VLMViewModel.AppendUserMessage | ios_vlm/VLMViewModel.swift:225-227 | appends one user message with a fresh identifier at the end of the log |
| ViewModel.VLMViewModel.AppendAssistantMessage | ios_vlm/VLMViewModel.swift:229-234 | appends one assistant message with a fresh identifier at the end and returns that identifier |
| ViewModel.VLMViewModel.AppendSystemMessage | ios_vlm/VLMViewModel.swift:236-238 | appends one system message with a fresh identifier at the end of the log |
| ViewModel.VLMViewModel.UpdateMessage | ios_vlm/VLMViewModel.swift:240-243 | the log becomes `UpdatedLog`: the first message with the identifier is edited and nothing else changes |

## Left out

- Model inference is not modelled: `loadModel`, `ChatSession` and `respond`. The load's success and the call's outcome are parameters of `LoadVLM` and `PerformConversation`.
- `makeMLXImage` (image conversion through CoreImage) is not modelled. Whether it succeeds is a parameter, and images are opaque identifiers.
- Async scheduling is not modelled: `Task` creation, the 40 ms / 18 ms delays between revealed characters, `withAnimation`, `@Published` observation and `print` logging.
- ViewModel.VLMViewModel.PerformConversation: runs the turn as one step, while the app suspends it at the model call (ios_vlm/VLMViewModel.swift:176-178) and at each reveal delay (:217). An attach or a removal of the image while the turn is suspended is not modelled. Such an attach sets the `needsImage` status and leaves the slot filled after the turn, an end state `TurnStep` never produces. A cancel during the turn is modelled, through the checkpoint at which it is noticed.
- Conversation.AtMostOneStreamingAlways: holds between steps, where no message streams. The states of a suspended turn (at the model call and at each reveal delay) are covered by `SuspendedTurnHasOnePlaceholder`, for the operations that may run there, and not by this lemma.
- Task cancellation is a flag on the request plus a checkpoint parameter. A cancellation that the model call itself turns into an error is the `Failed(true)` outcome.
- `UUID()` is a counter, `nextId`. This captures freshness, which the lookup by identifier relies on, but not randomness.
- ViewModel.VLMViewModel.StreamAnswer: iterates over Dafny characters (Unicode scalar values), while Swift's `for character in answer` iterates over grapheme clusters. An answer with combining sequences would be revealed in more steps in the model.
- Trimming.Trimmed: uses the whitespace-and-newline set listed in `Trimming.IsWhitespaceOrNewline` on Unicode scalar values; Foundation's character-set data is not reproduced beyond that list.
- In the event model of `Conversation.Run` the load may finish more than once. The app loads once from `init`, and `FailedLoadIsTerminal` assumes no further load.
- The UI copy strings of `AppCopy` (ios_vlm/AppCopy.swift:38-45) are used only by the SwiftUI view, which is not part of this model.
- ios_vlm/ContentView.swift is not part of this model. It holds layout, the photo picker and the send button's enabling, which repeats the view-model's guards.
- The Rust bridge ios_bridge/src/lib.rs and ios_bridge/ios_bridge.h are not part of this model. They hold the C FFI over the inference engine.
