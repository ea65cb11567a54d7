/** The view-model object: the fields the chat screen observes, updated in
    place by one method per operation. Every method is proved to move the
    object's fields exactly as the matching step function of the
    Conversation module says. */
module ViewModel {
  import opened Wrappers
  import opened AppCopy
  import opened ChatMessages
  import opened ChatStatus
  import opened Trimming
  import opened MessageLog
  import opened Conversation

  class VLMViewModel {
    var messages: seq<ChatMessage>
    var isLoading: bool
    var isModelReady: bool
    var status: ChatViewStatus
    var hasStarted: bool
    var attachedImage: Option<ImageId>
    // the chat session exists
    var sessionPresent: bool
    // the task handle of the request in flight
    var currentRequest: Option<Request>
    // the identifier the next created message gets
    var nextId: MessageId

    /** The object's fields as one value. */
    function Snapshot(): (r: ChatState)
      reads this
    {
      ChatState(messages, isLoading, isModelReady, status, hasStarted, attachedImage,
                sessionPresent, currentRequest, nextId)
    }

    ghost predicate Valid()
      reads this
    {
      Inv(Snapshot())
    }

    /** A fresh view-model; the model load that `init` starts is the
        separate step `LoadVLM`. */
    constructor ()
      ensures Snapshot() == Initial() && Valid()
    {
      messages := [];
      isLoading := false;
      isModelReady := false;
      status := Loading(LoadingModel);
      hasStarted := false;
      attachedImage := None;
      sessionPresent := false;
      currentRequest := None;
      nextId := 0;
    }

    /** The model load finishing, successfully or not. */
    method LoadVLM(loaded: bool)
      requires Valid()
      modifies this
      ensures Snapshot() == LoadStep(old(Snapshot()), loaded) && Valid()
    {
      LoadKeepsInv(Snapshot(), loaded);
      if loaded {
        sessionPresent := true;
        isModelReady := true;
        status := Ready(ModelReadyToChat);
      } else {
        var message := ModelLoadFailed;
        status := Error(message);
        AppendSystemMessage(message);
      }
    }

    method SetAttachedImage(image: Option<ImageId>)
      requires Valid()
      modifies this
      ensures Snapshot() == AttachStep(old(Snapshot()), image) && Valid()
    {
      AttachKeepsInv(Snapshot(), image);
      attachedImage := image;
      if !isModelReady {
        return;
      }
      if image.Some? {
        status := NeedsImage(ImageAttachedAwaitingMessage);
      } else if hasStarted {
        status := Ready(ImageClearedKeepChatting);
      } else {
        status := Ready(ModelReadyToChat);
      }
    }

    method StartConversation(prompt: string)
      requires Valid()
      modifies this
      ensures Snapshot() == RunStep(old(Snapshot()), prompt, false) && Valid()
    {
      RunStepKeepsInv(Snapshot(), prompt, false);
      RunConversation(prompt, false);
    }

    /** Before the first completed turn a follow-up is sent exactly as a
        first message is. */
    method SendFollowUp(prompt: string)
      requires Valid()
      modifies this
      ensures Snapshot() == RunStep(old(Snapshot()), prompt, old(hasStarted)) && Valid()
    {
      RunStepKeepsInv(Snapshot(), prompt, hasStarted);
      if !hasStarted {
        StartConversation(prompt);
        return;
      }
      RunConversation(prompt, true);
    }

    method CancelCurrentRequest()
      requires Valid()
      modifies this
      ensures Snapshot() == CancelStep(old(Snapshot())) && Valid()
    {
      CancelKeepsInv(Snapshot());
      if currentRequest.None? {
        return;
      }
      currentRequest := Some(currentRequest.value.(cancelled := true));
      status := Ready(GenerationCancelled);
    }

    /** The guard chain, for any field values; the two public sends call
        it with the invariant in force. */
    method RunConversation(prompt: string, isFollowUp: bool)
      modifies this
      ensures Snapshot() == RunStep(old(Snapshot()), prompt, isFollowUp)
    {
      var trimmed := Trimmed(prompt);
      if trimmed == [] {
        return;
      }
      if currentRequest.Some? {
        return;
      }
      if !sessionPresent {
        status := Error(ModelSessionNotReady);
        return;
      }
      if !isModelReady {
        status := Loading(ModelStillLoading);
        return;
      }
      isLoading := true;
      status := Loading(GeneratingResponse);
      currentRequest := Some(Request(trimmed, isFollowUp, false));
    }

    /** The body of the task: converts the attached image, logs the user
        message and the placeholder, asks the model, and settles the
        placeholder. `converts` says whether the image converts, `outcome`
        what the model gives back, `seen` where a cancellation is noticed.
        Both ways out end in `Settle`, the source's `defer`. */
    method PerformConversation(converts: bool, outcome: ModelOutcome, seen: Option<Checkpoint>)
      requires Valid() && currentRequest.Some?
      modifies this
      ensures Snapshot() == TurnStep(old(Snapshot()), converts, outcome, seen) && Valid()
    {
      TurnKeepsInv(Snapshot(), converts, outcome, seen);
      if attachedImage.Some? && !converts {
        AbandonTurn(outcome, seen);
      } else {
        CompleteTurn(converts, outcome, seen);
      }
    }

    /** The guard that drops an image that does not convert: one system
        message, the image slot cleared, an error status, then the
        deferred cleanup. */
    method AbandonTurn(outcome: ModelOutcome, seen: Option<Checkpoint>)
      requires currentRequest.Some? && attachedImage.Some?
      modifies this
      ensures Snapshot() == TurnStep(old(Snapshot()), false, outcome, seen)
    {
      AppendSystemMessage(ImageConversionFailed);
      attachedImage := None;
      status := Error(ImageFailedToLoad);
      Settle();
      AbandonedTurn(old(Snapshot()), outcome, seen);
    }

    /** The rest of the turn once the image, if any, converted. */
    method CompleteTurn(converts: bool, outcome: ModelOutcome, seen: Option<Checkpoint>)
      requires currentRequest.Some? && !(attachedImage.Some? && !converts)
      modifies this
      ensures Snapshot() == TurnStep(old(Snapshot()), converts, outcome, seen)
    {
      var request, imageForMessage := currentRequest.value, attachedImage;
      attachedImage := None;
      OpenTurn(old(Snapshot()), request, imageForMessage, outcome, seen);
      Settle();
      OpenedTurn(old(Snapshot()), converts, outcome, seen);
    }

    /** The deferred cleanup that runs at every exit of the turn. */
    method Settle()
      modifies this
      ensures Snapshot() == Settled(old(Snapshot()))
    {
      isLoading, currentRequest := false, None;
    }

    /** Logs the user message, with the image taken out of the slot, and
        the streaming placeholder, then asks the model. */
    method OpenTurn(ghost s: ChatState, request: Request, imageForMessage: Option<ImageId>,
                    outcome: ModelOutcome, seen: Option<Checkpoint>)
      requires s.currentRequest == Some(request) && imageForMessage == s.attachedImage
      requires Snapshot() == s.(attachedImage := None)
      modifies this
      ensures Snapshot() == Finished(Opened(s), s.nextId + 1, request, outcome, seen)
    {
      AppendUserMessage(request.prompt, imageForMessage);
      var placeholderId := AppendAssistantMessage("", true);
      RespondAndReveal(request, placeholderId, outcome, seen);
    }

    /** The `do`/`catch` part of the turn, once the user message and the
        placeholder with identifier `placeholderId` are logged: asks the
        model, checks for cancellation, reveals the answer, and on a thrown
        error writes the cancellation or the error marker into the
        placeholder. */
    method RespondAndReveal(request: Request, placeholderId: MessageId, outcome: ModelOutcome, seen: Option<Checkpoint>)
      modifies this
      ensures Snapshot() == Finished(old(Snapshot()), placeholderId, request, outcome, seen)
    {
      if !sessionPresent {
        status := Error(ModelSessionUnavailable);
        return;
      }

      // None: the turn completed; Some(b): an error was thrown, a
      // cancellation exactly when b
      var thrown: Option<bool> := None;
      var noticed := NoticedAt(request, seen);
      match outcome {
        case Failed(isCancellation) =>
          thrown := Some(isCancellation);
        case Answer(answer) =>
          if noticed == Some(AfterResponse) {
            thrown := Some(true);
          } else {
            status := Loading(StreamingResponse);
            var cancelAt := if noticed.Some? then Some(noticed.value.count) else None;
            var cancelled := StreamAnswer(answer, placeholderId, cancelAt);
            if cancelled {
              if cancelAt.value > 0 {
                SetTextIsOverwrittenInLog(old(messages), placeholderId, answer[..cancelAt.value],
                                          Finalize(GenerationCancelled));
              }
              thrown := Some(true);
            } else {
              hasStarted := true;
              status := Ready(ReadyForNextMessage(request.isFollowUp));
            }
          }
      }
      assert thrown == Some(true) <==> TurnCancelled(request, outcome, seen);

      if thrown == Some(true) {
        UpdateMessage(placeholderId, Finalize(GenerationCancelled));
        status := Ready(GenerationCancelled);
      } else if thrown == Some(false) {
        UpdateMessage(placeholderId, Finalize(StreamedError));
        status := Error(SendToTryAgain);
      }
    }

    /** Reveals `answer` in the message with identifier `messageId` one
        character at a time. Cancellation is checked before each character
        and in the delay after it; `cancelAt` is the number of characters
        shown when it is first noticed. On completion the message holds the
        whole answer and is no longer streaming. */
    method StreamAnswer(answer: string, messageId: MessageId, cancelAt: Option<nat>) returns (cancelled: bool)
      modifies this`messages
      ensures cancelled <==> cancelAt.Some? && StreamInterrupted(cancelAt.value, |answer|)
      ensures !cancelled ==> messages == UpdatedLog(old(messages), messageId, Finalize(answer))
      ensures cancelled && cancelAt.value == 0 ==> messages == old(messages)
      ensures cancelled && cancelAt.value > 0 ==>
        messages == UpdatedLog(old(messages), messageId, SetText(answer[..cancelAt.value]))
    {
      var partial := "";
      for i := 0 to |answer|
        invariant partial == answer[..i]
        invariant messages == if i == 0 then old(messages) else UpdatedLog(old(messages), messageId, SetText(partial))
        invariant cancelAt.Some? && 0 < i ==> cancelAt.value > i
      {
        if cancelAt == Some(i) {
          return true;
        }
        if i > 0 {
          SetTextIsOverwrittenInLog(old(messages), messageId, partial, SetText(partial + [answer[i]]));
        }
        partial := partial + [answer[i]];
        assert partial == answer[..i + 1];
        UpdateMessage(messageId, SetText(partial));
        if cancelAt == Some(i + 1) {
          return true;
        }
      }
      if |answer| > 0 {
        SetTextIsOverwrittenInLog(old(messages), messageId, partial, Finalize(partial));
      }
      assert partial == answer;
      UpdateMessage(messageId, Finalize(partial));
      return false;
    }

    method AppendUserMessage(text: string, image: Option<ImageId>)
      modifies this`messages, this`nextId
      ensures Snapshot() == Appended(old(Snapshot()), User, text, image, false)
    {
      messages := messages + [ChatMessage(nextId, User, text, image)];
      nextId := nextId + 1;
    }

    method AppendAssistantMessage(text: string, isStreaming: bool) returns (id: MessageId)
      modifies this`messages, this`nextId
      ensures id == old(nextId)
      ensures Snapshot() == Appended(old(Snapshot()), Assistant, text, None, isStreaming)
    {
      id := nextId;
      messages := messages + [ChatMessage(id, Assistant, text, None, isStreaming)];
      nextId := nextId + 1;
    }

    method AppendSystemMessage(text: string)
      modifies this`messages, this`nextId
      ensures Snapshot() == Appended(old(Snapshot()), System, text, None, false)
    {
      messages := messages + [ChatMessage(nextId, System, text)];
      nextId := nextId + 1;
    }

    method UpdateMessage(id: MessageId, e: Edit)
      modifies this`messages
      ensures messages == UpdatedLog(old(messages), id, e)
    {
      var index := FirstIndex(messages, id);
      if index.None? {
        return;
      }
      messages := messages[index.value := ApplyEdit(e, messages[index.value])];
    }
  }
}
