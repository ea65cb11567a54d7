/** The conversation state machine of the view-model, as values: one step
    function per operation, the invariant every step keeps, and what each
    turn outcome leaves behind. The class in ViewModel.dfy is proved to
    move between exactly these states. */
module Conversation {
  import opened Wrappers
  import opened AppCopy
  import opened ChatMessages
  import opened ChatStatus
  import opened Trimming
  import opened MessageLog

  /** The in-flight task: the trimmed prompt and follow-up flag it
      captured, and whether `cancel()` has been called on it. */
  datatype Request = Request(prompt: string, isFollowUp: bool, cancelled: bool)

  /** What the model's `respond` call gives back: an answer, or a thrown
      error, which may be a `CancellationError`. */
  datatype ModelOutcome = Answer(text: string) | Failed(isCancellation: bool)

  /** Where a pending cancellation is first noticed: at the check right
      after `respond` returns, or in the reveal loop once `count`
      characters are shown (the check before the next character, or the
      delay after the last one). */
  datatype Checkpoint = AfterResponse | AfterRevealed(count: nat)

  /** Every field of the view-model. `sessionPresent` stands for the
      optional chat session, `currentRequest` for the optional task handle
      and `nextId` for the source of fresh message identifiers. */
  datatype ChatState = ChatState(
    messages: seq<ChatMessage>,
    isLoading: bool,
    isModelReady: bool,
    status: ChatViewStatus,
    hasStarted: bool,
    attachedImage: Option<ImageId>,
    sessionPresent: bool,
    currentRequest: Option<Request>,
    nextId: MessageId)

  /** The state a fresh view-model starts in, before the model has loaded. */
  function Initial(): (r: ChatState)
    ensures Inv(r) && r.messages == [] && r.status == Loading(LoadingModel)
    ensures !r.isModelReady && r.currentRequest.None? && r.attachedImage.None?
  {
    ChatState([], false, false, Loading(LoadingModel), false, None, false, None, 0)
  }

  /** What holds between any two operations: identifiers are unique and
      below the next fresh one, no message is streaming, a session exists
      exactly when the model is ready, `isLoading` mirrors the task handle,
      and a task only exists while a session does. */
  ghost predicate Inv(s: ChatState)
  {
    UniqueIds(s.messages) && IdsBelow(s.messages, s.nextId) &&
    NoneStreaming(s.messages) &&
    s.sessionPresent == s.isModelReady &&
    s.isLoading == s.currentRequest.Some? &&
    (s.currentRequest.Some? ==> s.sessionPresent)
  }

  /** The log with one more message, created with a fresh identifier. */
  function Appended(s: ChatState, role: Role, text: string, image: Option<ImageId>, streaming: bool): (r: ChatState)
    ensures r.messages == s.messages + [ChatMessage(s.nextId, role, text, image, streaming)]
    ensures r == s.(messages := r.messages, nextId := s.nextId + 1)
  {
    s.(messages := s.messages + [ChatMessage(s.nextId, role, text, image, streaming)], nextId := s.nextId + 1)
  }

  lemma AppendedKeepsInv(s: ChatState, role: Role, text: string, image: Option<ImageId>)
    requires Inv(s)
    ensures Inv(Appended(s, role, text, image, false))
  {
  }

  // ---------------------------------------------------------------------
  // Model load

  /** `loadVLM`: on success a session exists and the model is ready; on
      failure the status reports it and one system message is logged, and
      the model stays not ready. */
  function LoadStep(s: ChatState, loaded: bool): (r: ChatState)
    ensures loaded ==> r == s.(sessionPresent := true, isModelReady := true, status := Ready(ModelReadyToChat))
    ensures !loaded ==> r == s.(messages := r.messages, status := r.status, nextId := s.nextId + 1)
    ensures !loaded ==> r.status == Error(ModelLoadFailed)
    ensures !loaded ==> r.messages == s.messages + [ChatMessage(s.nextId, System, ModelLoadFailed)]
  {
    if loaded then
      s.(sessionPresent := true, isModelReady := true, status := Ready(ModelReadyToChat))
    else
      Appended(s.(status := Error(ModelLoadFailed)), System, ModelLoadFailed, None, false)
  }

  // ---------------------------------------------------------------------
  // Image slot

  /** `setAttachedImage`: the slot always takes the argument; the status is
      only touched once the model is ready, and then tells an attached image,
      a cleared image after a turn, and a cleared image before any turn
      apart. Nothing else changes. */
  function AttachStep(s: ChatState, image: Option<ImageId>): (r: ChatState)
    ensures r == s.(attachedImage := image, status := r.status)
    ensures !s.isModelReady ==> r.status == s.status
    ensures s.isModelReady && image.Some? ==> r.status == NeedsImage(ImageAttachedAwaitingMessage)
    ensures s.isModelReady && image.None? ==>
      r.status == Ready(if s.hasStarted then ImageClearedKeepChatting else ModelReadyToChat)
  {
    var s' := s.(attachedImage := image);
    if !s.isModelReady then s'
    else if image.Some? then s'.(status := NeedsImage(ImageAttachedAwaitingMessage))
    else if s.hasStarted then s'.(status := Ready(ImageClearedKeepChatting))
    else s'.(status := Ready(ModelReadyToChat))
  }

  /** Once the model is ready, the status after removing the image tells
      whether a turn has already completed. */
  lemma ClearedImageStatusRevealsStart(s: ChatState)
    requires s.isModelReady
    ensures AttachStep(s, None).status == Ready(ImageClearedKeepChatting) <==> s.hasStarted
  {
    ReadyCopiesDiffer();
  }

  // ---------------------------------------------------------------------
  // Sending a prompt

  /** Which guard of `runConversation` stops the send, if any. */
  datatype Gate = EmptyPrompt | Busy | NoSession | NotReady | Pass

  /** The guards of `runConversation`, tried in order: empty prompt after
      trimming, request already in flight, no session, model not ready. */
  function SendGate(s: ChatState, prompt: string): (g: Gate)
    ensures g == Pass <==> Trimmed(prompt) != [] && s.currentRequest.None? && s.sessionPresent && s.isModelReady
    ensures g == Busy ==> s.currentRequest.Some?
  {
    if Trimmed(prompt) == [] then EmptyPrompt
    else if s.currentRequest.Some? then Busy
    else if !s.sessionPresent then NoSession
    else if !s.isModelReady then NotReady
    else Pass
  }

  /** Each guard stops the send exactly when its condition holds and the
      earlier guards pass; a prompt is empty after trimming exactly when it
      is whitespace and newlines only. */
  lemma SendGateGuards(s: ChatState, prompt: string)
    ensures var g := SendGate(s, prompt);
      (g == EmptyPrompt <==> AllWhitespace(prompt)) &&
      (g == Busy <==> !AllWhitespace(prompt) && s.currentRequest.Some?) &&
      (g == NoSession <==> !AllWhitespace(prompt) && s.currentRequest.None? && !s.sessionPresent) &&
      (g == NotReady <==>
        !AllWhitespace(prompt) && s.currentRequest.None? && s.sessionPresent && !s.isModelReady) &&
      (g == Pass <==>
        !AllWhitespace(prompt) && s.currentRequest.None? && s.sessionPresent && s.isModelReady)
  {
    TrimmedEmptyIffAllWhitespace(prompt);
  }

  /** `runConversation`. */
  function RunStep(s: ChatState, prompt: string, isFollowUp: bool): (r: ChatState)
    ensures r.messages == s.messages && r.nextId == s.nextId && r.attachedImage == s.attachedImage
    ensures r.currentRequest != s.currentRequest ==> r.isLoading && r.currentRequest.Some? && r.currentRequest.value.prompt == Trimmed(prompt)
  {
    match SendGate(s, prompt)
    case EmptyPrompt => s
    case Busy => s
    case NoSession => s.(status := Error(ModelSessionNotReady))
    case NotReady => s.(status := Loading(ModelStillLoading))
    case Pass =>
      s.(isLoading := true, status := Loading(GeneratingResponse),
         currentRequest := Some(Request(Trimmed(prompt), isFollowUp, false)))
  }

  /** No guard appends a message; a whitespace-only prompt and a send while
      a request is in flight change nothing; a missing session or a model
      still loading only change the status; a send that passes every guard
      marks the view-model loading and stores a task for the trimmed,
      non-empty prompt, and only such a send starts a task. */
  lemma RunStepEffects(s: ChatState, prompt: string, isFollowUp: bool)
    ensures var r := RunStep(s, prompt, isFollowUp);
      r.messages == s.messages && r.nextId == s.nextId &&
      r.attachedImage == s.attachedImage && r.hasStarted == s.hasStarted &&
      r.isModelReady == s.isModelReady && r.sessionPresent == s.sessionPresent &&
      (AllWhitespace(prompt) ==> r == s) &&
      (s.currentRequest.Some? ==> r == s) &&
      (SendGate(s, prompt) == NoSession ==> r == s.(status := Error(ModelSessionNotReady))) &&
      (SendGate(s, prompt) == NotReady ==> r == s.(status := Loading(ModelStillLoading))) &&
      (SendGate(s, prompt) == Pass <==> r.currentRequest != s.currentRequest) &&
      (SendGate(s, prompt) == Pass ==>
        r.isLoading && r.status == Loading(GeneratingResponse) &&
        r.currentRequest == Some(Request(Trimmed(prompt), isFollowUp, false)) &&
        Trimmed(prompt) != [])
  {
    SendGateGuards(s, prompt);
  }

  /** The prompt a task carries is already trimmed and not empty. */
  lemma SentPromptIsTrimmed(s: ChatState, prompt: string, isFollowUp: bool)
    requires SendGate(s, prompt) == Pass
    ensures var req := RunStep(s, prompt, isFollowUp).currentRequest.value;
      req.prompt != [] && Trimmed(req.prompt) == req.prompt
  {
    TrimmedIsIdempotent(prompt);
  }

  // ---------------------------------------------------------------------
  // Cancellation

  /** `cancelCurrentRequest`: a no-op when idle; otherwise the task is
      marked cancelled and the status reports the cancellation, and the
      log is left alone. */
  function CancelStep(s: ChatState): (r: ChatState)
    ensures s.currentRequest.None? ==> r == s
    ensures s.currentRequest.Some? ==>
      r == s.(currentRequest := Some(s.currentRequest.value.(cancelled := true)),
              status := Ready(GenerationCancelled))
  {
    match s.currentRequest
    case None => s
    case Some(req) => s.(currentRequest := Some(req.(cancelled := true)), status := Ready(GenerationCancelled))
  }

  // ---------------------------------------------------------------------
  // The turn

  /** The deferred cleanup at the end of every turn. */
  function Settled(s: ChatState): (r: ChatState)
    ensures !r.isLoading && r.currentRequest.None?
    ensures r.messages == s.messages && r.status == s.status && r.attachedImage == s.attachedImage
  {
    s.(isLoading := false, currentRequest := None)
  }

  /** Whether the reveal of an answer of `n` characters is interrupted by a
      cancellation first noticed at `count` characters: the loop only has
      checkpoints when there is at least one character. */
  predicate StreamInterrupted(count: nat, n: nat)
  {
    0 < n && count <= n
  }

  predicate CancelNoticed(seen: Option<Checkpoint>, n: nat)
  {
    match seen
    case None => false
    case Some(AfterResponse) => true
    case Some(AfterRevealed(count)) => StreamInterrupted(count, n)
  }

  /** The checkpoint at which a turn notices cancellation: right after the
      response when the task was cancelled before it ran, otherwise as
      the oracle says. */
  function NoticedAt(req: Request, seen: Option<Checkpoint>): (c: Option<Checkpoint>)
    ensures req.cancelled ==> c == Some(AfterResponse)
    ensures c.None? ==> !req.cancelled && seen.None?
  {
    if req.cancelled then Some(AfterResponse) else seen
  }

  /** The log right after the turn opened: the user message and the empty
      streaming assistant placeholder. */
  function Opened(s: ChatState): (r: ChatState)
    requires s.currentRequest.Some?
    ensures r.messages == s.messages + [ChatMessage(s.nextId, User, s.currentRequest.value.prompt, s.attachedImage),
                                        ChatMessage(s.nextId + 1, Assistant, "", None, true)]
    ensures r == s.(messages := r.messages, attachedImage := None, nextId := s.nextId + 2)
  {
    var withUser := Appended(s.(attachedImage := None), User, s.currentRequest.value.prompt, s.attachedImage, false);
    Appended(withUser, Assistant, "", None, true)
  }

  /** Which of the three outcomes a turn that opened ends in. */
  predicate TurnCancelled(req: Request, outcome: ModelOutcome, seen: Option<Checkpoint>)
    ensures TurnCancelled(req, outcome, seen) ==> outcome != Failed(false)
    ensures req.cancelled && outcome.Answer? ==> TurnCancelled(req, outcome, seen)
  {
    outcome == Failed(true) || (outcome.Answer? && CancelNoticed(NoticedAt(req, seen), |outcome.text|))
  }

  /** The rest of a turn once the user message and the placeholder with
      identifier `placeholderId` are logged: the status, and the final text
      of the placeholder, for each way the model call can end. */
  function Finished(started: ChatState, placeholderId: MessageId, req: Request,
                    outcome: ModelOutcome, seen: Option<Checkpoint>): (r: ChatState)
    ensures |r.messages| == |started.messages| && r.nextId == started.nextId
    ensures r.currentRequest == started.currentRequest && r.attachedImage == started.attachedImage
  {
    if !started.sessionPresent then
      started.(status := Error(ModelSessionUnavailable))
    else if outcome == Failed(false) then
      started.(messages := UpdatedLog(started.messages, placeholderId, Finalize(StreamedError)),
               status := Error(SendToTryAgain))
    else if TurnCancelled(req, outcome, seen) then
      started.(messages := UpdatedLog(started.messages, placeholderId, Finalize(GenerationCancelled)),
               status := Ready(GenerationCancelled))
    else
      started.(messages := UpdatedLog(started.messages, placeholderId, Finalize(outcome.text)),
               hasStarted := true,
               status := Ready(ReadyForNextMessage(req.isFollowUp)))
  }

  /** `performConversation`, given whether the attached image converts, what
      the model answers and where a cancellation is noticed. */
  function TurnStep(s: ChatState, converts: bool, outcome: ModelOutcome, seen: Option<Checkpoint>): (r: ChatState)
    requires s.currentRequest.Some?
    ensures !r.isLoading && r.currentRequest.None?
  {
    if s.attachedImage.Some? && !converts then
      Settled(Appended(s.(attachedImage := None, status := Error(ImageFailedToLoad)),
                       System, ImageConversionFailed, None, false))
    else
      Settled(Finished(Opened(s), s.nextId + 1, s.currentRequest.value, outcome, seen))
  }

  /** The turn whose image does not convert, once the system message is
      logged, the slot cleared and the status set, is that state settled. */
  lemma AbandonedTurn(s: ChatState, outcome: ModelOutcome, seen: Option<Checkpoint>)
    requires s.currentRequest.Some? && s.attachedImage.Some?
    ensures TurnStep(s, false, outcome, seen) ==
      Settled(Appended(s.(attachedImage := None, status := Error(ImageFailedToLoad)),
                       System, ImageConversionFailed, None, false))
  {
  }

  /** The turn whose image converts, or that has none, is the opened turn
      finished and settled. */
  lemma OpenedTurn(s: ChatState, converts: bool, outcome: ModelOutcome, seen: Option<Checkpoint>)
    requires s.currentRequest.Some? && !(s.attachedImage.Some? && !converts)
    ensures TurnStep(s, converts, outcome, seen) ==
      Settled(Finished(Opened(s), s.nextId + 1, s.currentRequest.value, outcome, seen))
  {
  }

  /** A turn whose attached image does not convert logs exactly one system
      message, drops the image, reports the failure and appends no user or
      assistant message. */
  lemma ConversionFailureTurn(s: ChatState, outcome: ModelOutcome, seen: Option<Checkpoint>)
    requires s.currentRequest.Some? && s.attachedImage.Some?
    ensures var r := TurnStep(s, false, outcome, seen);
      r.messages == s.messages + [ChatMessage(s.nextId, System, ImageConversionFailed)] &&
      r.status == Error(ImageFailedToLoad) && r.hasStarted == s.hasStarted
  {
    AbandonedTurn(s, outcome, seen);
  }

  /** Settling the placeholder only edits the log in place, sets the status
      and may mark the conversation started; nothing else changes. */
  lemma FinishedFrame(started: ChatState, placeholderId: MessageId, req: Request,
                      outcome: ModelOutcome, seen: Option<Checkpoint>)
    ensures var r := Finished(started, placeholderId, req, outcome, seen);
      r == started.(messages := r.messages, status := r.status, hasStarted := r.hasStarted) &&
      |r.messages| == |started.messages|
  {
  }

  /** Every way a turn ends runs the deferred cleanup: the loading flag, the
      task handle and the image slot are cleared, the model's readiness is
      left alone, and at least one message is logged. */
  lemma TurnSettles(s: ChatState, converts: bool, outcome: ModelOutcome, seen: Option<Checkpoint>)
    requires s.currentRequest.Some?
    ensures var r := TurnStep(s, converts, outcome, seen);
      !r.isLoading && r.currentRequest.None? && r.attachedImage.None? &&
      r.isModelReady == s.isModelReady && r.sessionPresent == s.sessionPresent &&
      |r.messages| > |s.messages| && r.nextId > s.nextId
  {
    if s.attachedImage.Some? && !converts {
      AbandonedTurn(s, outcome, seen);
    } else {
      OpenedTurn(s, converts, outcome, seen);
      FinishedFrame(Opened(s), s.nextId + 1, s.currentRequest.value, outcome, seen);
    }
  }

  /** The placeholder the turn appended is the message the turn's edits
      find by its identifier. */
  lemma PlaceholderIsFound(s: ChatState)
    requires s.currentRequest.Some? && IdsBelow(s.messages, s.nextId)
    ensures FirstIndex(Opened(s).messages, s.nextId + 1) == Some(|s.messages| + 1)
  {
    var log := Opened(s).messages;
    assert forall j :: 0 <= j < |s.messages| ==> log[j] == s.messages[j];
    FirstIndexIsUnique(log, |s.messages| + 1, s.nextId + 1);
  }

  /** A turn that opened (no conversion failure) grows the log by exactly a
      user message carrying the trimmed prompt and the captured image,
      followed by the assistant placeholder, and keeps the earlier log; the
      placeholder is no longer streaming and its text reports the outcome:
      the whole answer, the cancellation marker, or the error marker. */
  lemma TurnOutcome(s: ChatState, converts: bool, outcome: ModelOutcome, seen: Option<Checkpoint>)
    requires Inv(s) && s.currentRequest.Some?
    requires !(s.attachedImage.Some? && !converts)
    ensures var r := TurnStep(s, converts, outcome, seen);
      var req := s.currentRequest.value;
      var n := |s.messages|;
      |r.messages| == n + 2 && r.messages[..n] == s.messages && r.nextId == s.nextId + 2 &&
      r.messages[n] == ChatMessage(s.nextId, User, req.prompt, s.attachedImage) &&
      r.messages[n + 1].id == s.nextId + 1 && r.messages[n + 1].role == Assistant &&
      r.messages[n + 1].image.None? && !r.messages[n + 1].isStreaming &&
      (outcome == Failed(false) ==>
        r.messages[n + 1].text == StreamedError && r.status == Error(SendToTryAgain) &&
        r.hasStarted == s.hasStarted) &&
      (TurnCancelled(req, outcome, seen) ==>
        r.messages[n + 1].text == GenerationCancelled && r.status == Ready(GenerationCancelled) &&
        r.hasStarted == s.hasStarted) &&
      (outcome.Answer? && !TurnCancelled(req, outcome, seen) ==>
        r.messages[n + 1].text == outcome.text && r.hasStarted &&
        r.status == Ready(ReadyForNextMessage(req.isFollowUp)))
  {
    PlaceholderIsFound(s);
    OpenedTurn(s, converts, outcome, seen);
    FinishedFrame(Opened(s), s.nextId + 1, s.currentRequest.value, outcome, seen);
    var r := TurnStep(s, converts, outcome, seen);
    var log := Opened(s).messages;
    assert r.messages[..|s.messages|] == log[..|s.messages|];
    assert log[..|s.messages|] == s.messages;
  }

  /** Two messages with the next two fresh identifiers, neither streaming,
      keep a log's identifiers unique and its messages settled. */
  lemma TwoFreshSettledMessages(log: seq<ChatMessage>, n: MessageId, u: ChatMessage, p: ChatMessage)
    requires UniqueIds(log) && IdsBelow(log, n) && NoneStreaming(log)
    requires u.id == n && p.id == n + 1 && !u.isStreaming && !p.isStreaming
    ensures var log' := log + [u, p];
      UniqueIds(log') && IdsBelow(log', n + 2) && NoneStreaming(log')
  {
  }

  /** Every turn keeps the invariant; in particular it never leaves a
      message streaming. The branch of the turn that finds no session,
      which would leave the placeholder streaming, cannot be taken. */
  lemma TurnKeepsInv(s: ChatState, converts: bool, outcome: ModelOutcome, seen: Option<Checkpoint>)
    requires Inv(s) && s.currentRequest.Some?
    ensures Inv(TurnStep(s, converts, outcome, seen))
  {
    if s.attachedImage.Some? && !converts {
      AbandonedKeepsInv(s, outcome, seen);
    } else {
      OpenedKeepsInv(s, converts, outcome, seen);
    }
  }

  lemma AbandonedKeepsInv(s: ChatState, outcome: ModelOutcome, seen: Option<Checkpoint>)
    requires Inv(s) && s.currentRequest.Some? && s.attachedImage.Some?
    ensures Inv(TurnStep(s, false, outcome, seen))
  {
    AbandonedTurn(s, outcome, seen);
    AppendedKeepsInv(s.(attachedImage := None, status := Error(ImageFailedToLoad)), System, ImageConversionFailed, None);
  }

  lemma OpenedKeepsInv(s: ChatState, converts: bool, outcome: ModelOutcome, seen: Option<Checkpoint>)
    requires Inv(s) && s.currentRequest.Some? && !(s.attachedImage.Some? && !converts)
    ensures Inv(TurnStep(s, converts, outcome, seen))
  {
    TurnSettles(s, converts, outcome, seen);
    TurnOutcome(s, converts, outcome, seen);
    var r := TurnStep(s, converts, outcome, seen);
    var n := |s.messages|;
    assert r.messages == s.messages + [r.messages[n], r.messages[n + 1]];
    TwoFreshSettledMessages(s.messages, s.nextId, r.messages[n], r.messages[n + 1]);
  }

  /** A cancel while the turn is queued, followed by the turn: the
      placeholder ends with the cancellation marker, whatever the answer
      and wherever the oracle would have noticed a cancellation. */
  lemma CancelBeforeResponse(s: ChatState, converts: bool, answer: string, seen: Option<Checkpoint>)
    requires Inv(s) && s.currentRequest.Some?
    requires !(s.attachedImage.Some? && !converts)
    ensures var r := TurnStep(CancelStep(s), converts, Answer(answer), seen);
      r.messages[|s.messages| + 1].text == GenerationCancelled && !r.messages[|s.messages| + 1].isStreaming &&
      r.status == Ready(GenerationCancelled) && !r.isLoading && r.currentRequest.None?
  {
    TurnOutcome(CancelStep(s), converts, Answer(answer), seen);
  }

  // ---------------------------------------------------------------------
  // Any sequence of operations

  /** One atomic step of the main actor. A turn only runs while its task
      exists. */
  datatype Event =
    | LoadFinished(loaded: bool)
    | AttachImage(image: Option<ImageId>)
    | StartConversation(prompt: string)
    | SendFollowUp(prompt: string)
    | CancelRequest
    | TurnRuns(converts: bool, outcome: ModelOutcome, seen: Option<Checkpoint>)

  function Step(s: ChatState, e: Event): (r: ChatState)
  {
    match e
    case LoadFinished(loaded) => LoadStep(s, loaded)
    case AttachImage(image) => AttachStep(s, image)
    case StartConversation(prompt) => RunStep(s, prompt, false)
    case SendFollowUp(prompt) => RunStep(s, prompt, s.hasStarted)
    case CancelRequest => CancelStep(s)
    case TurnRuns(converts, outcome, seen) =>
      if s.currentRequest.Some? then TurnStep(s, converts, outcome, seen) else s
  }

  function Run(s: ChatState, events: seq<Event>): (r: ChatState)
    decreases |events|
  {
    if events == [] then s else Run(Step(s, events[0]), events[1..])
  }

  lemma StepKeepsInv(s: ChatState, e: Event)
    requires Inv(s)
    ensures Inv(Step(s, e))
  {
    match e
    case LoadFinished(loaded) => LoadKeepsInv(s, loaded);
    case AttachImage(image) => AttachKeepsInv(s, image);
    case StartConversation(prompt) => RunStepKeepsInv(s, prompt, false);
    case SendFollowUp(prompt) => RunStepKeepsInv(s, prompt, s.hasStarted);
    case CancelRequest => CancelKeepsInv(s);
    case TurnRuns(converts, outcome, seen) =>
      if s.currentRequest.Some? { TurnKeepsInv(s, converts, outcome, seen); }
  }

  lemma LoadKeepsInv(s: ChatState, loaded: bool)
    requires Inv(s)
    ensures Inv(LoadStep(s, loaded))
  {
    if !loaded {
      AppendedKeepsInv(s.(status := Error(ModelLoadFailed)), System, ModelLoadFailed, None);
    }
  }

  lemma AttachKeepsInv(s: ChatState, image: Option<ImageId>)
    requires Inv(s)
    ensures Inv(AttachStep(s, image))
  {
  }

  lemma RunStepKeepsInv(s: ChatState, prompt: string, isFollowUp: bool)
    requires Inv(s)
    ensures Inv(RunStep(s, prompt, isFollowUp))
  {
  }

  lemma CancelKeepsInv(s: ChatState)
    requires Inv(s)
    ensures Inv(CancelStep(s))
  {
  }

  lemma {:induction false} RunKeepsInv(s: ChatState, events: seq<Event>)
    requires Inv(s)
    ensures Inv(Run(s, events))
    decreases |events|
  {
    if events != [] {
      StepKeepsInv(s, events[0]);
      RunKeepsInv(Step(s, events[0]), events[1..]);
    }
  }

  /** After any sequence of operations from a fresh view-model, at most one
      message is streaming (none, between operations), identifiers are
      unique, and `isLoading` holds exactly while a task exists. */
  lemma AtMostOneStreamingAlways(events: seq<Event>)
    ensures var r := Run(Initial(), events);
      AtMostOneStreaming(r.messages) && UniqueIds(r.messages) &&
      r.isLoading == r.currentRequest.Some?
  {
    RunKeepsInv(Initial(), events);
  }

  /** After the model failed to load, no further operation (the load itself
      happens once) adds to the log, starts a task or makes the model ready. */
  lemma {:induction false} FailedLoadIsTerminal(s: ChatState, events: seq<Event>)
    requires !s.sessionPresent && !s.isModelReady && s.currentRequest.None?
    requires forall i :: 0 <= i < |events| ==> !events[i].LoadFinished?
    ensures var r := Run(s, events);
      r.messages == s.messages && r.currentRequest.None? && !r.isModelReady
    decreases |events|
  {
    if events != [] {
      FailedLoadStep(s, events[0]);
      FailedLoadIsTerminal(Step(s, events[0]), events[1..]);
    }
  }

  /** One step of `FailedLoadIsTerminal`: without a session no send passes
      the guards, so no task starts and no turn runs. */
  lemma FailedLoadStep(s: ChatState, e: Event)
    requires !s.sessionPresent && !s.isModelReady && s.currentRequest.None? && !e.LoadFinished?
    ensures var r := Step(s, e);
      r.messages == s.messages && r.currentRequest.None? && !r.isModelReady && !r.sessionPresent
  {
    match e
    case StartConversation(prompt) => SendWithoutSession(s, prompt, false);
    case SendFollowUp(prompt) => SendWithoutSession(s, prompt, s.hasStarted);
    case _ =>
  }

  /** Without a session a send either changes nothing or only reports that
      the session is not ready. */
  lemma SendWithoutSession(s: ChatState, prompt: string, isFollowUp: bool)
    requires !s.sessionPresent && s.currentRequest.None?
    ensures var r := RunStep(s, prompt, isFollowUp);
      r == s || r == s.(status := Error(ModelSessionNotReady))
  {
    assert SendGate(s, prompt) in {EmptyPrompt, NoSession};
  }

  /** A failed load of a fresh view-model leaves exactly one message, a
      system message reporting the failure, and an error status. */
  lemma FailedLoadScenario()
    ensures var r := LoadStep(Initial(), false);
      |r.messages| == 1 && r.messages[0].role == System && r.messages[0].text == ModelLoadFailed &&
      r.status.IsError() && r.status.Message() == ModelLoadFailed && !r.isModelReady
  {
  }

  // ---------------------------------------------------------------------
  // Operations while a turn is suspended

  /** Whether an operation may run while the turn is suspended at the model
      call or at a delay of the reveal loop: any operation except the load,
      which runs once from `init`, and the turn itself. */
  predicate Interleaves(e: Event)
  {
    !e.LoadFinished? && !e.TurnRuns?
  }

  /** One operation while a task exists: the single-flight guard turns every
      send away, so no second task starts (the task keeps its prompt and
      flag), no message is logged and no identifier is used. */
  lemma InterleavedStep(m: ChatState, e: Event)
    requires m.currentRequest.Some? && Interleaves(e)
    ensures var r := Step(m, e);
      r.messages == m.messages && r.nextId == m.nextId && r.currentRequest.Some? &&
      r.currentRequest.value.prompt == m.currentRequest.value.prompt &&
      r.currentRequest.value.isFollowUp == m.currentRequest.value.isFollowUp
  {
    match e
    case StartConversation(prompt) => assert SendGate(m, prompt) in {EmptyPrompt, Busy};
    case SendFollowUp(prompt) => assert SendGate(m, prompt) in {EmptyPrompt, Busy};
    case _ =>
  }

  lemma {:induction false} InterleavedRun(m: ChatState, events: seq<Event>)
    requires m.currentRequest.Some?
    requires forall i :: 0 <= i < |events| ==> Interleaves(events[i])
    ensures var r := Run(m, events);
      r.messages == m.messages && r.nextId == m.nextId && r.currentRequest.Some? &&
      r.currentRequest.value.prompt == m.currentRequest.value.prompt &&
      r.currentRequest.value.isFollowUp == m.currentRequest.value.isFollowUp
    decreases |events|
  {
    if events != [] {
      InterleavedStep(m, events[0]);
      InterleavedRun(Step(m, events[0]), events[1..]);
    }
  }

  /** The state of a turn suspended after logging its placeholder: at the
      model call (`revealed` is `None`), or at a delay of the reveal loop
      with the partial text `t` shown (`Some(t)`). */
  function Suspended(s: ChatState, revealed: Option<string>): (r: ChatState)
    requires s.currentRequest.Some?
    ensures r.currentRequest == s.currentRequest && |r.messages| == |s.messages| + 2
  {
    match revealed
    case None => Opened(s)
    case Some(t) =>
      Opened(s).(messages := UpdatedLog(Opened(s).messages, s.nextId + 1, SetText(t)),
                 status := Loading(StreamingResponse))
  }

  /** While a turn is suspended, at the model call or at any delay of the
      reveal loop, the placeholder is the one streaming message. */
  lemma SuspendedPlaceholderStreams(s: ChatState, revealed: Option<string>)
    requires Inv(s) && s.currentRequest.Some?
    ensures OnlyStreaming(Suspended(s, revealed).messages, |s.messages| + 1)
  {
    var log := Opened(s).messages;
    var n := |s.messages|;
    assert forall i :: 0 <= i < n ==> log[i] == s.messages[i];
    assert OnlyStreaming(log, n + 1);
    if revealed.Some? {
      var shown := Suspended(s, revealed).messages;
      UpdatedLogEditsFirstMatch(log, s.nextId + 1, SetText(revealed.value));
      assert forall k :: 0 <= k < |log| ==> shown[k].isStreaming == log[k].isStreaming;
    }
  }

  /** Whatever other operations run while the turn is suspended, its
      placeholder stays the only streaming message: no second task and no
      second placeholder can start, and the suspended task is unchanged but
      for a cancellation. */
  lemma SuspendedTurnHasOnePlaceholder(s: ChatState, revealed: Option<string>, events: seq<Event>)
    requires Inv(s) && s.currentRequest.Some?
    requires forall i :: 0 <= i < |events| ==> Interleaves(events[i])
    ensures var r := Run(Suspended(s, revealed), events);
      OnlyStreaming(r.messages, |s.messages| + 1) && AtMostOneStreaming(r.messages) &&
      r.messages == Suspended(s, revealed).messages &&
      r.currentRequest.Some? && r.currentRequest.value.prompt == s.currentRequest.value.prompt &&
      r.currentRequest.value.isFollowUp == s.currentRequest.value.isFollowUp
  {
    SuspendedPlaceholderStreams(s, revealed);
    InterleavedRun(Suspended(s, revealed), events);
  }

  /** The image slot is not emptied while a request is in flight: an image
      attached before a send stays in the slot once the task exists, until
      the turn runs, and an image attached while the task is queued is kept
      too. Both states satisfy the invariant. */
  lemma ImageStaysWhileQueued(s: ChatState, image: ImageId, prompt: string)
    requires Inv(s) && s.isModelReady && s.currentRequest.None? && !AllWhitespace(prompt)
    ensures var r := RunStep(AttachStep(s, Some(image)), prompt, false);
      r.currentRequest.Some? && r.attachedImage == Some(image) && Inv(r)
    ensures var q := AttachStep(RunStep(s, prompt, false), Some(image));
      q.currentRequest.Some? && q.attachedImage == Some(image) && Inv(q)
  {
    SendGateGuards(AttachStep(s, Some(image)), prompt);
    SendGateGuards(s, prompt);
    AttachKeepsInv(s, Some(image));
    RunStepKeepsInv(AttachStep(s, Some(image)), prompt, false);
    RunStepKeepsInv(s, prompt, false);
    AttachKeepsInv(RunStep(s, prompt, false), Some(image));
  }
}
