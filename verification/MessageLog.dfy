/** The conversation log: an append-only sequence of messages that is
    edited in place by looking a message up by its identifier. */
module MessageLog {
  import opened Wrappers
  import opened ChatMessages

  /** Position `k` holds the first message of the log with identifier `id`. */
  ghost predicate FirstWithId(log: seq<ChatMessage>, k: nat, id: MessageId)
    requires k < |log|
  {
    log[k].id == id && forall j :: 0 <= j < k ==> log[j].id != id
  }

  /** `messages.firstIndex(where: { $0.id == id })`. */
  function FirstIndex(log: seq<ChatMessage>, id: MessageId): (r: Option<nat>)
    ensures r.Some? ==> r.value < |log|
  {
    if log == [] then None
    else if log[0].id == id then Some(0)
    else
      match FirstIndex(log[1..], id)
      case None => None
      case Some(i) => Some(i + 1)
  }

  /** `FirstIndex` finds the first message with the identifier, and finds
      nothing exactly when no message has it. */
  lemma {:induction false} FirstIndexIsFirstMatch(log: seq<ChatMessage>, id: MessageId)
    ensures var r := FirstIndex(log, id);
      (r.Some? ==> FirstWithId(log, r.value, id)) &&
      (r.None? ==> forall j :: 0 <= j < |log| ==> log[j].id != id)
  {
    if log != [] && log[0].id != id {
      FirstIndexIsFirstMatch(log[1..], id);
      assert forall j :: 1 <= j < |log| ==> log[j] == log[1..][j - 1];
    }
  }

  /** The first index is the only position that satisfies `FirstWithId`. */
  lemma FirstIndexIsUnique(log: seq<ChatMessage>, k: nat, id: MessageId)
    requires k < |log| && FirstWithId(log, k, id)
    ensures FirstIndex(log, id) == Some(k)
  {
    FirstIndexIsFirstMatch(log, id);
    var r := FirstIndex(log, id);
    assert r.Some? by { assert log[k].id == id; }
    assert !(r.value < k) by { assert forall j :: 0 <= j < r.value ==> log[j].id != id; }
  }

  /** The log after `updateMessage(id:mutate:)`: the first message with
      the identifier is edited, every other message is kept, the length
      never changes, and an unknown identifier leaves the log alone. */
  function UpdatedLog(log: seq<ChatMessage>, id: MessageId, e: Edit): (r: seq<ChatMessage>)
    ensures |r| == |log|
  {
    match FirstIndex(log, id)
    case None => log
    case Some(i) => log[i := ApplyEdit(e, log[i])]
  }

  /** `UpdatedLog` edits exactly the first message with the identifier,
      keeps every other message and every identifier, and leaves the log
      alone for an unknown identifier. */
  lemma UpdatedLogEditsFirstMatch(log: seq<ChatMessage>, id: MessageId, e: Edit)
    ensures var r := UpdatedLog(log, id, e);
      (forall k :: 0 <= k < |log| ==>
        r[k] == if FirstWithId(log, k, id) then ApplyEdit(e, log[k]) else log[k]) &&
      (forall k :: 0 <= k < |log| ==> r[k].id == log[k].id) &&
      ((forall k :: 0 <= k < |log| ==> log[k].id != id) ==> r == log)
  {
    FirstIndexIsFirstMatch(log, id);
    match FirstIndex(log, id)
    case None =>
    case Some(i) =>
      forall k | 0 <= k < |log| && FirstWithId(log, k, id) ensures k == i {
        FirstIndexIsUnique(log, k, id);
      }
  }

  /** Looking up an identifier depends on the identifiers in the log only. */
  lemma FirstIndexFollowsIds(a: seq<ChatMessage>, b: seq<ChatMessage>, id: MessageId)
    requires |a| == |b| && forall k :: 0 <= k < |a| ==> a[k].id == b[k].id
    ensures FirstIndex(a, id) == FirstIndex(b, id)
  {
    FirstIndexIsFirstMatch(a, id);
    FirstIndexIsFirstMatch(b, id);
    match FirstIndex(a, id)
    case Some(k) => FirstIndexIsUnique(b, k, id);
    case None =>
  }

  /** Writing a partial text and then finalizing (or rewriting) the same
      message leaves no trace of the partial text. */
  lemma SetTextIsOverwrittenInLog(log: seq<ChatMessage>, id: MessageId, t: string, e: Edit)
    ensures UpdatedLog(UpdatedLog(log, id, SetText(t)), id, e) == UpdatedLog(log, id, e)
  {
    var mid := UpdatedLog(log, id, SetText(t));
    UpdatedLogEditsFirstMatch(log, id, SetText(t));
    FirstIndexFollowsIds(log, mid, id);
    match FirstIndex(log, id)
    case None =>
    case Some(i) => SetTextIsOverwritten(t, e, log[i]);
  }

  ghost predicate UniqueIds(log: seq<ChatMessage>)
  {
    forall i, j :: 0 <= i < j < |log| ==> log[i].id != log[j].id
  }

  ghost predicate IdsBelow(log: seq<ChatMessage>, bound: MessageId)
  {
    forall i :: 0 <= i < |log| ==> log[i].id < bound
  }

  ghost predicate NoneStreaming(log: seq<ChatMessage>)
  {
    forall i :: 0 <= i < |log| ==> !log[i].isStreaming
  }

  ghost predicate AtMostOneStreaming(log: seq<ChatMessage>)
  {
    forall i, j :: 0 <= i < |log| && 0 <= j < |log| && log[i].isStreaming && log[j].isStreaming ==> i == j
  }

  /** Position `p` holds the one message that is streaming. */
  ghost predicate OnlyStreaming(log: seq<ChatMessage>, p: nat)
  {
    p < |log| && forall i :: 0 <= i < |log| ==> (log[i].isStreaming <==> i == p)
  }
}
