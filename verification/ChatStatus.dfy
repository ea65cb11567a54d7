/** The tagged status the chat screen shows in its banner. */
module ChatStatus {

  datatype ChatViewStatus = Loading(string) | Ready(string) | NeedsImage(string) | Error(string)
  {
    /** The payload string, whatever the case. */
    function Message(): (m: string)
      ensures this == Loading(m) || this == Ready(m) || this == NeedsImage(m) || this == Error(m)
    {
      match this
      case Loading(m) => m
      case Ready(m) => m
      case NeedsImage(m) => m
      case Error(m) => m
    }

    function IsLoading(): (b: bool)
      ensures b <==> exists m :: this == Loading(m)
    {
      Loading?
    }

    function IsError(): (b: bool)
      ensures b <==> exists m :: this == Error(m)
    {
      Error?
    }
  }

  /** The status is determined by its case and its message, and no status
      is both loading and an error. */
  lemma StatusIsCaseAndMessage(s: ChatViewStatus)
    ensures !(s.IsLoading() && s.IsError())
    ensures s.IsLoading() ==> s == Loading(s.Message())
    ensures s.IsError() ==> s == Error(s.Message())
  {
  }
}
