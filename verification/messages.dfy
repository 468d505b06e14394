/** The user-visible notifications of the generator and the classification
    of a failed request into exactly one of them. */
module Messages {
  import opened Wrappers

  /** The four failure messages, in the order the handler tests for them. */
  datatype ErrorKind = Timeout | ServerFault | Unreachable | Unknown

  const ValidationMessage: string := "Please enter a topic for your presentation"
  const SuccessMessage: string :=
    "\U{2705} PPT generated successfully. Your download should begin automatically."

  /** The axios error code of a request cut off by its timeout. */
  const TimeoutCode: string := "ECONNABORTED"
  /** The axios error code of a request that reached no server. */
  const NetworkCode: string := "ERR_NETWORK"

  /** The cross mark and space that open every failure message. */
  const ErrorMark: string := "\U{274C} "

  /** The literal shown for each kind of failure: the cross mark followed
      by the kind's own text. */
  function ErrorMessage(kind: ErrorKind): (r: string)
    ensures |r| > |ErrorMark| && r[..|ErrorMark|] == ErrorMark
  {
    match kind
    case Timeout => ErrorMark + "Request timed out. Please try again with a simpler topic."
    case ServerFault => ErrorMark + "Server error. Please check if the backend is running."
    case Unreachable => ErrorMark + "Cannot connect to server. Please ensure the backend is running on port 8000."
    case Unknown => ErrorMark + "Failed to generate PPT. Please try again."
  }

  /** The priority chain of the error handler over `error.code` and
      `error.response?.status` (`None` when the error carries no response):
      the timeout code wins over any status, only a status of exactly 500
      counts as a server fault, and the network code is consulted last. */
  function Classify(code: Option<string>, status: Option<int>): (k: ErrorKind)
    ensures k == Timeout <==> code == Some(TimeoutCode)
    ensures k == ServerFault <==> code != Some(TimeoutCode) && status == Some(500)
    ensures k == Unreachable <==>
      code != Some(TimeoutCode) && status != Some(500) && code == Some(NetworkCode)
    ensures k == Unknown <==>
      code != Some(TimeoutCode) && status != Some(500) && code != Some(NetworkCode)
  {
    if code == Some(TimeoutCode) then Timeout
    else if status == Some(500) then ServerFault
    else if code == Some(NetworkCode) then Unreachable
    else Unknown
  }

  /** The five notifications an attempt can end with are pairwise distinct,
      so the user can always tell which outcome occurred. */
  lemma MessagesDistinct(k1: ErrorKind, k2: ErrorKind)
    ensures ErrorMessage(k1) == ErrorMessage(k2) <==> k1 == k2
    ensures ErrorMessage(k1) != ValidationMessage
    ensures ErrorMessage(k1) != SuccessMessage
    ensures ValidationMessage != SuccessMessage
  {
    // The six literals all have different lengths.
    assert |ErrorMessage(Timeout)| == 59;
    assert |ErrorMessage(ServerFault)| == 55;
    assert |ErrorMessage(Unreachable)| == 78;
    assert |ErrorMessage(Unknown)| == 43;
    assert |ValidationMessage| == 42;
    assert |SuccessMessage| == 71;
  }

  /** A status other than 500, such as 502, never reads as a server fault,
      and a timeout code reads as a timeout whatever status accompanies it. */
  lemma StatusPriority(code: Option<string>, status: int)
    ensures status != 500 ==> Classify(code, Some(status)) != ServerFault
    ensures Classify(Some(TimeoutCode), Some(status)) == Timeout
  {
  }
}
