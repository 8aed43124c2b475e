/**
 * What the completion callback sends back for a finished task: at most one
 * PUT payload, built from the task's returned dictionary.
 */
module Callback {
  import opened Wrappers
  import opened Cpi
  import opened Task

  /**
   * The dictionary a task returned, seen through the keys the callback reads;
   * `None` is an absent key (for `personalCPI` also a null value). A `success`
   * key holding null is not represented; the task never returns one.
   */
  datatype ResultDict = ResultDict(id: Option<RequestId>, personalCPI: Option<real>, success: Option<bool>)

  /** How a task ended. */
  datatype TaskEnding = Cancelled | Raised | Returned(result: ResultDict)

  /** The body `{personalCPI, success}` of the PUT, and the request it is addressed to. */
  datatype Payload = Payload(target: RequestId, personalCPI: Option<real>, success: bool)

  /**
   * The payload the callback sends, if any. A cancelled or raising task sends
   * nothing, and so does a returned dictionary without `id`, whose lookup
   * raises inside the guarded block.
   */
  function ResultCallback(ending: TaskEnding): (p: Option<Payload>)
    ensures p.Some? <==> ending.Returned? && ending.result.id.Some?
    ensures p.Some? ==> p.value.target == ending.result.id.value
    ensures p.Some? ==> p.value.personalCPI == ending.result.personalCPI
    ensures p.Some? ==> (p.value.success <==> ending.result.success == Some(true))
  {
    match ending
    case Cancelled => None
    case Raised => None
    case Returned(result) =>
      match result.id
      case None => None
      case Some(id) => Some(Payload(id, result.personalCPI, result.success.GetOr(false)))
  }

  /** The dictionary the task returns for an outcome; the callback reads it back unchanged. */
  function AsResult(o: Outcome): (d: ResultDict)
    ensures ResultCallback(Returned(d)) == Some(Payload(o.id, o.personalCPI, o.success))
  {
    ResultDict(Some(o.id), o.personalCPI, Some(o.success))
  }

  /**
   * A submitted task that is not cancelled: the task body never raises, so it
   * returns its outcome and the callback sends exactly one payload, to the
   * request's own id; a failed fetch reports `{personalCPI: null, success: false}`.
   */
  function RunTask(id: RequestId, fetched: FetchResult): (p: Option<Payload>)
    ensures p.Some? && p.value.target == id
    ensures p.value.success <==> p.value.personalCPI.Some?
    ensures p.value.success == FetchOutcome(id, fetched).success
    ensures p == Some(Payload(id, FetchOutcome(id, fetched).personalCPI, FetchOutcome(id, fetched).success))
    ensures !Usable(fetched) ==> p == Some(Payload(id, None, false))
  {
    ResultCallback(Returned(AsResult(FetchOutcome(id, fetched))))
  }
}
