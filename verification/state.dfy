/**
 * The completion handler of src/state.rs: created for one dispatched unit of
 * work with the number of tries that work has already had, it turns each
 * report (success, retry, abort, or the actor's inactivity timeout) into a
 * `CompletionStatus` handed to the owner's callback. Every method is a single
 * expression over the `tries` fixed at construction, so the handler is a value.
 */
module State {

  datatype CompletionStatus =
    | Success           // processed successfully
    | Retry(tries: nat) // a transient error occurred; the attempt count so far
    | Abort             // an unrecoverable error occurred

  datatype CompletionHandler = CompletionHandler(tries: nat)
  {
    /** `success`: the work finished. */
    function ReportSuccess(): (s: CompletionStatus)
      ensures s.Success?
    {
      Success
    }

    /** `retry`: the work hit a transient failure; the status counts this attempt. */
    function ReportRetry(): (s: CompletionStatus)
      ensures s.Retry? && s.tries == tries + 1
    {
      Retry(tries + 1)
    }

    /** `abort`: the work failed for good. */
    function ReportAbort(): (s: CompletionStatus)
      ensures s.Abort?
    {
      Abort
    }

    /** `on_timeout`: an unresponsive attempt is reported as a retry. */
    function OnTimeout(): (s: CompletionStatus)
      ensures s == ReportRetry()
    {
      Retry(tries + 1)
    }
  }

  /** The count a status carries, if any: only `Retry` has one. */
  function CarriedTries(s: CompletionStatus): (r: int)
    ensures r >= 0 <==> s.Retry?
    ensures s.Retry? ==> r == s.tries
  {
    match s
    case Retry(t) => t
    case _ => -1
  }

  /**
   * The handler never changes `tries`: every retry or timeout report, however
   * many are made, carries the same count, one more than the handler's.
   */
  lemma RetryReportsAgree(h: CompletionHandler, reports: seq<bool>)
    ensures forall i :: 0 <= i < |reports| ==>
              (if reports[i] then h.OnTimeout() else h.ReportRetry()) == Retry(h.tries + 1)
  {
  }
}
