/** The vocabulary shared by every pipeline node: the five-valued node status,
    the job-status strings the scheduler reports, the three running-state
    guards, and the results of the asynchronous calls a node makes. */
module Lifecycle {
  import opened Wrappers

  /** The status stored with every node and shown by the UI. */
  datatype Status = Inactive | Active | Busy | Success | Error

  /** The status as the source spells it. */
  function StatusName(s: Status): string
  {
    match s
    case Inactive => "inactive"
    case Active => "active"
    case Busy => "busy"
    case Success => "success"
    case Error => "error"
  }

  /** Reading a status name back. The source casts a string to its status type
      without checking; a string that is not a status name gives `None`. */
  function StatusOfName(name: string): (r: Option<Status>)
    ensures r.Some? ==> StatusName(r.value) == name
    ensures (exists s :: StatusName(s) == name) ==> r.Some?
  {
    if name == "inactive" then Some(Inactive)
    else if name == "active" then Some(Active)
    else if name == "busy" then Some(Busy)
    else if name == "success" then Some(Success)
    else if name == "error" then Some(Error)
    else None
  }

  /** Job-status strings the scheduler reports that the nodes react to. */
  const COMPLETED: string := "COMPLETED"
  const FAILED: string := "FAILED"
  const CANCELLED: string := "CANCELLED"

  /** Which of the three running-state guards (`isCompleted`, `isFailed`,
      `isCancelled`) fires first, or none of them. */
  datatype Guard = IsCompleted | IsFailed | IsCancelled | NoGuard

  /** The guards tried in the order both machines list them. */
  function FirstGuard(jobStatus: string): (g: Guard)
    ensures g == IsCompleted <==> jobStatus == COMPLETED
    ensures g == IsFailed <==> jobStatus == FAILED
    ensures g == IsCancelled <==> jobStatus == CANCELLED
  {
    if jobStatus == COMPLETED then IsCompleted
    else if jobStatus == FAILED then IsFailed
    else if jobStatus == CANCELLED then IsCancelled
    else NoGuard
  }

  /** The answer of a status query: `{ jobStatus }`, possibly without a status. */
  datatype PollResult = PollResult(jobStatus: Option<string>)

  /** How a job submission settled: resolved with `{ jobId }`, or rejected. */
  datatype SubmitResult = SubmitResolved(jobId: string) | SubmitRejected

  /** How a cancellation request settled. */
  datatype CancelResult = CancelResolved | CancelRejected
}
