/** The job bookkeeping the dataset, finetune and augmentation nodes share:
    their status is a field of the node record, rewritten by a status answer
    and by a cancellation. The dataset node's answer handler is `PollUpdate`
    as it stands, and every node's cancel handler is `CancelUpdate`; the
    finetune and augmentation modules add their own guards around
    `PollUpdate`. */
module JobRecord {
  import opened Wrappers
  import opened Lifecycle
  import opened Graph

  /** The edit sheet is open when the node is selected and its status is
      active, error or success (an absent status is none of these). */
  predicate FormEditState(selected: bool, status: Option<Status>)
  {
    selected && status.Some? && status.value in [Active, Error, Success]
  }

  /** The status query runs only for a busy node that holds a job id. */
  predicate PollingEnabled(d: NodeData)
  {
    d.status == Some(Busy) && Truthy(d.jobId)
  }

  /** A status answer: COMPLETED makes the node successful, FAILED makes it
      fail, and anything else (CANCELLED included) keeps it busy. The
      answer's status is stored either way; the job id and every other field
      stay as they are. */
  function PollUpdate(d: NodeData, r: PollResult): (u: NodeData)
    ensures u == d.(status := u.status, jobStatus := r.jobStatus)
    ensures u.status == Some(Success) <==> r.jobStatus == Some(COMPLETED)
    ensures u.status == Some(Error) <==> r.jobStatus == Some(FAILED)
    ensures u.status.Some?
    ensures u.status.value !in [Success, Error] ==> u.status == Some(Busy)
  {
    var status :=
      if r.jobStatus == Some(COMPLETED) then Success
      else if r.jobStatus == Some(FAILED) then Error
      else Busy;
    d.(status := Some(status), jobStatus := r.jobStatus)
  }

  /** A cancellation: when the request succeeds the node fails with the
      CANCELLED status and keeps its job id; when it is rejected nothing
      changes. */
  function CancelUpdate(d: NodeData, res: CancelResult): (u: NodeData)
    ensures res.CancelRejected? ==> u == d
    ensures res.CancelResolved? ==> u == d.(status := Some(Error), jobStatus := Some(CANCELLED))
  {
    match res
    case CancelResolved => d.(status := Some(Error), jobStatus := Some(CANCELLED))
    case CancelRejected => d
  }

  /** Of the three job statuses the nodes react to, only COMPLETED and FAILED
      stop the polling: a CANCELLED answer leaves the node busy and polling. */
  lemma PollingContinuesUnlessTerminal(d: NodeData, r: PollResult)
    requires PollingEnabled(d)
    ensures PollingEnabled(PollUpdate(d, r)) <==> r.jobStatus != Some(COMPLETED) && r.jobStatus != Some(FAILED)
    ensures r.jobStatus == Some(CANCELLED) ==> PollingEnabled(PollUpdate(d, r))
  {
  }

  /** After a successful cancellation the node no longer polls, and selecting
      it opens the edit sheet again. */
  lemma CancelStopsPolling(d: NodeData)
    ensures !PollingEnabled(CancelUpdate(d, CancelResolved))
    ensures FormEditState(true, CancelUpdate(d, CancelResolved).status)
    ensures CancelUpdate(d, CancelResolved).jobId == d.jobId
  {
  }

  /** A repeated status answer changes nothing more. */
  lemma PollUpdateIdempotent(d: NodeData, r: PollResult)
    ensures PollUpdate(PollUpdate(d, r), r) == PollUpdate(d, r)
  {
  }

  /** The text the nodes interpolate where a workspace path belongs: an
      absent path is rendered as "undefined". */
  function DatasetPath(workspacePath: Option<string>, name: string): string
  {
    Render(workspacePath) + "/datasets/" + name + ".h5"
  }
}
