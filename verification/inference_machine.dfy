/** The inference node's state machine (`inferenceMachine`): it starts
    active, runs one busy phase (pending submission, then a polled running
    job), and ends in success or error; both can start the busy phase again.
    Every state carries one tag, and the tag is the status the node shows.

    As in the network machine, the invoked services and the cancellation are
    effects, and their answers are events. */
module InferenceMachine {
  import opened Wrappers
  import Lifecycle
  import Forms

  datatype BusySub = Pending | Running

  datatype State = Active | Busy(sub: BusySub) | Error | Success

  datatype Context = Context(jobId: string, jobStatus: string, inputImages: seq<Forms.Image>)

  datatype Snapshot = Snapshot(state: State, ctx: Context)

  const InitialContext: Context := Context("", "", [])

  const Initial: Snapshot := Snapshot(Active, InitialContext)

  datatype Event =
    | Activate
    | Start(form: Forms.InferenceForm)
    | Cancel
    | Retry(form: Forms.InferenceForm)
    | Finetune(form: Forms.InferenceForm)
    | SubmitDone(jobId: Option<string>, formData: Option<Forms.InferenceForm>)
    | SubmitFailed
    | PollDone(result: Lifecycle.PollResult)
    | PollFailed

  datatype Effect = SubmitJob(form: Forms.InferenceForm) | PollJob(jobId: string) | CancelJob(jobId: string)

  datatype Output = Output(next: Snapshot, effects: seq<Effect>)

  /** The moves the chart draws. */
  predicate Move(from: State, to: State)
  {
    match from
    case Active => to == Busy(Pending)
    case Busy(Pending) => to == Busy(Running) || to == Error
    case Busy(Running) => to == Success || to == Error || to == Busy(Running)
    case Error => to == Busy(Pending)
    case Success => to == Busy(Pending)
  }

  /** The images recorded from a resolved submission (`?? []`). */
  function ImagesOf(formData: Option<Forms.InferenceForm>): seq<Forms.Image>
  {
    if formData.Some? then formData.value.inputImages else []
  }

  /** One event delivered to the machine. No state handles `activate`. */
  function Step(s: Snapshot, e: Event): (o: Output)
    ensures |o.effects| <= 1
    ensures o.next.state != s.state ==> Move(s.state, o.next.state)
    ensures o.next.ctx.jobId != s.ctx.jobId || o.next.ctx.inputImages != s.ctx.inputImages ==>
              s.state == Busy(Pending) && e.SubmitDone?
    ensures forall k :: 0 <= k < |o.effects| ==> match o.effects[k]
              case SubmitJob(_) => o.next.state == Busy(Pending)
              case PollJob(id) => o.next.state == Busy(Running) && id == o.next.ctx.jobId
              case CancelJob(id) => s.state == Busy(Running) && o.next == s && id == s.ctx.jobId
  {
    match s.state
    case Active =>
      if e.Start? then Output(Snapshot(Busy(Pending), s.ctx), [SubmitJob(e.form)]) else Output(s, [])
    case Busy(Pending) =>
      if e.SubmitDone? then
        var ctx := s.ctx.(jobId := e.jobId.GetOr(""), inputImages := ImagesOf(e.formData));
        Output(Snapshot(Busy(Running), ctx), [PollJob(ctx.jobId)])
      else if e.SubmitFailed? then Output(Snapshot(Error, s.ctx), [])
      else Output(s, [])
    case Busy(Running) =>
      if e.PollDone? then
        match Lifecycle.FirstGuard(s.ctx.jobStatus)
        case IsCompleted => Output(Snapshot(Success, s.ctx), [])
        case IsFailed => Output(Snapshot(Error, s.ctx), [])
        case IsCancelled => Output(Snapshot(Error, s.ctx), [])
        case NoGuard =>
          var ctx := s.ctx.(jobStatus := e.result.jobStatus.GetOr(""));
          Output(Snapshot(Busy(Running), ctx), [PollJob(ctx.jobId)])
      else if e.Cancel? then Output(s, [CancelJob(s.ctx.jobId)])
      else Output(s, [])
    case Error =>
      if e.Retry? then Output(Snapshot(Busy(Pending), s.ctx.(jobStatus := "")), [SubmitJob(e.form)])
      else Output(s, [])
    case Success =>
      if e.Finetune? then Output(Snapshot(Busy(Pending), s.ctx.(jobStatus := "")), [SubmitJob(e.form)])
      else Output(s, [])
  }

  function Run(s: Snapshot, events: seq<Event>): Snapshot
    decreases |events|
  {
    if events == [] then s else Run(Step(s, events[0]).next, events[1..])
  }

  /** Every move the chart draws is taken by some event from some context. */
  lemma EveryMoveTaken(from: State, to: State)
    requires Move(from, to)
    ensures exists ctx: Context, e: Event :: Step(Snapshot(from, ctx), e).next.state == to
  {
    var f := Forms.InferenceForm("", [], "", "", false, false, Forms.InferenceSlurm("", ""));
    var c := InitialContext;
    var poll := PollDone(Lifecycle.PollResult(None));
    match from
    case Active => assert Step(Snapshot(from, c), Start(f)).next.state == to;
    case Busy(Pending) =>
      if to == Busy(Running) {
        assert Step(Snapshot(from, c), SubmitDone(None, None)).next.state == to;
      } else {
        assert Step(Snapshot(from, c), SubmitFailed).next.state == to;
      }
    case Busy(Running) =>
      if to == Success {
        assert Step(Snapshot(from, c.(jobStatus := Lifecycle.COMPLETED)), poll).next.state == to;
      } else if to == Error {
        assert Step(Snapshot(from, c.(jobStatus := Lifecycle.CANCELLED)), poll).next.state == to;
      } else {
        assert Step(Snapshot(from, c), poll).next.state == to;
      }
    case Error => assert Step(Snapshot(from, c), Retry(f)).next.state == to;
    case Success => assert Step(Snapshot(from, c), Finetune(f)).next.state == to;
  }

  /** `activate` is declared but handled by no state: it never changes the
      machine, whatever the source check in `handleActivation` decides. */
  lemma ActivateIgnored(s: Snapshot)
    ensures Step(s, Activate) == Output(s, [])
  {
  }

  /** As in the network machine, a poll's outcome is decided by the status
      stored from the previous answer. */
  lemma PollDecidedByStoredStatus(s: Snapshot, r1: Lifecycle.PollResult, r2: Lifecycle.PollResult)
    requires s.state == Busy(Running)
    ensures Step(s, PollDone(r1)).next.state == Step(s, PollDone(r2)).next.state
    ensures s.ctx.jobStatus == Lifecycle.COMPLETED <==> Step(s, PollDone(r1)).next.state == Success
    ensures s.ctx.jobStatus == Lifecycle.FAILED || s.ctx.jobStatus == Lifecycle.CANCELLED <==>
              Step(s, PollDone(r1)).next.state == Error
  {
  }

  /** The events each state listens for, as the chart declares them; the
      busy phase listens for `cancel` only while its job runs. */
  predicate Handles(st: State, e: Event)
  {
    match st
    case Active => e.Start?
    case Busy(Pending) => e.SubmitDone? || e.SubmitFailed?
    case Busy(Running) => e.PollDone? || e.Cancel?
    case Error => e.Retry?
    case Success => e.Finetune?
  }

  /** An event the current state does not listen for changes nothing and
      requests nothing. */
  lemma UnhandledIgnored(s: Snapshot, e: Event)
    requires !Handles(s.state, e)
    ensures Step(s, e) == Output(s, [])
  {
  }

  /** Only `start` moves the active node, to the pending submission of the
      given form, with the context unchanged. */
  lemma StartSubmits(s: Snapshot, e: Event)
    requires s.state == Active
    ensures Step(s, e).next.state != Active <==> e.Start?
    ensures e.Start? ==> Step(s, e) == Output(Snapshot(Busy(Pending), s.ctx), [SubmitJob(e.form)])
  {
  }

  /** A resolved submission runs the job under the returned id (empty when
      there is none) with the form's images (none without a form), and polls
      it; a rejected submission ends in error with the context unchanged. */
  lemma SubmissionOutcome(s: Snapshot, jobId: Option<string>, formData: Option<Forms.InferenceForm>)
    requires s.state == Busy(Pending)
    ensures var images := if formData.Some? then formData.value.inputImages else [];
            var id := if jobId.Some? then jobId.value else "";
            Step(s, SubmitDone(jobId, formData)) ==
              Output(Snapshot(Busy(Running), Context(id, s.ctx.jobStatus, images)), [PollJob(id)])
    ensures Step(s, SubmitFailed) == Output(Snapshot(Error, s.ctx), [])
  {
  }

  /** Cancelling never moves the machine: while a job runs it only asks for
      the job's cancellation, and elsewhere it is ignored. */
  lemma CancelIsActionOnly(s: Snapshot)
    ensures Step(s, Cancel).next == s
    ensures Step(s, Cancel).effects == (if s.state == Busy(Running) then [CancelJob(s.ctx.jobId)] else [])
  {
  }

  /** Retrying and finetuning clear only the job status and request a new
      submission of the given form: the old job id and images stay until
      that submission resolves. */
  lemma RestartKeepsJobId(s: Snapshot, f: Forms.InferenceForm)
    ensures s.state == Error ==>
              Step(s, Retry(f)) == Output(Snapshot(Busy(Pending), s.ctx.(jobStatus := "")), [SubmitJob(f)])
    ensures s.state == Success ==>
              Step(s, Finetune(f)) == Output(Snapshot(Busy(Pending), s.ctx.(jobStatus := "")), [SubmitJob(f)])
    ensures s.state != Error ==> Step(s, Retry(f)).next.state == s.state
    ensures s.state != Success ==> Step(s, Finetune(f)).next.state == s.state
  {
  }

  predicate Inv(s: Snapshot)
  {
    && (s.state == Active ==> s.ctx == InitialContext)
    && (s.state == Busy(Pending) ==> s.ctx.jobStatus == "")
    && (s.state == Success ==> s.ctx.jobStatus == Lifecycle.COMPLETED)
    && (s.state == Error ==> s.ctx.jobStatus in ["", Lifecycle.FAILED, Lifecycle.CANCELLED])
  }

  /** From the start, every run keeps the invariant: a successful node holds
      the COMPLETED status, and a failed one a failure, a cancellation, or no
      status when its submission was rejected. */
  lemma {:induction false} RunKeepsInv(s: Snapshot, events: seq<Event>)
    requires Inv(s)
    ensures Inv(Run(s, events))
    decreases |events|
  {
    if events != [] {
      RunKeepsInv(Step(s, events[0]).next, events[1..]);
    }
  }

  // ---------------------------------------------------------------------
  // Tags, the shown status, and the persisted record.

  /** The tags of a state: the busy tag covers both children of `busy`. */
  function Tags(s: State): (t: seq<string>)
    ensures |t| == 1
  {
    match s
    case Active => ["active"]
    case Busy(_) => ["busy"]
    case Error => ["error"]
    case Success => ["success"]
  }

  function Project(s: State): Lifecycle.Status
  {
    match s
    case Active => Lifecycle.Active
    case Busy(_) => Lifecycle.Busy
    case Error => Lifecycle.Error
    case Success => Lifecycle.Success
  }

  /** The first tag, read as a status, is always a status name, and it is
      the status the state stands for. */
  lemma FirstTagIsStatus(s: State)
    ensures Lifecycle.StatusOfName(Tags(s)[0]) == Some(Project(s))
  {
  }

  datatype Persisted = Persisted(status: Lifecycle.Status, xState: Snapshot)

  /** The observer: a change of the first tag is shown and persisted. */
  function Observe(shown: Lifecycle.Status, snap: Snapshot): (r: Option<Persisted>)
    ensures r.Some? <==> Project(snap.state) != shown
    ensures r.Some? ==> r.value.status == Project(snap.state) && r.value.xState == snap
  {
    FirstTagIsStatus(snap.state);
    var status := Lifecycle.StatusOfName(Tags(snap.state)[0]).value;
    if status != shown then Some(Persisted(status, snap)) else None
  }

  function Rehydrate(xState: Option<Snapshot>): (s: Snapshot)
    ensures xState.None? ==> s.state == Active && Inv(s)
    ensures xState.Some? ==> s == xState.value
  {
    xState.GetOr(Initial)
  }

  datatype NodeView = NodeView(live: Snapshot, shown: Lifecycle.Status, stored: Option<Persisted>)

  function Deliver(n: NodeView, e: Event): NodeView
  {
    var next := Step(n.live, e).next;
    match Observe(n.shown, next)
    case Some(p) => NodeView(next, p.status, Some(p))
    case None => NodeView(next, n.shown, n.stored)
  }

  function DeliverAll(n: NodeView, events: seq<Event>): NodeView
    decreases |events|
  {
    if events == [] then n else DeliverAll(Deliver(n, events[0]), events[1..])
  }

  predicate Coherent(n: NodeView)
  {
    && n.shown == Project(n.live.state)
    && (n.stored.Some? ==> n.stored.value.status == n.shown && Project(n.stored.value.xState.state) == n.shown)
  }

  /** The observer keeps the shown and persisted status in step with the
      machine through any run of events. */
  lemma {:induction false} DeliverAllCoherent(n: NodeView, events: seq<Event>)
    requires Coherent(n)
    ensures Coherent(DeliverAll(n, events))
    ensures DeliverAll(n, events).live == Run(n.live, events)
    decreases |events|
  {
    if events != [] {
      DeliverAllCoherent(Deliver(n, events[0]), events[1..]);
    }
  }

  /** Moving between pending and running keeps the `busy` tag, so the
      observer persists nothing: the stored snapshot is the one taken when
      the node became busy. */
  lemma BusyMovesNotPersisted(n: NodeView, e: Event)
    requires Coherent(n) && n.live.state.Busy?
    requires Step(n.live, e).next.state.Busy?
    ensures Deliver(n, e).stored == n.stored
  {
  }
}
