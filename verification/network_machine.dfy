/** The network node's state machine (`networkMachine`): a training phase and
    a tuning phase, each with a pending submission, a running job that is
    polled, and an error state that can be retried.

    The machine is pure here. The two invoked services (`submitJob`,
    `jobStatus`) and the `cancelJob` action are requests it hands back as
    effects; the environment answers a submission with `SubmitDone` or
    `SubmitFailed` and a status query with `PollDone` or `PollFailed`. */
module NetworkMachine {
  import opened Wrappers
  import Lifecycle
  import NetworkForm
  import Graph

  type Form = NetworkForm.Form

  datatype Phase = Training | Tuning

  datatype Sub = Pending | Running | Error

  datatype State = Inactive | Active | InPhase(phase: Phase, sub: Sub) | Success

  datatype Context = Context(jobId: string, jobStatus: string, networkLabel: string, networkType: string)

  datatype Snapshot = Snapshot(state: State, ctx: Context)

  /** The machine's declared starting context and state. */
  const InitialContext: Context := Context("", "", "network", "unet2d")

  const Initial: Snapshot := Snapshot(Inactive, InitialContext)

  datatype Event =
    | Activate
    | StartTraining(form: Form)
    | Cancel
    | Retry(form: Form)
    | Finetune(form: Form)
      /** The submission service resolved with `{ jobId, formData }`. */
    | SubmitDone(jobId: Option<string>, formData: Option<Form>)
    | SubmitFailed
      /** The status service resolved with `{ jobStatus }`. */
    | PollDone(result: Lifecycle.PollResult)
    | PollFailed

  /** A request the machine makes of its environment: start the submission
      service with a form, start the status service for a job, or send the
      cancellation request for a job. */
  datatype Effect = SubmitJob(form: Form) | PollJob(jobId: string) | CancelJob(jobId: string)

  datatype Output = Output(next: Snapshot, effects: seq<Effect>)

  predicate IsPending(s: State) { s.InPhase? && s.sub == Pending }

  predicate IsRunning(s: State) { s.InPhase? && s.sub == Running }

  predicate IsFailed(s: State) { s.InPhase? && s.sub == Error }

  /** The moves the chart draws, independent of events and guards. */
  predicate Move(from: State, to: State)
  {
    match from
    case Inactive => to == Active
    case Active => to == InPhase(Training, Pending)
    case InPhase(p, Pending) => to == InPhase(p, Running) || to == InPhase(p, Error)
    case InPhase(p, Running) => to == Success || to == InPhase(p, Error) || to == InPhase(p, Running)
    case InPhase(p, Error) => to == InPhase(p, Pending)
    case Success => to == InPhase(Tuning, Pending)
  }

  /** The label and type recorded from a resolved submission (`?? 'network'`,
      `?? 'unet2d'`). */
  function LabelOf(formData: Option<Form>): string
  {
    if formData.Some? then formData.value.networkUserLabel else "network"
  }

  function TypeOf(formData: Option<Form>): string
  {
    if formData.Some? then formData.value.networkTypeName else "unet2d"
  }

  /** One event delivered to the machine. Events a state does not handle
      leave the snapshot as it is; a failed status query is not handled by
      any state, so a running job whose query fails is no longer polled. */
  function Step(s: Snapshot, e: Event): (o: Output)
    ensures |o.effects| <= 1
    ensures o.next.state != s.state ==> Move(s.state, o.next.state)
    ensures o.next.ctx.networkLabel != s.ctx.networkLabel || o.next.ctx.networkType != s.ctx.networkType ==>
              IsPending(s.state) && e.SubmitDone?
    ensures o.next.ctx.jobId != s.ctx.jobId ==> (IsPending(s.state) && e.SubmitDone?) || o.next.ctx.jobId == ""
    ensures forall k :: 0 <= k < |o.effects| ==> match o.effects[k]
              case SubmitJob(_) => IsPending(o.next.state)
              case PollJob(id) => IsRunning(o.next.state) && id == o.next.ctx.jobId
              case CancelJob(id) => IsRunning(s.state) && o.next == s && id == s.ctx.jobId
  {
    match s.state
    case Inactive =>
      if e.Activate? then Output(Snapshot(Active, s.ctx), []) else Output(s, [])
    case Active =>
      if e.StartTraining? then Output(Snapshot(InPhase(Training, Pending), s.ctx), [SubmitJob(e.form)])
      else Output(s, [])
    case InPhase(p, Pending) =>
      if e.SubmitDone? then
        var ctx := s.ctx.(jobId := e.jobId.GetOr(""), networkLabel := LabelOf(e.formData),
                          networkType := TypeOf(e.formData));
        Output(Snapshot(InPhase(p, Running), ctx), [PollJob(ctx.jobId)])
      else if e.SubmitFailed? then Output(Snapshot(InPhase(p, Error), s.ctx), [])
      else Output(s, [])
    case InPhase(p, Running) =>
      if e.PollDone? then
        match Lifecycle.FirstGuard(s.ctx.jobStatus)
        case IsCompleted => Output(Snapshot(Success, s.ctx), [])
        case IsFailed => Output(Snapshot(InPhase(p, Error), s.ctx), [])
        case IsCancelled => Output(Snapshot(InPhase(p, Error), s.ctx), [])
        case NoGuard =>
          var ctx := s.ctx.(jobStatus := e.result.jobStatus.GetOr(""));
          Output(Snapshot(InPhase(p, Running), ctx), [PollJob(ctx.jobId)])
      else if e.Cancel? then Output(s, [CancelJob(s.ctx.jobId)])
      else Output(s, [])
    case InPhase(p, Error) =>
      if e.Retry? then
        Output(Snapshot(InPhase(p, Pending), s.ctx.(jobStatus := "", jobId := "")), [SubmitJob(e.form)])
      else Output(s, [])
    case Success =>
      if e.Finetune? then
        Output(Snapshot(InPhase(Tuning, Pending), s.ctx.(jobStatus := "", jobId := "")), [SubmitJob(e.form)])
      else Output(s, [])
  }

  /** The snapshot after delivering `events` in order. */
  function Run(s: Snapshot, events: seq<Event>): Snapshot
    decreases |events|
  {
    if events == [] then s else Run(Step(s, events[0]).next, events[1..])
  }

  /** Every move the chart draws is taken by some event from some context. */
  lemma EveryMoveTaken(from: State, to: State)
    requires Move(from, to)
    ensures exists ctx: Context, e: Event :: Step(Snapshot(from, ctx), e).next.state == to
  {
    var f := NetworkForm.DefaultValues(None, None);
    var c := InitialContext;
    match from
    case Inactive => assert Step(Snapshot(from, c), Activate).next.state == to;
    case Active => assert Step(Snapshot(from, c), StartTraining(f)).next.state == to;
    case InPhase(p, Pending) =>
      if to == InPhase(p, Running) {
        assert Step(Snapshot(from, c), SubmitDone(None, None)).next.state == to;
      } else {
        assert Step(Snapshot(from, c), SubmitFailed).next.state == to;
      }
    case InPhase(p, Running) =>
      var poll := PollDone(Lifecycle.PollResult(None));
      if to == Success {
        assert Step(Snapshot(from, c.(jobStatus := Lifecycle.COMPLETED)), poll).next.state == to;
      } else if to == InPhase(p, Error) {
        assert Step(Snapshot(from, c.(jobStatus := Lifecycle.FAILED)), poll).next.state == to;
      } else {
        assert Step(Snapshot(from, c), poll).next.state == to;
      }
    case InPhase(p, Error) => assert Step(Snapshot(from, c), Retry(f)).next.state == to;
    case Success => assert Step(Snapshot(from, c), Finetune(f)).next.state == to;
  }

  /** A status answer is judged by the status stored from the previous
      answer, never by the answer itself: the state a poll leads to does not
      depend on what the poll returned. */
  lemma PollDecidedByStoredStatus(s: Snapshot, r1: Lifecycle.PollResult, r2: Lifecycle.PollResult)
    requires IsRunning(s.state)
    ensures Step(s, PollDone(r1)).next.state == Step(s, PollDone(r2)).next.state
    ensures s.ctx.jobStatus == Lifecycle.COMPLETED <==> Step(s, PollDone(r1)).next.state == Success
    ensures s.ctx.jobStatus == Lifecycle.FAILED || s.ctx.jobStatus == Lifecycle.CANCELLED <==>
              IsFailed(Step(s, PollDone(r1)).next.state)
  {
  }

  /** A terminal job status takes two answers to act on: the first answer
      stores it and polls again, the second leads to success or error. */
  lemma TerminalStatusNeedsTwoPolls(s: Snapshot, terminal: string, r: Lifecycle.PollResult)
    requires IsRunning(s.state)
    requires Lifecycle.FirstGuard(s.ctx.jobStatus) == Lifecycle.NoGuard
    requires terminal in [Lifecycle.COMPLETED, Lifecycle.FAILED, Lifecycle.CANCELLED]
    ensures var first := Step(s, PollDone(Lifecycle.PollResult(Some(terminal))));
            && first.next.state == s.state
            && first.next.ctx.jobStatus == terminal
            && first.effects == [PollJob(s.ctx.jobId)]
            && var second := Step(first.next, PollDone(r));
               && second.effects == []
               && (terminal == Lifecycle.COMPLETED <==> second.next.state == Success)
               && (terminal != Lifecycle.COMPLETED <==> second.next.state == InPhase(s.state.phase, Error))
  {
  }

  /** Cancelling never moves the machine: while a job runs it only asks for
      the job's cancellation, and elsewhere it is ignored. */
  lemma CancelIsActionOnly(s: Snapshot)
    ensures Step(s, Cancel).next == s
    ensures Step(s, Cancel).effects == (if IsRunning(s.state) then [CancelJob(s.ctx.jobId)] else [])
  {
  }

  /** After a failed status query nothing but an answer the machine is no
      longer waiting for can move a running job: any sequence of user events
      leaves it running with the same context. */
  lemma {:induction false} StalledAfterPollError(s: Snapshot, events: seq<Event>)
    requires IsRunning(s.state)
    requires forall k :: 0 <= k < |events| ==> !events[k].PollDone? && !events[k].SubmitDone? && !events[k].SubmitFailed?
    ensures Step(s, PollFailed) == Output(s, [])
    ensures Run(s, events) == s
    decreases |events|
  {
    if events != [] {
      StalledAfterPollError(s, events[1..]);
    }
  }

  /** A resolved submission records the job id (empty when the service gave
      none) and the label and type of the form it was started with; a
      rejected submission moves to the phase's error state. */
  lemma SubmissionOutcome(s: Snapshot, jobId: Option<string>, f: Form)
    requires IsPending(s.state)
    ensures var o := Step(s, SubmitDone(jobId, Some(f)));
            && o.next.state == InPhase(s.state.phase, Running)
            && o.next.ctx == Context(jobId.GetOr(""), s.ctx.jobStatus, f.networkUserLabel, f.networkTypeName)
            && o.effects == [PollJob(jobId.GetOr(""))]
    ensures Step(s, SubmitDone(jobId, None)).next.ctx ==
              Context(jobId.GetOr(""), s.ctx.jobStatus, "network", "unet2d")
    ensures Step(s, SubmitFailed) == Output(Snapshot(InPhase(s.state.phase, Error), s.ctx), [])
  {
  }

  /** Retrying clears the job and resubmits in the failed phase; finetuning
      clears the job and submits the tuning job, and only a finished network
      accepts it. Either event is ignored in every other state. */
  lemma RetryAndFinetune(s: Snapshot, f: Form)
    ensures IsFailed(s.state) ==>
              Step(s, Retry(f)) == Output(Snapshot(InPhase(s.state.phase, Pending), s.ctx.(jobId := "", jobStatus := "")), [SubmitJob(f)])
    ensures !IsFailed(s.state) ==> Step(s, Retry(f)) == Output(s, [])
    ensures s.state == Success ==>
              Step(s, Finetune(f)) == Output(Snapshot(InPhase(Tuning, Pending), s.ctx.(jobId := "", jobStatus := "")), [SubmitJob(f)])
    ensures s.state != Success ==> Step(s, Finetune(f)) == Output(s, [])
  {
  }

  /** The events each state listens for, as the chart declares them. */
  predicate Handles(st: State, e: Event)
  {
    match st
    case Inactive => e.Activate?
    case Active => e.StartTraining?
    case InPhase(_, Pending) => e.SubmitDone? || e.SubmitFailed?
    case InPhase(_, Running) => e.PollDone? || e.Cancel?
    case InPhase(_, Error) => e.Retry?
    case Success => e.Finetune?
  }

  /** An event the current state does not listen for changes nothing and
      requests nothing. */
  lemma UnhandledIgnored(s: Snapshot, e: Event)
    requires !Handles(s.state, e)
    ensures Step(s, e) == Output(s, [])
  {
  }

  /** Only `activate` moves an inactive node, to active; only `start
      training` moves an active node, to the pending training submission of
      the given form. Neither touches the context. */
  lemma ActivateThenStart(s: Snapshot, e: Event)
    ensures s.state == Inactive ==> (Step(s, e).next.state != Inactive <==> e.Activate?)
    ensures s.state == Inactive && e.Activate? ==> Step(s, e) == Output(Snapshot(Active, s.ctx), [])
    ensures s.state == Active ==> (Step(s, e).next.state != Active <==> e.StartTraining?)
    ensures s.state == Active && e.StartTraining? ==>
              Step(s, e) == Output(Snapshot(InPhase(Training, Pending), s.ctx), [SubmitJob(e.form)])
  {
  }

  /** What holds of every snapshot the machine reaches from its start. */
  predicate Inv(s: Snapshot)
  {
    && (s.state == Inactive || s.state == Active ==> s.ctx == InitialContext)
    && (IsPending(s.state) ==> s.ctx.jobId == "" && s.ctx.jobStatus == "")
    && (s.state == Success ==> s.ctx.jobStatus == Lifecycle.COMPLETED)
    && (IsFailed(s.state) ==> s.ctx.jobStatus in [Lifecycle.FAILED, Lifecycle.CANCELLED] || s.ctx.jobId == "")
  }

  lemma StepKeepsInv(s: Snapshot, e: Event)
    requires Inv(s)
    ensures Inv(Step(s, e).next)
  {
  }

  /** From the declared start, every run keeps the invariant: a finished
      network always holds the COMPLETED status, and an errored job either
      failed or was never given an id. */
  lemma {:induction false} RunKeepsInv(s: Snapshot, events: seq<Event>)
    requires Inv(s)
    ensures Inv(Run(s, events))
    decreases |events|
  {
    if events != [] {
      StepKeepsInv(s, events[0]);
      RunKeepsInv(Step(s, events[0]).next, events[1..]);
    }
  }

  // ---------------------------------------------------------------------
  // The status shown by the node, and the record persisted with it.

  /** An xstate state value: a top-level state name, or a phase with its
      sub-state (`{ training: 'running' }`). */
  datatype StateValue = Leaf(name: string) | Nested(parent: string, child: string)

  function PhaseName(p: Phase): string
  {
    match p
    case Training => "training"
    case Tuning => "tuning"
  }

  function SubName(s: Sub): string
  {
    match s
    case Pending => "pending"
    case Running => "running"
    case Error => "error"
  }

  function ValueOf(s: State): StateValue
  {
    match s
    case Inactive => Leaf("inactive")
    case Active => Leaf("active")
    case InPhase(p, sub) => Nested(PhaseName(p), SubName(sub))
    case Success => Leaf("success")
  }

  const BusyValues: seq<StateValue> :=
    [Nested("training", "pending"), Nested("training", "running"),
     Nested("tuning", "pending"), Nested("tuning", "running")]

  const ErrorValues: seq<StateValue> := [Nested("training", "error"), Nested("tuning", "error")]

  /** `defineStatus`: a nested value is busy or error by lookup, and any
      other nested value throws (`None`); a top-level name is read as a
      status name. */
  function DefineStatus(v: StateValue): (r: Option<Lifecycle.Status>)
    ensures v.Nested? ==> (r.Some? <==> v.parent in ["training", "tuning"] && v.child in ["pending", "running", "error"])
    ensures v.Nested? && r.Some? ==> r.value == (if v.child == "error" then Lifecycle.Error else Lifecycle.Busy)
    ensures v.Leaf? ==> r == Lifecycle.StatusOfName(v.name)
  {
    if v.Nested? then
      if v in BusyValues then Some(Lifecycle.Busy)
      else if v in ErrorValues then Some(Lifecycle.Error)
      else None
    else Lifecycle.StatusOfName(v.name)
  }

  /** The status each machine state stands for. */
  function Project(s: State): Lifecycle.Status
  {
    match s
    case Inactive => Lifecycle.Inactive
    case Active => Lifecycle.Active
    case InPhase(_, Error) => Lifecycle.Error
    case InPhase(_, _) => Lifecycle.Busy
    case Success => Lifecycle.Success
  }

  /** `defineStatus` never throws on a state of this machine, and gives the
      status that state stands for. */
  lemma DefineStatusTotal(s: State)
    ensures DefineStatus(ValueOf(s)) == Some(Project(s))
  {
    match s
    case InPhase(Training, Pending) => assert ValueOf(s) == BusyValues[0];
    case InPhase(Training, Running) => assert ValueOf(s) == BusyValues[1];
    case InPhase(Tuning, Pending) => assert ValueOf(s) == BusyValues[2];
    case InPhase(Tuning, Running) => assert ValueOf(s) == BusyValues[3];
    case InPhase(Training, Error) => assert ValueOf(s) == ErrorValues[0];
    case InPhase(Tuning, Error) => assert ValueOf(s) == ErrorValues[1];
    case _ =>
  }

  /** The node's persisted `status` and `xState`. The snapshot is kept as a
      value; its JSON text is not modelled. */
  datatype Persisted = Persisted(status: Lifecycle.Status, xState: Snapshot)

  /** The observer: when the status of the new snapshot differs from the
      status the node shows, the node shows and persists the new one. */
  function Observe(shown: Lifecycle.Status, snap: Snapshot): (r: Option<Persisted>)
    ensures r.Some? <==> Project(snap.state) != shown
    ensures r.Some? ==> r.value.status == Project(snap.state) && r.value.xState == snap
  {
    DefineStatusTotal(snap.state);
    var status := DefineStatus(ValueOf(snap.state)).value;
    if status != shown then Some(Persisted(status, snap)) else None
  }

  /** `prevXState`: the persisted snapshot, or the machine's start when none
      was persisted. */
  function Rehydrate(xState: Option<Snapshot>): (s: Snapshot)
    ensures xState.None? ==> s.state == Inactive && Inv(s)
    ensures xState.Some? ==> s == xState.value
  {
    xState.GetOr(Initial)
  }

  /** A mounted network node: the live snapshot, the status it shows, and
      the last record it persisted. */
  datatype NodeView = NodeView(live: Snapshot, shown: Lifecycle.Status, stored: Option<Persisted>)

  /** Deliver one event and let the observer run on the new snapshot. */
  function Deliver(n: NodeView, e: Event): NodeView
  {
    var next := Step(n.live, e).next;
    match Observe(n.shown, next)
    case Some(p) => NodeView(next, p.status, Some(p))
    case None => NodeView(next, n.shown, n.stored)
  }

  function DeliverAll(n: NodeView, events: seq<Event>): NodeView
    decreases |events|
  {
    if events == [] then n else DeliverAll(Deliver(n, events[0]), events[1..])
  }

  /** The shown status is the live state's, and the persisted record agrees
      with itself and with the shown status. */
  predicate Coherent(n: NodeView)
  {
    && n.shown == Project(n.live.state)
    && (n.stored.Some? ==> n.stored.value.status == n.shown && Project(n.stored.value.xState.state) == n.shown)
  }

  /** The observer keeps a node coherent through any run of events: the
      persisted snapshot may lag behind the live one, but never by a change
      of status. */
  lemma {:induction false} DeliverAllCoherent(n: NodeView, events: seq<Event>)
    requires Coherent(n)
    ensures Coherent(DeliverAll(n, events))
    ensures DeliverAll(n, events).live == Run(n.live, events)
    decreases |events|
  {
    if events != [] {
      DeliverAllCoherent(Deliver(n, events[0]), events[1..]);
    }
  }

  /** Mounting the node again from what was persisted shows the same status
      the node showed before. */
  lemma ReloadShowsSameStatus(n: NodeView)
    requires Coherent(n) && n.stored.Some?
    ensures var live := Rehydrate(Some(n.stored.value.xState));
            Project(live.state) == n.shown && Observe(n.stored.value.status, live).None?
  {
  }

  /** `handleActivation`: the node is activated only when the first edge
      into it has a non-empty source id. */
  function MayActivate(edges: seq<Graph.Edge>, id: string): (ok: bool)
    ensures ok <==> exists k :: && 0 <= k < |edges| && edges[k].target == id && edges[k].source != ""
                                && forall j :: 0 <= j < k ==> edges[j].target != id
    ensures (forall k :: 0 <= k < |edges| ==> edges[k].target != id) ==> !ok
  {
    var first := Graph.FirstEdgeInto(edges, id);
    first.Some? && first.value.source != ""
  }

  /** Only the first edge into the node counts: a later edge from a named
      source does not make up for a first edge without one. */
  lemma FirstEdgeDecides()
    ensures !MayActivate([Graph.Edge("", "n"), Graph.Edge("a", "n")], "n")
    ensures MayActivate([Graph.Edge("a", "m"), Graph.Edge("b", "n"), Graph.Edge("", "n")], "n")
  {
  }

  /** With the first edge into the node coming from a named source, the
      activation is sent and moves an inactive node to active. */
  lemma ActivationFromConnectedSource(edges: seq<Graph.Edge>, id: string, k: nat, s: Snapshot)
    requires k < |edges| && edges[k].target == id && edges[k].source != ""
    requires forall j :: 0 <= j < k ==> edges[j].target != id
    requires s.state == Inactive
    ensures MayActivate(edges, id)
    ensures Step(s, Activate).next.state == Active
  {
    var first := Graph.FirstEdgeInto(edges, id);
    var i :| 0 <= i < |edges| && edges[i] == first.value && edges[i].target == id &&
             forall j :: 0 <= j < i ==> edges[j].target != id;
    assert i == k;
  }

  /** Running two sequences of events one after the other. */
  lemma {:induction false} RunConcat(s: Snapshot, a: seq<Event>, b: seq<Event>)
    ensures Run(s, a + b) == Run(Run(s, a), b)
    decreases |a|
  {
    if a == [] {
      assert a + b == b;
    } else {
      assert (a + b)[1..] == a[1..] + b;
      RunConcat(Step(s, a[0]).next, a[1..], b);
    }
  }

  function Answer(jobStatus: string): Event
  {
    PollDone(Lifecycle.PollResult(Some(jobStatus)))
  }

  /** Training that is started, reported running and then failed twice. */
  function FailedTraining(f: Form): seq<Event>
  {
    [Activate, StartTraining(f), SubmitDone(Some("1"), Some(f)), Answer("RUNNING"), Answer("FAILED"), Answer("FAILED")]
  }

  /** A retry that is reported completed twice. */
  function CompletedRetry(f: Form): seq<Event>
  {
    [Retry(f), SubmitDone(Some("2"), Some(f)), Answer("COMPLETED"), Answer("COMPLETED")]
  }

  /** A finetuning job that is reported failed twice. */
  function FailedTuning(g: Form): seq<Event>
  {
    [Finetune(g), SubmitDone(Some("3"), Some(g)), Answer("FAILED"), Answer("FAILED")]
  }

  lemma FailedTrainingEnds(f: Form)
    ensures Run(Initial, FailedTraining(f)) ==
              Snapshot(InPhase(Training, Error), Context("1", "FAILED", f.networkUserLabel, f.networkTypeName))
  {
    var es := FailedTraining(f);
    var s1 := Snapshot(Active, InitialContext);
    var s2 := Snapshot(InPhase(Training, Pending), InitialContext);
    var ctx := Context("1", "", f.networkUserLabel, f.networkTypeName);
    var s3 := Snapshot(InPhase(Training, Running), ctx);
    var s4 := Snapshot(InPhase(Training, Running), ctx.(jobStatus := "RUNNING"));
    var s5 := Snapshot(InPhase(Training, Running), ctx.(jobStatus := "FAILED"));
    assert Run(s5, es[5..]) == Snapshot(InPhase(Training, Error), ctx.(jobStatus := "FAILED"));
    assert Run(s4, es[4..]) == Run(s5, es[5..]);
    assert Run(s3, es[3..]) == Run(s4, es[4..]);
    assert Run(s2, es[2..]) == Run(s3, es[3..]);
    assert Run(s1, es[1..]) == Run(s2, es[2..]);
  }

  lemma CompletedRetryEnds(f: Form, ctx: Context)
    ensures Run(Snapshot(InPhase(Training, Error), ctx), CompletedRetry(f)) ==
              Snapshot(Success, Context("2", "COMPLETED", f.networkUserLabel, f.networkTypeName))
  {
    var es := CompletedRetry(f);
    var c := Context("2", "", f.networkUserLabel, f.networkTypeName);
    var s1 := Snapshot(InPhase(Training, Pending), ctx.(jobStatus := "", jobId := ""));
    var s2 := Snapshot(InPhase(Training, Running), c);
    var s3 := Snapshot(InPhase(Training, Running), c.(jobStatus := "COMPLETED"));
    assert Run(s3, es[3..]) == Snapshot(Success, c.(jobStatus := "COMPLETED"));
    assert Run(s2, es[2..]) == Run(s3, es[3..]);
    assert Run(s1, es[1..]) == Run(s2, es[2..]);
  }

  lemma FailedTuningEnds(g: Form, ctx: Context)
    ensures Run(Snapshot(Success, ctx), FailedTuning(g)) ==
              Snapshot(InPhase(Tuning, Error), Context("3", "FAILED", g.networkUserLabel, g.networkTypeName))
  {
    var es := FailedTuning(g);
    var c := Context("3", "", g.networkUserLabel, g.networkTypeName);
    var s1 := Snapshot(InPhase(Tuning, Pending), ctx.(jobStatus := "", jobId := ""));
    var s2 := Snapshot(InPhase(Tuning, Running), c);
    var s3 := Snapshot(InPhase(Tuning, Running), c.(jobStatus := "FAILED"));
    assert Run(s3, es[3..]) == Snapshot(InPhase(Tuning, Error), c.(jobStatus := "FAILED"));
    assert Run(s2, es[2..]) == Run(s3, es[3..]);
    assert Run(s1, es[1..]) == Run(s2, es[2..]);
  }

  /** A training job that fails, is retried, completes, and is then
      finetuned with a tuning job that fails: the node ends in the tuning
      error state with the failed status stored, and the tuning job's label
      and type recorded. */
  lemma FinetuneFailureScenario(f: Form, g: Form)
    ensures Run(Initial, FailedTraining(f) + CompletedRetry(f) + FailedTuning(g)) ==
              Snapshot(InPhase(Tuning, Error), Context("3", "FAILED", g.networkUserLabel, g.networkTypeName))
  {
    FailedTrainingEnds(f);
    RunConcat(Initial, FailedTraining(f), CompletedRetry(f));
    CompletedRetryEnds(f, Context("1", "FAILED", f.networkUserLabel, f.networkTypeName));
    RunConcat(Initial, FailedTraining(f) + CompletedRetry(f), FailedTuning(g));
    FailedTuningEnds(g, Context("2", "COMPLETED", f.networkUserLabel, f.networkTypeName));
  }
}
