/**
  Whether a driver is activated is looked up in the kernel's registry each time a status is made. The registry changes by itself; the
  monitor of the status client notices each change later and has the status checked.
 */
module Activation {
  import opened Protocol
  import opened Sequences
  import IoService
  import opened Reconciler
  import opened ReconcilerInvariant
  import opened Lifecycle
  import opened StatusPush

  datatype Moment = Does(action: Action) | Changes(activated: bool)

  /** `activated` is what the registry says; `unnoticed` that it has changed and the status client has not been told of anything since. */
  datatype World = World(entry: Entry, activated: bool, unnoticed: bool)

  /** The kernel answers what the registry says at that time. */
  function Answered(action: Action, activated: bool): Action {
    match action
    case RunNext(answers) => RunNext(answers.(activated := activated))
    case _ => action
  }

  /** The status client's monitor reports a service that came or went. */
  predicate Notices(e: Entry, action: Action) {
    e.status.io.monitoring && (action.KernelMatched? || action.KernelTerminated?) && action.client == STATUS
  }

  function Next(w: World, m: Moment): World {
    match m
    case Changes(activated) => World(w.entry, activated, w.unnoticed || activated != w.activated)
    case Does(action) =>
      World(Step(w.entry, Answered(action, w.activated)), w.activated, w.unnoticed && !Notices(w.entry, action))
  }

  function Run(activated: bool, moments: seq<Moment>): World {
    if moments == [] then World(INITIAL, activated, false) else Next(Run(activated, Front(moments)), Last(moments))
  }

  // ---------------------------------------------------------------- what a step samples

  /** The status was sampled, with this answer from the registry. */
  predicate Sampled(e: Entry, activated: bool) {
    e.last.Some? && e.last.value.activated == activated
  }

  /** Nothing was sampled, and what will be is still going to be. */
  ghost predicate Waits(e: Entry, e': Entry) {
    e'.last == e.last && (WillSample(e) ==> WillSample(e'))
  }

  lemma CheckIsSampled(e: Entry, activated: bool)
    ensures Sampled(CheckStatusChanged(e, activated), activated)
  {
  }

  lemma GrowingWaits(e: Entry, e': Entry, more: seq<Job>)
    requires e'.last == e.last && e'.ready == e.ready + more
    ensures Waits(e, e')
  {
    if WillSample(e) {
      var job :| job in e.ready && Samples(job);
      assert job in e'.ready;
    }
  }

  lemma StepClientWaits(e: Entry, p: Place, id: ObjectId, event: IoService.Event)
    requires PlaceOf(e, id) == p && !p.Nowhere?
    ensures Waits(e, StepClient(e, p, id, event))
  {
    GrowingWaits(e, StepClient(e, p, id, event), SignalJobs(id, IoService.Step(IoAt(e, p), event).effects));
  }

  lemma PushWaits(e: Entry, job: Job)
    ensures Waits(e, Push(e, job))
  {
    GrowingWaits(e, Push(e, job), [job]);
  }

  lemma EventWaits(e: Entry, p: Place, job: Job, answers: Answers)
    requires PlaceOf(e, job.owner) == p && !p.Nowhere? && EventOf(job.task, answers).Some?
    ensures Waits(e, RunClientJob(e, p, job, answers))
  {
    var stepped := StepClient(e, p, job.owner, EventOf(job.task, answers).value);
    StepClientWaits(e, p, job.owner, EventOf(job.task, answers).value);
    if job.task.AskReady? {
      PushWaits(stepped, Job(job.owner, StoreReady(job.task.device, IoService.ReadyAnswer(IoAt(e, p), answers.ready))));
    }
  }

  lemma EmittedSamples(e: Entry, p: Place, id: ObjectId, signal: IoService.Signal, activated: bool)
    ensures var e' := Emitted(e, p, id, signal, activated);
            if signal.StateChangedSignal? then Sampled(e', activated) else Waits(e, e')
  {
    match signal
    case StateChangedSignal => CheckIsSampled(e, activated);
    case ClosedSignal =>
    case OpenedSignal =>
      PushWaits(e, Job(id, Issue(InitializeKeyboard(e.parameters))));
      PushWaits(e, Job(id, Issue(InitializePointing)));
  }

  /** The front job samples the status, or everything else that will sample it is still queued. */
  lemma JobSamples(e: Entry, job: Job, answers: Answers)
    requires Inv(e) && JobInv(e, job)
    ensures var e' := RunJob(e, job, answers);
            Sampled(e', answers.activated) || (!Samples(job) && Waits(e, e'))
  {
    if job.task.Apply? {
      var changed := Reconfigure(e, job.task.request);
      CheckIsSampled(changed.(history := changed.history.(applied := changed.history.applied + [job.task.request])), answers.activated);
    } else if job.owner == ENTRY {
      CheckIsSampled(e, answers.activated);
    } else if EventOf(job.task, answers).Some? {
      EventWaits(e, PlaceOf(e, job.owner), job, answers);
    } else if job.task.Emit? {
      EmittedSamples(e, PlaceOf(e, job.owner), job.owner, job.task.signal, answers.activated);
    }
  }

  lemma DispatchSamples(e: Entry, answers: Answers)
    requires Inv(e)
    ensures Sampled(Dispatch(e, answers), answers.activated) || Waits(e, Dispatch(e, answers))
  {
    if e.ready != [] {
      var job, rest := e.ready[0], e.(ready := e.ready[1..]);
      assert JobInv(e, job) && e.ready == [job] + rest.ready;
      JobTaken(e);
      JobSamples(rest, job, answers);
      if !Samples(job) && WillSample(e) {
        var x :| x in e.ready && Samples(x);
        assert x in rest.ready;
      }
    } else if CheckDue(e) {
      TimerTaken(e);
      CheckSamples(e.(timers := e.timers[1..]), e.timers[0]);
    }
  }

  lemma PushToClientWaits(e: Entry, d: Device, task: Task)
    ensures Waits(e, PushToClient(e, d, task))
  {
    if SlotOf(e, d).client.Some? { PushWaits(e, Job(SlotOf(e, d).client.value.id, task)); }
  }

  lemma KernelEventWaits(e: Entry, id: ObjectId, event: IoService.Event)
    ensures Waits(e, KernelEvent(e, id, event))
  {
    if !PlaceOf(e, id).Nowhere? { StepClientWaits(e, PlaceOf(e, id), id, event); }
  }

  lemma StepSamples(e: Entry, action: Action)
    requires Inv(e)
    ensures Waits(e, Step(e, action)) || (action.RunNext? && Sampled(Step(e, action), action.answers.activated))
  {
    match action
    case AskStatus => PushWaits(e, Job(ENTRY, CheckStatus));
    case Receive(request) => PushWaits(e, Job(ENTRY, Apply(request)));
    case ReceiveReset(d) => PushToClientWaits(e, d, Issue(ResetDevice(d)));
    case ReceiveReport(report) => PushToClientWaits(e, report.device, Issue(PostReport(report.device, report.bytes)));
    case Elapse(_) => assert Step(e, action).ready == e.ready;
    case ReadyTimer =>
      PushToClientWaits(e, Keyboard, AskReady(Keyboard));
      PushToClientWaits(PushToClient(e, Keyboard, AskReady(Keyboard)), Pointing, AskReady(Pointing));
    case KernelMatched(id, service, kernel) => KernelEventWaits(e, id, IoService.ServiceMatched(service, kernel));
    case KernelTerminated(id, service, kernel) => KernelEventWaits(e, id, IoService.ServiceTerminated(service, kernel));
    case RunNext(answers) => DispatchSamples(e, answers);
  }

  // ---------------------------------------------------------------- what is noticed is told

  lemma NoticeAnnounced(io: IoService.State, event: IoService.Event)
    requires io.monitoring && (event.ServiceMatched? || event.ServiceTerminated?)
    ensures IoService.Enqueue(IoService.StateChangedSignal) in IoService.Step(io, event).effects
  {
    assert Last(IoService.Step(io, event).effects) == IoService.Enqueue(IoService.StateChangedSignal);
  }

  lemma EventSamples(e: Entry, event: IoService.Event, e': Entry)
    requires e.status.id == STATUS && IoService.Enqueue(IoService.StateChangedSignal) in IoService.Step(e.status.io, event).effects
    requires e' == KernelEvent(e, STATUS, event)
    ensures WillSample(e')
  {
    AnnouncementsAreQueued(STATUS, IoService.Step(e.status.io, event).effects);
    assert Job(STATUS, Emit(IoService.StateChangedSignal)) in e'.ready;
  }

  function EventIn(action: Action): IoService.Event
    requires action.KernelMatched? || action.KernelTerminated?
  {
    match action
    case KernelMatched(_, service, kernel) => IoService.ServiceMatched(service, kernel)
    case KernelTerminated(_, service, kernel) => IoService.ServiceTerminated(service, kernel)
  }

  lemma NoticeIsEvent(e: Entry, action: Action)
    requires Notices(e, action)
    ensures Step(e, action) == KernelEvent(e, STATUS, EventIn(action))
  {
  }

  lemma NoticeSamples(e: Entry, action: Action, e': Entry)
    requires e.status.id == STATUS && Notices(e, action) && e' == Step(e, action)
    ensures WillSample(e')
  {
    NoticeIsEvent(e, action);
    NoticeAnnounced(e.status.io, EventIn(action));
    EventSamples(e, EventIn(action), e');
  }

  /** The status will be checked, the registry's last change is yet to be noticed, or the last status told has it right. */
  ghost predicate Tells(w: World) {
    WillSample(w.entry) || w.unnoticed || Sampled(w.entry, w.activated)
  }

  ghost predicate WorldInv(w: World) {
    Inv(w.entry) && PushInv(w.entry) && Converging(w.entry) && Tells(w)
  }

  lemma DoesTells(w: World, action: Action)
    requires Inv(w.entry) && Tells(w)
    ensures Tells(Next(w, Does(action)))
  {
    var answered := Answered(action, w.activated);
    StepSamples(w.entry, answered);
    if Notices(w.entry, action) { NoticeSamples(w.entry, action, Step(w.entry, action)); }
  }

  lemma {:induction false} RunTells(activated: bool, moments: seq<Moment>)
    ensures WorldInv(Run(activated, moments))
  {
    if moments == [] {
      ReconcilerInvariant.RunKeeps([]);
      assert Job(ENTRY, CheckStatus) in INITIAL.ready;
    } else {
      var w := Run(activated, Front(moments));
      RunTells(activated, Front(moments));
      match Last(moments)
      case Changes(_) =>
      case Does(action) =>
        var answered := Answered(action, w.activated);
        StepKeeps(w.entry, answered);
        StepPushes(w.entry, answered);
        StepConverges(w.entry, answered);
        DoesTells(w, action);
    }
  }

  /**
    Main result: in every run, once the status client has been told of something after the registry's last change, and no status check is
    queued, the last push is the whole status that the daemon would answer now.
   */
  lemma WholeStatusIsTold(activated: bool, moments: seq<Moment>)
    requires !Run(activated, moments).unnoticed && !WillSample(Run(activated, moments).entry)
    ensures var w := Run(activated, moments);
            w.entry.history.pushes != [] && Last(w.entry.history.pushes) == MakeResponse(w.entry, w.activated)
  {
    RunTells(activated, moments);
    DestutterLast(Run(activated, moments).entry.history.samples);
  }
}
