/**
  What becomes of requests: lifecycle requests are applied exactly once and in order, and the outputs
  that the driver is asked for are an in-order selection of those received, even while clients come and go.
 */
module RequestFlow {
  import opened Wrappers
  import opened Protocol
  import opened Sequences
  import IoService
  import opened Reconciler
  import opened ReconcilerInvariant

  function RequestsOf(job: Job): seq<Request> {
    if job.task.Apply? then [job.task.request] else []
  }

  predicate IsOutput(call: DriverCall) {
    call.PostReport? || call.ResetDevice?
  }

  function OutputOf(call: DriverCall): seq<Output> {
    match call
    case PostReport(device, bytes) => [Posting(Report(device, bytes))]
    case ResetDevice(device) => [Clearing(device)]
    case _ => []
  }

  function OutputsOf(job: Job): seq<Output> {
    if job.task.Issue? then OutputOf(job.task.call) else []
  }

  function PostedBy(traced: Traced): seq<Output> {
    if traced.effect.Call? then OutputOf(traced.effect.call) else []
  }

  function PendingRequests(jobs: seq<Job>): seq<Request> {
    Collect(jobs, RequestsOf)
  }

  function PendingOutputs(jobs: seq<Job>): seq<Output> {
    Collect(jobs, OutputsOf)
  }

  /** The outputs asked of the driver, in order. */
  function Posted(trace: seq<Traced>): seq<Output> {
    Collect(trace, PostedBy)
  }

  lemma PendingConcat(a: seq<Job>, b: seq<Job>)
    ensures PendingRequests(a + b) == PendingRequests(a) + PendingRequests(b)
    ensures PendingOutputs(a + b) == PendingOutputs(a) + PendingOutputs(b)
  {
    CollectConcat(a, b, RequestsOf);
    CollectConcat(a, b, OutputsOf);
  }

  /** Dropping a client's jobs drops outputs, and no request. */
  lemma PendingWithout(posted: seq<Output>, jobs: seq<Job>, owner: ObjectId)
    requires owner != ENTRY && forall job | job in jobs :: job.task.Apply? ==> job.owner == ENTRY
    ensures PendingRequests(Without(jobs, owner)) == PendingRequests(jobs)
    ensures Subseq(posted + PendingOutputs(Without(jobs, owner)), posted + PendingOutputs(jobs))
  {
    CollectFilterSame(jobs, OwnedByOther(owner), RequestsOf);
    CollectFilterSubseq(posted, jobs, OwnedByOther(owner), OutputsOf);
  }

  lemma PendingSignals(owner: ObjectId, effects: seq<IoService.Effect>)
    ensures PendingRequests(SignalJobs(owner, effects)) == [] && PendingOutputs(SignalJobs(owner, effects)) == []
  {
    SignalJobsMembers(owner, effects);
    CollectNothing(SignalJobs(owner, effects), RequestsOf);
    CollectNothing(SignalJobs(owner, effects), OutputsOf);
  }

  // ---------------------------------------------------------------- connecting and closing post nothing

  ghost predicate Callless(effects: seq<IoService.Effect>) {
    forall x | x in effects :: !x.Call?
  }

  lemma {:induction false} TryServicesCallless(s: IoService.State, i: nat, kernel: IoService.Kernel)
    requires i <= |s.services|
    ensures Callless(IoService.TryServices(s, i, kernel).effects)
    decreases |s.services| - i
  {
    if i < |s.services| {
      var v := s.services[i];
      var reply := IoService.Reply(kernel, v.id);
      if v.isInvalidated || reply.OpenFailed? {
        TryServicesCallless(s, i + 1, kernel);
      } else if IoService.Reported(reply).None? {
        var queried := IoService.SetVersion(s, IoService.Reported(reply));
        TryServicesCallless(queried.state.(services := s.services[i := v.(isInvalidated := true)]), i + 1, kernel);
      }
    }
  }

  lemma OpenConnectionCallless(s: IoService.State, kernel: IoService.Kernel)
    ensures Callless(IoService.OpenConnection(s, kernel).effects)
  {
    TryServicesCallless(IoService.ClearCaches(s).state, 0, kernel);
  }

  lemma TerminatedCallless(s: IoService.State, id: IoService.RegistryId, kernel: IoService.Kernel)
    ensures Callless(IoService.Terminated(s, id, kernel).effects)
  {
    var closed := IoService.CloseConnection(s, id);
    assert Callless(closed.effects);
    OpenConnectionCallless(closed.state.(services := IoService.Erase(closed.state.services, id)), kernel);
  }

  lemma EventCallless(s: IoService.State, event: IoService.Event)
    requires !event.Issue?
    ensures Callless(IoService.Step(s, event).effects)
  {
    match event
    case ServiceMatched(id, kernel) => OpenConnectionCallless(s.(services := IoService.Insert(s.services, id)), kernel);
    case ServiceTerminated(id, kernel) => TerminatedCallless(s, id, kernel);
    case _ =>
  }

  lemma ShutdownCallless(io: IoService.State)
    ensures Callless(IoService.Shutdown(io).effects)
  {
    var i := IoService.FirstOpened(io.services);
    if i < |io.services| {
      FilterMembers(IoService.CloseConnection(io, io.services[i].id).effects, IoService.IsKernelCall);
    }
  }

  lemma PostedNothing(owner: ObjectId, effects: seq<IoService.Effect>)
    requires Callless(effects)
    ensures Posted(Tag(owner, effects)) == []
  {
    forall x | x in Tag(owner, effects) ensures PostedBy(x) == [] {
      assert x.effect in effects;
    }
    CollectNothing(Tag(owner, effects), PostedBy);
  }

  // ---------------------------------------------------------------- what a task does to the flow

  /** Outputs asked of the driver, followed by those that may still be. */
  function Outgoing(e: Entry): seq<Output> {
    Posted(e.history.trace) + PendingOutputs(e.ready)
  }

  function Accounted(e: Entry): seq<Request> {
    e.history.applied + PendingRequests(e.ready)
  }

  /** From `a` to `b` no output was added or reordered, and every request is still accounted for. */
  ghost predicate Advances(a: Entry, b: Entry) {
    && Subseq(Outgoing(b), Outgoing(a))
    && Accounted(b) == Accounted(a)
  }

  /** Moreover no request was applied. */
  ghost predicate Flows(a: Entry, b: Entry) {
    Advances(a, b) && b.history.applied == a.history.applied && PendingRequests(b.ready) == PendingRequests(a.ready)
  }

  lemma FlowsSame(a: Entry, b: Entry)
    requires Outgoing(b) == Outgoing(a)
    requires b.history.applied == a.history.applied && PendingRequests(b.ready) == PendingRequests(a.ready)
    ensures Flows(a, b)
  {
    SubseqReflexive(Outgoing(a));
  }

  lemma FlowsTransitive(a: Entry, b: Entry, c: Entry)
    requires Flows(a, b) && Flows(b, c)
    ensures Flows(a, c)
  {
    SubseqTransitive(Outgoing(c), Outgoing(b), Outgoing(a));
  }

  lemma PushFlows(e: Entry, job: Job)
    requires !job.task.Apply? && !(job.task.Issue? && IsOutput(job.task.call))
    ensures Flows(e, Push(e, job))
  {
    PendingConcat(e.ready, [job]);
    CollectOne(job, RequestsOf);
    CollectOne(job, OutputsOf);
    FlowsSame(e, Push(e, job));
  }

  lemma DestroyFlows(e: Entry, d: Device)
    requires Coherent(e)
    ensures Flows(e, Destroy(e, d))
  {
    var slot := SlotOf(e, d);
    if slot.client.Some? {
      var client := slot.client.value;
      var effects := IoService.Shutdown(client.io).effects;
      ShutdownSilent(client.io, client.id);
      ShutdownCallless(client.io);
      PostedNothing(client.id, effects);
      CollectConcat(e.history.trace, Tag(client.id, effects), PostedBy);
      assert Destroy(e, d).ready == Without(e.ready, client.id);
      assert Posted(Destroy(e, d).history.trace) == Posted(e.history.trace);
      forall job | job in e.ready ensures job.task.Apply? ==> job.owner == ENTRY { assert JobInv(e, job); }
      PendingWithout(Posted(e.history.trace), e.ready, client.id);
    } else {
      FlowsSame(e, e);
    }
  }

  lemma CreateFlows(e: Entry, d: Device)
    ensures Flows(e, Create(e, d))
  {
    PushFlows(e, Job(e.nextId, Start));
    var pushed := Push(e, Job(e.nextId, Start));
    FlowsSame(pushed, Create(e, d));
    FlowsTransitive(e, pushed, Create(e, d));
  }

  lemma SetupFlows(e: Entry)
    requires Coherent(e)
    requires e.keyboard.client.Some? ==> e.keyboard.enabled
    requires e.pointing.client.Some? ==> e.pointing.enabled
    ensures Flows(e, Setup(e))
  {
    var e1 := SetupDevice(e, Keyboard);
    CreateFlows(e, Keyboard);
    CreateFlows(e1, Pointing);
    FlowsSame(e, e);
    FlowsSame(e1, e1);
    FlowsTransitive(e, e1, Setup(e));
  }

  lemma ReconfigureFlows(e: Entry, request: Request)
    requires Inv(e)
    ensures Flows(e, Reconfigure(e, request))
  {
    match request
    case KeyboardInitialize(parameters) =>
      DestroyFlows(e, Keyboard);
      DestroyKeeps(e, Keyboard);
      FlowsSame(e, e);
      var cleaned := if e.keyboard.client.Some? && e.parameters != parameters then Destroy(e, Keyboard) else e;
      var wanted := cleaned.(keyboard := cleaned.keyboard.(enabled := true), parameters := parameters);
      EnableKeeps(cleaned, wanted);
      FlowsSame(cleaned, wanted);
      FlowsTransitive(e, cleaned, wanted);
      SetupFlows(wanted);
      FlowsTransitive(e, wanted, Setup(wanted));
    case PointingInitialize =>
      var wanted := e.(pointing := e.pointing.(enabled := true));
      EnableKeeps(e, wanted);
      FlowsSame(e, wanted);
      SetupFlows(wanted);
      FlowsTransitive(e, wanted, Setup(wanted));
    case KeyboardTerminate => TerminateFlows(e, Keyboard);
    case PointingTerminate => TerminateFlows(e, Pointing);
  }

  lemma TerminateFlows(e: Entry, d: Device)
    requires Inv(e)
    ensures Flows(e, Terminate(e, d))
  {
    TerminateIs(e, d);
    DestroyFlows(e, d);
    FlowsSame(Destroy(e, d), Terminate(e, d));
    FlowsTransitive(e, Destroy(e, d), Terminate(e, d));
  }

  /** Effects that post `posted` reach the kernel; whatever else the task changed is not part of the flow. */
  lemma PerformFlow(e: Entry, changed: Entry, id: ObjectId, effects: seq<IoService.Effect>)
    requires changed.ready == e.ready
    requires changed.history == e.history.(runs := changed.history.runs)
    ensures var e' := Perform(changed, id, effects);
            && Posted(e'.history.trace) == Posted(e.history.trace) + Posted(Tag(id, effects))
            && PendingOutputs(e'.ready) == PendingOutputs(e.ready)
            && PendingRequests(e'.ready) == PendingRequests(e.ready) && e'.history.applied == e.history.applied
  {
    PendingSignals(id, effects);
    PendingConcat(e.ready, SignalJobs(id, effects));
    CollectConcat(e.history.trace, Tag(id, effects), PostedBy);
  }

  lemma PostedByEvent(s: IoService.State, id: ObjectId, event: IoService.Event)
    requires !(event.Issue? && IsOutput(event.call))
    ensures Posted(Tag(id, IoService.Step(s, event).effects)) == []
  {
    if event.Issue? {
      var effects := IoService.Invoke(s, event.call).effects;
      if effects != [] {
        assert Tag(id, effects) == [Traced(id, effects[0])];
        CollectOne(Traced(id, effects[0]), PostedBy);
      }
    } else {
      EventCallless(s, event);
      PostedNothing(id, IoService.Step(s, event).effects);
    }
  }

  /** What a client step leaves for `Perform`. */
  lemma StepClientIs(e: Entry, p: Place, id: ObjectId, event: IoService.Event) returns (changed: Entry)
    requires PlaceOf(e, id) == p && !p.Nowhere?
    ensures changed.ready == e.ready && changed.history == e.history.(runs := changed.history.runs)
    ensures StepClient(e, p, id, event) == Perform(changed, id, IoService.Step(IoAt(e, p), event).effects)
  {
    var out := IoService.Step(IoAt(e, p), event);
    var run := if id in e.history.runs then e.history.runs[id] else [];
    changed := WithIo(e, p, out.state).(history := e.history.(runs := e.history.runs[id := run + [event]]));
  }

  lemma PerformQuiet(e: Entry, changed: Entry, id: ObjectId, effects: seq<IoService.Effect>)
    requires changed.ready == e.ready
    requires changed.history == e.history.(runs := changed.history.runs)
    requires Posted(Tag(id, effects)) == []
    ensures Flows(e, Perform(changed, id, effects))
  {
    PerformFlow(e, changed, id, effects);
    assert Posted(e.history.trace) + [] == Posted(e.history.trace);
    FlowsSame(e, Perform(changed, id, effects));
  }

  /** A client step that issues no output. */
  lemma StepClientFlows(e: Entry, p: Place, id: ObjectId, event: IoService.Event)
    requires PlaceOf(e, id) == p && !p.Nowhere?
    requires !(event.Issue? && IsOutput(event.call))
    ensures Flows(e, StepClient(e, p, id, event))
  {
    var changed := StepClientIs(e, p, id, event);
    PostedByEvent(IoAt(e, p), id, event);
    PerformQuiet(e, changed, id, IoService.Step(IoAt(e, p), event).effects);
  }

  // ---------------------------------------------------------------- one task

  lemma CheckStatusFlows(e: Entry, activated: bool)
    ensures Flows(e, CheckStatusChanged(e, activated))
  {
    FlowsSame(e, CheckStatusChanged(e, activated));
  }

  lemma CheckFlows(e: Entry, timer: Timer)
    requires Inv(e)
    ensures Flows(e, Check(e, timer))
  {
    FlowsSame(e, e);
    DestroyFlows(e, timer.device);
    DestroyKeeps(e, timer.device);
    if Check(e, timer) != e {
      SetupFlows(Destroy(e, timer.device));
      FlowsTransitive(e, Destroy(e, timer.device), Check(e, timer));
    }
  }

  /** The first job leaves the queue; what it carries goes out, or is accounted for by the task. */
  lemma TakeFirst(jobs: seq<Job>)
    requires jobs != []
    ensures PendingRequests(jobs) == RequestsOf(jobs[0]) + PendingRequests(jobs[1..])
    ensures PendingOutputs(jobs) == OutputsOf(jobs[0]) + PendingOutputs(jobs[1..])
  {
    CollectFirst(jobs, RequestsOf);
    CollectFirst(jobs, OutputsOf);
  }

  /** A job that carries neither a request nor an output. */
  lemma QuietJobFlows(e: Entry, job: Job, answers: Answers)
    requires Inv(e) && JobInv(e, job)
    requires !job.task.Apply? && !(job.task.Issue? && IsOutput(job.task.call))
    ensures Flows(e, RunJob(e, job, answers))
  {
    FlowsSame(e, e);
    CheckStatusFlows(e, answers.activated);
    if job.owner != ENTRY {
      var p := PlaceOf(e, job.owner);
      match EventOf(job.task, answers)
      case Some(event) =>
        StepClientFlows(e, p, job.owner, event);
        if job.task.AskReady? {
          var stepped := StepClient(e, p, job.owner, event);
          var answer := Job(job.owner, StoreReady(job.task.device, IoService.ReadyAnswer(IoAt(e, p), answers.ready)));
          PushFlows(stepped, answer);
          FlowsTransitive(e, stepped, Push(stepped, answer));
        }
      case None =>
        PushFlows(e, Job(job.owner, Issue(DriverCall.InitializeKeyboard(e.parameters))));
        PushFlows(e, Job(job.owner, Issue(DriverCall.InitializePointing)));
    }
  }

  /** The driver gets the output, or the gate stops it. */
  lemma PostEffects(s: IoService.State, id: ObjectId, call: DriverCall) returns (posted: seq<Output>)
    requires IsOutput(call)
    ensures posted == if IoService.Gate(s) then OutputOf(call) else []
    ensures Posted(Tag(id, IoService.Invoke(s, call).effects)) == posted
  {
    var effects := IoService.Invoke(s, call).effects;
    posted := Posted(Tag(id, effects));
    if effects != [] {
      assert Tag(id, effects) == [Traced(id, effects[0])];
      CollectOne(Traced(id, effects[0]), PostedBy);
    }
  }

  lemma PostSubseq(before: seq<Output>, r: Output, posted: seq<Output>, waiting: seq<Output>)
    requires posted == [] || posted == [r]
    ensures Subseq(before + posted + waiting, before + [r] + waiting)
  {
    SubseqReflexive(before + [r] + waiting);
    if posted == [] {
      assert before + [] == before;
      SubseqCut(before, r, waiting, before + [r] + waiting);
    }
  }

  /** An output goes from the queue to the driver, or is lost at the gate. */
  lemma PostStep(e: Entry, p: Place, id: ObjectId, call: DriverCall) returns (posted: seq<Output>)
    requires PlaceOf(e, id) == p && !p.Nowhere? && IsOutput(call)
    ensures posted == if IoService.Gate(IoAt(e, p)) then OutputOf(call) else []
    ensures var e' := StepClient(e, p, id, IoService.Issue(call));
            && Outgoing(e') == Posted(e.history.trace) + posted + PendingOutputs(e.ready)
            && Accounted(e') == Accounted(e)
  {
    var event := IoService.Issue(call);
    var changed := StepClientIs(e, p, id, event);
    posted := PostEffects(IoAt(e, p), id, call);
    PerformFlow(e, changed, id, IoService.Step(IoAt(e, p), event).effects);
  }

  lemma OutputFirst(e: Entry, rest: Entry, output: Output)
    requires e.ready != [] && rest == e.(ready := e.ready[1..]) && OutputsOf(e.ready[0]) == [output]
    ensures Outgoing(e) == Posted(e.history.trace) + [output] + PendingOutputs(rest.ready)
  {
    TakeFirst(e.ready);
    Associate(Posted(e.history.trace), [output], PendingOutputs(rest.ready));
  }

  lemma PostAdvances(e: Entry, rest: Entry, output: Output, posted: seq<Output>, e': Entry)
    requires e.ready != [] && rest == e.(ready := e.ready[1..])
    requires OutputsOf(e.ready[0]) == [output] && RequestsOf(e.ready[0]) == []
    requires Outgoing(e') == Posted(e.history.trace) + posted + PendingOutputs(rest.ready)
    requires Accounted(e') == Accounted(rest) && (posted == [] || posted == [output])
    ensures Advances(e, e')
  {
    TakeFirst(e.ready);
    OutputFirst(e, rest, output);
    PostSubseq(Posted(e.history.trace), output, posted, PendingOutputs(rest.ready));
  }

  lemma PostJobFlows(e: Entry, rest: Entry, p: Place, job: Job)
    requires e.ready != [] && job == e.ready[0] && rest == e.(ready := e.ready[1..])
    requires job.task.Issue? && IsOutput(job.task.call)
    requires PlaceOf(rest, job.owner) == p && !p.Nowhere?
    ensures Advances(e, StepClient(rest, p, job.owner, IoService.Issue(job.task.call)))
  {
    var posted := PostStep(rest, p, job.owner, job.task.call);
    PostAdvances(e, rest, OutputOf(job.task.call)[0], posted, StepClient(rest, p, job.owner, IoService.Issue(job.task.call)));
  }

  lemma QuietTaken(e: Entry, rest: Entry, job: Job, answers: Answers)
    requires Inv(rest) && JobInv(rest, job)
    requires !job.task.Apply? && !(job.task.Issue? && IsOutput(job.task.call))
    requires rest.history == e.history && Outgoing(rest) == Outgoing(e) && PendingRequests(rest.ready) == PendingRequests(e.ready)
    ensures Advances(e, RunJob(rest, job, answers))
  {
    FlowsSame(e, rest);
    QuietJobFlows(rest, job, answers);
    FlowsTransitive(e, rest, RunJob(rest, job, answers));
  }

  /** The first job taken from the queue. */
  lemma JobFlows(e: Entry, rest: Entry, job: Job, answers: Answers)
    requires Inv(e) && e.ready != [] && job == e.ready[0] && rest == e.(ready := e.ready[1..])
    ensures Advances(e, RunJob(rest, job, answers))
  {
    assert JobInv(e, job);
    JobTaken(e);
    TakeFirst(e.ready);
    if job.task.Issue? && IsOutput(job.task.call) {
      PostJobFlows(e, rest, PlaceOf(rest, job.owner), job);
    } else if job.task.Apply? {
      assert RequestsOf(job) == [job.task.request] && OutputsOf(job) == [];
      assert PendingOutputs(e.ready) == PendingOutputs(rest.ready);
      ReconfigureFlows(rest, job.task.request);
      ApplyFlows(e, rest, Reconfigure(rest, job.task.request), job.task.request, answers.activated);
    } else {
      assert RequestsOf(job) == [] && OutputsOf(job) == [];
      assert PendingOutputs(e.ready) == PendingOutputs(rest.ready) && PendingRequests(e.ready) == PendingRequests(rest.ready);
      QuietTaken(e, rest, job, answers);
    }
  }

  lemma DispatchFlows(e: Entry, answers: Answers)
    requires Inv(e)
    ensures Advances(e, Dispatch(e, answers))
  {
    FlowsSame(e, e);
    if e.ready != [] {
      JobFlows(e, e.(ready := e.ready[1..]), e.ready[0], answers);
    } else if e.timers != [] && e.timers[0].due <= e.now {
      TimerTaken(e);
      var rest := e.(timers := e.timers[1..]);
      FlowsSame(e, rest);
      CheckFlows(rest, e.timers[0]);
      FlowsTransitive(e, rest, Dispatch(e, answers));
    }
  }

  /** A request moves from the queue to the applied ones. */
  lemma ApplyFlows(e: Entry, rest: Entry, changed: Entry, request: Request, activated: bool)
    requires Flows(rest, changed)
    requires rest.history == e.history && Outgoing(rest) == Outgoing(e)
    requires PendingRequests(e.ready) == [request] + PendingRequests(rest.ready)
    ensures Advances(e, Recorded(changed, request, activated))
  {
    var done := Recorded(changed, request, activated);
    assert done.history.applied == e.history.applied + [request];
    assert done.ready == changed.ready && done.history.trace == changed.history.trace;
    Associate(e.history.applied, [request], PendingRequests(rest.ready));
  }

  /** The end of the task of a request. */
  function Recorded(changed: Entry, request: Request, activated: bool): Entry {
    CheckStatusChanged(changed.(history := changed.history.(applied := changed.history.applied + [request])), activated)
  }

  // ---------------------------------------------------------------- whole runs

  function ReceivedRequest(action: Action): seq<Request> {
    if action.Receive? then [action.request] else []
  }

  function ReceivedOutput(action: Action): seq<Output> {
    match action
    case ReceiveReport(report) => [Posting(report)]
    case ReceiveReset(device) => [Clearing(device)]
    case _ => []
  }

  lemma PushToClientFlows(e: Entry, d: Device, task: Task)
    requires !task.Apply? && !(task.Issue? && IsOutput(task.call))
    ensures Flows(e, PushToClient(e, d, task))
  {
    FlowsSame(e, e);
    if SlotOf(e, d).client.Some? { PushFlows(e, Job(SlotOf(e, d).client.value.id, task)); }
  }

  lemma KernelEventFlows(e: Entry, id: ObjectId, event: IoService.Event)
    requires !event.Issue?
    ensures Flows(e, KernelEvent(e, id, event))
  {
    FlowsSame(e, e);
    if !PlaceOf(e, id).Nowhere? { StepClientFlows(e, PlaceOf(e, id), id, event); }
  }

  /** One step: what it received joins the end, and nothing else is added. */
  lemma StepFlows(e: Entry, action: Action)
    requires Inv(e)
    ensures Subseq(Outgoing(Step(e, action)), Outgoing(e) + ReceivedOutput(action))
    ensures Accounted(Step(e, action)) == Accounted(e) + ReceivedRequest(action)
  {
    assert Outgoing(e) + [] == Outgoing(e) && Accounted(e) + [] == Accounted(e);
    FlowsSame(e, e);
    match action
    case Receive(request) =>
      var job := Job(ENTRY, Apply(request));
      PendingConcat(e.ready, [job]);
      CollectOne(job, RequestsOf);
      CollectOne(job, OutputsOf);
      assert PendingOutputs(e.ready) + [] == PendingOutputs(e.ready);
      Associate(e.history.applied, PendingRequests(e.ready), [request]);
    case AskStatus => PushFlows(e, Job(ENTRY, CheckStatus));
    case ReceiveReport(report) => ReceiveOutputFlows(e, report.device, PostReport(report.device, report.bytes));
    case ReceiveReset(d) => ReceiveOutputFlows(e, d, ResetDevice(d));
    case Elapse(_) => FlowsSame(e, Step(e, action));
    case ReadyTimer =>
      var asked := PushToClient(e, Keyboard, AskReady(Keyboard));
      PushToClientFlows(e, Keyboard, AskReady(Keyboard));
      PushToClientFlows(asked, Pointing, AskReady(Pointing));
      FlowsTransitive(e, asked, Step(e, action));
    case KernelMatched(id, service, kernel) => KernelEventFlows(e, id, IoService.ServiceMatched(service, kernel));
    case KernelTerminated(id, service, kernel) => KernelEventFlows(e, id, IoService.ServiceTerminated(service, kernel));
    case RunNext(answers) => DispatchFlows(e, answers);
  }

  lemma ReceiveOutputFlows(e: Entry, d: Device, call: DriverCall)
    requires IsOutput(call)
    ensures Subseq(Outgoing(PushToClient(e, d, Issue(call))), Outgoing(e) + OutputOf(call))
    ensures Accounted(PushToClient(e, d, Issue(call))) == Accounted(e)
  {
    var output := OutputOf(call)[0];
    SubseqReflexive(Outgoing(e));
    match SlotOf(e, d).client
    case None => SubseqGrow(Outgoing(e), Outgoing(e), output);
    case Some(client) =>
      PushOutput(e, Job(client.id, Issue(call)), output);
      SubseqReflexive(Outgoing(e) + [output]);
  }

  /** An output that is queued is the last one that may still be posted. */
  lemma PushOutput(e: Entry, job: Job, output: Output)
    requires OutputsOf(job) == [output]
    ensures Outgoing(Push(e, job)) == Outgoing(e) + [output]
    ensures Accounted(Push(e, job)) == Accounted(e)
  {
    PendingConcat(e.ready, [job]);
    CollectOne(job, RequestsOf);
    CollectOne(job, OutputsOf);
    assert PendingRequests(e.ready) + [] == PendingRequests(e.ready);
    Associate(Posted(e.history.trace), PendingOutputs(e.ready), [output]);
  }

  lemma {:induction false} OutgoingOverRuns(actions: seq<Action>)
    ensures Subseq(Outgoing(Run(actions)), Collect(actions, ReceivedOutput))
    ensures Accounted(Run(actions)) == Collect(actions, ReceivedRequest)
  {
    if actions == [] {
      assert Outgoing(INITIAL) == [] && Accounted(INITIAL) == [] by {
        CollectNothing(INITIAL.ready, RequestsOf);
        CollectNothing(INITIAL.ready, OutputsOf);
      }
    } else {
      var before := Front(actions);
      var action := Last(actions);
      OutgoingOverRuns(before);
      RunKeeps(before);
      StepFlows(Run(before), action);
      SubseqExtend(Outgoing(Run(before)), Collect(before, ReceivedOutput), ReceivedOutput(action), true);
      SubseqTransitive(Outgoing(Run(actions)), Outgoing(Run(before)) + ReceivedOutput(action), Collect(actions, ReceivedOutput));
    }
  }

  lemma {:induction false} SubseqPrefix<T(!new)>(a: seq<T>, tail: seq<T>, b: seq<T>)
    requires Subseq(a + tail, b)
    ensures Subseq(a, b)
  {
    if tail == [] {
      assert a + tail == a;
    } else {
      SubseqWeakenFront(a + tail, b);
      assert Front(a + tail) == a + Front(tail);
      SubseqPrefix(a, Front(tail), b);
    }
  }

  /**
    Main result on outputs: in every run, the reports and resets that the driver was asked for are an in-order selection of
    those received. None is altered, repeated or overtaken, however often clients are replaced.
   */
  lemma PostedInOrder(actions: seq<Action>)
    ensures Subseq(Posted(Run(actions).history.trace), Collect(actions, ReceivedOutput))
  {
    OutgoingOverRuns(actions);
    var e := Run(actions);
    SubseqPrefix(Posted(e.history.trace), PendingOutputs(e.ready), Collect(actions, ReceivedOutput));
  }

  /** Main result on requests: each is applied exactly once, in the order of arrival; those not yet applied are queued. */
  lemma RequestsAppliedOnce(actions: seq<Action>)
    ensures var e := Run(actions);
            e.history.applied + PendingRequests(e.ready) == Collect(actions, ReceivedRequest)
  {
    OutgoingOverRuns(actions);
  }
}
