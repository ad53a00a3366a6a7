/** What every run of a `client_entry` keeps: which instances are alive, who owns the queued jobs, and which checks are armed. */
module ReconcilerInvariant {
  import opened Wrappers
  import opened Protocol
  import opened Sequences
  import IoService
  import opened Reconciler

  ghost predicate Owned(e: Entry, id: ObjectId) {
    || id == ENTRY
    || id == STATUS
    || (e.keyboard.client.Some? && e.keyboard.client.value.id == id)
    || (e.pointing.client.Some? && e.pointing.client.value.id == id)
  }

  /** Instances are numbered, and one that is alive was created in the current generation. */
  ghost predicate SlotInv(e: Entry, d: Device) {
    var slot := SlotOf(e, d);
    slot.client.Some? ==> STATUS < slot.client.value.id < e.nextId && slot.client.value.generation == slot.generation
  }

  /** Every queued job belongs to a live object, and keyboard initializations carry the instance's own parameters. */
  ghost predicate JobInv(e: Entry, job: Job) {
    && Owned(e, job.owner)
    && (job.owner == ENTRY <==> job.task.Apply? || job.task.CheckStatus?)
    && (job.task.Issue? && job.task.call.InitializeKeyboard? ==>
          && e.keyboard.client.Some?
          && job.owner == e.keyboard.client.value.id
          && job.task.call.parameters == e.keyboard.client.value.parameters)
  }

  /** Pending checks have distinct generations, none from the future, and exactly the current one is armed for the live instance. */
  ghost predicate TimerInv(e: Entry, i: nat)
    requires i < |e.timers|
  {
    var t := e.timers[i];
    var slot := SlotOf(e, t.device);
    && t.generation <= slot.generation
    && t.armedFor < e.nextId
    && (slot.client.Some? ==> (t.generation == slot.generation <==> t.armedFor == slot.client.value.id))
    && t.due <= e.now + CHECK_DELAY
    && forall j | i < j < |e.timers| ::
         t.due <= e.timers[j].due && (e.timers[j].device == t.device ==> t.generation < e.timers[j].generation)
  }

  /** What also holds in the middle of a task. */
  ghost predicate Coherent(e: Entry) {
    && e.status.id == STATUS < e.nextId
    && SlotInv(e, Keyboard) && SlotInv(e, Pointing)
    && (e.keyboard.client.Some? && e.pointing.client.Some? ==> e.keyboard.client.value.id != e.pointing.client.value.id)
    && (e.keyboard.client.Some? ==> e.keyboard.client.value.parameters == e.parameters)
    && (forall job | job in e.ready :: JobInv(e, job))
    && (forall i | 0 <= i < |e.timers| :: TimerInv(e, i))
  }

  /** A device has a client exactly when it is wanted. */
  ghost predicate Reconciled(e: Entry) {
    && (e.keyboard.enabled <==> e.keyboard.client.Some?)
    && (e.pointing.enabled <==> e.pointing.client.Some?)
  }

  ghost predicate Inv(e: Entry) {
    Coherent(e) && Reconciled(e)
  }

  function Other(d: Device): Device {
    match d case Keyboard => Pointing case Pointing => Keyboard
  }

  // ---------------------------------------------------------------- queue facts

  lemma WithoutMembers(jobs: seq<Job>, owner: ObjectId)
    ensures forall job :: job in Without(jobs, owner) <==> job in jobs && job.owner != owner
  {
    FilterMembers(jobs, OwnedByOther(owner));
  }

  lemma {:induction false} SignalJobsMembers(owner: ObjectId, effects: seq<IoService.Effect>)
    ensures forall job | job in SignalJobs(owner, effects) :: job.owner == owner && job.task.Emit?
  {
    if effects != [] {
      SignalJobsMembers(owner, Front(effects));
    }
  }

  // ---------------------------------------------------------------- the pieces of a task

  lemma DestroyKeeps(e: Entry, d: Device)
    requires Coherent(e)
    ensures Coherent(Destroy(e, d))
    ensures SlotOf(Destroy(e, d), d) == SlotOf(e, d).(client := None)
    ensures SlotOf(Destroy(e, d), Other(d)) == SlotOf(e, Other(d))
    ensures Destroy(e, d).timers == e.timers && Destroy(e, d).parameters == e.parameters
    ensures Destroy(e, d).nextId == e.nextId && Destroy(e, d).now == e.now && Destroy(e, d).status == e.status
  {
    var slot := SlotOf(e, d);
    var e' := Destroy(e, d);
    if slot.client.Some? {
      var client := slot.client.value;
      var effects := IoService.Shutdown(client.io).effects;
      WithoutMembers(e.ready, client.id);
      ShutdownSilent(client.io, client.id);
      assert e'.ready == Without(e.ready, client.id);
      forall job | job in e'.ready ensures JobInv(e', job) { assert JobInv(e, job); }
      forall i | 0 <= i < |e'.timers| ensures TimerInv(e', i) { assert TimerInv(e, i); }
    }
  }

  /** A destroyed client enqueues nothing. */
  lemma ShutdownSilent(io: IoService.State, owner: ObjectId)
    ensures SignalJobs(owner, IoService.Shutdown(io).effects) == []
  {
    var i := IoService.FirstOpened(io.services);
    if i < |io.services| {
      FilterMembers(IoService.CloseConnection(io, io.services[i].id).effects, IoService.IsKernelCall);
    }
    CollectNothing(IoService.Shutdown(io).effects, SignalJob(owner));
  }

  lemma CreateKeeps(e: Entry, d: Device)
    requires Coherent(e) && SlotOf(e, d).client.None?
    ensures Coherent(Create(e, d))
    ensures SlotOf(Create(e, d), d).client.Some? && SlotOf(Create(e, d), d).enabled == SlotOf(e, d).enabled
    ensures SlotOf(Create(e, d), d).generation == SlotOf(e, d).generation + 1
    ensures SlotOf(Create(e, d), Other(d)) == SlotOf(e, Other(d))
  {
    var e' := Create(e, d);
    forall job | job in e'.ready ensures JobInv(e', job) {
      if job in e.ready { assert JobInv(e, job); }
    }
    forall i | 0 <= i < |e'.timers| ensures TimerInv(e', i) {
      if i < |e.timers| { assert TimerInv(e, i); }
      forall j | i < j < |e'.timers|
        ensures e'.timers[i].due <= e'.timers[j].due
        ensures e'.timers[j].device == e'.timers[i].device ==> e'.timers[i].generation < e'.timers[j].generation
      {
        assert TimerInv(e, i);
      }
    }
  }

  lemma SetupKeeps(e: Entry)
    requires Coherent(e)
    requires e.keyboard.client.Some? ==> e.keyboard.enabled
    requires e.pointing.client.Some? ==> e.pointing.enabled
    ensures Inv(Setup(e))
    ensures Setup(e).keyboard.enabled == e.keyboard.enabled && Setup(e).pointing.enabled == e.pointing.enabled
  {
    if e.keyboard.enabled && e.keyboard.client.None? { CreateKeeps(e, Keyboard); }
    var e1 := SetupDevice(e, Keyboard);
    if e1.pointing.enabled && e1.pointing.client.None? { CreateKeeps(e1, Pointing); }
  }

  lemma CheckStatusKeeps(e: Entry, activated: bool)
    requires Inv(e)
    ensures Inv(CheckStatusChanged(e, activated))
  {
    var e' := CheckStatusChanged(e, activated);
    forall job | job in e'.ready ensures JobInv(e', job) { assert JobInv(e, job); }
    forall i | 0 <= i < |e'.timers| ensures TimerInv(e', i) { assert TimerInv(e, i); }
  }

  /** Terminating is destroying, disabling and moving to a new generation. */
  lemma TerminateIs(e: Entry, d: Device)
    ensures Terminate(e, d) == WithSlot(Destroy(e, d), d, Slot(false, SlotOf(e, d).generation + 1, None))
  {
  }

  lemma TerminateKeeps(e: Entry, d: Device)
    requires Inv(e)
    ensures Inv(Terminate(e, d))
  {
    TerminateIs(e, d);
    DestroyKeeps(e, d);
    var gone := Destroy(e, d);
    var e' := Terminate(e, d);
    forall job | job in e'.ready ensures JobInv(e', job) { assert JobInv(gone, job); }
    forall i | 0 <= i < |e'.timers| ensures TimerInv(e', i) { assert TimerInv(gone, i); }
  }

  /** Wanting a device, with the parameters it is to have. */
  lemma EnableKeeps(e: Entry, e': Entry)
    requires Coherent(e)
    requires e' == e.(keyboard := e'.keyboard, pointing := e'.pointing, parameters := e'.parameters)
    requires e'.keyboard == e.keyboard.(enabled := e'.keyboard.enabled)
    requires e'.pointing == e.pointing.(enabled := e'.pointing.enabled)
    requires e.keyboard.client.Some? ==> e'.parameters == e.parameters
    ensures Coherent(e')
  {
    forall job | job in e'.ready ensures JobInv(e', job) { assert JobInv(e, job); }
    forall i | 0 <= i < |e'.timers| ensures TimerInv(e', i) { assert TimerInv(e, i); }
  }

  lemma EnableKeyboardKeeps(e: Entry, parameters: Parameters)
    requires Inv(e)
    ensures Inv(EnableKeyboard(e, parameters))
  {
    DestroyKeeps(e, Keyboard);
    var cleaned := if e.keyboard.client.Some? && e.parameters != parameters then Destroy(e, Keyboard) else e;
    var wanted := cleaned.(keyboard := cleaned.keyboard.(enabled := true), parameters := parameters);
    EnableKeeps(cleaned, wanted);
    SetupKeeps(wanted);
  }

  /** A change of bookkeeping that neither the queue nor the slots see. */
  lemma BookkeepingKeeps(e: Entry, history: History)
    requires Inv(e)
    ensures Inv(e.(history := history))
  {
    var e' := e.(history := history);
    forall job | job in e'.ready ensures JobInv(e', job) { assert JobInv(e, job); }
    forall i | 0 <= i < |e'.timers| ensures TimerInv(e', i) { assert TimerInv(e, i); }
  }

  lemma ApplyKeeps(e: Entry, request: Request, activated: bool)
    requires Inv(e)
    ensures Inv(ApplyRequest(e, request, activated))
  {
    var changed := Reconfigure(e, request);
    match request {
      case KeyboardInitialize(parameters) => EnableKeyboardKeeps(e, parameters);
      case KeyboardTerminate => TerminateKeeps(e, Keyboard);
      case PointingInitialize =>
        var wanted := e.(pointing := e.pointing.(enabled := true));
        EnableKeeps(e, wanted);
        SetupKeeps(wanted);
      case PointingTerminate => TerminateKeeps(e, Pointing);
    }
    var history := changed.history.(applied := changed.history.applied + [request]);
    BookkeepingKeeps(changed, history);
    CheckStatusKeeps(changed.(history := history), activated);
  }

  lemma CheckKeeps(e: Entry, timer: Timer)
    requires Inv(e)
    ensures Inv(Check(e, timer))
  {
    DestroyKeeps(e, timer.device);
    if Check(e, timer) != e { SetupKeeps(Destroy(e, timer.device)); }
  }

  lemma PushKeeps(e: Entry, job: Job)
    requires Inv(e) && JobInv(e, job)
    ensures Inv(Push(e, job))
  {
    var e' := Push(e, job);
    forall x | x in e'.ready ensures JobInv(e', x) {
      if x in e.ready { assert JobInv(e, x); }
    }
    forall i | 0 <= i < |e'.timers| ensures TimerInv(e', i) { assert TimerInv(e, i); }
  }

  lemma StepClientKeeps(e: Entry, p: Place, id: ObjectId, event: IoService.Event)
    requires Inv(e) && PlaceOf(e, id) == p && !p.Nowhere?
    ensures Inv(StepClient(e, p, id, event))
    ensures PlaceOf(StepClient(e, p, id, event), id) == p
  {
    var out := IoService.Step(IoAt(e, p), event);
    var e' := StepClient(e, p, id, event);
    SignalJobsMembers(id, out.effects);
    forall x | x in e'.ready ensures JobInv(e', x) {
      if x in e.ready { assert JobInv(e, x); }
    }
    forall i | 0 <= i < |e'.timers| ensures TimerInv(e', i) { assert TimerInv(e, i); }
  }

  lemma RunClientJobKeeps(e: Entry, p: Place, job: Job, answers: Answers)
    requires Inv(e) && job.owner != ENTRY && PlaceOf(e, job.owner) == p && !p.Nowhere?
    ensures Inv(RunClientJob(e, p, job, answers))
  {
    match EventOf(job.task, answers)
    case Some(event) =>
      StepClientKeeps(e, p, job.owner, event);
      if job.task.AskReady? {
        PushKeeps(StepClient(e, p, job.owner, event),
                  Job(job.owner, StoreReady(job.task.device, IoService.ReadyAnswer(IoAt(e, p), answers.ready))));
      }
    case None =>
      CheckStatusKeeps(e, answers.activated);
      if p == InSlot(Keyboard) { PushKeeps(e, Job(job.owner, Issue(DriverCall.InitializeKeyboard(e.parameters)))); }
      if p == InSlot(Pointing) { PushKeeps(e, Job(job.owner, Issue(DriverCall.InitializePointing))); }
  }

  lemma RunJobKeeps(e: Entry, job: Job, answers: Answers)
    requires Inv(e)
    ensures Inv(RunJob(e, job, answers))
  {
    if job.owner == ENTRY {
      match job.task
      case Apply(request) => ApplyKeeps(e, request, answers.activated);
      case CheckStatus => CheckStatusKeeps(e, answers.activated);
      case _ =>
    } else if !PlaceOf(e, job.owner).Nowhere? {
      RunClientJobKeeps(e, PlaceOf(e, job.owner), job, answers);
    }
  }

  lemma DispatchKeeps(e: Entry, answers: Answers)
    requires Inv(e)
    ensures Inv(Dispatch(e, answers))
  {
    if e.ready != [] {
      JobTaken(e);
      RunJobKeeps(e.(ready := e.ready[1..]), e.ready[0], answers);
    } else if e.timers != [] && e.timers[0].due <= e.now {
      TimerTaken(e);
      CheckKeeps(e.(timers := e.timers[1..]), e.timers[0]);
    }
  }

  lemma JobTaken(e: Entry)
    requires Inv(e) && e.ready != []
    ensures Inv(e.(ready := e.ready[1..]))
  {
    var rest := e.(ready := e.ready[1..]);
    forall job | job in rest.ready ensures JobInv(rest, job) { assert job in e.ready && JobInv(e, job); }
    forall i | 0 <= i < |rest.timers| ensures TimerInv(rest, i) { assert TimerInv(e, i); }
  }

  lemma TimerTaken(e: Entry)
    requires Inv(e) && e.timers != []
    ensures Inv(e.(timers := e.timers[1..]))
  {
    var rest := e.(timers := e.timers[1..]);
    forall job | job in rest.ready ensures JobInv(rest, job) { assert JobInv(e, job); }
    forall i | 0 <= i < |rest.timers| ensures TimerInv(rest, i) {
      assert TimerInv(e, i + 1);
      assert forall j | i < j < |rest.timers| :: rest.timers[j] == e.timers[j + 1];
    }
  }

  lemma PushToClientKeeps(e: Entry, d: Device, task: Task)
    requires Inv(e)
    requires !task.Apply? && !task.CheckStatus?
    requires task.Issue? ==> !task.call.InitializeKeyboard?
    ensures Inv(PushToClient(e, d, task))
  {
    if SlotOf(e, d).client.Some? { PushKeeps(e, Job(SlotOf(e, d).client.value.id, task)); }
  }

  lemma StepKeeps(e: Entry, action: Action)
    requires Inv(e)
    ensures Inv(Step(e, action))
  {
    match action
    case AskStatus => PushKeeps(e, Job(ENTRY, CheckStatus));
    case Receive(request) => PushKeeps(e, Job(ENTRY, Apply(request)));
    case ReceiveReset(d) => PushToClientKeeps(e, d, Issue(ResetDevice(d)));
    case ReceiveReport(report) => PushToClientKeeps(e, report.device, Issue(PostReport(report.device, report.bytes)));
    case Elapse(milliseconds) =>
      var later := Step(e, action);
      forall job | job in later.ready ensures JobInv(later, job) { assert JobInv(e, job); }
      forall i | 0 <= i < |later.timers| ensures TimerInv(later, i) { assert TimerInv(e, i); }
    case ReadyTimer =>
      PushToClientKeeps(e, Keyboard, AskReady(Keyboard));
      PushToClientKeeps(PushToClient(e, Keyboard, AskReady(Keyboard)), Pointing, AskReady(Pointing));
    case KernelMatched(id, service, kernel) => KernelEventKeeps(e, id, IoService.ServiceMatched(service, kernel));
    case KernelTerminated(id, service, kernel) => KernelEventKeeps(e, id, IoService.ServiceTerminated(service, kernel));
    case RunNext(answers) => DispatchKeeps(e, answers);
  }

  lemma KernelEventKeeps(e: Entry, id: ObjectId, event: IoService.Event)
    requires Inv(e)
    ensures Inv(KernelEvent(e, id, event))
  {
    if !PlaceOf(e, id).Nowhere? { StepClientKeeps(e, PlaceOf(e, id), id, event); }
  }

  /** Main result: the invariant holds after every run. */
  lemma {:induction false} RunKeeps(actions: seq<Action>)
    ensures Inv(Run(actions))
  {
    if actions == [] {
      assert Inv(INITIAL);
    } else {
      RunKeeps(actions[..|actions| - 1]);
      StepKeeps(Run(actions[..|actions| - 1]), actions[|actions| - 1]);
    }
  }
}
