/**
  The life of each client instance inside the daemon: what it does is a run of `io_service_client`, ended by
  its destructor once it is replaced, and every keyboard initialization it issues carries the parameters of its birth.
 */
module InstanceHistory {
  import opened Protocol
  import opened Sequences
  import IoService
  import ConnectionLaws
  import opened Reconciler
  import opened ReconcilerInvariant
  import opened RequestFlow
  import opened Lifecycle

  function EffectOf(id: ObjectId): Traced -> seq<IoService.Effect> {
    (t: Traced) => if t.client == id then [t.effect] else []
  }

  /** The effects of one client, in order. */
  function ForClient(trace: seq<Traced>, id: ObjectId): seq<IoService.Effect> {
    Collect(trace, EffectOf(id))
  }

  lemma {:induction false} ForClientTag(owner: ObjectId, effects: seq<IoService.Effect>, id: ObjectId)
    ensures ForClient(Tag(owner, effects), id) == if owner == id then effects else []
  {
    if effects != [] {
      ForClientTag(owner, Front(effects), id);
      assert Front(Tag(owner, effects)) == Tag(owner, Front(effects));
      assert effects == Front(effects) + [Last(effects)];
    }
  }

  lemma ForClientGrows(trace: seq<Traced>, owner: ObjectId, effects: seq<IoService.Effect>, id: ObjectId)
    ensures ForClient(trace + Tag(owner, effects), id) == ForClient(trace, id) + if owner == id then effects else []
  {
    CollectConcat(trace, Tag(owner, effects), EffectOf(id));
    ForClientTag(owner, effects, id);
  }

  // ---------------------------------------------------------------- each instance performs a run

  ghost predicate Performs(e: Entry, id: ObjectId)
    requires id in e.history.runs
  {
    var run := IoService.Run(e.history.runs[id]);
    var p := PlaceOf(e, id);
    && (p.Nowhere? ==> ForClient(e.history.trace, id) == run.effects + IoService.Shutdown(run.state).effects)
    && (!p.Nowhere? ==> ForClient(e.history.trace, id) == run.effects && IoAt(e, p) == run.state)
  }

  ghost predicate RunsInv(e: Entry) {
    && (forall id :: id in e.history.runs <==> STATUS <= id < e.nextId)
    && (forall id | id in e.history.runs :: Performs(e, id))
    && (forall t | t in e.history.trace :: t.client in e.history.runs)
  }

  lemma TagClients(owner: ObjectId, effects: seq<IoService.Effect>)
    ensures forall t | t in Tag(owner, effects) :: t.client == owner && t.effect in effects
  {
  }

  /** An object that does not exist yet has done nothing. */
  lemma NothingTracedYet(e: Entry)
    requires RunsInv(e)
    ensures ForClient(e.history.trace, e.nextId) == []
  {
    CollectNothing(e.history.trace, EffectOf(e.nextId));
  }

  lemma DestroyRuns(e: Entry, d: Device)
    requires Coherent(e) && RunsInv(e)
    ensures RunsInv(Destroy(e, d))
  {
    DestroyKeeps(e, d);
    var slot := SlotOf(e, d);
    if slot.client.Some? {
      var e' := Destroy(e, d);
      var gone := slot.client.value;
      var effects := IoService.Shutdown(gone.io).effects;
      assert e'.history == e.history.(trace := e.history.trace + Tag(gone.id, effects));
      TagClients(gone.id, effects);
      forall id | id in e'.history.runs ensures Performs(e', id) {
        assert Performs(e, id);
        ForClientGrows(e.history.trace, gone.id, effects, id);
        if id == gone.id {
          assert PlaceOf(e, id) == InSlot(d) && PlaceOf(e', id) == Nowhere;
        } else {
          assert ForClient(e.history.trace, id) + [] == ForClient(e.history.trace, id);
          assert PlaceOf(e', id) == PlaceOf(e, id);
        }
      }
    }
  }

  lemma CreateRuns(e: Entry, d: Device)
    requires Coherent(e) && RunsInv(e) && SlotOf(e, d).client.None?
    ensures RunsInv(Create(e, d))
  {
    var e' := Create(e, d);
    var newborn := e.nextId;
    assert e'.history.runs == e.history.runs[newborn := []] && e'.history.trace == e.history.trace && e'.nextId == newborn + 1;
    NothingTracedYet(e);
    forall id | id in e'.history.runs ensures Performs(e', id) {
      if id == newborn {
        assert PlaceOf(e', id) == InSlot(d);
      } else {
        assert Performs(e, id);
        assert PlaceOf(e', id) == PlaceOf(e, id);
      }
    }
  }

  /** Changes that only concern wishes, checks or samples. */
  lemma SameRuns(e: Entry, e': Entry)
    requires RunsInv(e)
    requires e'.status == e.status && e'.keyboard.client == e.keyboard.client && e'.pointing.client == e.pointing.client
    requires e'.nextId == e.nextId && e'.history.trace == e.history.trace && e'.history.runs == e.history.runs
    ensures RunsInv(e')
  {
    forall id | id in e'.history.runs ensures Performs(e', id) {
      assert Performs(e, id);
      assert PlaceOf(e', id) == PlaceOf(e, id);
    }
  }

  lemma SetupRuns(e: Entry)
    requires Coherent(e) && RunsInv(e)
    requires e.keyboard.client.Some? ==> e.keyboard.enabled
    requires e.pointing.client.Some? ==> e.pointing.enabled
    ensures RunsInv(Setup(e))
  {
    SetupIs(e);
    if e.keyboard.enabled && e.keyboard.client.None? {
      CreateKeeps(e, Keyboard);
      CreateRuns(e, Keyboard);
      if e.pointing.enabled && e.pointing.client.None? { CreateRuns(Create(e, Keyboard), Pointing); }
    } else if e.pointing.enabled && e.pointing.client.None? {
      CreateRuns(e, Pointing);
    }
  }

  lemma ReconfigureRuns(e: Entry, request: Request)
    requires Inv(e) && RunsInv(e)
    ensures RunsInv(Reconfigure(e, request))
  {
    match request
    case KeyboardInitialize(parameters) =>
      DestroyRuns(e, Keyboard);
      DestroyKeeps(e, Keyboard);
      var cleaned := if e.keyboard.client.Some? && e.parameters != parameters then Destroy(e, Keyboard) else e;
      var wanted := cleaned.(keyboard := cleaned.keyboard.(enabled := true), parameters := parameters);
      EnableKeeps(cleaned, wanted);
      SameRuns(cleaned, wanted);
      SetupRuns(wanted);
    case PointingInitialize =>
      var wanted := e.(pointing := e.pointing.(enabled := true));
      EnableKeeps(e, wanted);
      SameRuns(e, wanted);
      SetupRuns(wanted);
    case KeyboardTerminate => TerminateRuns(e, Keyboard);
    case PointingTerminate => TerminateRuns(e, Pointing);
  }

  lemma TerminateRuns(e: Entry, d: Device)
    requires Inv(e) && RunsInv(e)
    ensures RunsInv(Terminate(e, d))
  {
    TerminateIs(e, d);
    DestroyKeeps(e, d);
    DestroyRuns(e, d);
    SameRuns(Destroy(e, d), Terminate(e, d));
  }

  lemma RunStep(run: seq<IoService.Event>, event: IoService.Event)
    ensures IoService.Run(run + [event]) == IoService.After(IoService.Run(run).effects, IoService.Step(IoService.Run(run).state, event))
  {
    assert Front(run + [event]) == run;
  }

  lemma WithIoPlaces(e: Entry, p: Place, io: IoService.State, id: ObjectId)
    requires p.InSlot? ==> SlotOf(e, p.device).client.Some?
    requires !p.Nowhere?
    ensures PlaceOf(WithIo(e, p, io), id) == PlaceOf(e, id)
    ensures !PlaceOf(e, id).Nowhere? ==> IoAt(WithIo(e, p, io), PlaceOf(e, id)) == if PlaceOf(e, id) == p then io else IoAt(e, PlaceOf(e, id))
  {
  }

  lemma PlacesDistinct(e: Entry, a: ObjectId, b: ObjectId)
    requires Coherent(e) && a != b && !PlaceOf(e, a).Nowhere?
    ensures PlaceOf(e, a) != PlaceOf(e, b)
  {
  }

  /** What a client step changes, as far as runs and logs are concerned. */
  ghost predicate Steps(e: Entry, owner: ObjectId, event: IoService.Event, effects: seq<IoService.Effect>, e': Entry)
    requires owner in e.history.runs
  {
    && e'.history.runs == e.history.runs[owner := e.history.runs[owner] + [event]]
    && e'.history.trace == e.history.trace + Tag(owner, effects)
  }

  lemma OwnPerforms(e: Entry, p: Place, owner: ObjectId, event: IoService.Event, out: IoService.Out, e': Entry)
    requires owner in e.history.runs && Performs(e, owner) && PlaceOf(e, owner) == p && !p.Nowhere?
    requires out == IoService.Step(IoAt(e, p), event) && Steps(e, owner, event, out.effects, e')
    requires PlaceOf(e', owner) == p && IoAt(e', p) == out.state
    ensures Performs(e', owner)
  {
    RunStep(e.history.runs[owner], event);
    ForClientGrows(e.history.trace, owner, out.effects, owner);
  }

  lemma OthersPerform(e: Entry, owner: ObjectId, event: IoService.Event, effects: seq<IoService.Effect>, e': Entry, id: ObjectId)
    requires owner in e.history.runs && id in e.history.runs && id != owner && Performs(e, id)
    requires Steps(e, owner, event, effects, e')
    requires PlaceOf(e', id) == PlaceOf(e, id) && (!PlaceOf(e, id).Nowhere? ==> IoAt(e', PlaceOf(e, id)) == IoAt(e, PlaceOf(e, id)))
    ensures Performs(e', id)
  {
    ForClientGrows(e.history.trace, owner, effects, id);
    assert ForClient(e.history.trace, id) + [] == ForClient(e.history.trace, id);
  }

  /** What a client step does to the run and the log of each client. */
  lemma OwnStepPerforms(e: Entry, p: Place, owner: ObjectId, event: IoService.Event)
    requires Coherent(e) && PlaceOf(e, owner) == p && !p.Nowhere?
    requires owner in e.history.runs && Performs(e, owner)
    ensures owner in StepClient(e, p, owner, event).history.runs
    ensures Performs(StepClient(e, p, owner, event), owner)
  {
    var out := IoService.Step(IoAt(e, p), event);
    WithIoPlaces(e, p, out.state, owner);
    OwnPerforms(e, p, owner, event, out, StepClient(e, p, owner, event));
  }

  lemma OtherStepPerforms(e: Entry, p: Place, owner: ObjectId, event: IoService.Event, id: ObjectId)
    requires Coherent(e) && PlaceOf(e, owner) == p && !p.Nowhere?
    requires id in e.history.runs && Performs(e, id) && id != owner && owner in e.history.runs
    ensures id in StepClient(e, p, owner, event).history.runs
    ensures Performs(StepClient(e, p, owner, event), id)
  {
    var out := IoService.Step(IoAt(e, p), event);
    WithIoPlaces(e, p, out.state, id);
    PlacesDistinct(e, owner, id);
    OthersPerform(e, owner, event, out.effects, StepClient(e, p, owner, event), id);
  }

  lemma StepClientPerforms(e: Entry, p: Place, owner: ObjectId, event: IoService.Event, id: ObjectId)
    requires Coherent(e) && PlaceOf(e, owner) == p && !p.Nowhere?
    requires owner in e.history.runs && Performs(e, owner)
    requires id in e.history.runs && Performs(e, id)
    ensures id in StepClient(e, p, owner, event).history.runs
    ensures Performs(StepClient(e, p, owner, event), id)
  {
    if id == owner {
      OwnStepPerforms(e, p, owner, event);
    } else {
      OtherStepPerforms(e, p, owner, event, id);
    }
  }

  lemma StepClientRuns(e: Entry, p: Place, owner: ObjectId, event: IoService.Event)
    requires Coherent(e) && RunsInv(e) && PlaceOf(e, owner) == p && !p.Nowhere?
    ensures RunsInv(StepClient(e, p, owner, event))
  {
    var effects := IoService.Step(IoAt(e, p), event).effects;
    var e' := StepClient(e, p, owner, event);
    assert owner in e.history.runs;
    assert e'.history.runs == e.history.runs[owner := e.history.runs[owner] + [event]];
    assert e'.history.trace == e.history.trace + Tag(owner, effects);
    TagClients(owner, effects);
    forall id | id in e'.history.runs ensures Performs(e', id) {
      assert Performs(e, owner) && Performs(e, id);
      StepClientPerforms(e, p, owner, event, id);
    }
  }

  lemma ClientJobRuns(e: Entry, p: Place, job: Job, answers: Answers)
    requires Coherent(e) && RunsInv(e) && PlaceOf(e, job.owner) == p && !p.Nowhere?
    ensures RunsInv(RunClientJob(e, p, job, answers))
  {
    match EventOf(job.task, answers)
    case Some(event) =>
      var stepped := StepClient(e, p, job.owner, event);
      StepClientRuns(e, p, job.owner, event);
      if job.task.AskReady? {
        PushRuns(stepped, Job(job.owner, StoreReady(job.task.device, IoService.ReadyAnswer(IoAt(e, p), answers.ready))));
      }
    case None => if job.task.Emit? { EmittedRuns(e, p, job.owner, job.task.signal, answers.activated); }
  }

  lemma PushRuns(e: Entry, job: Job)
    requires RunsInv(e)
    ensures RunsInv(Push(e, job))
  {
    SameRuns(e, Push(e, job));
  }

  lemma EmittedRuns(e: Entry, p: Place, id: ObjectId, signal: IoService.Signal, activated: bool)
    requires RunsInv(e)
    ensures RunsInv(Emitted(e, p, id, signal, activated))
  {
    SameRuns(e, Emitted(e, p, id, signal, activated));
  }

  lemma RecordRuns(changed: Entry, request: Request, activated: bool)
    requires RunsInv(changed)
    ensures RunsInv(CheckStatusChanged(changed.(history := changed.history.(applied := changed.history.applied + [request])), activated))
  {
    var recorded := changed.(history := changed.history.(applied := changed.history.applied + [request]));
    SameRuns(changed, CheckStatusChanged(recorded, activated));
  }

  lemma ApplyRuns(e: Entry, request: Request, activated: bool)
    requires Inv(e) && RunsInv(e)
    ensures RunsInv(ApplyRequest(e, request, activated))
  {
    ReconfigureRuns(e, request);
    RecordRuns(Reconfigure(e, request), request, activated);
  }

  lemma JobRuns(e: Entry, job: Job, answers: Answers)
    requires Inv(e) && JobInv(e, job) && RunsInv(e)
    ensures RunsInv(RunJob(e, job, answers))
  {
    if job.owner != ENTRY {
      ClientJobRuns(e, PlaceOf(e, job.owner), job, answers);
    } else if job.task.Apply? {
      ApplyRuns(e, job.task.request, answers.activated);
    } else {
      SameRuns(e, CheckStatusChanged(e, answers.activated));
    }
  }

  lemma CheckRuns(e: Entry, t: Timer)
    requires Inv(e) && RunsInv(e)
    ensures RunsInv(Check(e, t))
  {
    CheckIs(e, t);
    DestroyKeeps(e, t.device);
    DestroyRuns(e, t.device);
    CreateRuns(Destroy(e, t.device), t.device);
  }

  lemma DispatchRuns(e: Entry, answers: Answers)
    requires Inv(e) && RunsInv(e)
    ensures RunsInv(Dispatch(e, answers))
  {
    if e.ready != [] {
      var rest := e.(ready := e.ready[1..]);
      assert JobInv(e, e.ready[0]);
      JobTaken(e);
      SameRuns(e, rest);
      JobRuns(rest, e.ready[0], answers);
    } else if CheckDue(e) {
      var rest := e.(timers := e.timers[1..]);
      TimerTaken(e);
      SameRuns(e, rest);
      CheckRuns(rest, e.timers[0]);
    }
  }

  lemma StepRuns(e: Entry, action: Action)
    requires Inv(e) && RunsInv(e)
    ensures RunsInv(Step(e, action))
  {
    match action
    case KernelMatched(id, service, kernel) =>
      if !PlaceOf(e, id).Nowhere? { StepClientRuns(e, PlaceOf(e, id), id, IoService.ServiceMatched(service, kernel)); }
    case KernelTerminated(id, service, kernel) =>
      if !PlaceOf(e, id).Nowhere? { StepClientRuns(e, PlaceOf(e, id), id, IoService.ServiceTerminated(service, kernel)); }
    case RunNext(answers) => DispatchRuns(e, answers);
    case _ => SameRuns(e, Step(e, action));
  }

  /**
    Main result: in every run of the entry, every client instance ever created performs a run of `io_service_client`
    of its own, closed by the destructor if the instance is gone.
   */
  lemma {:induction false} InstancesPerformRuns(actions: seq<Action>)
    ensures RunsInv(Run(actions))
  {
    if actions == [] {
      assert Performs(INITIAL, STATUS);
    } else {
      InstancesPerformRuns(Front(actions));
      RunKeeps(Front(actions));
      StepRuns(Run(Front(actions)), Last(actions));
    }
  }

  /** Whoever makes a call in the trace makes calls through its open handle only. */
  lemma LogsCallOnOpen(actions: seq<Action>, k: nat)
    requires k < |Run(actions).history.trace|
    ensures ConnectionLaws.CallsOnOpen(ForClient(Run(actions).history.trace, Run(actions).history.trace[k].client))
  {
    InstancesPerformRuns(actions);
    InstanceCallsOnOpen(Run(actions), Run(actions).history.trace[k].client);
  }

  lemma InstanceCallsOnOpen(e: Entry, id: ObjectId)
    requires id in e.history.runs && Performs(e, id)
    ensures ConnectionLaws.CallsOnOpen(ForClient(e.history.trace, id))
  {
    ConnectionLaws.LifeCallsOnOpen(e.history.runs[id]);
  }

  /** So the daemon as a whole leaks no driver connection: a replaced instance has closed all it opened, a live one all but its own. */
  lemma NoConnectionLeaks(actions: seq<Action>, id: ObjectId, handle: IoService.Handle)
    requires id in Run(actions).history.runs
    ensures var e := Run(actions);
            var log := ForClient(e.history.trace, id);
            var p := PlaceOf(e, id);
            ConnectionLaws.Opens(log, handle) ==
            ConnectionLaws.Closes(log, handle) + if p.Nowhere? then 0 else ConnectionLaws.Held(IoAt(e, p).connection, handle)
  {
    InstancesPerformRuns(actions);
    var e := Run(actions);
    assert Performs(e, id);
    ConnectionLaws.HandlesConserved(e.history.runs[id], handle);
    ConnectionLaws.RunBalance(e.history.runs[id], handle);
  }

  // ---------------------------------------------------------------- one set of parameters per instance

  ghost predicate BornWith(e: Entry, t: Traced) {
    t.effect.Call? && t.effect.call.InitializeKeyboard? ==>
      t.client in e.history.births && e.history.births[t.client] == t.effect.call.parameters
  }

  ghost predicate BirthInv(e: Entry) {
    && (forall t | t in e.history.trace :: BornWith(e, t))
    && (forall id | id in e.history.births :: id < e.nextId)
    && (e.keyboard.client.Some? ==>
          && e.keyboard.client.value.id in e.history.births
          && e.history.births[e.keyboard.client.value.id] == e.keyboard.client.value.parameters)
  }

  lemma SameBirths(e: Entry, e': Entry)
    requires BirthInv(e)
    requires e'.history.births == e.history.births && e'.nextId == e.nextId
    requires e'.keyboard.client.Some? ==>
               && e.keyboard.client.Some?
               && e'.keyboard.client.value.id == e.keyboard.client.value.id
               && e'.keyboard.client.value.parameters == e.keyboard.client.value.parameters
    requires forall t | t in e'.history.trace :: t in e.history.trace || BornWith(e, t)
    ensures BirthInv(e')
  {
    forall t | t in e'.history.trace ensures BornWith(e', t) {
      assert BornWith(e, t);
    }
  }

  lemma DestroyBirths(e: Entry, d: Device)
    requires Coherent(e) && BirthInv(e)
    ensures BirthInv(Destroy(e, d))
  {
    DestroyKeeps(e, d);
    if SlotOf(e, d).client.Some? {
      var gone := SlotOf(e, d).client.value;
      TagClients(gone.id, IoService.Shutdown(gone.io).effects);
      ShutdownCallless(gone.io);
      SameBirths(e, Destroy(e, d));
    }
  }

  lemma CreateBirths(e: Entry, d: Device)
    requires Coherent(e) && BirthInv(e) && SlotOf(e, d).client.None?
    ensures BirthInv(Create(e, d))
  {
    var e' := Create(e, d);
    assert e'.history.births == e.history.births[e.nextId := e.parameters] && e'.history.trace == e.history.trace;
    forall t | t in e'.history.trace ensures BornWith(e', t) {
      assert BornWith(e, t);
    }
  }

  lemma SetupBirths(e: Entry)
    requires Coherent(e) && BirthInv(e)
    requires e.keyboard.client.Some? ==> e.keyboard.enabled
    requires e.pointing.client.Some? ==> e.pointing.enabled
    ensures BirthInv(Setup(e))
  {
    SetupIs(e);
    if e.keyboard.enabled && e.keyboard.client.None? {
      CreateKeeps(e, Keyboard);
      CreateBirths(e, Keyboard);
      if e.pointing.enabled && e.pointing.client.None? { CreateBirths(Create(e, Keyboard), Pointing); }
    } else if e.pointing.enabled && e.pointing.client.None? {
      CreateBirths(e, Pointing);
    }
  }

  lemma ReconfigureBirths(e: Entry, request: Request)
    requires Inv(e) && BirthInv(e)
    ensures BirthInv(Reconfigure(e, request))
  {
    match request
    case KeyboardInitialize(parameters) =>
      DestroyBirths(e, Keyboard);
      DestroyKeeps(e, Keyboard);
      var cleaned := if e.keyboard.client.Some? && e.parameters != parameters then Destroy(e, Keyboard) else e;
      var wanted := cleaned.(keyboard := cleaned.keyboard.(enabled := true), parameters := parameters);
      EnableKeeps(cleaned, wanted);
      SameBirths(cleaned, wanted);
      SetupBirths(wanted);
    case PointingInitialize =>
      var wanted := e.(pointing := e.pointing.(enabled := true));
      EnableKeeps(e, wanted);
      SameBirths(e, wanted);
      SetupBirths(wanted);
    case KeyboardTerminate => TerminateBirths(e, Keyboard);
    case PointingTerminate => TerminateBirths(e, Pointing);
  }

  lemma TerminateBirths(e: Entry, d: Device)
    requires Inv(e) && BirthInv(e)
    ensures BirthInv(Terminate(e, d))
  {
    TerminateIs(e, d);
    DestroyKeeps(e, d);
    DestroyBirths(e, d);
    SameBirths(Destroy(e, d), Terminate(e, d));
  }

  lemma StepClientBirths(e: Entry, p: Place, owner: ObjectId, event: IoService.Event)
    requires Coherent(e) && BirthInv(e) && PlaceOf(e, owner) == p && !p.Nowhere?
    requires event.Issue? ==> JobInv(e, Job(owner, Issue(event.call)))
    ensures BirthInv(StepClient(e, p, owner, event))
  {
    var out := IoService.Step(IoAt(e, p), event);
    var e' := StepClient(e, p, owner, event);
    TagClients(owner, out.effects);
    assert e'.history.trace == e.history.trace + Tag(owner, out.effects);
    if !event.Issue? { EventCallless(IoAt(e, p), event); }
    forall t | t in e'.history.trace ensures t in e.history.trace || BornWith(e, t) {
      if t !in e.history.trace {
        assert t in Tag(owner, out.effects);
      }
    }
    SameBirths(e, e');
  }

  lemma ClientJobBirths(e: Entry, p: Place, job: Job, answers: Answers)
    requires Coherent(e) && JobInv(e, job) && BirthInv(e) && PlaceOf(e, job.owner) == p && !p.Nowhere?
    ensures BirthInv(RunClientJob(e, p, job, answers))
  {
    match EventOf(job.task, answers)
    case Some(event) =>
      var stepped := StepClient(e, p, job.owner, event);
      StepClientBirths(e, p, job.owner, event);
      if job.task.AskReady? {
        PushBirths(stepped, Job(job.owner, StoreReady(job.task.device, IoService.ReadyAnswer(IoAt(e, p), answers.ready))));
      }
    case None => if job.task.Emit? { EmittedBirths(e, p, job.owner, job.task.signal, answers.activated); }
  }

  lemma PushBirths(e: Entry, job: Job)
    requires BirthInv(e)
    ensures BirthInv(Push(e, job))
  {
    SameBirths(e, Push(e, job));
  }

  lemma EmittedBirths(e: Entry, p: Place, id: ObjectId, signal: IoService.Signal, activated: bool)
    requires BirthInv(e)
    ensures BirthInv(Emitted(e, p, id, signal, activated))
  {
    SameBirths(e, Emitted(e, p, id, signal, activated));
  }

  lemma RecordBirths(changed: Entry, request: Request, activated: bool)
    requires BirthInv(changed)
    ensures BirthInv(CheckStatusChanged(changed.(history := changed.history.(applied := changed.history.applied + [request])), activated))
  {
    var recorded := changed.(history := changed.history.(applied := changed.history.applied + [request]));
    SameBirths(changed, CheckStatusChanged(recorded, activated));
  }

  lemma ApplyBirths(e: Entry, request: Request, activated: bool)
    requires Inv(e) && BirthInv(e)
    ensures BirthInv(ApplyRequest(e, request, activated))
  {
    ReconfigureBirths(e, request);
    RecordBirths(Reconfigure(e, request), request, activated);
  }

  lemma JobBirths(e: Entry, job: Job, answers: Answers)
    requires Inv(e) && JobInv(e, job) && BirthInv(e)
    ensures BirthInv(RunJob(e, job, answers))
  {
    if job.owner != ENTRY {
      ClientJobBirths(e, PlaceOf(e, job.owner), job, answers);
    } else if job.task.Apply? {
      ApplyBirths(e, job.task.request, answers.activated);
    } else {
      SameBirths(e, CheckStatusChanged(e, answers.activated));
    }
  }

  lemma DispatchBirths(e: Entry, answers: Answers)
    requires Inv(e) && BirthInv(e)
    ensures BirthInv(Dispatch(e, answers))
  {
    if e.ready != [] {
      var rest := e.(ready := e.ready[1..]);
      assert JobInv(e, e.ready[0]);
      JobTaken(e);
      SameBirths(e, rest);
      JobBirths(rest, e.ready[0], answers);
    } else if CheckDue(e) {
      var t := e.timers[0];
      var rest := e.(timers := e.timers[1..]);
      TimerTaken(e);
      SameBirths(e, rest);
      CheckIs(rest, t);
      DestroyKeeps(rest, t.device);
      DestroyBirths(rest, t.device);
      CreateBirths(Destroy(rest, t.device), t.device);
    }
  }

  lemma StepBirths(e: Entry, action: Action)
    requires Inv(e) && BirthInv(e)
    ensures BirthInv(Step(e, action))
  {
    match action
    case KernelMatched(id, service, kernel) =>
      if !PlaceOf(e, id).Nowhere? { StepClientBirths(e, PlaceOf(e, id), id, IoService.ServiceMatched(service, kernel)); }
    case KernelTerminated(id, service, kernel) =>
      if !PlaceOf(e, id).Nowhere? { StepClientBirths(e, PlaceOf(e, id), id, IoService.ServiceTerminated(service, kernel)); }
    case RunNext(answers) => DispatchBirths(e, answers);
    case _ => SameBirths(e, Step(e, action));
  }

  /**
    Main result: in every run, all keyboard initializations that one instance ever issues carry the same parameters, those
    it was created with, across any number of reconnections.
   */
  lemma {:induction false} OneTuplePerInstance(actions: seq<Action>)
    ensures BirthInv(Run(actions))
  {
    if actions != [] {
      OneTuplePerInstance(Front(actions));
      RunKeeps(Front(actions));
      StepBirths(Run(Front(actions)), Last(actions));
    }
  }
}
