/** Status pushes: each change is pushed once, and no change is missed. */
module StatusPush {
  import opened Wrappers
  import opened Protocol
  import opened Sequences
  import IoService
  import opened Reconciler
  import opened ReconcilerInvariant
  import opened Lifecycle

  // ---------------------------------------------------------------- pushes are the samples without repetitions

  ghost predicate PushInv(e: Entry) {
    var h := e.history;
    && h.pushes == Destutter(h.samples)
    && e.last == if h.samples == [] then None else Some(Last(h.samples))
  }

  lemma CheckStatusPushes(e: Entry, activated: bool)
    requires PushInv(e)
    ensures PushInv(CheckStatusChanged(e, activated))
  {
    DestutterAppend(e.history.samples, MakeResponse(e, activated));
  }

  /** Everything but a status check leaves samples and pushes alone. */
  ghost predicate SameSamples(a: Entry, b: Entry) {
    b.history.samples == a.history.samples && b.history.pushes == a.history.pushes && b.last == a.last
  }

  lemma DestroySamples(e: Entry, d: Device)
    ensures SameSamples(e, Destroy(e, d))
  {
  }

  lemma ReconfigureSamples(e: Entry, request: Request)
    requires Inv(e)
    ensures SameSamples(e, Reconfigure(e, request))
  {
    match request
    case KeyboardInitialize(parameters) =>
      DestroySamples(e, Keyboard);
      DestroyKeeps(e, Keyboard);
      var cleaned := if e.keyboard.client.Some? && e.parameters != parameters then Destroy(e, Keyboard) else e;
      SetupIs(cleaned.(keyboard := cleaned.keyboard.(enabled := true), parameters := parameters));
    case PointingInitialize => SetupIs(e.(pointing := e.pointing.(enabled := true)));
    case KeyboardTerminate => TerminateIs(e, Keyboard); DestroySamples(e, Keyboard);
    case PointingTerminate => TerminateIs(e, Pointing); DestroySamples(e, Pointing);
  }

  lemma StepClientSamples(e: Entry, p: Place, id: ObjectId, event: IoService.Event)
    requires PlaceOf(e, id) == p && !p.Nowhere?
    ensures SameSamples(e, StepClient(e, p, id, event))
  {
    var out := IoService.Step(IoAt(e, p), event);
    assert SameSamples(e, WithIo(e, p, out.state));
  }

  lemma ClientJobPushes(e: Entry, p: Place, job: Job, answers: Answers)
    requires PlaceOf(e, job.owner) == p && !p.Nowhere? && PushInv(e)
    ensures PushInv(RunClientJob(e, p, job, answers))
  {
    match EventOf(job.task, answers)
    case Some(event) => StepClientSamples(e, p, job.owner, event);
    case None => CheckStatusPushes(e, answers.activated);
  }

  lemma JobPushes(e: Entry, job: Job, answers: Answers)
    requires Inv(e) && JobInv(e, job) && PushInv(e)
    ensures PushInv(RunJob(e, job, answers))
  {
    if job.task.Apply? {
      var changed := Reconfigure(e, job.task.request);
      ReconfigureSamples(e, job.task.request);
      CheckStatusPushes(changed.(history := changed.history.(applied := changed.history.applied + [job.task.request])), answers.activated);
    } else if job.owner == ENTRY {
      CheckStatusPushes(e, answers.activated);
    } else {
      ClientJobPushes(e, PlaceOf(e, job.owner), job, answers);
    }
  }

  lemma CheckSamples(e: Entry, t: Timer)
    requires Inv(e)
    ensures SameSamples(e, Check(e, t))
  {
    CheckIs(e, t);
    DestroySamples(e, t.device);
  }

  lemma StepPushes(e: Entry, action: Action)
    requires Inv(e) && PushInv(e)
    ensures PushInv(Step(e, action))
  {
    match action
    case KernelMatched(id, service, kernel) =>
      if !PlaceOf(e, id).Nowhere? { StepClientSamples(e, PlaceOf(e, id), id, IoService.ServiceMatched(service, kernel)); }
    case KernelTerminated(id, service, kernel) =>
      if !PlaceOf(e, id).Nowhere? { StepClientSamples(e, PlaceOf(e, id), id, IoService.ServiceTerminated(service, kernel)); }
    case RunNext(answers) =>
      if e.ready != [] {
        assert JobInv(e, e.ready[0]);
        JobTaken(e);
        JobPushes(e.(ready := e.ready[1..]), e.ready[0], answers);
      } else if CheckDue(e) {
        TimerTaken(e);
        CheckSamples(e.(timers := e.timers[1..]), e.timers[0]);
      }
    case _ =>
  }

  /** Main result: in every run the pushes are exactly the sampled statuses with consecutive repetitions removed. */
  lemma {:induction false} PushesAreSamplesOnce(actions: seq<Action>)
    ensures PushInv(Run(actions))
  {
    if actions != [] {
      PushesAreSamplesOnce(Front(actions));
      RunKeeps(Front(actions));
      StepPushes(Run(Front(actions)), Last(actions));
    }
  }

  /** The peer is never told the same twice running. */
  lemma PushesDiffer(actions: seq<Action>, i: nat)
    requires i + 1 < |Run(actions).history.pushes|
    ensures Run(actions).history.pushes[i] != Run(actions).history.pushes[i + 1]
  {
    PushesAreSamplesOnce(actions);
    DestutterStrict(Run(actions).history.samples, i);
  }

  // ---------------------------------------------------------------- no change is missed

  predicate Samples(job: Job) {
    job.task.CheckStatus? || job.task == Emit(IoService.StateChangedSignal)
  }

  /** A queued job is going to sample the status. */
  ghost predicate WillSample(e: Entry) {
    exists job :: job in e.ready && Samples(job)
  }

  /** The last pushed status is what a sample would show now, whether or not a driver is activated. */
  ghost predicate UpToDate(e: Entry) {
    e.last.Some? && e.last.value == MakeResponse(e, e.last.value.activated)
  }

  ghost predicate Converging(e: Entry) {
    WillSample(e) || UpToDate(e)
  }

  /** Whoever changes what is shown announces it. */
  lemma ChangesAreAnnounced(s: IoService.State, event: IoService.Event)
    ensures var out := IoService.Step(s, event);
            || IoService.Enqueue(IoService.StateChangedSignal) in out.effects
            || (out.state.version == s.version && out.state.keyboardReady == s.keyboardReady && out.state.pointingReady == s.pointingReady)
  {
    match event
    case ServiceMatched(id, kernel) =>
      if s.monitoring { assert Last(IoService.Matched(s, id, kernel).effects) == IoService.Enqueue(IoService.StateChangedSignal); }
    case ServiceTerminated(id, kernel) =>
      if s.monitoring { assert Last(IoService.Terminated(s, id, kernel).effects) == IoService.Enqueue(IoService.StateChangedSignal); }
    case StoreReady(device, value) =>
      var effects := IoService.SetReady(s, device, value).effects;
      if effects != [] { assert effects[0] == IoService.Enqueue(IoService.StateChangedSignal); }
    case _ =>
  }

  lemma {:induction false} AnnouncementsAreQueued(id: ObjectId, effects: seq<IoService.Effect>)
    requires IoService.Enqueue(IoService.StateChangedSignal) in effects
    ensures Job(id, Emit(IoService.StateChangedSignal)) in SignalJobs(id, effects)
  {
    if Last(effects) != IoService.Enqueue(IoService.StateChangedSignal) {
      assert effects == Front(effects) + [Last(effects)];
      AnnouncementsAreQueued(id, Front(effects));
    }
  }

  lemma StepClientConverges(e: Entry, p: Place, id: ObjectId, event: IoService.Event)
    requires PlaceOf(e, id) == p && !p.Nowhere? && Converging(e)
    ensures Converging(StepClient(e, p, id, event))
  {
    var out := IoService.Step(IoAt(e, p), event);
    var e' := StepClient(e, p, id, event);
    assert e'.ready == e.ready + SignalJobs(id, out.effects) && e'.last == e.last;
    ChangesAreAnnounced(IoAt(e, p), event);
    if WillSample(e) {
      var job :| job in e.ready && Samples(job);
      assert job in e'.ready;
    } else if IoService.Enqueue(IoService.StateChangedSignal) in out.effects {
      AnnouncementsAreQueued(id, out.effects);
      assert Job(id, Emit(IoService.StateChangedSignal)) in e'.ready;
    } else {
      SameShown(e, p, id, event, e.last.value.activated);
    }
  }

  lemma SameShownWith(e: Entry, p: Place, io: IoService.State, activated: bool)
    requires p.InSlot? ==> SlotOf(e, p.device).client.Some?
    requires !p.Nowhere?
    requires var s := IoAt(e, p); io.version == s.version && io.keyboardReady == s.keyboardReady && io.pointingReady == s.pointingReady
    ensures MakeResponse(WithIo(e, p, io), activated) == MakeResponse(e, activated)
  {
    match p
    case InStatus =>
    case InSlot(Keyboard) =>
    case InSlot(Pointing) =>
  }

  lemma SameShown(e: Entry, p: Place, id: ObjectId, event: IoService.Event, activated: bool)
    requires PlaceOf(e, id) == p && !p.Nowhere?
    requires var s := IoAt(e, p); var s' := IoService.Step(s, event).state;
             s'.version == s.version && s'.keyboardReady == s.keyboardReady && s'.pointingReady == s.pointingReady
    ensures MakeResponse(StepClient(e, p, id, event), activated) == MakeResponse(e, activated)
  {
    SameShownWith(e, p, IoService.Step(IoAt(e, p), event).state, activated);
  }

  lemma PushConverges(e: Entry, job: Job)
    requires Converging(e)
    ensures Converging(Push(e, job))
  {
    if WillSample(e) {
      var x :| x in e.ready && Samples(x);
      assert x in Push(e, job).ready;
    }
  }

  lemma PushToClientConverges(e: Entry, d: Device, task: Task)
    requires Converging(e)
    ensures Converging(PushToClient(e, d, task))
  {
    if SlotOf(e, d).client.Some? { PushConverges(e, Job(SlotOf(e, d).client.value.id, task)); }
  }

  lemma QuietJobConverges(e: Entry, p: Place, job: Job, answers: Answers)
    requires PlaceOf(e, job.owner) == p && !p.Nowhere? && Converging(e) && !Samples(job)
    ensures Converging(RunClientJob(e, p, job, answers))
  {
    match EventOf(job.task, answers)
    case Some(event) =>
      StepClientConverges(e, p, job.owner, event);
      if job.task.AskReady? {
        PushConverges(StepClient(e, p, job.owner, event),
                      Job(job.owner, StoreReady(job.task.device, IoService.ReadyAnswer(IoAt(e, p), answers.ready))));
      }
    case None =>
      PushConverges(e, Job(job.owner, Issue(DriverCall.InitializeKeyboard(e.parameters))));
      PushConverges(e, Job(job.owner, Issue(DriverCall.InitializePointing)));
  }

  lemma SampledUpToDate(e: Entry, activated: bool)
    ensures UpToDate(CheckStatusChanged(e, activated))
  {
  }

  lemma JobConverges(e: Entry, answers: Answers)
    requires Inv(e) && Converging(e) && e.ready != []
    ensures Converging(Dispatch(e, answers))
  {
    var job := e.ready[0];
    var rest := e.(ready := e.ready[1..]);
    assert JobInv(e, job);
    JobTaken(e);
    assert e.ready == [job] + rest.ready;
    if job.task.Apply? {
      var changed := Reconfigure(rest, job.task.request);
      SampledUpToDate(changed.(history := changed.history.(applied := changed.history.applied + [job.task.request])), answers.activated);
    } else if Samples(job) {
      SampledUpToDate(rest, answers.activated);
    } else {
      assert Converging(rest) by {
        if WillSample(e) {
          var x :| x in e.ready && Samples(x);
          assert x in rest.ready;
        }
      }
      QuietJobConverges(rest, PlaceOf(rest, job.owner), job, answers);
    }
  }

  /** A check runs only when no other task is waiting, and replaces what was not ready by what is not ready yet. */
  lemma CheckConverges(e: Entry, t: Timer)
    requires Inv(e) && UpToDate(e) && e.ready == []
    ensures Converging(Check(e, t))
  {
    CheckIs(e, t);
    if Fails(e, t) {
      var gone := Destroy(e, t.device);
      DestroyKeeps(e, t.device);
      assert MakeResponse(gone, e.last.value.activated) == MakeResponse(e, e.last.value.activated);
      FreshNotReady(gone, t.device);
    }
  }

  lemma FreshNotReady(e: Entry, d: Device)
    requires SlotOf(e, d).client.None?
    ensures forall activated :: MakeResponse(Create(e, d), activated) == MakeResponse(e, activated)
    ensures Create(e, d).last == e.last
  {
  }

  lemma StepConverges(e: Entry, action: Action)
    requires Inv(e) && Converging(e)
    ensures Converging(Step(e, action))
  {
    match action
    case AskStatus => PushConverges(e, Job(ENTRY, CheckStatus));
    case Receive(request) => PushConverges(e, Job(ENTRY, Apply(request)));
    case ReceiveReset(d) => PushToClientConverges(e, d, Issue(ResetDevice(d)));
    case ReceiveReport(report) => PushToClientConverges(e, report.device, Issue(PostReport(report.device, report.bytes)));
    case Elapse(_) => assert Step(e, action).ready == e.ready;
    case ReadyTimer =>
      PushToClientConverges(e, Keyboard, AskReady(Keyboard));
      PushToClientConverges(PushToClient(e, Keyboard, AskReady(Keyboard)), Pointing, AskReady(Pointing));
    case KernelMatched(id, service, kernel) =>
      if !PlaceOf(e, id).Nowhere? { StepClientConverges(e, PlaceOf(e, id), id, IoService.ServiceMatched(service, kernel)); }
    case KernelTerminated(id, service, kernel) =>
      if !PlaceOf(e, id).Nowhere? { StepClientConverges(e, PlaceOf(e, id), id, IoService.ServiceTerminated(service, kernel)); }
    case RunNext(answers) =>
      if e.ready != [] {
        JobConverges(e, answers);
      } else if CheckDue(e) {
        TimerTaken(e);
        CheckConverges(e.(timers := e.timers[1..]), e.timers[0]);
      }
  }

  lemma {:induction false} RunConverges(actions: seq<Action>)
    ensures Converging(Run(actions))
  {
    if actions == [] {
      assert Job(ENTRY, CheckStatus) in INITIAL.ready;
    } else {
      RunConverges(Front(actions));
      RunKeeps(Front(actions));
      StepConverges(Run(Front(actions)), Last(actions));
    }
  }

  /**
    Main result: in every run, whenever no status check is queued, the peer has been told the truth: the last push is
    what the daemon would answer now, with the kernel's answer on the activated driver that was pushed.
   */
  lemma NoChangeIsMissed(actions: seq<Action>)
    requires !WillSample(Run(actions))
    ensures var e := Run(actions);
            && e.history.pushes != []
            && Last(e.history.pushes) == MakeResponse(e, Last(e.history.pushes).activated)
  {
    RunConverges(actions);
    PushesAreSamplesOnce(actions);
    DestutterLast(Run(actions).history.samples);
  }

  /** So the last push is the whole status exactly when it has the activated driver right. */
  lemma WholeStatusIff(actions: seq<Action>, activated: bool)
    requires !WillSample(Run(actions))
    ensures var e := Run(actions);
            && e.history.pushes != []
            && (Last(e.history.pushes) == MakeResponse(e, activated) <==> Last(e.history.pushes).activated == activated)
  {
    NoChangeIsMissed(actions);
  }
}
