/** Instances over time: how long one stays, and when a device that does not get ready is tried again. */
module RetryChain {
  import opened Wrappers
  import opened Protocol
  import opened Sequences
  import IoService
  import opened Reconciler
  import opened ReconcilerInvariant
  import opened Lifecycle
  import opened LifecycleLaws

  // ---------------------------------------------------------------- an instance stays unless it is touched

  /** Moves that end the life of `d`'s instance: a failed check, a terminate, an initialize with other parameters. */
  predicate Touches(e: Entry, move: Move, d: Device) {
    match move
    case Idle => false
    case Replace(x) => x == d
    case Want(KeyboardInitialize(parameters)) => d == Keyboard && parameters != e.parameters
    case Want(KeyboardTerminate) => d == Keyboard
    case Want(PointingInitialize) => false
    case Want(PointingTerminate) => d == Pointing
  }

  ghost predicate SameInstance(a: Slot, b: Slot) {
    && b.enabled == a.enabled && b.generation == a.generation
    && a.client.Some? && b.client.Some?
    && b.client.value.id == a.client.value.id
    && b.client.value.generation == a.client.value.generation
    && b.client.value.parameters == a.client.value.parameters
  }

  /** The checks still pending after the one that this step takes, if it takes one. */
  function Remaining(e: Entry, action: Action): seq<Timer> {
    if action.RunNext? && CheckDue(e) then e.timers[1..] else e.timers
  }

  /** `d` goes on with the same instance and the same pending checks. */
  ghost predicate Continues(e: Entry, timers: seq<Timer>, e': Entry, d: Device) {
    && SameInstance(SlotOf(e, d), SlotOf(e', d))
    && Filter(e'.timers, ArmedFor(d)) == Filter(timers, ArmedFor(d))
  }

  lemma StepClientContinues(e: Entry, p: Place, id: ObjectId, event: IoService.Event, d: Device)
    requires PlaceOf(e, id) == p && !p.Nowhere? && SlotOf(e, d).client.Some?
    ensures Continues(e, e.timers, StepClient(e, p, id, event), d)
  {
    var out := IoService.Step(IoAt(e, p), event);
    var changed := WithIo(e, p, out.state);
    match p
    case InStatus =>
    case InSlot(Keyboard) => assert SameInstance(SlotOf(e, d), SlotOf(changed, d));
    case InSlot(Pointing) => assert SameInstance(SlotOf(e, d), SlotOf(changed, d));
  }

  lemma QuietJobContinues(e: Entry, job: Job, answers: Answers, d: Device)
    requires Inv(e) && JobInv(e, job) && !job.task.Apply? && SlotOf(e, d).client.Some?
    ensures Continues(e, e.timers, RunJob(e, job, answers), d)
  {
    if job.owner != ENTRY { ClientJobContinues(e, PlaceOf(e, job.owner), job, answers, d); }
  }

  lemma ClientJobContinues(e: Entry, p: Place, job: Job, answers: Answers, d: Device)
    requires PlaceOf(e, job.owner) == p && !p.Nowhere? && SlotOf(e, d).client.Some?
    ensures Continues(e, e.timers, RunClientJob(e, p, job, answers), d)
  {
    match EventOf(job.task, answers)
    case Some(event) =>
      StepClientContinues(e, p, job.owner, event, d);
      SameSlotsContinue(e, e.timers, StepClient(e, p, job.owner, event), RunClientJob(e, p, job, answers), d);
    case None => EmittedContinues(e, p, job, answers, d);
  }

  lemma SameSlotsContinue(e: Entry, timers: seq<Timer>, e': Entry, e'': Entry, d: Device)
    requires Continues(e, timers, e', d)
    requires e''.timers == e'.timers && e''.keyboard == e'.keyboard && e''.pointing == e'.pointing
    ensures Continues(e, timers, e'', d)
  {
  }

  lemma EmittedContinues(e: Entry, p: Place, job: Job, answers: Answers, d: Device)
    requires PlaceOf(e, job.owner) == p && !p.Nowhere? && SlotOf(e, d).client.Some? && EventOf(job.task, answers).None?
    ensures Continues(e, e.timers, RunClientJob(e, p, job, answers), d)
  {
    SameSlotsContinue(e, e.timers, e, RunClientJob(e, p, job, answers), d);
  }

  /** Asking again for what is already there changes nothing. */
  lemma RedundantRequest(e: Entry, request: Request)
    requires Inv(e) && SlotOf(e, DeviceOf(request)).client.Some?
    requires request == KeyboardInitialize(e.parameters) || request == PointingInitialize
    ensures Reconfigure(e, request) == e
  {
  }

  lemma RequestContinues(e: Entry, request: Request, activated: bool, d: Device)
    requires Inv(e) && SlotOf(e, d).client.Some? && !Touches(e, Want(request), d)
    ensures Continues(e, e.timers, ApplyRequest(e, request, activated), d)
  {
    if d == DeviceOf(request) {
      RedundantRequest(e, request);
    } else {
      assert d == Other(DeviceOf(request));
      ReconfigureLeavesOther(e, request);
    }
  }

  lemma DispatchContinues(e: Entry, answers: Answers, d: Device)
    requires Inv(e) && SlotOf(e, d).client.Some? && !Touches(e, MoveOf(e, RunNext(answers)), d)
    ensures Continues(e, Remaining(e, RunNext(answers)), Dispatch(e, answers), d)
  {
    if e.ready != [] {
      var rest := e.(ready := e.ready[1..]);
      JobTaken(e);
      assert JobInv(e, e.ready[0]);
      if e.ready[0].task.Apply? {
        RequestContinues(rest, e.ready[0].task.request, answers.activated, d);
      } else {
        QuietJobContinues(rest, e.ready[0], answers, d);
      }
    } else if CheckDue(e) {
      TimerTaken(e);
      var rest := e.(timers := e.timers[1..]);
      CheckIs(rest, e.timers[0]);
      if Fails(rest, e.timers[0]) { ChecksAreIndependent(rest, e.timers[0]); }
    }
  }

  /** Main result: in a step that does not touch `d`, its instance and its pending checks stay. */
  lemma StepContinues(e: Entry, action: Action, d: Device)
    requires Inv(e) && SlotOf(e, d).client.Some? && !Touches(e, MoveOf(e, action), d)
    ensures Continues(e, Remaining(e, action), Step(e, action), d)
  {
    match action
    case KernelMatched(id, service, kernel) =>
      if !PlaceOf(e, id).Nowhere? { StepClientContinues(e, PlaceOf(e, id), id, IoService.ServiceMatched(service, kernel), d); }
    case KernelTerminated(id, service, kernel) =>
      if !PlaceOf(e, id).Nowhere? { StepClientContinues(e, PlaceOf(e, id), id, IoService.ServiceTerminated(service, kernel), d); }
    case RunNext(answers) => DispatchContinues(e, answers, d);
    case _ =>
  }

  // ---------------------------------------------------------------- runs from any state

  function From(e: Entry, actions: seq<Action>): Entry {
    if actions == [] then e else Step(From(e, Front(actions)), Last(actions))
  }

  lemma {:induction false} FromKeeps(e: Entry, actions: seq<Action>)
    requires Inv(e)
    ensures Inv(From(e, actions))
  {
    if actions != [] {
      FromKeeps(e, Front(actions));
      StepKeeps(From(e, Front(actions)), Last(actions));
    }
  }

  /** The device is armed with one current check, due at `due`, for its live instance. */
  ghost predicate Armed(e: Entry, d: Device, generation: nat, due: nat) {
    var slot := SlotOf(e, d);
    && slot.enabled && slot.client.Some? && slot.generation == generation
    && Timer(due, d, generation, slot.client.value.id) in e.timers
  }

  predicate TakesCurrentCheck(e: Entry, action: Action, d: Device) {
    action.RunNext? && CheckDue(e) && e.timers[0].device == d && e.timers[0].generation == SlotOf(e, d).generation
  }

  /** Nobody asks for anything else, checks run when they are due, and each finds the device not ready. */
  ghost predicate NeverReady(e: Entry, actions: seq<Action>, d: Device) {
    actions == [] ||
    (&& NeverReady(e, Front(actions), d)
     && Goes(From(e, Front(actions)), Last(actions), d))
  }

  /** When, during `actions`, the device's instance was replaced. */
  function Replacements(e: Entry, actions: seq<Action>, d: Device): seq<nat> {
    if actions == [] then [] else Replacements(e, Front(actions), d) + Times(From(e, Front(actions)), Last(actions), d)
  }

  lemma OneCurrentCheck(e: Entry, i: nat, j: nat)
    requires Inv(e) && i < |e.timers| && j < |e.timers|
    requires e.timers[i].device == e.timers[j].device && e.timers[i].generation == e.timers[j].generation
    ensures i == j
  {
    assert TimerInv(e, i) && TimerInv(e, j);
  }

  /** The replacing check is the current one; it leaves a new current one behind. */
  lemma ArmedReplaced(e: Entry, e': Entry, d: Device, generation: nat, due: nat)
    requires Inv(e) && Armed(e, d, generation, due) && e.timers != []
    requires e.timers[0].device == d && e.timers[0].generation == generation
    requires Renewed(e.(timers := e.timers[1..]), e.timers[0], e')
    ensures e.timers[0].due == due
    ensures Armed(e', d, generation + 1, e.now + CHECK_DELAY)
  {
    var timer := Timer(due, d, generation, SlotOf(e, d).client.value.id);
    var i :| 0 <= i < |e.timers| && e.timers[i] == timer;
    OneCurrentCheck(e, 0, i);
    assert Last(e'.timers) in e'.timers;
  }

  /** The current check stays pending if it is not the one taken. */
  lemma ArmedContinues(e: Entry, timers: seq<Timer>, e': Entry, d: Device, generation: nat, due: nat)
    requires Armed(e, d, generation, due) && Continues(e, timers, e', d)
    requires Timer(due, d, generation, SlotOf(e, d).client.value.id) in timers
    ensures Armed(e', d, generation, due)
  {
    FilterMembers(e'.timers, ArmedFor(d));
    FilterMembers(timers, ArmedFor(d));
    assert Timer(due, d, generation, SlotOf(e, d).client.value.id) in Filter(timers, ArmedFor(d));
  }

  lemma CurrentRemains(e: Entry, action: Action, d: Device, generation: nat, due: nat)
    requires Armed(e, d, generation, due) && MoveOf(e, action) != Replace(d)
    requires TakesCurrentCheck(e, action, d) ==> !IsReady(e, d)
    ensures Timer(due, d, generation, SlotOf(e, d).client.value.id) in Remaining(e, action)
  {
    var timer := Timer(due, d, generation, SlotOf(e, d).client.value.id);
    var i :| 0 <= i < |e.timers| && e.timers[i] == timer;
    if action.RunNext? && CheckDue(e) {
      assert i != 0;
      assert e.timers[1..][i - 1] == timer;
    }
  }

  ghost predicate Goes(e: Entry, action: Action, d: Device) {
    && (MoveOf(e, action) == Replace(d) || !Touches(e, MoveOf(e, action), d))
    && (TakesCurrentCheck(e, action, d) ==> e.timers[0].due == e.now && !IsReady(e, d))
  }

  /** A replacement happens when it is due and arms the next check; otherwise the same check stays armed. */
  ghost predicate Proceeds(e: Entry, action: Action, e': Entry, d: Device, generation: nat, due: nat) {
    if MoveOf(e, action) == Replace(d)
    then e.now == due && Armed(e', d, generation + 1, due + CHECK_DELAY)
    else Armed(e', d, generation, due)
  }

  lemma ReplaceIs(e: Entry, action: Action, d: Device)
    requires MoveOf(e, action) == Replace(d)
    ensures TakesCurrentCheck(e, action, d) && Fails(e, e.timers[0])
    ensures Step(e, action) == Check(e.(timers := e.timers[1..]), e.timers[0])
  {
  }

  lemma CheckReplaces(e: Entry, action: Action, d: Device, generation: nat, due: nat)
    requires Inv(e) && Armed(e, d, generation, due) && TakesCurrentCheck(e, action, d) && Fails(e, e.timers[0])
    requires e.timers[0].due == e.now
    ensures e.now == due && Armed(Check(e.(timers := e.timers[1..]), e.timers[0]), d, generation + 1, due + CHECK_DELAY)
  {
    var rest := e.(timers := e.timers[1..]);
    TimerTaken(e);
    FailsWithout(e, e.timers[0]);
    CheckOutcome(rest, e.timers[0]);
    ArmedReplaced(e, Check(rest, e.timers[0]), d, generation, due);
  }

  lemma FailsWithout(e: Entry, t: Timer)
    requires e.timers != []
    ensures Fails(e.(timers := e.timers[1..]), t) == Fails(e, t)
  {
  }

  lemma ArmedStep(e: Entry, action: Action, e': Entry, d: Device, generation: nat, due: nat)
    requires Inv(e) && Armed(e, d, generation, due) && Goes(e, action, d) && e' == Step(e, action)
    ensures Proceeds(e, action, e', d, generation, due)
  {
    if MoveOf(e, action) == Replace(d) {
      ReplaceIs(e, action, d);
      CheckReplaces(e, action, d, generation, due);
    } else {
      StepContinues(e, action, d);
      CurrentRemains(e, action, d, generation, due);
      ArmedContinues(e, Remaining(e, action), e', d, generation, due);
    }
  }

  /** The n-th time is n check delays after `start`. */
  ghost predicate OnTheBeat(times: seq<nat>, start: nat) {
    forall n | 0 <= n < |times| :: times[n] == start + CHECK_DELAY * (n + 1)
  }

  ghost predicate Chained(e: Entry, times: seq<nat>, d: Device, start: nat, generation: nat) {
    OnTheBeat(times, start) && Armed(e, d, generation + |times|, start + CHECK_DELAY * (|times| + 1))
  }

  function Times(e: Entry, action: Action, d: Device): seq<nat> {
    if MoveOf(e, action) == Replace(d) then [e.now] else []
  }

  lemma ChainedStep(e: Entry, times: seq<nat>, action: Action, e': Entry, d: Device, start: nat, generation: nat)
    requires OnTheBeat(times, start)
    requires Proceeds(e, action, e', d, generation + |times|, start + CHECK_DELAY * (|times| + 1))
    ensures Chained(e', times + Times(e, action, d), d, start, generation)
  {
    assert times + [] == times;
  }

  lemma ChainGoesOn(e: Entry, times: seq<nat>, action: Action, e': Entry, d: Device, start: nat, generation: nat)
    requires Inv(e) && Chained(e, times, d, start, generation) && Goes(e, action, d) && e' == Step(e, action)
    ensures Chained(e', times + Times(e, action, d), d, start, generation)
  {
    ArmedStep(e, action, e', d, generation + |times|, start + CHECK_DELAY * (|times| + 1));
    ChainedStep(e, times, action, e', d, start, generation);
  }

  /**
    Main result: while a wanted device does not get ready, its instance is replaced for the n-th time exactly n check
    delays after it was armed, each time one generation on, and one current check is always pending.
   */
  lemma {:induction false} RetriedOnTheBeat(e: Entry, actions: seq<Action>, d: Device, start: nat, generation: nat)
    requires Inv(e) && Armed(e, d, generation, start + CHECK_DELAY) && NeverReady(e, actions, d)
    ensures Chained(From(e, actions), Replacements(e, actions, d), d, start, generation)
  {
    if actions != [] {
      var before := From(e, Front(actions));
      RetriedOnTheBeat(e, Front(actions), d, start, generation);
      FromKeeps(e, Front(actions));
      ChainGoesOn(before, Replacements(e, Front(actions), d), Last(actions), From(e, actions), d, start, generation);
    }
  }

  /** A first initialization arms the chain. */
  lemma InitializeArms(e: Entry, request: Request, activated: bool)
    requires Inv(e) && SlotOf(e, DeviceOf(request)).client.None?
    requires request.KeyboardInitialize? || request.PointingInitialize?
    ensures var d := DeviceOf(request);
            Armed(ApplyRequest(e, request, activated), d, SlotOf(e, d).generation + 1, e.now + CHECK_DELAY)
  {
    var d := DeviceOf(request);
    var wanted := if request.KeyboardInitialize?
      then e.(keyboard := e.keyboard.(enabled := true), parameters := request.parameters)
      else e.(pointing := e.pointing.(enabled := true));
    SetupOne(wanted, d);
    CreateIs(wanted, d);
    assert Last(Create(wanted, d).timers) in Create(wanted, d).timers;
  }

  // ---------------------------------------------------------------- a device that got ready

  /** No pending check can hit the live instance. */
  ghost predicate Settled(e: Entry, d: Device) {
    && SlotOf(e, d).client.Some?
    && forall t | t in e.timers && t.device == d :: t.generation != SlotOf(e, d).generation
  }

  /** Nobody terminates `d` or asks for other parameters. */
  ghost predicate Unasked(e: Entry, actions: seq<Action>, d: Device) {
    actions == [] ||
    (&& Unasked(e, Front(actions), d)
     && var before := From(e, Front(actions));
        !(MoveOf(before, Last(actions)).Want? && Touches(before, MoveOf(before, Last(actions)), d)))
  }

  /** A current check that finds the device ready settles it. */
  lemma ReadyCheckSettles(e: Entry, answers: Answers, d: Device)
    requires Inv(e) && TakesCurrentCheck(e, RunNext(answers), d) && SlotOf(e, d).client.Some? && IsReady(e, d)
    ensures Settled(Dispatch(e, answers), d)
  {
    TimerTaken(e);
    var rest := e.(timers := e.timers[1..]);
    CheckIs(rest, e.timers[0]);
    forall t | t in rest.timers && t.device == d ensures t.generation != SlotOf(e, d).generation {
      var i :| 0 <= i < |rest.timers| && rest.timers[i] == t;
      assert e.timers[i + 1] == t;
      if t.generation == SlotOf(e, d).generation { OneCurrentCheck(e, 0, i + 1); }
    }
  }

  lemma SettledStep(e: Entry, action: Action, d: Device)
    requires Inv(e) && Settled(e, d)
    requires !(MoveOf(e, action).Want? && Touches(e, MoveOf(e, action), d))
    ensures Settled(Step(e, action), d) && SameInstance(SlotOf(e, d), SlotOf(Step(e, action), d))
  {
    assert MoveOf(e, action) != Replace(d);
    StepContinues(e, action, d);
    FilterMembers(Step(e, action).timers, ArmedFor(d));
    FilterMembers(Remaining(e, action), ArmedFor(d));
    forall t | t in Step(e, action).timers && t.device == d
      ensures t.generation != SlotOf(e, d).generation
    {
      assert t in Filter(Remaining(e, action), ArmedFor(d));
      assert t in e.timers;
    }
  }

  /** Main result: once settled, the instance is never replaced until someone asks for that. */
  lemma {:induction false} SettledStays(e: Entry, actions: seq<Action>, d: Device)
    requires Inv(e) && Settled(e, d) && Unasked(e, actions, d)
    ensures Settled(From(e, actions), d) && SameInstance(SlotOf(e, d), SlotOf(From(e, actions), d))
  {
    if actions != [] {
      SettledStays(e, Front(actions), d);
      FromKeeps(e, Front(actions));
      SettledStep(From(e, Front(actions)), Last(actions), d);
    }
  }
}
