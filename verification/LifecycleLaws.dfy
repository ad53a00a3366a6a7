/** What the reconciler promises: the wanted state, checks that only hit their own instance, and devices that do not disturb each other. */
module LifecycleLaws {
  import opened Wrappers
  import opened Protocol
  import opened Sequences
  import IoService
  import opened Reconciler
  import opened ReconcilerInvariant
  import opened RequestFlow
  import opened Lifecycle

  // ---------------------------------------------------------------- the last request wins

  /** What a history of requests asks for. */
  datatype Wish = Wish(keyboard: bool, parameters: Parameters, pointing: bool)

  function Asked(requests: seq<Request>): Wish {
    if requests == [] then Wish(false, DEFAULT_PARAMETERS, false)
    else
      var before := Asked(Front(requests));
      match Last(requests)
      case KeyboardInitialize(parameters) => before.(keyboard := true, parameters := parameters)
      case KeyboardTerminate => before.(keyboard := false)
      case PointingInitialize => before.(pointing := true)
      case PointingTerminate => before.(pointing := false)
  }

  function WantOf(move: Move): seq<Request> {
    if move.Want? then [move.request] else []
  }

  function WishOf(m: Lives): Wish {
    Wish(m.keyboard.enabled, m.parameters, m.pointing.enabled)
  }

  lemma MoveGrants(m: Lives, wants: seq<Request>, move: Move)
    requires Asked(wants) == WishOf(m)
    ensures Asked(wants + WantOf(move)) == WishOf(Do(m, move))
  {
    if move.Want? {
      assert Front(wants + [move.request]) == wants;
    } else {
      assert wants + [] == wants;
    }
  }

  /** Replacing instances never changes what is wanted. */
  lemma {:induction false} FollowGrants(moves: seq<Move>)
    ensures Asked(Collect(moves, WantOf)) == WishOf(Follow(moves))
  {
    if moves != [] {
      FollowGrants(Front(moves));
      MoveGrants(Follow(Front(moves)), Collect(Front(moves), WantOf), Last(moves));
    }
  }

  lemma RequestApplies(e: Entry, rest: Entry, request: Request, activated: bool)
    requires Inv(rest) && rest.history == e.history
    ensures ApplyRequest(rest, request, activated).history.applied == e.history.applied + [request]
  {
    ReconfigureFlows(rest, request);
    assert Reconfigure(rest, request).history.applied == e.history.applied;
  }

  /** A step applies exactly the request of its move. */
  lemma StepApplies(e: Entry, action: Action)
    requires Inv(e)
    ensures Step(e, action).history.applied == e.history.applied + WantOf(MoveOf(e, action))
  {
    if action.RunNext? && e.ready != [] && e.ready[0].task.Apply? {
      assert JobInv(e, e.ready[0]);
      JobTaken(e);
      RequestApplies(e, e.(ready := e.ready[1..]), e.ready[0].task.request, action.answers.activated);
    } else {
      StepFlowsQuietly(e, action);
      NothingWanted(e, action);
      assert e.history.applied + [] == e.history.applied;
    }
  }

  lemma NothingWanted(e: Entry, action: Action)
    requires !(action.RunNext? && e.ready != [] && e.ready[0].task.Apply?)
    ensures WantOf(MoveOf(e, action)) == []
  {
  }

  lemma StepFlowsQuietly(e: Entry, action: Action)
    requires Inv(e) && !(action.RunNext? && e.ready != [] && e.ready[0].task.Apply?)
    ensures Step(e, action).history.applied == e.history.applied
  {
    match action
    case KernelMatched(id, service, kernel) => KernelEventFlows(e, id, IoService.ServiceMatched(service, kernel));
    case KernelTerminated(id, service, kernel) => KernelEventFlows(e, id, IoService.ServiceTerminated(service, kernel));
    case RunNext(answers) =>
      if e.ready != [] {
        var job := e.ready[0];
        var rest := e.(ready := e.ready[1..]);
        JobTaken(e);
        assert JobInv(e, job);
        if job.task.Issue? && IsOutput(job.task.call) {
          var changed := StepClientIs(rest, PlaceOf(rest, job.owner), job.owner, IoService.Issue(job.task.call));
        } else {
          QuietJobFlows(rest, job, answers);
        }
      } else if CheckDue(e) {
        TimerTaken(e);
        CheckFlows(e.(timers := e.timers[1..]), e.timers[0]);
      }
    case _ =>
  }

  lemma {:induction false} AppliedAreWants(actions: seq<Action>)
    ensures Run(actions).history.applied == Collect(Moves(actions), WantOf)
  {
    if actions != [] {
      AppliedAreWants(Front(actions));
      RunKeeps(Front(actions));
      StepApplies(Run(Front(actions)), Last(actions));
      assert Front(Moves(actions)) == Moves(Front(actions));
    }
  }

  /**
    Main result: after every task of every run a device has a client exactly when the requests applied so far
    ask for it, with the parameters they ask for; and once no request is waiting, "so far" is all that was received.
   */
  lemma LastRequestWins(actions: seq<Action>)
    ensures var e := Run(actions);
            var wish := Asked(e.history.applied);
            && (e.keyboard.client.Some? <==> wish.keyboard) && (e.pointing.client.Some? <==> wish.pointing)
            && e.parameters == wish.parameters
            && (e.keyboard.client.Some? ==> e.keyboard.client.value.parameters == wish.parameters)
            && (PendingRequests(e.ready) == [] ==> wish == Asked(Collect(actions, ReceivedRequest)))
  {
    var e := Run(actions);
    RunRefines(actions);
    RunKeeps(actions);
    AppliedAreWants(actions);
    FollowGrants(Moves(actions));
    RequestsAppliedOnce(actions);
    assert PendingRequests(e.ready) == [] ==> e.history.applied + PendingRequests(e.ready) == e.history.applied;
  }

  // ---------------------------------------------------------------- stale checks

  /** One new instance stands in the place of the old one, a generation on, armed with one new check. */
  ghost predicate Renewed(e: Entry, t: Timer, e': Entry) {
    && SlotOf(e', t.device) == Slot(true, t.generation + 1, Some(Client(e.nextId, t.generation + 1, e.parameters, IoService.INITIAL)))
    && e'.timers == e.timers + [Timer(e.now + CHECK_DELAY, t.device, t.generation + 1, e.nextId)]
    && SlotOf(e', Other(t.device)) == SlotOf(e, Other(t.device))
  }

  lemma CheckOutcome(e: Entry, t: Timer)
    requires Inv(e)
    ensures if Fails(e, t) then Renewed(e, t, Check(e, t)) else Check(e, t) == e
  {
    CheckIs(e, t);
    DestroyKeeps(e, t.device);
    CreateIs(Destroy(e, t.device), t.device);
  }

  /** With the invariant, a check fails exactly when the instance it was armed for is alive and not ready. */
  lemma FailsMeansOwn(e: Entry)
    requires Inv(e) && e.timers != []
    ensures var t := e.timers[0];
            var slot := SlotOf(e, t.device);
            Fails(e, t) <==> slot.client.Some? && slot.client.value.id == t.armedFor && !IsReady(e, t.device)
  {
    assert TimerInv(e, 0);
  }

  /**
    Main result: a due check replaces a client if and only if the very instance it was armed for is still alive and
    not ready. Otherwise it is spent without any effect.
   */
  lemma CheckHitsItsOwn(actions: seq<Action>, answers: Answers)
    requires CheckDue(Run(actions))
    ensures var e := Run(actions);
            var t := e.timers[0];
            var slot := SlotOf(e, t.device);
            var spent := e.(timers := e.timers[1..]);
            if slot.client.Some? && slot.client.value.id == t.armedFor && !IsReady(e, t.device)
            then Renewed(spent, t, Run(actions + [RunNext(answers)]))
            else Run(actions + [RunNext(answers)]) == spent
  {
    var e := Run(actions);
    RunKeeps(actions);
    FailsMeansOwn(e);
    TimerTaken(e);
    CheckOutcome(e.(timers := e.timers[1..]), e.timers[0]);
    assert Front(actions + [RunNext(answers)]) == actions;
    assert Dispatch(e, answers) == Check(e.(timers := e.timers[1..]), e.timers[0]);
  }

  lemma CreateIs(e: Entry, d: Device)
    ensures var g := SlotOf(e, d).generation + 1;
            && SlotOf(Create(e, d), d) == Slot(SlotOf(e, d).enabled, g, Some(Client(e.nextId, g, e.parameters, IoService.INITIAL)))
            && Create(e, d).timers == e.timers + [Timer(e.now + CHECK_DELAY, d, g, e.nextId)]
            && SlotOf(Create(e, d), Other(d)) == SlotOf(e, Other(d))
  {
  }

  // ---------------------------------------------------------------- independence

  function DeviceOf(request: Request): Device {
    match request
    case KeyboardInitialize(_) => Keyboard
    case KeyboardTerminate => Keyboard
    case PointingInitialize => Pointing
    case PointingTerminate => Pointing
  }

  function ArmedFor(device: Device): Timer -> bool {
    (t: Timer) => t.device == device
  }

  function OwnedBy(owner: ObjectId): Job -> bool {
    (job: Job) => job.owner == owner
  }

  /** Flag, instance with its whole connection state, pending checks and queued jobs of a device. */
  ghost predicate Undisturbed(a: Entry, b: Entry, d: Device) {
    && SlotOf(b, d) == SlotOf(a, d)
    && Filter(b.timers, ArmedFor(d)) == Filter(a.timers, ArmedFor(d))
    && (SlotOf(a, d).client.Some? ==>
          Filter(b.ready, OwnedBy(SlotOf(a, d).client.value.id)) == Filter(a.ready, OwnedBy(SlotOf(a, d).client.value.id)))
  }

  lemma {:induction false} FilterTwice(jobs: seq<Job>, mine: ObjectId, other: ObjectId)
    requires mine != other
    ensures Filter(Without(jobs, other), OwnedBy(mine)) == Filter(jobs, OwnedBy(mine))
  {
    if jobs != [] {
      FilterTwice(Front(jobs), mine, other);
      var tail := if Last(jobs).owner == other then [] else [Last(jobs)];
      FilterConcat(Without(Front(jobs), other), tail, OwnedBy(mine));
      FilterOne(Last(jobs), OwnedBy(mine));
    }
  }

  lemma FilterOne<T>(x: T, keep: T -> bool)
    ensures Filter([x], keep) == if keep(x) then [x] else []
  {
    assert Front([x]) == [];
  }

  lemma DestroyLeavesOther(e: Entry, d: Device)
    requires Coherent(e)
    ensures Undisturbed(e, Destroy(e, d), Other(d))
  {
    DestroyKeeps(e, d);
    if SlotOf(e, d).client.Some? {
      var gone := SlotOf(e, d).client.value;
      ShutdownSilent(gone.io, gone.id);
      assert Destroy(e, d).ready == Without(e.ready, gone.id);
      if SlotOf(e, Other(d)).client.Some? {
        FilterTwice(e.ready, SlotOf(e, Other(d)).client.value.id, gone.id);
      }
    }
  }

  lemma CreateLeavesOther(e: Entry, d: Device)
    requires Coherent(e)
    ensures Undisturbed(e, Create(e, d), Other(d))
  {
    var t := Timer(e.now + CHECK_DELAY, d, SlotOf(e, d).generation + 1, e.nextId);
    FilterConcat(e.timers, [t], ArmedFor(Other(d)));
    FilterOne(t, ArmedFor(Other(d)));
    if SlotOf(e, Other(d)).client.Some? {
      var id := SlotOf(e, Other(d)).client.value.id;
      FilterConcat(e.ready, [Job(e.nextId, Start)], OwnedBy(id));
      FilterOne(Job(e.nextId, Start), OwnedBy(id));
    }
  }

  lemma InitializeLeavesOther(e: Entry, wanted: Entry, d: Device)
    requires Coherent(wanted) && Undisturbed(e, wanted, Other(d)) && SlotOf(wanted, d).enabled
    requires SlotOf(wanted, Other(d)).enabled <==> SlotOf(wanted, Other(d)).client.Some?
    ensures Undisturbed(e, Setup(wanted), Other(d))
  {
    SetupIs(wanted);
    CreateLeavesOther(wanted, d);
  }

  lemma TerminateLeavesOther(e: Entry, d: Device)
    requires Inv(e)
    ensures Undisturbed(e, Terminate(e, d), Other(d))
  {
    TerminateIs(e, d);
    DestroyLeavesOther(e, d);
  }

  lemma ReconfigureLeavesOther(e: Entry, request: Request)
    requires Inv(e)
    ensures Undisturbed(e, Reconfigure(e, request), Other(DeviceOf(request)))
  {
    match request {
      case KeyboardInitialize(parameters) =>
        DestroyLeavesOther(e, Keyboard);
        DestroyKeeps(e, Keyboard);
        var cleaned := if e.keyboard.client.Some? && e.parameters != parameters then Destroy(e, Keyboard) else e;
        var wanted := cleaned.(keyboard := cleaned.keyboard.(enabled := true), parameters := parameters);
        EnableKeeps(cleaned, wanted);
        InitializeLeavesOther(e, wanted, Keyboard);
      case PointingInitialize =>
        var wanted := e.(pointing := e.pointing.(enabled := true));
        EnableKeeps(e, wanted);
        InitializeLeavesOther(e, wanted, Pointing);
      case KeyboardTerminate => TerminateLeavesOther(e, Keyboard);
      case PointingTerminate => TerminateLeavesOther(e, Pointing);
    }
  }

  /**
    Main result: a request for one device leaves the other one's flag, generation, instance, connection, pending
    checks and queued work exactly as they were, although both go through the same setup function.
   */
  lemma RequestsAreIndependent(e: Entry, request: Request, activated: bool)
    requires Inv(e)
    ensures Undisturbed(e, ApplyRequest(e, request, activated), Other(DeviceOf(request)))
  {
    ReconfigureLeavesOther(e, request);
  }

  /** The same for a check of one device. */
  lemma ChecksAreIndependent(e: Entry, t: Timer)
    requires Inv(e)
    ensures Undisturbed(e, Check(e, t), Other(t.device))
  {
    CheckIs(e, t);
    DestroyKeeps(e, t.device);
    DestroyLeavesOther(e, t.device);
    CreateLeavesOther(Destroy(e, t.device), t.device);
  }
}
