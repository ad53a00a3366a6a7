/**
  The simple form of the reconciler: per device whether it is wanted, the generation, and whether an
  instance is alive. The instance of a device is named by its generation.
 */
module Lifecycle {
  import opened Protocol
  import opened Sequences
  import IoService
  import opened Reconciler
  import opened ReconcilerInvariant

  datatype Life = Life(enabled: bool, generation: nat, live: bool)

  datatype Lives = Lives(keyboard: Life, pointing: Life, parameters: Parameters)

  const UNBORN := Lives(Life(false, 0, false), Life(false, 0, false), DEFAULT_PARAMETERS)

  /** A task either applies a request, or replaces an instance that failed its check, or leaves the instances alone. */
  datatype Move = Want(request: Request) | Replace(device: Device) | Idle

  function Wanted(l: Life): Life {
    if l.live then l.(enabled := true) else Life(true, l.generation + 1, true)
  }

  function Unwanted(l: Life): Life {
    Life(false, l.generation + 1, false)
  }

  function Replaced(l: Life): Life {
    Life(l.enabled, l.generation + 1, true)
  }

  function Do(m: Lives, move: Move): Lives {
    match move
    case Idle => m
    case Replace(Keyboard) => m.(keyboard := Replaced(m.keyboard))
    case Replace(Pointing) => m.(pointing := Replaced(m.pointing))
    case Want(KeyboardInitialize(parameters)) =>
      var kept := m.keyboard.(live := m.keyboard.live && m.parameters == parameters);
      m.(keyboard := Wanted(kept), parameters := parameters)
    case Want(KeyboardTerminate) => m.(keyboard := Unwanted(m.keyboard))
    case Want(PointingInitialize) => m.(pointing := Wanted(m.pointing))
    case Want(PointingTerminate) => m.(pointing := Unwanted(m.pointing))
  }

  function LifeOf(s: Slot): Life {
    Life(s.enabled, s.generation, s.client.Some?)
  }

  function Abstract(e: Entry): Lives {
    Lives(LifeOf(e.keyboard), LifeOf(e.pointing), e.parameters)
  }

  predicate CheckDue(e: Entry) {
    e.ready == [] && e.timers != [] && e.timers[0].due <= e.now
  }

  /** Which move a step of the entry makes. */
  function MoveOf(e: Entry, action: Action): Move {
    if !action.RunNext? then Idle
    else if e.ready != [] then
      if e.ready[0].owner == ENTRY && e.ready[0].task.Apply? then Want(e.ready[0].task.request) else Idle
    else if CheckDue(e) then
      if Fails(e, e.timers[0]) then Replace(e.timers[0].device) else Idle
    else Idle
  }

  // ---------------------------------------------------------------- refinement

  /** Unless a device without a client is wanted, `setup_virtual_hid_devices` does nothing. */
  lemma SetupIs(e: Entry)
    requires e.keyboard.client.Some? ==> e.keyboard.enabled
    requires e.pointing.client.Some? ==> e.pointing.enabled
    ensures var k := if e.keyboard.enabled && e.keyboard.client.None? then Create(e, Keyboard) else e;
            Setup(e) == if e.pointing.enabled && e.pointing.client.None? then Create(k, Pointing) else k
  {
  }

  lemma ReconfigureRefines(e: Entry, request: Request)
    requires Inv(e)
    ensures Abstract(Reconfigure(e, request)) == Do(Abstract(e), Want(request))
  {
    match request
    case KeyboardInitialize(parameters) =>
      DestroyKeeps(e, Keyboard);
      var cleaned := if e.keyboard.client.Some? && e.parameters != parameters then Destroy(e, Keyboard) else e;
      var wanted := cleaned.(keyboard := cleaned.keyboard.(enabled := true), parameters := parameters);
      SetupIs(wanted);
    case PointingInitialize =>
      var wanted := e.(pointing := e.pointing.(enabled := true));
      SetupIs(wanted);
    case KeyboardTerminate => TerminateIs(e, Keyboard); DestroyKeeps(e, Keyboard);
    case PointingTerminate => TerminateIs(e, Pointing); DestroyKeeps(e, Pointing);
  }

  predicate Fails(e: Entry, t: Timer) {
    t.generation == SlotOf(e, t.device).generation && SlotOf(e, t.device).enabled && !IsReady(e, t.device)
  }

  /** Setting up an entry in which only `d` lacks the client it should have. */
  lemma SetupOne(e: Entry, d: Device)
    requires SlotOf(e, d).enabled && SlotOf(e, d).client.None?
    requires SlotOf(e, Other(d)).enabled <==> SlotOf(e, Other(d)).client.Some?
    ensures Setup(e) == Create(e, d)
  {
    SetupIs(e);
  }

  /** A failing check destroys one instance and creates one; any other check does nothing. */
  lemma CheckIs(e: Entry, t: Timer)
    requires Inv(e)
    ensures Check(e, t) == if Fails(e, t) then Create(Destroy(e, t.device), t.device) else e
  {
    if Fails(e, t) {
      DestroyKeeps(e, t.device);
      SetupOne(Destroy(e, t.device), t.device);
    }
  }

  lemma CreateLives(e: Entry, d: Device)
    ensures LifeOf(SlotOf(Create(e, d), d)) == Life(SlotOf(e, d).enabled, SlotOf(e, d).generation + 1, true)
    ensures SlotOf(Create(e, d), Other(d)) == SlotOf(e, Other(d))
    ensures Create(e, d).parameters == e.parameters
  {
  }

  lemma CheckRefines(e: Entry, t: Timer)
    requires Inv(e)
    ensures Abstract(Check(e, t)) == if Fails(e, t) then Do(Abstract(e), Replace(t.device)) else Abstract(e)
  {
    CheckIs(e, t);
    DestroyKeeps(e, t.device);
    CreateLives(Destroy(e, t.device), t.device);
  }

  lemma StepClientSameLives(e: Entry, p: Place, id: ObjectId, event: IoService.Event)
    requires PlaceOf(e, id) == p && !p.Nowhere?
    ensures Abstract(StepClient(e, p, id, event)) == Abstract(e)
  {
    var out := IoService.Step(IoAt(e, p), event);
    assert Abstract(WithIo(e, p, out.state)) == Abstract(e);
  }

  lemma QuietJobRefines(e: Entry, job: Job, answers: Answers)
    requires Inv(e) && JobInv(e, job) && !job.task.Apply?
    ensures Abstract(RunJob(e, job, answers)) == Abstract(e)
  {
    if job.owner != ENTRY && EventOf(job.task, answers).Some? {
      StepClientSameLives(e, PlaceOf(e, job.owner), job.owner, EventOf(job.task, answers).value);
    }
  }

  lemma KernelEventSameLives(e: Entry, id: ObjectId, event: IoService.Event)
    ensures Abstract(KernelEvent(e, id, event)) == Abstract(e)
  {
    if !PlaceOf(e, id).Nowhere? { StepClientSameLives(e, PlaceOf(e, id), id, event); }
  }

  /** Main result: every step of the entry is one move of the simple form. */
  lemma StepRefines(e: Entry, action: Action)
    requires Inv(e)
    ensures Abstract(Step(e, action)) == Do(Abstract(e), MoveOf(e, action))
  {
    match action
    case KernelMatched(id, service, kernel) => KernelEventSameLives(e, id, IoService.ServiceMatched(service, kernel));
    case KernelTerminated(id, service, kernel) => KernelEventSameLives(e, id, IoService.ServiceTerminated(service, kernel));
    case RunNext(_) =>
      if e.ready != [] {
        assert JobInv(e, e.ready[0]);
        JobTaken(e);
        var rest := e.(ready := e.ready[1..]);
        if e.ready[0].owner == ENTRY && e.ready[0].task.Apply? {
          ReconfigureRefines(rest, e.ready[0].task.request);
        } else {
          QuietJobRefines(rest, e.ready[0], action.answers);
        }
      } else if CheckDue(e) {
        TimerTaken(e);
        CheckRefines(e.(timers := e.timers[1..]), e.timers[0]);
      }
    case _ =>
  }

  function Moves(actions: seq<Action>): seq<Move> {
    if actions == [] then [] else Moves(Front(actions)) + [MoveOf(Run(Front(actions)), Last(actions))]
  }

  function Follow(moves: seq<Move>): Lives {
    if moves == [] then UNBORN else Do(Follow(Front(moves)), Last(moves))
  }

  /** The same over a whole run. */
  lemma {:induction false} RunRefines(actions: seq<Action>)
    ensures Abstract(Run(actions)) == Follow(Moves(actions))
  {
    if actions != [] {
      RunRefines(Front(actions));
      RunKeeps(Front(actions));
      StepRefines(Run(Front(actions)), Last(actions));
      assert Front(Moves(actions)) == Moves(Front(actions));
    }
  }
}
