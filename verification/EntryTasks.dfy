/**
  A task of an entry does the same whatever else is queued for it: it drops the jobs of the objects that it destroys and adds jobs and
  checks behind the others. So tasks can be run on an entry without a queue of its own, and the queue kept elsewhere.
 */
module EntryTasks {
  import opened Wrappers
  import opened Protocol
  import opened Sequences
  import IoService
  import opened Reconciler

  /** Jobs and checks that were queued before. */
  datatype Backlog = Backlog(jobs: seq<Job>, checks: seq<Timer>)

  function AliveIn(c: Entry): Job -> bool {
    (job: Job) =>
      || job.owner == ENTRY || job.owner == STATUS
      || (c.keyboard.client.Some? && job.owner == c.keyboard.client.value.id)
      || (c.pointing.client.Some? && job.owner == c.pointing.client.value.id)
  }

  /** The entry `c` with the backlog in front of its own queue; jobs of objects that are no more are gone. */
  function Joined(b: Backlog, c: Entry): Entry {
    c.(ready := Filter(b.jobs, AliveIn(c)) + c.ready, timers := b.checks + c.timers)
  }

  /** Clients have ids of their own, given out in order. */
  ghost predicate Sound(c: Entry) {
    && c.status.id == STATUS < c.nextId
    && (c.keyboard.client.Some? ==> STATUS < c.keyboard.client.value.id < c.nextId)
    && (c.pointing.client.Some? ==> STATUS < c.pointing.client.value.id < c.nextId)
    && (c.keyboard.client.Some? && c.pointing.client.Some? ==> c.keyboard.client.value.id != c.pointing.client.value.id)
  }

  /** The backlog is older than every client to come. */
  ghost predicate Older(b: Backlog, n: ObjectId) {
    forall job | job in b.jobs :: job.owner < n
  }

  /** Nothing but checks with the usual delay is added. */
  ghost predicate Fresh(c: Entry) {
    forall t | t in c.timers :: t.due == c.now + CHECK_DELAY
  }

  /** What every task keeps of the above. */
  ghost predicate Keeps(c: Entry, c': Entry) {
    && (Sound(c) ==> Sound(c')) && (Fresh(c) ==> Fresh(c'))
    && c.nextId <= c'.nextId && c'.now == c.now
  }

  lemma {:induction false} FilterSame<T>(s: seq<T>, a: T -> bool, b: T -> bool)
    requires forall x | x in s :: a(x) == b(x)
    ensures Filter(s, a) == Filter(s, b)
  {
    if s != [] {
      assert Last(s) in s;
      forall x | x in Front(s) ensures a(x) == b(x) { assert x in s; }
      FilterSame(Front(s), a, b);
    }
  }

  lemma {:induction false} FilterAll<T>(s: seq<T>, keep: T -> bool)
    requires forall x | x in s :: keep(x)
    ensures Filter(s, keep) == s
  {
    if s != [] {
      assert Last(s) in s;
      forall x | x in Front(s) ensures keep(x) { assert x in s; }
      FilterAll(Front(s), keep);
    }
  }

  lemma {:induction false} FilterAgain<T>(s: seq<T>, first: T -> bool, second: T -> bool, both: T -> bool)
    requires forall x | x in s :: both(x) == (first(x) && second(x))
    ensures Filter(Filter(s, first), second) == Filter(s, both)
  {
    if s != [] {
      assert Last(s) in s;
      forall x | x in Front(s) ensures both(x) == (first(x) && second(x)) { assert x in s; }
      FilterAgain(Front(s), first, second, both);
      if first(Last(s)) {
        assert Front(Filter(Front(s), first) + [Last(s)]) == Filter(Front(s), first);
      } else {
        assert Filter(Front(s), first) + [] == Filter(Front(s), first);
        assert Filter(Front(s), both) + [] == Filter(Front(s), both);
      }
    }
  }

  // ---------------------------------------------------------------- the pieces of tasks

  /** Two entries with the same clients let the same jobs live. */
  lemma SameAlive(b: Backlog, c: Entry, c': Entry)
    requires c'.keyboard.client.Some? == c.keyboard.client.Some? && c'.pointing.client.Some? == c.pointing.client.Some?
    requires c.keyboard.client.Some? ==> c'.keyboard.client.value.id == c.keyboard.client.value.id
    requires c.pointing.client.Some? ==> c'.pointing.client.value.id == c.pointing.client.value.id
    ensures Filter(b.jobs, AliveIn(c')) == Filter(b.jobs, AliveIn(c))
  {
    FilterSame(b.jobs, AliveIn(c'), AliveIn(c));
  }

  lemma PushJoined(b: Backlog, c: Entry, job: Job)
    ensures Push(Joined(b, c), job) == Joined(b, Push(c, job)) && Keeps(c, Push(c, job))
  {
    SameAlive(b, c, Push(c, job));
    Associate(Filter(b.jobs, AliveIn(c)), c.ready, [job]);
  }

  lemma PerformJoined(b: Backlog, c: Entry, owner: ObjectId, effects: seq<IoService.Effect>)
    ensures Reconciler.Perform(Joined(b, c), owner, effects) == Joined(b, Reconciler.Perform(c, owner, effects))
    ensures Keeps(c, Reconciler.Perform(c, owner, effects))
  {
    SameAlive(b, c, Reconciler.Perform(c, owner, effects));
    Associate(Filter(b.jobs, AliveIn(c)), c.ready, SignalJobs(owner, effects));
  }

  lemma CheckStatusJoined(b: Backlog, c: Entry, activated: bool)
    ensures CheckStatusChanged(Joined(b, c), activated) == Joined(b, CheckStatusChanged(c, activated))
    ensures Keeps(c, CheckStatusChanged(c, activated))
  {
    SameAlive(b, c, CheckStatusChanged(c, activated));
  }

  /** A client that goes takes its jobs along, old and new. */
  lemma DropJoined(b: Backlog, c: Entry, d: Device, dropped: Entry)
    requires Sound(c) && SlotOf(c, d).client.Some?
    requires dropped == WithSlot(c, d, SlotOf(c, d).(client := None)).(ready := Without(c.ready, SlotOf(c, d).client.value.id))
    ensures Without(Joined(b, c).ready, SlotOf(c, d).client.value.id) == Joined(b, dropped).ready
  {
    var id := SlotOf(c, d).client.value.id;
    FilterConcat(Filter(b.jobs, AliveIn(c)), c.ready, OwnedByOther(id));
    FilterAgain(b.jobs, AliveIn(c), OwnedByOther(id), AliveIn(dropped));
  }

  lemma DestroyJoined(b: Backlog, c: Entry, d: Device)
    requires Sound(c)
    ensures Destroy(Joined(b, c), d) == Joined(b, Destroy(c, d)) && Keeps(c, Destroy(c, d))
  {
    var slot := SlotOf(c, d);
    if slot.client.Some? {
      var client := slot.client.value;
      var dropped := WithSlot(c, d, slot.(client := None)).(ready := Without(c.ready, client.id));
      DropJoined(b, c, d, dropped);
      PerformJoined(b, dropped, client.id, IoService.Shutdown(client.io).effects);
      assert WithSlot(Joined(b, c), d, slot.(client := None)).(ready := Without(Joined(b, c).ready, client.id)) == Joined(b, dropped);
    }
  }

  lemma CreateJoined(b: Backlog, c: Entry, d: Device)
    requires Sound(c) && Older(b, c.nextId) && SlotOf(c, d).client.None?
    ensures Create(Joined(b, c), d) == Joined(b, Create(c, d)) && Keeps(c, Create(c, d))
  {
    var c' := Create(c, d);
    FilterSame(b.jobs, AliveIn(c'), AliveIn(c));
    Associate(Filter(b.jobs, AliveIn(c)), c.ready, [Job(c.nextId, Start)]);
    Associate(b.checks, c.timers, [Timer(c.now + CHECK_DELAY, d, SlotOf(c, d).generation + 1, c.nextId)]);
  }

  lemma SetupDeviceJoined(b: Backlog, c: Entry, d: Device)
    requires Sound(c) && Older(b, c.nextId)
    ensures SetupDevice(Joined(b, c), d) == Joined(b, SetupDevice(c, d)) && Keeps(c, SetupDevice(c, d))
  {
    if !SlotOf(c, d).enabled {
      DestroyJoined(b, c, d);
    } else if SlotOf(c, d).client.None? {
      CreateJoined(b, c, d);
    }
  }

  lemma KeepsTransitive(a: Entry, b: Entry, c: Entry)
    requires Keeps(a, b) && Keeps(b, c)
    ensures Keeps(a, c)
  {
  }

  lemma SetupJoined(b: Backlog, c: Entry)
    requires Sound(c) && Older(b, c.nextId)
    ensures Setup(Joined(b, c)) == Joined(b, Setup(c)) && Keeps(c, Setup(c))
  {
    var c1 := SetupDevice(c, Keyboard);
    SetupDeviceJoined(b, c, Keyboard);
    SetupDeviceJoined(b, c1, Pointing);
    KeepsTransitive(c, c1, Setup(c));
  }

  // ---------------------------------------------------------------- requests and checks

  lemma EnableJoined(b: Backlog, c: Entry, wanted: Entry)
    requires Sound(c) && Older(b, c.nextId)
    requires wanted == c.(keyboard := c.keyboard.(enabled := wanted.keyboard.enabled),
                          pointing := c.pointing.(enabled := wanted.pointing.enabled), parameters := wanted.parameters)
    ensures var joined := Joined(b, c).(keyboard := wanted.keyboard, pointing := wanted.pointing, parameters := wanted.parameters);
            Setup(joined) == Joined(b, Setup(wanted))
    ensures Keeps(c, Setup(wanted))
  {
    SameAlive(b, c, wanted);
    SetupJoined(b, wanted);
  }

  lemma EnableKeyboardJoined(b: Backlog, c: Entry, parameters: Parameters)
    requires Sound(c) && Older(b, c.nextId)
    ensures EnableKeyboard(Joined(b, c), parameters) == Joined(b, EnableKeyboard(c, parameters))
    ensures Keeps(c, EnableKeyboard(c, parameters))
  {
    var cleaned := if c.keyboard.client.Some? && c.parameters != parameters then Destroy(c, Keyboard) else c;
    DestroyJoined(b, c, Keyboard);
    var wanted := cleaned.(keyboard := cleaned.keyboard.(enabled := true), parameters := parameters);
    EnableJoined(b, cleaned, wanted);
    KeepsTransitive(c, cleaned, Setup(wanted));
  }

  lemma TerminateJoined(b: Backlog, c: Entry, d: Device)
    requires Sound(c)
    ensures Terminate(Joined(b, c), d) == Joined(b, Terminate(c, d)) && Keeps(c, Terminate(c, d))
  {
    var slot := SlotOf(c, d);
    var disabled := WithSlot(c, d, slot.(enabled := false, generation := slot.generation + 1));
    SameAlive(b, c, disabled);
    DestroyJoined(b, disabled, d);
  }

  lemma ReconfigureJoined(b: Backlog, c: Entry, request: Request)
    requires Sound(c) && Older(b, c.nextId)
    ensures Reconfigure(Joined(b, c), request) == Joined(b, Reconfigure(c, request)) && Keeps(c, Reconfigure(c, request))
  {
    match request
    case KeyboardInitialize(parameters) => EnableKeyboardJoined(b, c, parameters);
    case KeyboardTerminate => TerminateJoined(b, c, Keyboard);
    case PointingInitialize => EnableJoined(b, c, c.(pointing := c.pointing.(enabled := true)));
    case PointingTerminate => TerminateJoined(b, c, Pointing);
  }

  lemma ApplyJoined(b: Backlog, c: Entry, request: Request, activated: bool)
    requires Sound(c) && Older(b, c.nextId)
    ensures ApplyRequest(Joined(b, c), request, activated) == Joined(b, ApplyRequest(c, request, activated))
    ensures Keeps(c, ApplyRequest(c, request, activated))
  {
    ReconfigureJoined(b, c, request);
    RecordJoined(b, c, Reconfigure(c, request), request, activated);
  }

  lemma RecordJoined(b: Backlog, c: Entry, changed: Entry, request: Request, activated: bool)
    requires Keeps(c, changed)
    ensures var recorded := changed.(history := changed.history.(applied := changed.history.applied + [request]));
            var joined := Joined(b, changed);
            && CheckStatusChanged(joined.(history := joined.history.(applied := joined.history.applied + [request])), activated)
               == Joined(b, CheckStatusChanged(recorded, activated))
            && Keeps(c, CheckStatusChanged(recorded, activated))
  {
    var recorded := changed.(history := changed.history.(applied := changed.history.applied + [request]));
    SameAlive(b, changed, recorded);
    CheckStatusJoined(b, recorded, activated);
  }

  lemma CheckJoined(b: Backlog, c: Entry, timer: Timer)
    requires Sound(c) && Older(b, c.nextId)
    ensures Check(Joined(b, c), timer) == Joined(b, Check(c, timer)) && Keeps(c, Check(c, timer))
  {
    DestroyJoined(b, c, timer.device);
    var destroyed := Destroy(c, timer.device);
    SetupJoined(b, destroyed);
    KeepsTransitive(c, destroyed, Setup(destroyed));
  }

  // ---------------------------------------------------------------- clients' jobs and events

  /** A client's new state, and its run with one more event. */
  function Moved(c: Entry, p: Place, id: ObjectId, event: IoService.Event, io: IoService.State): Entry
    requires p.InSlot? ==> SlotOf(c, p.device).client.Some?
  {
    var run := if id in c.history.runs then c.history.runs[id] else [];
    WithIo(c, p, io).(history := c.history.(runs := c.history.runs[id := run + [event]]))
  }

  lemma MovedJoined(b: Backlog, c: Entry, p: Place, id: ObjectId, event: IoService.Event, io: IoService.State)
    requires PlaceOf(c, id) == p && !p.Nowhere?
    ensures Moved(Joined(b, c), p, id, event, io) == Joined(b, Moved(c, p, id, event, io))
    ensures Keeps(c, Moved(c, p, id, event, io))
  {
    SameAlive(b, c, Moved(c, p, id, event, io));
  }

  lemma StepClientJoined(b: Backlog, c: Entry, p: Place, id: ObjectId, event: IoService.Event)
    requires PlaceOf(c, id) == p && !p.Nowhere?
    ensures StepClient(Joined(b, c), p, id, event) == Joined(b, StepClient(c, p, id, event))
    ensures Keeps(c, StepClient(c, p, id, event))
  {
    var out := IoService.Step(IoAt(c, p), event);
    MovedJoined(b, c, p, id, event, out.state);
    PerformJoined(b, Moved(c, p, id, event, out.state), id, out.effects);
  }

  lemma RunClientJobJoined(b: Backlog, c: Entry, p: Place, job: Job, answers: Answers)
    requires PlaceOf(c, job.owner) == p && !p.Nowhere?
    ensures RunClientJob(Joined(b, c), p, job, answers) == Joined(b, RunClientJob(c, p, job, answers))
    ensures Keeps(c, RunClientJob(c, p, job, answers))
  {
    match EventOf(job.task, answers)
    case Some(event) =>
      var stepped := StepClient(c, p, job.owner, event);
      StepClientJoined(b, c, p, job.owner, event);
      if job.task.AskReady? {
        PushJoined(b, stepped, Job(job.owner, StoreReady(job.task.device, IoService.ReadyAnswer(IoAt(c, p), answers.ready))));
      }
    case None =>
      CheckStatusJoined(b, c, answers.activated);
      PushJoined(b, c, Job(job.owner, Issue(DriverCall.InitializeKeyboard(c.parameters))));
      PushJoined(b, c, Job(job.owner, Issue(DriverCall.InitializePointing)));
  }

  lemma RunJobJoined(b: Backlog, c: Entry, job: Job, answers: Answers)
    requires Sound(c) && Older(b, c.nextId)
    ensures RunJob(Joined(b, c), job, answers) == Joined(b, RunJob(c, job, answers)) && Keeps(c, RunJob(c, job, answers))
  {
    if job.owner == ENTRY {
      match job.task
      case Apply(request) => ApplyJoined(b, c, request, answers.activated);
      case CheckStatus => CheckStatusJoined(b, c, answers.activated);
      case _ =>
    } else if !PlaceOf(c, job.owner).Nowhere? {
      RunClientJobJoined(b, c, PlaceOf(c, job.owner), job, answers);
    }
  }

  lemma PushToClientJoined(b: Backlog, c: Entry, d: Device, task: Task)
    ensures PushToClient(Joined(b, c), d, task) == Joined(b, PushToClient(c, d, task)) && Keeps(c, PushToClient(c, d, task))
  {
    if SlotOf(c, d).client.Some? { PushJoined(b, c, Job(SlotOf(c, d).client.value.id, task)); }
  }

  lemma KernelEventJoined(b: Backlog, c: Entry, id: ObjectId, event: IoService.Event)
    ensures KernelEvent(Joined(b, c), id, event) == Joined(b, KernelEvent(c, id, event)) && Keeps(c, KernelEvent(c, id, event))
  {
    if !PlaceOf(c, id).Nowhere? { StepClientJoined(b, c, PlaceOf(c, id), id, event); }
  }

  /** What comes from outside the queue. */
  lemma StepJoined(b: Backlog, c: Entry, action: Action)
    requires !action.RunNext? && !action.Elapse?
    ensures Step(Joined(b, c), action) == Joined(b, Step(c, action)) && Keeps(c, Step(c, action))
  {
    match action
    case AskStatus => PushJoined(b, c, Job(ENTRY, CheckStatus));
    case Receive(request) => PushJoined(b, c, Job(ENTRY, Apply(request)));
    case ReceiveReset(d) => PushToClientJoined(b, c, d, Issue(ResetDevice(d)));
    case ReceiveReport(report) => PushToClientJoined(b, c, report.device, Issue(PostReport(report.device, report.bytes)));
    case ReadyTimer =>
      var asked := PushToClient(c, Keyboard, AskReady(Keyboard));
      PushToClientJoined(b, c, Keyboard, AskReady(Keyboard));
      PushToClientJoined(b, asked, Pointing, AskReady(Pointing));
      KeepsTransitive(c, asked, Step(c, action));
    case KernelMatched(id, service, kernel) => KernelEventJoined(b, c, id, IoService.ServiceMatched(service, kernel));
    case KernelTerminated(id, service, kernel) => KernelEventJoined(b, c, id, IoService.ServiceTerminated(service, kernel));
  }
}
