/**
  A daemon with one peer, for following a run of it step by step: where the peer's entry stands, what is queued immediately and what
  later, and what each kind of happening makes of that.
 */
module OnePeer {
  import opened Wrappers
  import opened Protocol
  import opened Sequences
  import opened Reconciler
  import opened EntryTasks
  import opened DispatcherQueue
  import IoService
  import D = Daemon
  import Wire

  const P: D.PeerId := 1
  const NEW: ObjectId := 2

  // ---------------------------------------------------------------- where the entry stands

  /** The status client, the keyboard's client, and the status last pushed. */
  datatype Shot = Shot(status: IoService.State, keyboard: Option<IoService.State>, last: Option<Status>)

  function KeyboardSlot(io: Option<IoService.State>): Slot {
    if io.None? then Slot(false, 0, None) else Slot(true, 1, Some(Client(NEW, 1, DEFAULT_PARAMETERS, io.value)))
  }

  ghost predicate Stage(e: Entry, ready: seq<Job>, timers: seq<Timer>, s: Shot) {
    && e.ready == ready && e.timers == timers
    && e.status == Client(STATUS, 0, DEFAULT_PARAMETERS, s.status)
    && e.keyboard == KeyboardSlot(s.keyboard) && (s.keyboard.None? ==> e.nextId == NEW)
    && e.pointing == Slot(false, 0, None) && e.parameters == DEFAULT_PARAMETERS
    && e.last == s.last
  }

  /** The status that a sample shows; a driver is activated all the time. */
  function Face(s: Shot): Status {
    Status(true, IoService.Connected(s.status), IoService.Mismatched(s.status),
           s.keyboard.Some? && IoService.ShownReady(s.keyboard.value, Keyboard) == Some(true), false)
  }

  function Kernel(ready: Option<bool>): Answers {
    Answers(true, true, ready)
  }

  lemma FaceIs(e: Entry, ready: seq<Job>, timers: seq<Timer>, s: Shot)
    requires Stage(e, ready, timers, s)
    ensures MakeResponse(e, true) == Face(s)
  {
  }

  lemma Samples(e: Entry, ready: seq<Job>, timers: seq<Timer>, s: Shot)
    requires Stage(e, ready, timers, s)
    ensures Stage(CheckStatusChanged(e, true), ready, timers, s.(last := Some(Face(s))))
  {
    FaceIs(e, ready, timers, s);
  }

  lemma StatusSteps(c: Entry, s: Shot, event: IoService.Event)
    requires Stage(c, [], [], s)
    ensures PlaceOf(c, STATUS) == InStatus
    ensures var out := IoService.Step(s.status, event);
            Stage(StepClient(c, InStatus, STATUS, event), SignalJobs(STATUS, out.effects), [], s.(status := out.state))
  {
    var out := IoService.Step(s.status, event);
    assert [] + SignalJobs(STATUS, out.effects) == SignalJobs(STATUS, out.effects);
  }

  lemma KeyboardSteps(c: Entry, s: Shot, event: IoService.Event)
    requires Stage(c, [], [], s) && s.keyboard.Some?
    ensures PlaceOf(c, NEW) == InSlot(Keyboard)
    ensures var out := IoService.Step(s.keyboard.value, event);
            Stage(StepClient(c, InSlot(Keyboard), NEW, event), SignalJobs(NEW, out.effects), [], s.(keyboard := Some(out.state)))
  {
    var out := IoService.Step(s.keyboard.value, event);
    assert [] + SignalJobs(NEW, out.effects) == SignalJobs(NEW, out.effects);
  }

  // ---------------------------------------------------------------- where the queue stands

  function Soon(tickets: seq<D.Ticket>): seq<Item<D.Ticket>> {
    seq(|tickets|, i requires 0 <= i < |tickets| => Item(IMMEDIATELY, tickets[i]))
  }

  function Tickets(jobs: seq<Job>): seq<D.Ticket> {
    seq(|jobs|, i requires 0 <= i < |jobs| => D.Of(P, D.Task(jobs[i])))
  }

  /** Delayed tasks: the ready timer, and the check of the keyboard's client. */
  ghost predicate Later(items: seq<Item<D.Ticket>>) {
    forall x | x in items :: x.due > IMMEDIATELY && x.work.Of? && !x.work.work.Task?
  }

  lemma {:induction false} SoonEnds(front: seq<D.Ticket>, later: seq<Item<D.Ticket>>)
    requires Later(later)
    ensures UpperBound(Soon(front) + later, IMMEDIATELY) == |front|
  {
    var queue := Soon(front) + later;
    if front == [] {
      assert queue == later;
      if later != [] { assert later[0] in later; }
    } else {
      SoonEnds(front[1..], later);
      assert queue[1..] == Soon(front[1..]) + later;
    }
  }

  lemma InsertSoon(front: seq<D.Ticket>, later: seq<Item<D.Ticket>>, t: D.Ticket)
    requires Later(later)
    ensures Insert(Soon(front) + later, Item(IMMEDIATELY, t)) == Soon(front + [t]) + later
  {
    SoonEnds(front, later);
  }

  lemma {:induction false} InsertAllSoon(front: seq<D.Ticket>, later: seq<Item<D.Ticket>>, more: seq<D.Ticket>)
    requires Later(later)
    ensures InsertAll(Soon(front) + later, Soon(more)) == Soon(front + more) + later
  {
    if more == [] {
      assert front + more == front;
    } else {
      InsertAllSoon(front, later, Front(more));
      assert Front(Soon(more)) == Soon(Front(more));
      InsertSoon(front + Front(more), later, Last(more));
      assert front + Front(more) + [Last(more)] == front + more;
    }
  }

  lemma {:induction false} LaterBehind(front: seq<D.Ticket>, later: seq<Item<D.Ticket>>, due: nat)
    requires due > IMMEDIATELY
    ensures UpperBound(Soon(front) + later, due) == |front| + UpperBound(later, due)
  {
    var queue := Soon(front) + later;
    if front == [] {
      assert queue == later;
    } else {
      LaterBehind(front[1..], later, due);
      assert queue[1..] == Soon(front[1..]) + later;
    }
  }

  lemma InsertLater(front: seq<D.Ticket>, later: seq<Item<D.Ticket>>, x: Item<D.Ticket>)
    requires x.due > IMMEDIATELY
    ensures Insert(Soon(front) + later, x) == Soon(front) + Insert(later, x)
  {
    LaterBehind(front, later, x.due);
  }

  /** Which tasks outlive a step that leaves `s`. */
  predicate Lives(t: D.Ticket, s: Shot) {
    t.Of? && t.work.Task? ==> t.peer == P && (t.work.job.owner == ENTRY || t.work.job.owner == STATUS || (t.work.job.owner == NEW && s.keyboard.Some?))
  }

  lemma TicketSurvives(t: D.Ticket, e: Entry, s: Shot)
    requires Lives(t, s) && e.keyboard == KeyboardSlot(s.keyboard)
    ensures D.Survives(P, e)(Item(IMMEDIATELY, t))
  {
    if t.Of? && t.work.Task? { assert AliveIn(e)(t.work.job); }
  }

  lemma AllSurvive(front: seq<D.Ticket>, later: seq<Item<D.Ticket>>, e: Entry, ready: seq<Job>, timers: seq<Timer>, s: Shot)
    requires Later(later) && Stage(e, ready, timers, s) && forall t | t in front :: Lives(t, s)
    ensures Filter(Soon(front) + later, D.Survives(P, e)) == Soon(front) + later
  {
    var queue := Soon(front) + later;
    forall x | x in queue ensures D.Survives(P, e)(x) {
      if x in later {
        assert !x.work.work.Task?;
      } else {
        var i :| 0 <= i < |front| && Soon(front)[i] == x;
        TicketSurvives(front[i], e, s);
      }
    }
    FilterAll(queue, D.Survives(P, e));
  }

  lemma AddedSoon(e: Entry, ready: seq<Job>)
    requires e.ready == ready && e.timers == []
    ensures D.Added(P, e) == Soon(Tickets(ready))
  {
  }

  // ---------------------------------------------------------------- where the daemon stands

  ghost predicate Queued(g: D.State, now: nat, front: seq<D.Ticket>, later: seq<Item<D.Ticket>>) {
    g.now == now && g.queue == Soon(front) + later && Later(later) && P in g.entries
  }

  ghost predicate Stands(g: D.State, now: nat, front: seq<D.Ticket>, later: seq<Item<D.Ticket>>, s: Shot) {
    Queued(g, now, front, later) && Stage(g.entries[P], [], [], s)
  }

  lemma ExecutedStands(g: D.State, now: nat, front: seq<D.Ticket>, later: seq<Item<D.Ticket>>, e: Entry, ready: seq<Job>, s: Shot)
    requires Queued(g, now, front, later) && Stage(e, ready, [], s) && forall t | t in front :: Lives(t, s)
    ensures Stands(D.Executed(g, P, e), now, front + Tickets(ready), later, s)
  {
    AllSurvive(front, later, e, ready, [], s);
    AddedSoon(e, ready);
    InsertAllSoon(front, later, Tickets(ready));
  }

  /** The front is taken. */
  lemma FrontTaken(g: D.State, now: nat, t: D.Ticket, front: seq<D.Ticket>, later: seq<Item<D.Ticket>>, s: Shot, answers: Answers)
    requires Stands(g, now, [t] + front, later, s)
    ensures g.queue != [] && g.queue[0].work == t && Stands(D.Rest(g), now, front, later, s)
    ensures D.Next(g, D.Take(answers)) == D.TakeFront(g, answers)
    ensures D.Core(D.Rest(g), P) == D.Core(g, P)
  {
    assert g.queue[0] == Soon([t] + front)[0];
    assert g.queue[1..] == Soon(front) + later;
  }

  lemma CoreStage(g: D.State, now: nat, front: seq<D.Ticket>, later: seq<Item<D.Ticket>>, s: Shot)
    requires Stands(g, now, front, later, s)
    ensures Stage(D.Core(g, P), [], [], s)
  {
  }

  // ---------------------------------------------------------------- kinds of happenings

  /** The kernel says that a driver is activated, and no service goes. */
  predicate Calm(h: D.Happening) {
    match h
    case Take(answers) => answers.activated
    case KernelSays(_, action) => action.KernelMatched?
    case Elsewhere(_) => false
    case _ => true
  }

  ghost predicate At(x: seq<D.Happening>, now: nat, front: seq<D.Ticket>, later: seq<Item<D.Ticket>>, s: Shot) {
    Stands(D.Run(x), now, front, later, s) && forall h | h in x :: Calm(h)
  }

  lemma RunThen(x: seq<D.Happening>, h: D.Happening)
    ensures D.Run(x + [h]) == D.Next(D.Run(x), h)
  {
    assert Front(x + [h]) == x;
  }

  /** A task of the entry is run on `c` and leaves `e`. */
  lemma JobTaken(g: D.State, now: nat, job: Job, front: seq<D.Ticket>, later: seq<Item<D.Ticket>>, s: Shot, answers: Answers,
                 e: Entry, ready: seq<Job>, s': Shot)
    requires Stands(g, now, [D.Of(P, D.Task(job))] + front, later, s) && forall t | t in front :: Lives(t, s')
    requires e == RunJob(D.Core(g, P), job, answers) && Stage(e, ready, [], s')
    ensures Stands(D.Next(g, D.Take(answers)), now, front + Tickets(ready), later, s')
  {
    FrontTaken(g, now, D.Of(P, D.Task(job)), front, later, s, answers);
    ExecutedStands(D.Rest(g), now, front, later, e, ready, s');
  }

  lemma ArrivesAt(x: seq<D.Happening>, m: D.Message, now: nat, front: seq<D.Ticket>, later: seq<Item<D.Ticket>>, s: Shot) returns (x': seq<D.Happening>)
    requires At(x, now, front, later, s)
    ensures x' == x + [D.Arrives(m)] && At(x', now, front + [D.Server(m)], later, s)
  {
    x' := x + [D.Arrives(m)];
    RunThen(x, D.Arrives(m));
    InsertSoon(front, later, D.Server(m));
  }

  lemma PassesAt(x: seq<D.Happening>, time: nat, now: nat, front: seq<D.Ticket>, later: seq<Item<D.Ticket>>, s: Shot) returns (x': seq<D.Happening>)
    requires At(x, now, front, later, s)
    ensures x' == x + [D.Passes(time)] && At(x', now + time, front, later, s)
  {
    x' := x + [D.Passes(time)];
    RunThen(x, D.Passes(time));
  }

  function CallAgain(now: nat): Item<D.Ticket> {
    Item(now + D.READY_INTERVAL, D.Of(P, D.CallTimer))
  }

  const ASK_BOTH := D.Of(P, D.AskBoth)

  /** The ready timer calls itself. */
  lemma TimerQueued(g: D.State, now: nat, front: seq<D.Ticket>, later: seq<Item<D.Ticket>>, s: Shot)
    requires Stands(g, now, front, later, s) && now + D.READY_INTERVAL > IMMEDIATELY
    ensures var g' := D.RunWork(g, P, D.CallTimer, Kernel(None));
            Stands(g', now, front + [ASK_BOTH], Insert(later, CallAgain(now)), s)
  {
    var items := D.TimerItems(now, P);
    assert items == [Item(IMMEDIATELY, ASK_BOTH)] + [CallAgain(now)];
    assert Front(items) == [Item(IMMEDIATELY, ASK_BOTH)] && Front(Front(items)) == [];
    assert InsertAll(g.queue, Front(items)) == Insert(g.queue, Item(IMMEDIATELY, ASK_BOTH));
    InsertSoon(front, later, ASK_BOTH);
    InsertLater(front + [ASK_BOTH], later, CallAgain(now));
    forall x | x in Insert(later, CallAgain(now)) ensures x.due > IMMEDIATELY && x.work.Of? && !x.work.work.Task? {
      InsertMember(later, CallAgain(now), x);
    }
  }

  lemma TakeCall(x: seq<D.Happening>, now: nat, front: seq<D.Ticket>, later: seq<Item<D.Ticket>>, s: Shot) returns (x': seq<D.Happening>)
    requires At(x, now, [D.Of(P, D.CallTimer)] + front, later, s)
    ensures At(x', now, front + [ASK_BOTH], Insert(later, CallAgain(now)), s)
  {
    x' := x + [D.Take(Kernel(None))];
    RunThen(x, D.Take(Kernel(None)));
    FrontTaken(D.Run(x), now, D.Of(P, D.CallTimer), front, later, s, Kernel(None));
    TimerQueued(D.Rest(D.Run(x)), now, front, later, s);
  }

  /** The same a second later, when the call is the first task due. */
  lemma TakeDueCall(x: seq<D.Happening>, now: nat, due: nat, later: seq<Item<D.Ticket>>, s: Shot) returns (x': seq<D.Happening>)
    requires At(x, now, [], [Item(due, D.Of(P, D.CallTimer))] + later, s) && due <= now
    ensures At(x', now, [ASK_BOTH], Insert(later, CallAgain(now)), s)
  {
    x' := x + [D.Take(Kernel(None))];
    var g := D.Run(x);
    RunThen(x, D.Take(Kernel(None)));
    var call := Item(due, D.Of(P, D.CallTimer));
    assert Soon([]) + ([call] + later) == [call] + later;
    assert g.queue[1..] == Soon([]) + later;
    forall y | y in later ensures y in [call] + later {}
    TimerQueued(D.Rest(g), now, [], later, s);
    assert [] + [ASK_BOTH] == [ASK_BOTH];
  }

  function Questions(s: Shot): seq<Job> {
    if s.keyboard.Some? then [Job(NEW, AskReady(Keyboard))] else []
  }

  lemma TakeAskBoth(x: seq<D.Happening>, now: nat, front: seq<D.Ticket>, later: seq<Item<D.Ticket>>, s: Shot) returns (x': seq<D.Happening>)
    requires At(x, now, [ASK_BOTH] + front, later, s) && forall t | t in front :: Lives(t, s)
    ensures At(x', now, front + Tickets(Questions(s)), later, s)
  {
    x' := x + [D.Take(Kernel(None))];
    var g := D.Run(x);
    RunThen(x, D.Take(Kernel(None)));
    FrontTaken(g, now, ASK_BOTH, front, later, s, Kernel(None));
    CoreStage(D.Rest(g), now, front, later, s);
    BothAsked(D.Core(D.Rest(g), P), s);
    ExecutedStands(D.Rest(g), now, front, later, Step(D.Core(D.Rest(g), P), ReadyTimer), Questions(s), s);
  }

  lemma BothAsked(c: Entry, s: Shot)
    requires Stage(c, [], [], s)
    ensures Stage(Step(c, ReadyTimer), Questions(s), [], s)
  {
    assert [] + Questions(s) == Questions(s);
  }

  /** A task that samples the status. */
  lemma TakeSample(x: seq<D.Happening>, now: nat, job: Job, front: seq<D.Ticket>, later: seq<Item<D.Ticket>>, s: Shot) returns (x': seq<D.Happening>)
    requires At(x, now, [D.Of(P, D.Task(job))] + front, later, s) && forall t | t in front :: Lives(t, s)
    requires job == Job(ENTRY, CheckStatus) || (job.task == Emit(IoService.StateChangedSignal) && (job.owner == STATUS || (job.owner == NEW && s.keyboard.Some?)))
    ensures At(x', now, front, later, s.(last := Some(Face(s))))
  {
    x' := x + [D.Take(Kernel(None))];
    var g := D.Run(x);
    RunThen(x, D.Take(Kernel(None)));
    CoreStage(g, now, [D.Of(P, D.Task(job))] + front, later, s);
    Samples(D.Core(g, P), [], [], s);
    SampleRuns(D.Core(g, P), s, job);
    JobTaken(g, now, job, front, later, s, Kernel(None), RunJob(D.Core(g, P), job, Kernel(None)), [], s.(last := Some(Face(s))));
    assert front + Tickets([]) == front;
  }

  lemma SampleRuns(c: Entry, s: Shot, job: Job)
    requires Stage(c, [], [], s)
    requires job == Job(ENTRY, CheckStatus) || (job.task == Emit(IoService.StateChangedSignal) && (job.owner == STATUS || (job.owner == NEW && s.keyboard.Some?)))
    ensures RunJob(c, job, Kernel(None)) == CheckStatusChanged(c, true)
  {
  }

  /** A task of the status client. */
  lemma TakeStatusJob(x: seq<D.Happening>, now: nat, task: Task, event: IoService.Event, front: seq<D.Ticket>, later: seq<Item<D.Ticket>>, s: Shot)
    returns (x': seq<D.Happening>)
    requires At(x, now, [D.Of(P, D.Task(Job(STATUS, task)))] + front, later, s) && forall t | t in front :: Lives(t, s)
    requires EventOf(task, Kernel(None)) == Some(event) && !task.AskReady?
    ensures var out := IoService.Step(s.status, event);
            At(x', now, front + Tickets(SignalJobs(STATUS, out.effects)), later, s.(status := out.state))
  {
    x' := x + [D.Take(Kernel(None))];
    var g := D.Run(x);
    var job := Job(STATUS, task);
    RunThen(x, D.Take(Kernel(None)));
    CoreStage(g, now, [D.Of(P, D.Task(job))] + front, later, s);
    StatusSteps(D.Core(g, P), s, event);
    var out := IoService.Step(s.status, event);
    JobTaken(g, now, job, front, later, s, Kernel(None), RunJob(D.Core(g, P), job, Kernel(None)), SignalJobs(STATUS, out.effects), s.(status := out.state));
  }

  /** A task of the keyboard's client. */
  lemma TakeKeyboardJob(x: seq<D.Happening>, now: nat, task: Task, event: IoService.Event, front: seq<D.Ticket>, later: seq<Item<D.Ticket>>, s: Shot)
    returns (x': seq<D.Happening>)
    requires s.keyboard.Some? && EventOf(task, Kernel(None)) == Some(event) && !task.AskReady?
    requires At(x, now, [D.Of(P, D.Task(Job(NEW, task)))] + front, later, s) && forall t | t in front :: Lives(t, s)
    ensures var out := IoService.Step(s.keyboard.value, event);
            At(x', now, front + Tickets(SignalJobs(NEW, out.effects)), later, s.(keyboard := Some(out.state)))
  {
    x' := x + [D.Take(Kernel(None))];
    var g := D.Run(x);
    var job := Job(NEW, task);
    RunThen(x, D.Take(Kernel(None)));
    CoreStage(g, now, [D.Of(P, D.Task(job))] + front, later, s);
    KeyboardSteps(D.Core(g, P), s, event);
    var out := IoService.Step(s.keyboard.value, event);
    JobTaken(g, now, job, front, later, s, Kernel(None), RunJob(D.Core(g, P), job, Kernel(None)), SignalJobs(NEW, out.effects), s.(keyboard := Some(out.state)));
  }

  /** `opened` makes the keyboard's client initialize the keyboard, and the status client do nothing. */
  function Opening(owner: ObjectId): seq<Job> {
    if owner == NEW then [Job(NEW, Issue(DriverCall.InitializeKeyboard(DEFAULT_PARAMETERS)))] else []
  }

  lemma OpenedRuns(c: Entry, s: Shot, owner: ObjectId)
    requires Stage(c, [], [], s) && (owner == STATUS || (owner == NEW && s.keyboard.Some?))
    ensures Stage(RunJob(c, Job(owner, Emit(IoService.OpenedSignal)), Kernel(None)), Opening(owner), [], s)
  {
    assert [] + Opening(owner) == Opening(owner);
  }

  lemma TakeOpened(x: seq<D.Happening>, now: nat, owner: ObjectId, front: seq<D.Ticket>, later: seq<Item<D.Ticket>>, s: Shot)
    returns (x': seq<D.Happening>)
    requires owner == STATUS || (owner == NEW && s.keyboard.Some?)
    requires At(x, now, [D.Of(P, D.Task(Job(owner, Emit(IoService.OpenedSignal))))] + front, later, s) && forall t | t in front :: Lives(t, s)
    ensures At(x', now, front + Tickets(Opening(owner)), later, s)
  {
    x' := x + [D.Take(Kernel(None))];
    var g := D.Run(x);
    var job := Job(owner, Emit(IoService.OpenedSignal));
    RunThen(x, D.Take(Kernel(None)));
    CoreStage(g, now, [D.Of(P, D.Task(job))] + front, later, s);
    OpenedRuns(D.Core(g, P), s, owner);
    JobTaken(g, now, job, front, later, s, Kernel(None), RunJob(D.Core(g, P), job, Kernel(None)), Opening(owner), s);
  }

  // ---------------------------------------------------------------- connecting to the driver

  const LISTENING := IoService.INITIAL.(monitoring := true)

  function Open(handle: IoService.Handle): IoService.State {
    IoService.State(true, [IoService.Service(1, true, false)], Some(handle), Some(EMBEDDED_DRIVER_VERSION), None, None)
  }

  function FirstService(handle: IoService.Handle): IoService.Kernel {
    map[1 := IoService.OpenSucceeded(handle, Some(EMBEDDED_DRIVER_VERSION))]
  }

  function Changed(owner: ObjectId): Job {
    Job(owner, Emit(IoService.StateChangedSignal))
  }

  function Opened(owner: ObjectId): Job {
    Job(owner, Emit(IoService.OpenedSignal))
  }

  lemma FirstMatch(owner: ObjectId, handle: IoService.Handle)
    requires handle != IoService.NULL_HANDLE
    ensures var out := IoService.Matched(LISTENING, 1, FirstService(handle));
            out.state == Open(handle) && SignalJobs(owner, out.effects) == [Changed(owner), Opened(owner), Changed(owner)]
  {
    assert IoService.Insert([], 1) == [] + [IoService.Service(1, false, false)];
    var listed := LISTENING.(services := [IoService.Service(1, false, false)]);
    var changed, opening := IoService.Enqueue(IoService.StateChangedSignal), IoService.Enqueue(IoService.OpenedSignal);
    var asking := [IoService.Open(1, handle), IoService.QueryVersion(handle, Some(EMBEDDED_DRIVER_VERSION))];
    var out := IoService.OpenConnection(listed, FirstService(handle));
    assert out.state == Open(handle);
    assert out.effects == asking + [changed, opening];
    Signals(owner, asking, changed, opening);
  }

  lemma Signals(owner: ObjectId, asking: seq<IoService.Effect>, changed: IoService.Effect, opening: IoService.Effect)
    requires forall x | x in asking :: !x.Enqueue?
    requires changed == IoService.Enqueue(IoService.StateChangedSignal) && opening == IoService.Enqueue(IoService.OpenedSignal)
    ensures SignalJobs(owner, asking + [changed, opening] + [changed]) == [Changed(owner), Opened(owner), Changed(owner)]
  {
    CollectNothing(asking, SignalJob(owner));
    assert asking + [changed, opening] + [changed] == asking + [changed, opening, changed];
    CollectRight(asking, [changed, opening, changed], SignalJob(owner));
    CollectThree(changed, opening, changed, SignalJob(owner));
  }

  function TaskOf(job: Job): D.Ticket {
    D.Of(P, D.Task(job))
  }

  function Greetings(owner: ObjectId): seq<Job> {
    [Changed(owner), Opened(owner), Changed(owner)]
  }

  lemma StatusMatched(c: Entry, s: Shot)
    requires Stage(c, [], [], s) && s.status == LISTENING
    ensures Stage(Step(c, KernelMatched(STATUS, 1, FirstService(4))), Greetings(STATUS), [], s.(status := Open(4)))
  {
    StatusSteps(c, s, IoService.ServiceMatched(1, FirstService(4)));
    FirstMatch(STATUS, 4);
  }

  lemma KeyboardMatched(c: Entry, s: Shot)
    requires Stage(c, [], [], s) && s.keyboard == Some(LISTENING)
    ensures Stage(Step(c, KernelMatched(NEW, 1, FirstService(5))), Greetings(NEW), [], s.(keyboard := Some(Open(5))))
  {
    KeyboardSteps(c, s, IoService.ServiceMatched(1, FirstService(5)));
    FirstMatch(NEW, 5);
  }

  /** The monitor of a client finds a service while nothing of the entry is queued. */
  lemma MatchAt(x: seq<D.Happening>, owner: ObjectId, handle: IoService.Handle, now: nat, later: seq<Item<D.Ticket>>, s: Shot, s': Shot)
    returns (x': seq<D.Happening>)
    requires At(x, now, [], later, s)
    requires Stage(Step(D.Core(D.Run(x), P), KernelMatched(owner, 1, FirstService(handle))), Greetings(owner), [], s')
    ensures At(x', now, Tickets(Greetings(owner)), later, s')
  {
    var action := KernelMatched(owner, 1, FirstService(handle));
    x' := x + [D.KernelSays(P, action)];
    RunThen(x, D.KernelSays(P, action));
    ExecutedStands(D.Run(x), now, [], later, Step(D.Core(D.Run(x), P), action), Greetings(owner), s');
    assert [] + Tickets(Greetings(owner)) == Tickets(Greetings(owner));
  }

  // ---------------------------------------------------------------- requests

  function Sent(c: Wire.Command): D.Ticket {
    D.Server(D.Received(P, Wire.Encode(c)))
  }

  const INITIALIZE := Wire.Initialize(DEFAULT_PARAMETERS)
  const TERMINATE := Wire.Terminate(Keyboard)
  const RESET := Wire.Reset(Keyboard)

  /** What passing a request on puts into the queue. */
  function Asked(c: Wire.Command): seq<Job> {
    if c == INITIALIZE then [Job(ENTRY, Apply(KeyboardInitialize(DEFAULT_PARAMETERS)))]
    else if c == TERMINATE then [Job(ENTRY, Apply(KeyboardTerminate))]
    else [Job(NEW, Issue(ResetDevice(Keyboard)))]
  }

  lemma AskedIs(c: Entry, s: Shot, command: Wire.Command)
    requires Stage(c, [], [], s)
    requires command == INITIALIZE || command == TERMINATE || (command == RESET && s.keyboard.Some?)
    ensures Stage(Step(c, D.ActionFor(command)), Asked(command), [], s)
  {
    assert [] + Asked(command) == Asked(command);
  }

  lemma RequestServed(g: D.State, c: Wire.Command)
    requires P in g.entries && Wire.Sendable(c)
    ensures D.Serve(g, D.Received(P, Wire.Encode(c))) == D.Executed(g, P, Step(D.Core(g, P), D.ActionFor(c)))
  {
    Wire.RoundTrip(c);
  }

  lemma TakeRequest(x: seq<D.Happening>, now: nat, c: Wire.Command, front: seq<D.Ticket>, later: seq<Item<D.Ticket>>, s: Shot)
    returns (x': seq<D.Happening>)
    requires At(x, now, [Sent(c)] + front, later, s) && forall t | t in front :: Lives(t, s)
    requires c == INITIALIZE || c == TERMINATE || (c == RESET && s.keyboard.Some?)
    ensures x' == x + [D.Take(Kernel(None))] && At(x', now, front + Tickets(Asked(c)), later, s)
  {
    x' := x + [D.Take(Kernel(None))];
    var g := D.Run(x);
    RunThen(x, D.Take(Kernel(None)));
    FrontTaken(g, now, Sent(c), front, later, s, Kernel(None));
    var rest := D.Rest(g);
    CoreStage(rest, now, front, later, s);
    RequestServed(rest, c);
    AskedIs(D.Core(rest, P), s, c);
    ExecutedStands(rest, now, front, later, Step(D.Core(rest, P), D.ActionFor(c)), Asked(c), s);
  }

  // ---------------------------------------------------------------- creating the keyboard's client

  lemma Configures(c: Entry, s: Shot)
    requires Stage(c, [], [], s) && s.keyboard.None?
    ensures Stage(Reconfigure(c, KeyboardInitialize(DEFAULT_PARAMETERS)), [Job(NEW, Start)], [Timer(c.now + CHECK_DELAY, Keyboard, 1, NEW)],
                  s.(keyboard := Some(IoService.INITIAL)))
  {
    assert [] + [Job(NEW, Start)] == [Job(NEW, Start)];
    assert [] + [Timer(c.now + CHECK_DELAY, Keyboard, 1, NEW)] == [Timer(c.now + CHECK_DELAY, Keyboard, 1, NEW)];
  }

  lemma Creates(c: Entry, s: Shot)
    requires Stage(c, [], [], s) && s.keyboard.None?
    ensures Stage(RunJob(c, Asked(INITIALIZE)[0], Kernel(None)), [Job(NEW, Start)], [Timer(c.now + CHECK_DELAY, Keyboard, 1, NEW)],
                  Shot(s.status, Some(IoService.INITIAL), Some(Face(s))))
  {
    Configures(c, s);
    var request := KeyboardInitialize(DEFAULT_PARAMETERS);
    var changed := Reconfigure(c, request);
    var recorded := changed.(history := changed.history.(applied := changed.history.applied + [request]));
    Samples(recorded, [Job(NEW, Start)], [Timer(c.now + CHECK_DELAY, Keyboard, 1, NEW)], s.(keyboard := Some(IoService.INITIAL)));
  }

  function CheckItem(t: Timer): Item<D.Ticket> {
    Item(t.due, D.Of(P, D.CheckTask(t)))
  }

  /** A step that also arms a check. */
  lemma ExecutedWithCheck(g: D.State, now: nat, later: seq<Item<D.Ticket>>, e: Entry, job: Job, t: Timer, s: Shot)
    requires Queued(g, now, [], later) && Stage(e, [job], [t], s) && t.due > IMMEDIATELY
    ensures Stands(D.Executed(g, P, e), now, [TaskOf(job)], Insert(later, CheckItem(t)), s)
  {
    AllSurvive([], later, e, [job], [t], s);
    var added := D.Added(P, e);
    assert added == [Item(IMMEDIATELY, TaskOf(job))] + [CheckItem(t)];
    assert Front(added) == [Item(IMMEDIATELY, TaskOf(job))] && Front(Front(added)) == [];
    assert InsertAll(g.queue, Front(added)) == Insert(g.queue, Item(IMMEDIATELY, TaskOf(job)));
    InsertSoon([], later, TaskOf(job));
    assert [] + [TaskOf(job)] == [TaskOf(job)];
    InsertLater([TaskOf(job)], later, CheckItem(t));
    forall x | x in Insert(later, CheckItem(t)) ensures x.due > IMMEDIATELY && x.work.Of? && !x.work.work.Task? {
      InsertMember(later, CheckItem(t), x);
    }
  }

  lemma TakeInitialize(x: seq<D.Happening>, later: seq<Item<D.Ticket>>, s: Shot) returns (x': seq<D.Happening>)
    requires At(x, 0, Tickets(Asked(INITIALIZE)), later, s) && s.keyboard.None?
    ensures At(x', 0, [TaskOf(Job(NEW, Start))], Insert(later, CheckItem(Timer(CHECK_DELAY, Keyboard, 1, NEW))),
               Shot(s.status, Some(IoService.INITIAL), Some(Face(s))))
  {
    x' := x + [D.Take(Kernel(None))];
    var g := D.Run(x);
    var job := Asked(INITIALIZE)[0];
    assert Tickets(Asked(INITIALIZE)) == [TaskOf(job)] + [];
    RunThen(x, D.Take(Kernel(None)));
    FrontTaken(g, 0, TaskOf(job), [], later, s, Kernel(None));
    CoreStage(D.Rest(g), 0, [], later, s);
    Creates(D.Core(g, P), s);
    ExecutedWithCheck(D.Rest(g), 0, later, RunJob(D.Core(g, P), job, Kernel(None)), Job(NEW, Start), Timer(CHECK_DELAY, Keyboard, 1, NEW),
                      Shot(s.status, Some(IoService.INITIAL), Some(Face(s))));
  }
}
