/**
  The whole daemon: an entry for each connected peer, and the one queue of the dispatcher that all of them share with everything else in
  the process. The entries have no queues of their own here; a task is run on its entry, and what it adds is put into the shared queue by
  its due time. Each peer nevertheless sees a run of its own entry, as if there were no other peers.
 */
module Daemon {
  import opened Wrappers
  import opened Protocol
  import opened Sequences
  import opened Reconciler
  import opened ReconcilerInvariant
  import opened EntryTasks
  import opened DispatcherQueue
  import EndToEnd
  import RequestFlow
  import Wire

  type PeerId = nat

  const READY_INTERVAL: nat := 1000

  /** Tasks of an entry and its clients; the ready timer has two, one that calls itself and one that asks. */
  datatype Work = Task(job: Job) | CheckTask(timer: Timer) | CallTimer | AskBoth

  /** What the server finds on its sockets; it is passed on by a task of the server. */
  datatype Message = Connected(peer: PeerId) | Closed(peer: PeerId) | Received(peer: PeerId, buffer: seq<uint8>)

  /** A queued task: of a peer's entry, of the server, or of some other object. */
  datatype Ticket = Of(peer: PeerId, work: Work) | Server(message: Message) | Unrelated

  datatype State = State(now: nat, entries: map<PeerId, Entry>, queue: seq<Item<Ticket>>)

  /** What may happen; `Elsewhere` is a task that some other object puts into the queue, to be run at any time. */
  datatype Happening =
    | Arrives(message: Message)
    | KernelSays(peer: PeerId, action: Action)
    | Passes(time: nat)
    | Elsewhere(due: nat)
    | Take(answers: Answers)

  // ---------------------------------------------------------------- the shared queue

  function JobsOf(p: PeerId): Item<Ticket> -> seq<Job> {
    (x: Item<Ticket>) => if x.work.Of? && x.work.peer == p && x.work.work.Task? then [x.work.work.job] else []
  }

  function ChecksOf(p: PeerId): Item<Ticket> -> seq<Timer> {
    (x: Item<Ticket>) => if x.work.Of? && x.work.peer == p && x.work.work.CheckTask? then [x.work.work.timer] else []
  }

  function JobItems(p: PeerId, jobs: seq<Job>): seq<Item<Ticket>> {
    seq(|jobs|, i requires 0 <= i < |jobs| => Item(IMMEDIATELY, Of(p, Task(jobs[i]))))
  }

  function CheckItems(p: PeerId, checks: seq<Timer>): seq<Item<Ticket>> {
    seq(|checks|, i requires 0 <= i < |checks| => Item(checks[i].due, Of(p, CheckTask(checks[i]))))
  }

  /** Detaching an object takes its tasks out of the queue; `e` is the entry after the objects are gone. */
  function Survives(p: PeerId, e: Entry): Item<Ticket> -> bool {
    (x: Item<Ticket>) => x.work.Of? && x.work.peer == p && x.work.work.Task? ==> AliveIn(e)(x.work.work.job)
  }

  function NotOf(p: PeerId): Item<Ticket> -> bool {
    (x: Item<Ticket>) => !(x.work.Of? && x.work.peer == p)
  }

  /** An entry at the present time, without a queue. */
  function Core(g: State, p: PeerId): Entry
    requires p in g.entries
  {
    g.entries[p].(now := g.now)
  }

  function Added(p: PeerId, e: Entry): seq<Item<Ticket>> {
    JobItems(p, e.ready) + CheckItems(p, e.timers)
  }

  /** A task of `p` was run, and left `e` with what it added. */
  function Executed(g: State, p: PeerId, e: Entry): State {
    State(g.now, g.entries[p := e.(ready := [], timers := [])], InsertAll(Filter(g.queue, Survives(p, e)), Added(p, e)))
  }

  // ---------------------------------------------------------------- what may happen

  /** What the server makes an entry do for a request. */
  function ActionFor(c: Wire.Command): Action {
    match c
    case Initialize(parameters) => Receive(KeyboardInitialize(parameters))
    case Terminate(Keyboard) => Receive(KeyboardTerminate)
    case Terminate(Pointing) => Receive(PointingTerminate)
    case Reset(d) => ReceiveReset(d)
    case InitializePointing => Receive(PointingInitialize)
    case Post(kind, report) => ReceiveReport(Report(EndToEnd.DeviceFor(kind), report))
  }

  predicate FromKernel(action: Action) {
    action.KernelMatched? || action.KernelTerminated?
  }

  /** A new entry starts its status client and its ready timer; then the server asks for a first status check. */
  function FirstTasks(p: PeerId): seq<Item<Ticket>> {
    [Item(IMMEDIATELY, Of(p, Task(Job(STATUS, Start)))), Item(IMMEDIATELY, Of(p, CallTimer)), Item(IMMEDIATELY, Of(p, Task(Job(ENTRY, CheckStatus))))]
  }

  /** A new entry, before its first tasks are queued. */
  function WithNew(g: State, p: PeerId): State {
    g.(entries := g.entries[p := INITIAL.(ready := [])])
  }

  /** The two tasks that the ready timer queues when it calls itself. */
  function TimerItems(now: nat, p: PeerId): seq<Item<Ticket>> {
    [Item(IMMEDIATELY, Of(p, AskBoth)), Item(now + READY_INTERVAL, Of(p, CallTimer))]
  }

  function RunWork(g: State, p: PeerId, work: Work, answers: Answers): State
    requires p in g.entries
  {
    match work
    case Task(job) => Executed(g, p, RunJob(Core(g, p), job, answers))
    case CheckTask(timer) => Executed(g, p, Check(Core(g, p), timer))
    case AskBoth => Executed(g, p, Step(Core(g, p), ReadyTimer))
    case CallTimer => g.(queue := InsertAll(g.queue, TimerItems(g.now, p)))
  }

  /** The server's task for a message. */
  function Serve(g: State, m: Message): State {
    match m
    case Connected(p) =>
      if p in g.entries then Executed(g, p, Step(Core(g, p), AskStatus))
      else WithNew(g, p).(queue := InsertAll(g.queue, FirstTasks(p)))
    case Closed(p) => State(g.now, g.entries - {p}, Filter(g.queue, NotOf(p)))
    case Received(p, buffer) =>
      if p in g.entries && Wire.Decode(buffer).Some? then Executed(g, p, Step(Core(g, p), ActionFor(Wire.Decode(buffer).value))) else g
  }

  /** The front of the queue is taken. */
  function Rest(g: State): State
    requires g.queue != []
  {
    g.(queue := g.queue[1..])
  }

  function TakeFront(g: State, answers: Answers): State
    requires g.queue != []
  {
    match g.queue[0].work
    case Unrelated => Rest(g)
    case Server(m) => Serve(Rest(g), m)
    case Of(p, work) => if p in g.entries then RunWork(Rest(g), p, work, answers) else Rest(g)
  }

  function Enqueue(g: State, due: nat, ticket: Ticket): State {
    g.(queue := Insert(g.queue, Item(due, ticket)))
  }

  function Next(g: State, h: Happening): State {
    match h
    case Arrives(m) => Enqueue(g, IMMEDIATELY, Server(m))
    case KernelSays(p, action) => if p in g.entries && FromKernel(action) then Executed(g, p, Step(Core(g, p), action)) else g
    case Passes(time) => g.(now := g.now + time)
    case Elsewhere(due) => Enqueue(g, due, Unrelated)
    case Take(answers) => if Due(g.queue, g.now) then TakeFront(g, answers) else g
  }

  function Run(happenings: seq<Happening>): State {
    if happenings == [] then State(0, map[], []) else Next(Run(Front(happenings)), Last(happenings))
  }

  // ---------------------------------------------------------------- what a peer sees

  /** The part of the shared queue that is `p`'s, put back where Reconciler has it. */
  function Seen(g: State, p: PeerId): Entry
    requires p in g.entries
  {
    Core(g, p).(ready := Collect(g.queue, JobsOf(p)), timers := Collect(g.queue, ChecksOf(p)))
  }

  function BacklogOf(g: State, p: PeerId): Backlog {
    Backlog(Collect(g.queue, JobsOf(p)), Collect(g.queue, ChecksOf(p)))
  }

  /** Which task of `p`, if any, is taken. */
  function Taken(work: Work, answers: Answers): seq<Action> {
    match work
    case Task(_) => [RunNext(answers)]
    case CheckTask(_) => [RunNext(answers)]
    case AskBoth => [ReadyTimer]
    case CallTimer => []
  }

  /** The message that the server passes on, if it does. */
  function Served(g: State, h: Happening): Option<Message> {
    if h.Take? && Due(g.queue, g.now) && g.queue[0].work.Server? then Some(g.queue[0].work.message) else None
  }

  /** What a message makes of `p`'s own entry. */
  function MessageActions(m: Message, p: PeerId): seq<Action> {
    match m
    case Connected(q) => if q == p then [AskStatus] else []
    case Closed(_) => []
    case Received(q, buffer) => if q == p && Wire.Decode(buffer).Some? then [ActionFor(Wire.Decode(buffer).value)] else []
  }

  function TicketActions(ticket: Ticket, answers: Answers, p: PeerId): seq<Action> {
    match ticket
    case Unrelated => []
    case Server(m) => MessageActions(m, p)
    case Of(q, work) => if q == p then Taken(work, answers) else []
  }

  /** What happens to `p`'s own entry. */
  function ActionsOf(g: State, h: Happening, p: PeerId): seq<Action> {
    match h
    case Arrives(_) => []
    case KernelSays(q, action) => if q == p && FromKernel(action) then [action] else []
    case Passes(time) => [Elapse(time)]
    case Elsewhere(_) => []
    case Take(answers) => if Due(g.queue, g.now) then TicketActions(g.queue[0].work, answers, p) else []
  }

  /** What has happened to `p`'s own entry since `p` last connected, if it is connected: `own` before, and now `h`. */
  function OwnNext(g: State, own: Option<seq<Action>>, h: Happening, p: PeerId): Option<seq<Action>> {
    match own
    case None => if Served(g, h) == Some(Connected(p)) then Some([Elapse(g.now)]) else None
    case Some(actions) => if Served(g, h) == Some(Closed(p)) then None else Some(actions + ActionsOf(g, h, p))
  }

  function Own(happenings: seq<Happening>, p: PeerId): Option<seq<Action>> {
    if happenings == [] then None
    else OwnNext(Run(Front(happenings)), Own(Front(happenings), p), Last(happenings), p)
  }

  // ---------------------------------------------------------------- the queue of every run

  ghost predicate ProperItem(g: State, x: Item<Ticket>) {
    x.work.Of? ==>
      && x.work.peer in g.entries
      && (x.work.work.Task? ==> x.due == IMMEDIATELY)
      && (x.work.work.CheckTask? ==> x.due == x.work.work.timer.due > IMMEDIATELY)
  }

  ghost predicate Proper(g: State) {
    && Sorted(g.queue)
    && (forall x | x in g.queue :: ProperItem(g, x))
    && (forall p | p in g.entries :: g.entries[p].ready == [] && g.entries[p].timers == [])
  }

  // ---------------------------------------------------------------- items and what they stand for

  lemma JobItemsStandFor(p: PeerId, jobs: seq<Job>, q: PeerId)
    ensures Collect(JobItems(p, jobs), JobsOf(q)) == if p == q then jobs else []
    ensures Collect(JobItems(p, jobs), ChecksOf(q)) == []
  {
    CollectNothing(JobItems(p, jobs), ChecksOf(q));
    if p == q {
      CollectSame(JobItems(p, jobs), jobs, JobsOf(p));
    } else {
      CollectNothing(JobItems(p, jobs), JobsOf(q));
    }
  }

  lemma CheckItemsStandFor(p: PeerId, checks: seq<Timer>, q: PeerId)
    ensures Collect(CheckItems(p, checks), ChecksOf(q)) == if p == q then checks else []
    ensures Collect(CheckItems(p, checks), JobsOf(q)) == []
  {
    CollectNothing(CheckItems(p, checks), JobsOf(q));
    if p == q {
      CollectSame(CheckItems(p, checks), checks, ChecksOf(p));
    } else {
      CollectNothing(CheckItems(p, checks), ChecksOf(q));
    }
  }

  lemma AddedJobs(p: PeerId, e: Entry, q: PeerId)
    ensures Collect(Added(p, e), JobsOf(q)) == if p == q then e.ready else []
  {
    JobItemsStandFor(p, e.ready, q);
    CheckItemsStandFor(p, e.timers, q);
    CollectLeft(JobItems(p, e.ready), CheckItems(p, e.timers), JobsOf(q));
  }

  lemma AddedChecks(p: PeerId, e: Entry, q: PeerId)
    ensures Collect(Added(p, e), ChecksOf(q)) == if p == q then e.timers else []
  {
    JobItemsStandFor(p, e.ready, q);
    CheckItemsStandFor(p, e.timers, q);
    CollectRight(JobItems(p, e.ready), CheckItems(p, e.timers), ChecksOf(q));
  }

  /** New entries of a kind that are all due at the same time, and after those of their kind in the queue. */
  lemma SameDueInOrder<A>(queue: seq<Item<Ticket>>, items: seq<Item<Ticket>>, f: Item<Ticket> -> seq<A>, due: nat)
    requires AllBy(queue, f, due) && forall i | 0 <= i < |items| && f(items[i]) != [] :: items[i].due == due
    ensures InOrder(queue, items, f)
  {
    forall j | 0 <= j < |items| && f(items[j]) != [] ensures AllBy(queue, f, items[j].due) && AllBy(items[..j], f, items[j].due) {
      forall y | y in items[..j] && f(y) != [] ensures y.due <= due {
        var i :| 0 <= i < j && items[i] == y;
      }
    }
  }

  lemma {:induction false} CollectedFrom(queue: seq<Item<Ticket>>, p: PeerId, x: Item<Ticket>)
    requires x in queue
    ensures forall t | t in ChecksOf(p)(x) :: t in Collect(queue, ChecksOf(p))
    ensures forall job | job in JobsOf(p)(x) :: job in Collect(queue, JobsOf(p))
  {
    assert queue == Front(queue) + [Last(queue)];
    if x in Front(queue) { CollectedFrom(Front(queue), p, x); }
  }

  // ---------------------------------------------------------------- what a task does to the queue

  lemma SurvivorsSeen(g: State, p: PeerId, e: Entry, q: PeerId)
    ensures Collect(Filter(g.queue, Survives(p, e)), JobsOf(q))
         == if p == q then Filter(Collect(g.queue, JobsOf(p)), AliveIn(e)) else Collect(g.queue, JobsOf(q))
    ensures Collect(Filter(g.queue, Survives(p, e)), ChecksOf(q)) == Collect(g.queue, ChecksOf(q))
  {
    CollectFilterSame(g.queue, Survives(p, e), ChecksOf(q));
    if p == q {
      FilterProjects(g.queue, Survives(p, e), JobsOf(p), AliveIn(e));
    } else {
      CollectFilterSame(g.queue, Survives(p, e), JobsOf(q));
    }
  }

  /** What a task may add: immediate jobs, and checks that are due after all of the peer's. */
  ghost predicate Addable(g: State, p: PeerId, e: Entry) {
    && Proper(g) && p in g.entries && Fresh(e) && e.now == g.now
    && AllBy(g.queue, ChecksOf(p), g.now + CHECK_DELAY)
  }

  lemma SurvivorsProper(g: State, p: PeerId, e: Entry)
    requires Proper(g)
    ensures Sorted(Filter(g.queue, Survives(p, e)))
    ensures forall x | x in Filter(g.queue, Survives(p, e)) :: x in g.queue
  {
    FilterSorted(g.queue, Survives(p, e));
    forall x | x in Filter(g.queue, Survives(p, e)) ensures x in g.queue { FilterMember(g.queue, Survives(p, e), x); }
  }

  lemma AddedInOrder(g: State, p: PeerId, e: Entry, q: PeerId)
    requires Addable(g, p, e)
    ensures InOrder(Filter(g.queue, Survives(p, e)), Added(p, e), JobsOf(q))
    ensures InOrder(Filter(g.queue, Survives(p, e)), Added(p, e), ChecksOf(q))
  {
    var kept := Filter(g.queue, Survives(p, e));
    SurvivorsProper(g, p, e);
    forall y | y in kept && JobsOf(q)(y) != [] ensures y.due <= IMMEDIATELY { assert y in g.queue && ProperItem(g, y); }
    SameDueInOrder(kept, Added(p, e), JobsOf(q), IMMEDIATELY);
    if p == q {
      forall y | y in kept && ChecksOf(q)(y) != [] ensures y.due <= g.now + CHECK_DELAY { assert y in g.queue; }
      SameDueInOrder(kept, Added(p, e), ChecksOf(q), g.now + CHECK_DELAY);
    }
  }

  lemma ExecutedQueue(g: State, p: PeerId, e: Entry, q: PeerId)
    requires Addable(g, p, e)
    ensures Collect(Executed(g, p, e).queue, JobsOf(q))
         == if p == q then Filter(Collect(g.queue, JobsOf(p)), AliveIn(e)) + e.ready else Collect(g.queue, JobsOf(q))
    ensures Collect(Executed(g, p, e).queue, ChecksOf(q))
         == if p == q then Collect(g.queue, ChecksOf(p)) + e.timers else Collect(g.queue, ChecksOf(q))
  {
    var kept := Filter(g.queue, Survives(p, e));
    SurvivorsProper(g, p, e);
    AddedInOrder(g, p, e, q);
    InsertAllProjects(kept, Added(p, e), JobsOf(q));
    InsertAllProjects(kept, Added(p, e), ChecksOf(q));
    SurvivorsSeen(g, p, e, q);
    AddedJobs(p, e, q);
    AddedChecks(p, e, q);
    if p != q {
      assert Collect(g.queue, JobsOf(q)) + [] == Collect(g.queue, JobsOf(q));
      assert Collect(g.queue, ChecksOf(q)) + [] == Collect(g.queue, ChecksOf(q));
    }
  }

  lemma ExecutedProper(g: State, p: PeerId, e: Entry)
    requires Addable(g, p, e)
    ensures Proper(Executed(g, p, e))
  {
    var g' := Executed(g, p, e);
    var kept := Filter(g.queue, Survives(p, e));
    SurvivorsProper(g, p, e);
    InsertAllSorted(kept, Added(p, e));
    forall x | x in g'.queue ensures ProperItem(g', x) {
      InsertAllMember(kept, Added(p, e), x);
      if x in kept { assert ProperItem(g, x); }
    }
  }

  lemma ExecutedSeen(g: State, p: PeerId, e: Entry, q: PeerId)
    requires Addable(g, p, e) && q in g.entries
    ensures Seen(Executed(g, p, e), q) == if p == q then Joined(BacklogOf(g, p), e) else Seen(g, q)
  {
    ExecutedQueue(g, p, e, q);
  }

  /** What a peer sees is its entry with its part of the queue in front. */
  lemma SeenJoined(g: State, p: PeerId)
    requires Proper(g) && p in g.entries && ReconcilerInvariant.Inv(Seen(g, p))
    ensures Joined(BacklogOf(g, p), Core(g, p)) == Seen(g, p)
    ensures Sound(Core(g, p)) && Older(BacklogOf(g, p), Core(g, p).nextId) && Fresh(Core(g, p))
    ensures AllBy(g.queue, ChecksOf(p), g.now + CHECK_DELAY)
  {
    var e := Seen(g, p);
    forall job | job in e.ready ensures AliveIn(Core(g, p))(job) && job.owner < e.nextId { assert JobInv(e, job); }
    FilterAll(e.ready, AliveIn(Core(g, p)));
    assert e.ready + [] == e.ready && e.timers + [] == e.timers;
    forall x | x in g.queue && ChecksOf(p)(x) != [] ensures x.due <= g.now + CHECK_DELAY {
      CollectedFrom(g.queue, p, x);
      var t := x.work.work.timer;
      assert t in ChecksOf(p)(x) && t in e.timers;
      var i :| 0 <= i < |e.timers| && e.timers[i] == t;
      assert TimerInv(e, i) && ProperItem(g, x);
    }
  }

  // ---------------------------------------------------------------- one happening

  /** `g` became `g'`, and each peer's entry did its own actions. */
  ghost predicate Moves(g: State, h: Happening, g': State, p: PeerId) {
    p in g.entries && p in g'.entries ==> Seen(g', p) == StepAny(Seen(g, p), ActionsOf(g, h, p))
  }

  ghost predicate Follows(g: State, m: Message, g': State, p: PeerId) {
    p in g.entries && p in g'.entries ==> Seen(g', p) == StepAny(Seen(g, p), MessageActions(m, p))
  }

  function StepAny(e: Entry, actions: seq<Action>): Entry {
    if actions == [] then e else Step(e, actions[0])
  }

  ghost predicate AllInv(g: State) {
    forall p | p in g.entries :: ReconcilerInvariant.Inv(Seen(g, p))
  }

  lemma OutsideMoves(g: State, p: PeerId, action: Action, q: PeerId)
    requires Proper(g) && AllInv(g) && p in g.entries && q in g.entries && !action.RunNext? && !action.Elapse?
    ensures var g' := Executed(g, p, Step(Core(g, p), action));
            Proper(g') && Seen(g', q) == if p == q then Step(Seen(g, p), action) else Seen(g, q)
  {
    var e := Step(Core(g, p), action);
    SeenJoined(g, p);
    StepJoined(BacklogOf(g, p), Core(g, p), action);
    ExecutedProper(g, p, e);
    ExecutedSeen(g, p, e, q);
  }

  lemma RestProper(g: State)
    requires Proper(g) && g.queue != []
    ensures Proper(Rest(g))
  {
    forall x | x in Rest(g).queue ensures ProperItem(Rest(g), x) { assert x in g.queue && ProperItem(g, x); }
  }

  lemma RestSeen(g: State, q: PeerId)
    requires Proper(g) && g.queue != [] && q in g.entries
    ensures Proper(Rest(g))
    ensures Collect(g.queue, JobsOf(q)) == JobsOf(q)(g.queue[0]) + Collect(Rest(g).queue, JobsOf(q))
    ensures Collect(g.queue, ChecksOf(q)) == ChecksOf(q)(g.queue[0]) + Collect(Rest(g).queue, ChecksOf(q))
  {
    CollectFirst(g.queue, JobsOf(q));
    CollectFirst(g.queue, ChecksOf(q));
    RestProper(g);
  }

  lemma RestUnseen(g: State, q: PeerId)
    requires Proper(g) && g.queue != [] && q in g.entries && JobsOf(q)(g.queue[0]) == [] && ChecksOf(q)(g.queue[0]) == []
    ensures Seen(Rest(g), q) == Seen(g, q)
  {
    RestSeen(g, q);
    assert [] + Collect(Rest(g).queue, JobsOf(q)) == Collect(Rest(g).queue, JobsOf(q));
    assert [] + Collect(Rest(g).queue, ChecksOf(q)) == Collect(Rest(g).queue, ChecksOf(q));
  }

  /** A job of `p` at the front is the first that `p` sees. */
  lemma JobFirst(g: State, p: PeerId, job: Job)
    requires Proper(g) && g.queue != [] && p in g.entries && g.queue[0].work == Of(p, Task(job))
    ensures Seen(g, p).ready != [] && Seen(g, p).ready[0] == job
    ensures Seen(Rest(g), p) == Seen(g, p).(ready := Seen(g, p).ready[1..])
  {
    RestSeen(g, p);
    var rest := Collect(Rest(g).queue, JobsOf(p));
    assert ([job] + rest)[1..] == rest;
    assert [] + Collect(Rest(g).queue, ChecksOf(p)) == Collect(Rest(g).queue, ChecksOf(p));
  }

  /** A check of `p` at the front finds no job of `p` before it. */
  lemma CheckFirst(g: State, p: PeerId, timer: Timer)
    requires Proper(g) && Due(g.queue, g.now) && p in g.entries && g.queue[0].work == Of(p, CheckTask(timer))
    ensures var e := Seen(g, p);
            e.ready == [] && e.timers != [] && e.timers[0] == timer && timer.due <= e.now
    ensures Seen(Rest(g), p) == Seen(g, p).(timers := Seen(g, p).timers[1..])
  {
    assert ProperItem(g, g.queue[0]);
    forall x | x in g.queue ensures JobsOf(p)(x) == [] {
      FrontIsFirst(g.queue, x);
      assert ProperItem(g, x);
    }
    CollectNothing(g.queue, JobsOf(p));
    RestSeen(g, p);
    var rest := Collect(Rest(g).queue, ChecksOf(p));
    assert ([timer] + rest)[1..] == rest;
  }

  lemma JobDispatched(e: Entry, job: Job, answers: Answers)
    requires e.ready != [] && e.ready[0] == job
    ensures Step(e, RunNext(answers)) == RunJob(e.(ready := e.ready[1..]), job, answers)
  {
  }

  lemma CheckDispatched(e: Entry, timer: Timer, answers: Answers)
    requires e.ready == [] && e.timers != [] && e.timers[0] == timer && timer.due <= e.now
    ensures Step(e, RunNext(answers)) == Check(e.(timers := e.timers[1..]), timer)
  {
  }

  /** A job of `p` that has been taken out of the queue. */
  lemma JobRun(rest: State, p: PeerId, job: Job, answers: Answers, q: PeerId)
    requires Proper(rest) && p in rest.entries && q in rest.entries && ReconcilerInvariant.Inv(Seen(rest, p))
    ensures var g' := RunWork(rest, p, Task(job), answers);
            Proper(g') && Seen(g', q) == if p == q then RunJob(Seen(rest, p), job, answers) else Seen(rest, q)
  {
    SeenJoined(rest, p);
    var e := RunJob(Core(rest, p), job, answers);
    RunJobJoined(BacklogOf(rest, p), Core(rest, p), job, answers);
    ExecutedProper(rest, p, e);
    ExecutedSeen(rest, p, e, q);
  }

  lemma CheckRun(rest: State, p: PeerId, timer: Timer, answers: Answers, q: PeerId)
    requires Proper(rest) && p in rest.entries && q in rest.entries && ReconcilerInvariant.Inv(Seen(rest, p))
    ensures var g' := RunWork(rest, p, CheckTask(timer), answers);
            Proper(g') && Seen(g', q) == if p == q then Check(Seen(rest, p), timer) else Seen(rest, q)
  {
    SeenJoined(rest, p);
    var e := Check(Core(rest, p), timer);
    CheckJoined(BacklogOf(rest, p), Core(rest, p), timer);
    ExecutedProper(rest, p, e);
    ExecutedSeen(rest, p, e, q);
  }

  lemma JobMoves(g: State, p: PeerId, job: Job, answers: Answers, q: PeerId)
    requires Proper(g) && AllInv(g) && g.queue != [] && p in g.entries && q in g.entries && g.queue[0].work == Of(p, Task(job))
    ensures var g' := RunWork(Rest(g), p, Task(job), answers);
            Proper(g') && Seen(g', q) == if p == q then Step(Seen(g, p), RunNext(answers)) else Seen(g, q)
  {
    JobFirst(g, p, job);
    JobTaken(Seen(g, p));
    JobDispatched(Seen(g, p), job, answers);
    RestProper(g);
    JobRun(Rest(g), p, job, answers, q);
    if p != q { RestUnseen(g, q); }
  }

  lemma CheckMoves(g: State, p: PeerId, timer: Timer, answers: Answers, q: PeerId)
    requires Proper(g) && AllInv(g) && Due(g.queue, g.now) && p in g.entries && q in g.entries
    requires g.queue[0].work == Of(p, CheckTask(timer))
    ensures var g' := RunWork(Rest(g), p, CheckTask(timer), answers);
            Proper(g') && Seen(g', q) == if p == q then Step(Seen(g, p), RunNext(answers)) else Seen(g, q)
  {
    CheckFirst(g, p, timer);
    TimerTaken(Seen(g, p));
    CheckDispatched(Seen(g, p), timer, answers);
    RestProper(g);
    CheckRun(Rest(g), p, timer, answers, q);
    if p != q { RestUnseen(g, q); }
  }

  lemma AskTaken(g: State, p: PeerId)
    requires Proper(g) && AllInv(g) && g.queue != [] && g.queue[0].work == Of(p, AskBoth)
    ensures Proper(Rest(g)) && AllInv(Rest(g))
  {
    RestProper(g);
    forall r | r in Rest(g).entries ensures ReconcilerInvariant.Inv(Seen(Rest(g), r)) {
      assert ReconcilerInvariant.Inv(Seen(g, r));
      RestUnseen(g, r);
    }
  }

  lemma AskMoves(g: State, p: PeerId, answers: Answers, q: PeerId)
    requires Proper(g) && AllInv(g) && g.queue != [] && p in g.entries && q in g.entries && g.queue[0].work == Of(p, AskBoth)
    ensures var g' := RunWork(Rest(g), p, AskBoth, answers);
            Proper(g') && Seen(g', q) == if p == q then Step(Seen(g, p), ReadyTimer) else Seen(g, q)
  {
    AskTaken(g, p);
    RestUnseen(g, p);
    RestUnseen(g, q);
    OutsideMoves(Rest(g), p, ReadyTimer, q);
  }

  /** Entries that stand for nothing of a peer change nothing that it sees. */
  lemma InsertUnseen(g: State, items: seq<Item<Ticket>>, q: PeerId)
    requires Proper(g) && q in g.entries
    requires forall x | x in items :: ProperItem(g, x) && JobsOf(q)(x) == [] && ChecksOf(q)(x) == []
    ensures var g' := g.(queue := InsertAll(g.queue, items));
            Proper(g') && Seen(g', q) == Seen(g, q)
  {
    var g' := g.(queue := InsertAll(g.queue, items));
    InsertAllSorted(g.queue, items);
    forall x | x in g'.queue ensures ProperItem(g', x) {
      InsertAllMember(g.queue, items, x);
      assert ProperItem(g, x);
    }
    forall i | 0 <= i < |items| ensures JobsOf(q)(items[i]) == [] && ChecksOf(q)(items[i]) == [] { assert items[i] in items; }
    InsertAllProjects(g.queue, items, JobsOf(q));
    InsertAllProjects(g.queue, items, ChecksOf(q));
    CollectNothing(items, JobsOf(q));
    CollectNothing(items, ChecksOf(q));
    assert Collect(g.queue, JobsOf(q)) + [] == Collect(g.queue, JobsOf(q));
    assert Collect(g.queue, ChecksOf(q)) + [] == Collect(g.queue, ChecksOf(q));
  }

  lemma TimerItemsUnseen(now: nat, p: PeerId, q: PeerId)
    ensures forall x | x in TimerItems(now, p) :: JobsOf(q)(x) == [] && ChecksOf(q)(x) == []
    ensures forall x | x in TimerItems(now, p) :: x.work.Of? && x.work.peer == p && !x.work.work.Task? && !x.work.work.CheckTask?
  {
  }

  lemma CallQueued(rest: State, p: PeerId, answers: Answers, q: PeerId)
    requires Proper(rest) && p in rest.entries && q in rest.entries
    ensures var g' := RunWork(rest, p, CallTimer, answers);
            Proper(g') && Seen(g', q) == Seen(rest, q)
  {
    TimerItemsUnseen(rest.now, p, q);
    InsertUnseen(rest, TimerItems(rest.now, p), q);
  }

  lemma CallMoves(g: State, p: PeerId, answers: Answers, q: PeerId)
    requires Proper(g) && g.queue != [] && p in g.entries && q in g.entries && g.queue[0].work == Of(p, CallTimer)
    ensures var g' := RunWork(Rest(g), p, CallTimer, answers);
            Proper(g') && Seen(g', q) == Seen(g, q)
  {
    RestProper(g);
    RestUnseen(g, q);
    CallQueued(Rest(g), p, answers, q);
  }

  lemma WorkMoves(g: State, p: PeerId, work: Work, answers: Answers, q: PeerId)
    requires Proper(g) && AllInv(g) && Due(g.queue, g.now) && p in g.entries && q in g.entries && g.queue[0].work == Of(p, work)
    ensures var g' := RunWork(Rest(g), p, work, answers);
            Proper(g') && Seen(g', q) == if p == q then StepAny(Seen(g, p), Taken(work, answers)) else Seen(g, q)
  {
    match work
    case Task(job) => JobMoves(g, p, job, answers, q);
    case CheckTask(timer) => CheckMoves(g, p, timer, answers, q);
    case AskBoth => AskMoves(g, p, answers, q);
    case CallTimer => CallMoves(g, p, answers, q);
  }

  /** A task that is not of a peer's entry. */
  lemma EnqueueMoves(g: State, due: nat, ticket: Ticket, q: PeerId)
    requires Proper(g) && q in g.entries && !ticket.Of?
    ensures Seen(Enqueue(g, due, ticket), q) == Seen(g, q)
  {
    var x := Item(due, ticket);
    InsertUnseen(g, [x], q);
    assert Front([x]) == [] && InsertAll(g.queue, [x]) == Insert(g.queue, x);
  }

  lemma EnqueueProper(g: State, due: nat, ticket: Ticket)
    requires Proper(g) && !ticket.Of?
    ensures Proper(Enqueue(g, due, ticket))
  {
    var x := Item(due, ticket);
    var g' := Enqueue(g, due, ticket);
    InsertSorted(g.queue, x);
    forall y | y in g'.queue ensures ProperItem(g', y) {
      InsertMember(g.queue, x, y);
      if y in g.queue { assert ProperItem(g, y); }
    }
  }

  lemma ClosedMoves(g: State, p: PeerId, q: PeerId)
    requires Proper(g) && q in g.entries && q != p
    ensures Seen(Serve(g, Closed(p)), q) == Seen(g, q)
  {
    CollectFilterSame(g.queue, NotOf(p), JobsOf(q));
    CollectFilterSame(g.queue, NotOf(p), ChecksOf(q));
  }

  lemma ClosedProper(g: State, p: PeerId)
    requires Proper(g)
    ensures Proper(Serve(g, Closed(p)))
  {
    var g' := Serve(g, Closed(p));
    FilterSorted(g.queue, NotOf(p));
    forall x | x in g'.queue ensures ProperItem(g', x) {
      FilterMember(g.queue, NotOf(p), x);
      assert ProperItem(g, x);
    }
  }

  lemma NewUnseen(g: State, p: PeerId)
    requires Proper(g) && p !in g.entries
    ensures Proper(WithNew(g, p)) && Collect(g.queue, JobsOf(p)) == [] && Collect(g.queue, ChecksOf(p)) == []
    ensures forall q | q in g.entries :: Seen(WithNew(g, p), q) == Seen(g, q)
  {
    forall x | x in g.queue ensures ProperItem(WithNew(g, p), x) && JobsOf(p)(x) == [] && ChecksOf(p)(x) == [] { assert ProperItem(g, x); }
    CollectNothing(g.queue, JobsOf(p));
    CollectNothing(g.queue, ChecksOf(p));
  }

  lemma FirstJobs(p: PeerId)
    ensures Collect(FirstTasks(p), JobsOf(p)) == [Job(STATUS, Start)] + [] + [Job(ENTRY, CheckStatus)]
  {
    CollectThree(FirstTasks(p)[0], FirstTasks(p)[1], FirstTasks(p)[2], JobsOf(p));
  }

  lemma FirstTasksStandFor(p: PeerId, q: PeerId)
    ensures Collect(FirstTasks(p), JobsOf(q)) == if p == q then INITIAL.ready else []
    ensures Collect(FirstTasks(p), ChecksOf(q)) == []
  {
    CollectNothing(FirstTasks(p), ChecksOf(q));
    if p == q { FirstJobs(p); } else { CollectNothing(FirstTasks(p), JobsOf(q)); }
  }

  lemma FirstTasksQueued(g: State, p: PeerId, q: PeerId)
    requires Proper(g) && p in g.entries
    ensures var queue := InsertAll(g.queue, FirstTasks(p));
            && Collect(queue, JobsOf(q)) == Collect(g.queue, JobsOf(q)) + (if p == q then INITIAL.ready else [])
            && Collect(queue, ChecksOf(q)) == Collect(g.queue, ChecksOf(q))
            && Proper(g.(queue := queue))
  {
    var tasks := FirstTasks(p);
    forall y | y in g.queue && JobsOf(q)(y) != [] ensures y.due <= IMMEDIATELY { assert ProperItem(g, y); }
    SameDueInOrder(g.queue, tasks, JobsOf(q), IMMEDIATELY);
    assert forall i | 0 <= i < |tasks| :: ChecksOf(q)(tasks[i]) == [];
    InsertAllProjects(g.queue, tasks, JobsOf(q));
    InsertAllProjects(g.queue, tasks, ChecksOf(q));
    FirstTasksStandFor(p, q);
    assert Collect(g.queue, ChecksOf(q)) + [] == Collect(g.queue, ChecksOf(q));
    FirstTasksProper(g, p);
  }

  lemma FirstTasksProper(g: State, p: PeerId)
    requires Proper(g) && p in g.entries
    ensures Proper(g.(queue := InsertAll(g.queue, FirstTasks(p))))
  {
    var g' := g.(queue := InsertAll(g.queue, FirstTasks(p)));
    InsertAllSorted(g.queue, FirstTasks(p));
    forall x | x in g'.queue ensures ProperItem(g', x) {
      InsertAllMember(g.queue, FirstTasks(p), x);
      if x in g.queue { assert ProperItem(g, x); }
    }
  }

  lemma NewSeen(g: State, p: PeerId)
    requires Proper(g) && p in g.entries && g.entries[p] == INITIAL.(ready := [])
    requires Collect(g.queue, JobsOf(p)) == [] && Collect(g.queue, ChecksOf(p)) == []
    ensures var g' := g.(queue := InsertAll(g.queue, FirstTasks(p)));
            Proper(g') && Seen(g', p) == Step(INITIAL, Elapse(g.now))
  {
    FirstTasksQueued(g, p, p);
    assert [] + INITIAL.ready == INITIAL.ready;
  }

  /** A new peer sees a fresh entry, at the present time. */
  lemma ConnectedNew(g: State, p: PeerId)
    requires Proper(g) && p !in g.entries
    ensures var g' := Serve(g, Connected(p));
            Proper(g') && p in g'.entries && Seen(g', p) == Step(INITIAL, Elapse(g.now))
  {
    NewUnseen(g, p);
    NewSeen(WithNew(g, p), p);
  }

  lemma ConnectedOthers(g: State, p: PeerId, q: PeerId)
    requires Proper(g) && p !in g.entries && q in g.entries
    ensures Seen(Serve(g, Connected(p)), q) == Seen(g, q)
  {
    NewUnseen(g, p);
    FirstTasksQueued(WithNew(g, p), p, q);
    assert Collect(g.queue, JobsOf(q)) + [] == Collect(g.queue, JobsOf(q));
    assert Seen(WithNew(g, p), q) == Seen(g, q);
  }

  lemma ConnectedMoves(g: State, p: PeerId, q: PeerId)
    requires Proper(g) && AllInv(g) && q in g.entries
    ensures var g' := Serve(g, Connected(p));
            Proper(g') && q in g'.entries && Follows(g, Connected(p), g', q)
  {
    if p in g.entries {
      OutsideMoves(g, p, AskStatus, q);
    } else {
      ConnectedNew(g, p);
      ConnectedOthers(g, p, q);
    }
  }

  lemma ReceivedMoves(g: State, p: PeerId, buffer: seq<uint8>, q: PeerId)
    requires Proper(g) && AllInv(g) && q in g.entries
    ensures var g' := Serve(g, Received(p, buffer));
            Proper(g') && q in g'.entries && Follows(g, Received(p, buffer), g', q)
  {
    if p in g.entries && Wire.Decode(buffer).Some? {
      var action := ActionFor(Wire.Decode(buffer).value);
      OutsideMoves(g, p, action, q);
    }
  }

  lemma KernelMoves(g: State, p: PeerId, action: Action, q: PeerId)
    requires Proper(g) && AllInv(g) && q in g.entries
    ensures var g' := Next(g, KernelSays(p, action));
            Proper(g') && q in g'.entries && Moves(g, KernelSays(p, action), g', q)
  {
    if p in g.entries && FromKernel(action) { OutsideMoves(g, p, action, q); }
  }

  lemma PassesMoves(g: State, time: nat, q: PeerId)
    requires Proper(g) && q in g.entries
    ensures var g' := Next(g, Passes(time));
            Proper(g') && Moves(g, Passes(time), g', q)
  {
    var g' := Next(g, Passes(time));
    forall x | x in g'.queue ensures ProperItem(g', x) { assert ProperItem(g, x); }
  }

  /** The server's tasks. */
  lemma ServeMoves(g: State, m: Message, q: PeerId)
    requires Proper(g) && AllInv(g) && q in g.entries && m != Closed(q)
    ensures q in Serve(g, m).entries && Follows(g, m, Serve(g, m), q)
  {
    match m
    case Connected(p) => ConnectedMoves(g, p, q);
    case Closed(p) => ClosedMoves(g, p, q);
    case Received(p, buffer) => ReceivedMoves(g, p, buffer, q);
  }

  lemma ServeProper(g: State, m: Message)
    requires Proper(g) && AllInv(g)
    ensures Proper(Serve(g, m))
  {
    match m
    case Connected(p) => if p in g.entries { ConnectedMoves(g, p, p); } else { ConnectedNew(g, p); }
    case Closed(p) => ClosedProper(g, p);
    case Received(p, buffer) => if p in g.entries { ReceivedMoves(g, p, buffer, p); }
  }

  /** What is left when a task of the server, or of some other object, is taken. */
  lemma OtherTaken(g: State)
    requires Proper(g) && AllInv(g) && g.queue != [] && !g.queue[0].work.Of?
    ensures Proper(Rest(g)) && AllInv(Rest(g))
    ensures forall q | q in g.entries :: Seen(Rest(g), q) == Seen(g, q)
  {
    RestProper(g);
    forall q | q in g.entries ensures Seen(Rest(g), q) == Seen(g, q) { RestUnseen(g, q); }
  }

  lemma TakeMoves(g: State, answers: Answers, q: PeerId)
    requires Proper(g) && AllInv(g) && Due(g.queue, g.now) && q in g.entries && g.queue[0].work != Server(Closed(q))
    ensures q in TakeFront(g, answers).entries
    ensures Seen(TakeFront(g, answers), q) == StepAny(Seen(g, q), TicketActions(g.queue[0].work, answers, q))
  {
    assert ProperItem(g, g.queue[0]);
    match g.queue[0].work
    case Unrelated => OtherTaken(g);
    case Server(m) => OtherTaken(g); ServeMoves(Rest(g), m, q);
    case Of(p, work) => WorkMoves(g, p, work, answers, q);
  }

  lemma TakeProper(g: State, answers: Answers)
    requires Proper(g) && AllInv(g) && Due(g.queue, g.now)
    ensures Proper(TakeFront(g, answers))
  {
    assert ProperItem(g, g.queue[0]);
    match g.queue[0].work
    case Unrelated => OtherTaken(g);
    case Server(m) => OtherTaken(g); ServeProper(Rest(g), m);
    case Of(p, work) => WorkMoves(g, p, work, answers, p);
  }

  /** What any happening does to the entry of a peer that stays connected. */
  lemma NextMoves(g: State, h: Happening, q: PeerId)
    requires Proper(g) && AllInv(g) && q in g.entries && Served(g, h) != Some(Closed(q))
    ensures q in Next(g, h).entries && Moves(g, h, Next(g, h), q)
  {
    match h
    case Arrives(m) => EnqueueMoves(g, IMMEDIATELY, Server(m), q);
    case KernelSays(p, action) => KernelMoves(g, p, action, q);
    case Passes(time) => PassesMoves(g, time, q);
    case Elsewhere(due) => EnqueueMoves(g, due, Unrelated, q);
    case Take(answers) => if Due(g.queue, g.now) { TakeMoves(g, answers, q); }
  }

  // ---------------------------------------------------------------- every run

  lemma NextProper(g: State, h: Happening)
    requires Proper(g) && AllInv(g)
    ensures Proper(Next(g, h))
  {
    match h
    case Arrives(m) => EnqueueProper(g, IMMEDIATELY, Server(m));
    case KernelSays(p, action) => if p in g.entries { KernelMoves(g, p, action, p); }
    case Passes(time) => forall x | x in g.queue ensures ProperItem(Next(g, h), x) { assert ProperItem(g, x); }
    case Elsewhere(due) => EnqueueProper(g, due, Unrelated);
    case Take(answers) => if Due(g.queue, g.now) { TakeProper(g, answers); }
  }

  lemma TaskEntries(g: State, p: PeerId, work: Work, answers: Answers)
    requires p in g.entries
    ensures RunWork(g, p, work, answers).entries.Keys == g.entries.Keys
  {
  }

  /** Who is connected. */
  lemma NextEntries(g: State, h: Happening, q: PeerId)
    ensures q in Next(g, h).entries <==> Served(g, h) == Some(Connected(q)) || (q in g.entries && Served(g, h) != Some(Closed(q)))
  {
    if h.Take? && Due(g.queue, g.now) && g.queue[0].work.Of? && g.queue[0].work.peer in g.entries {
      TaskEntries(Rest(g), g.queue[0].work.peer, g.queue[0].work.work, h.answers);
    }
  }

  /** A peer that is new sees a fresh entry. */
  lemma NextNew(g: State, h: Happening, q: PeerId)
    requires Proper(g) && AllInv(g) && q !in g.entries && Served(g, h) == Some(Connected(q))
    ensures q in Next(g, h).entries && Seen(Next(g, h), q) == Step(INITIAL, Elapse(g.now))
  {
    OtherTaken(g);
    ConnectedNew(Rest(g), q);
  }

  lemma StepAnyKeeps(e: Entry, actions: seq<Action>)
    requires ReconcilerInvariant.Inv(e)
    ensures ReconcilerInvariant.Inv(StepAny(e, actions))
  {
    if actions != [] { StepKeeps(e, actions[0]); }
  }

  lemma NextKeeps(g: State, h: Happening, q: PeerId)
    requires Proper(g) && AllInv(g) && q in Next(g, h).entries
    ensures ReconcilerInvariant.Inv(Seen(Next(g, h), q))
  {
    NextEntries(g, h, q);
    if q in g.entries {
      NextMoves(g, h, q);
      StepAnyKeeps(Seen(g, q), ActionsOf(g, h, q));
    } else {
      NextNew(g, h, q);
      ReconcilerInvariant.RunKeeps([]);
      StepKeeps(INITIAL, Elapse(g.now));
    }
  }

  lemma {:induction false} RunProper(happenings: seq<Happening>)
    ensures Proper(Run(happenings)) && AllInv(Run(happenings))
  {
    if happenings != [] {
      var g := Run(Front(happenings));
      RunProper(Front(happenings));
      NextProper(g, Last(happenings));
      forall q | q in Run(happenings).entries ensures ReconcilerInvariant.Inv(Seen(Run(happenings), q)) {
        NextKeeps(g, Last(happenings), q);
      }
    }
  }

  lemma RunOneMore(actions: seq<Action>, more: seq<Action>)
    requires |more| <= 1
    ensures Reconciler.Run(actions + more) == StepAny(Reconciler.Run(actions), more)
  {
    if more == [] {
      assert actions + more == actions;
    } else {
      assert Front(actions + more) == actions;
    }
  }

  lemma FreshRun(time: nat)
    ensures Reconciler.Run([Elapse(time)]) == Step(INITIAL, Elapse(time))
  {
    assert Front([Elapse(time)]) == [];
  }

  ghost predicate Agrees(g: State, own: Option<seq<Action>>, p: PeerId) {
    && (p in g.entries <==> own.Some?)
    && (p in g.entries ==> Seen(g, p) == Reconciler.Run(own.value))
  }

  lemma OneActionAtMost(g: State, h: Happening, p: PeerId)
    ensures |ActionsOf(g, h, p)| <= 1
  {
  }

  lemma StillAgrees(g': State, own: seq<Action>, more: seq<Action>, p: PeerId)
    requires p in g'.entries && Seen(g', p) == StepAny(Reconciler.Run(own), more) && |more| <= 1
    ensures Agrees(g', Some(own + more), p)
  {
    RunOneMore(own, more);
  }

  lemma PresentAgrees(g: State, own: seq<Action>, h: Happening, p: PeerId)
    requires Proper(g) && AllInv(g) && Agrees(g, Some(own), p) && Served(g, h) != Some(Closed(p))
    ensures Agrees(Next(g, h), Some(own + ActionsOf(g, h, p)), p)
  {
    NextMoves(g, h, p);
    OneActionAtMost(g, h, p);
    StillAgrees(Next(g, h), own, ActionsOf(g, h, p), p);
  }

  lemma NextAgrees(g: State, own: Option<seq<Action>>, h: Happening, p: PeerId)
    requires Proper(g) && AllInv(g) && Agrees(g, own, p)
    ensures Agrees(Next(g, h), OwnNext(g, own, h, p), p)
  {
    NextEntries(g, h, p);
    if p in g.entries {
      if Served(g, h) != Some(Closed(p)) { PresentAgrees(g, own.value, h, p); }
    } else if Served(g, h) == Some(Connected(p)) {
      NextNew(g, h, p);
      FreshRun(g.now);
    }
  }

  /**
    Main result: a peer's entry, with the peer's part of the shared queue, is what it would be if there were no other peer, no other
    object and a queue of its own.
   */
  lemma {:induction false} PeersAreIndependent(happenings: seq<Happening>, p: PeerId)
    ensures p in Run(happenings).entries <==> Own(happenings, p).Some?
    ensures p in Run(happenings).entries ==> Seen(Run(happenings), p) == Reconciler.Run(Own(happenings, p).value)
  {
    if happenings != [] {
      var front := Front(happenings);
      PeersAreIndependent(front, p);
      RunProper(front);
      NextAgrees(Run(front), Own(front, p), Last(happenings), p);
    }
  }

  // ---------------------------------------------------------------- reports and resets of one peer

  function BufferOf(g: State, h: Happening, p: PeerId): seq<seq<uint8>> {
    match Served(g, h)
    case Some(Received(q, buffer)) => if q == p then [buffer] else []
    case _ => []
  }

  /** The buffers received from `p` since it last connected. */
  function OwnBuffers(happenings: seq<Happening>, p: PeerId): seq<seq<uint8>> {
    if happenings == [] || Own(Front(happenings), p).None? then []
    else OwnBuffers(Front(happenings), p) + BufferOf(Run(Front(happenings)), Last(happenings), p)
  }

  /** Reports and resets reach an entry in buffers only. */
  lemma OutputPassedOn(g: State, h: Happening, p: PeerId)
    ensures Collect(ActionsOf(g, h, p), RequestFlow.ReceivedOutput) == Collect(BufferOf(g, h, p), EndToEnd.OutputIn)
  {
    var actions, buffers := ActionsOf(g, h, p), BufferOf(g, h, p);
    if actions != [] { CollectOne(actions[0], RequestFlow.ReceivedOutput); }
    if buffers != [] { CollectOne(buffers[0], EndToEnd.OutputIn); }
  }

  lemma {:induction false} OwnOutputs(happenings: seq<Happening>, p: PeerId)
    requires Own(happenings, p).Some?
    ensures Collect(Own(happenings, p).value, RequestFlow.ReceivedOutput) == Collect(OwnBuffers(happenings, p), EndToEnd.OutputIn)
  {
    var front, h := Front(happenings), Last(happenings);
    var g := Run(front);
    if Own(front, p).Some? {
      OwnOutputs(front, p);
      OutputPassedOn(g, h, p);
      CollectConcat(Own(front, p).value, ActionsOf(g, h, p), RequestFlow.ReceivedOutput);
      CollectConcat(OwnBuffers(front, p), BufferOf(g, h, p), EndToEnd.OutputIn);
    } else {
      CollectOne(Elapse(g.now), RequestFlow.ReceivedOutput);
    }
  }

  /**
    Main result: whatever other peers and objects do, what the driver is asked to hand to the devices for a peer is an in-order selection
    of the reports and resets that its client library sent.
   */
  lemma PeerReportsEndToEnd(commands: seq<Wire.Command>, happenings: seq<Happening>, p: PeerId)
    requires forall c | c in commands :: Wire.Sendable(c)
    requires p in Run(happenings).entries
    requires Subseq(OwnBuffers(happenings, p), EndToEnd.Encoded(commands))
    ensures Subseq(RequestFlow.Posted(Run(happenings).entries[p].history.trace), Collect(commands, EndToEnd.OutputOf))
  {
    PeersAreIndependent(happenings, p);
    OwnOutputs(happenings, p);
    EndToEnd.OutputsEndToEnd(commands, OwnBuffers(happenings, p), Own(happenings, p).value);
    assert Seen(Run(happenings), p).history == Run(happenings).entries[p].history;
  }
}
