/**
  A run of the daemon in which a response leaves the client library with a ready keyboard that the daemon has not got.

  The keyboard's client is connected and its one question for readiness is about to be asked when the client library terminates the
  keyboard; before the answer is stored, it also sends a reset. The queue is then: pass on the termination, store the answer, pass on the
  reset. The termination's own task comes in behind the reset, so the reset is answered with a ready keyboard; and the announcement of
  the change comes in behind the termination, which drops it. The status is back to the one last pushed, so nothing is pushed.
 */
module HarmfulResponse {
  import opened Wrappers
  import opened Protocol
  import opened Sequences
  import opened Reconciler
  import ReconcilerInvariant
  import opened EntryTasks
  import opened DispatcherQueue
  import opened PeerConversation
  import opened OnePeer
  import IoService
  import D = Daemon
  import StatusPush
  import S = ServiceClient
  import Wire

  // ---------------------------------------------------------------- the run: up to a connected keyboard

  const CALL := D.Of(P, D.CallTimer)
  const CHECK := CheckItem(Timer(CHECK_DELAY, Keyboard, 1, NEW))

  function FirstTickets(): seq<D.Ticket> {
    [TaskOf(Job(STATUS, Start)), CALL, TaskOf(Job(ENTRY, CheckStatus))]
  }

  lemma ServesConnected(g: D.State)
    requires g == D.State(0, map[], [])
    ensures Stands(D.Serve(g, D.Connected(P)), 0, FirstTickets(), [], Shot(IoService.INITIAL, None, None))
  {
    assert D.FirstTasks(P) == Soon(FirstTickets());
    assert g.queue == Soon([]) + [];
    InsertAllSoon([], [], FirstTickets());
    assert [] + FirstTickets() == FirstTickets();
  }

  lemma Connects() returns (x: seq<D.Happening>)
    ensures At(x, 0, FirstTickets(), [], Shot(IoService.INITIAL, None, None))
  {
    var arrives := D.Arrives(D.Connected(P));
    x := [] + [arrives] + [D.Take(Kernel(None))];
    RunThen([], arrives);
    RunThen([] + [arrives], D.Take(Kernel(None)));
    var g := D.Run([] + [arrives]);
    assert g.queue == [Item(IMMEDIATELY, D.Server(D.Connected(P)))];
    assert g.queue[1..] == [];
    ServesConnected(D.Rest(g));
  }

  lemma StartsStatus() returns (x: seq<D.Happening>)
    ensures At(x, 0, [CALL, TaskOf(Job(ENTRY, CheckStatus))], [], Shot(LISTENING, None, None))
  {
    var x0 := Connects();
    var front := [CALL, TaskOf(Job(ENTRY, CheckStatus))];
    assert FirstTickets() == [TaskOf(Job(STATUS, Start))] + front;
    x := TakeStatusJob(x0, 0, Start, IoService.Start(true), front, [], Shot(IoService.INITIAL, None, None));
    assert SignalJobs(STATUS, []) == [] && front + Tickets([]) == front;
  }

  const UNCONNECTED := Status(true, false, false, false, false)
  const STEADY := Status(true, true, false, false, false)
  const READY := Status(true, true, false, true, false)

  function Timers(due: nat): seq<Item<D.Ticket>> {
    [Item(due, CALL)]
  }

  lemma FirstCheck() returns (x: seq<D.Happening>)
    ensures At(x, 0, [], Timers(1000), Shot(LISTENING, None, Some(UNCONNECTED)))
  {
    var s := Shot(LISTENING, None, None);
    var x0 := StartsStatus();
    assert [CALL, TaskOf(Job(ENTRY, CheckStatus))] == [CALL] + [TaskOf(Job(ENTRY, CheckStatus))];
    var x1 := TakeCall(x0, 0, [TaskOf(Job(ENTRY, CheckStatus))], [], s);
    assert Insert([], CallAgain(0)) == Timers(1000);
    assert [TaskOf(Job(ENTRY, CheckStatus))] + [ASK_BOTH] == [TaskOf(Job(ENTRY, CheckStatus)), ASK_BOTH];
    var x2 := TakeSample(x1, 0, Job(ENTRY, CheckStatus), [ASK_BOTH], Timers(1000), s);
    x := TakeAskBoth(x2, 0, [], Timers(1000), Shot(LISTENING, None, Some(UNCONNECTED)));
    assert [] + Tickets([]) == [];
  }

  /** The three signals after a first match. */
  lemma TakeSignals(x: seq<D.Happening>, owner: ObjectId, later: seq<Item<D.Ticket>>, s: Shot) returns (x': seq<D.Happening>)
    requires At(x, 0, Tickets(Greetings(owner)), later, s)
    requires owner == STATUS || (owner == NEW && s.keyboard.Some?)
    ensures At(x', 0, Tickets(Opening(owner)), later, s.(last := Some(Face(s))))
  {
    var s' := s.(last := Some(Face(s)));
    var rest := [TaskOf(Opened(owner)), TaskOf(Changed(owner))];
    assert Tickets(Greetings(owner)) == [TaskOf(Changed(owner))] + rest;
    var x1 := TakeSample(x, 0, Changed(owner), rest, later, s);
    assert rest == [TaskOf(Opened(owner))] + [TaskOf(Changed(owner))];
    var x2 := TakeOpened(x1, 0, owner, [TaskOf(Changed(owner))], later, s');
    OpeningLives(owner, s');
    x' := TakeSample(x2, 0, Changed(owner), Tickets(Opening(owner)), later, s');
  }

  lemma OpeningLives(owner: ObjectId, s: Shot)
    requires owner == STATUS || (owner == NEW && s.keyboard.Some?)
    ensures forall t | t in Tickets(Opening(owner)) :: Lives(t, s)
  {
  }

  lemma ConnectsStatus() returns (x: seq<D.Happening>)
    ensures At(x, 0, [], Timers(1000), Shot(Open(4), None, Some(STEADY)))
  {
    var x0 := FirstCheck();
    var s := Shot(LISTENING, None, Some(UNCONNECTED));
    CoreStage(D.Run(x0), 0, [], Timers(1000), s);
    StatusMatched(D.Core(D.Run(x0), P), s);
    var x1 := MatchAt(x0, STATUS, 4, 0, Timers(1000), s, s.(status := Open(4)));
    x := TakeSignals(x1, STATUS, Timers(1000), Shot(Open(4), None, Some(UNCONNECTED)));
    assert Tickets([]) == [];
  }

  const UNASKED := Shot(Open(4), None, Some(STEADY))

  lemma Initializes() returns (x: seq<D.Happening>)
    ensures At(x, 0, Tickets(Asked(INITIALIZE)), Timers(1000), UNASKED)
  {
    var x0 := ConnectsStatus();
    var x1 := ArrivesAt(x0, D.Received(P, Wire.Encode(INITIALIZE)), 0, [], Timers(1000), UNASKED);
    assert [] + [Sent(INITIALIZE)] == [Sent(INITIALIZE)] + [];
    x := TakeRequest(x1, 0, INITIALIZE, [], Timers(1000), UNASKED);
    assert [] + Tickets(Asked(INITIALIZE)) == Tickets(Asked(INITIALIZE));
  }

  lemma GetsKeyboard() returns (x: seq<D.Happening>)
    ensures At(x, 0, [TaskOf(Job(NEW, Start))], [Item(1000, CALL), CHECK], Shot(Open(4), Some(IoService.INITIAL), Some(STEADY)))
  {
    var x0 := Initializes();
    x := TakeInitialize(x0, Timers(1000), UNASKED);
    CheckBehind();
  }

  lemma CheckBehind()
    ensures Insert(Timers(1000), CHECK) == [Item(1000, CALL), CHECK]
    ensures Insert([CHECK], CallAgain(1000)) == [Item(2000, CALL), CHECK]
  {
    assert Timers(1000)[1..] == [] && UpperBound(Timers(1000)[1..], CHECK.due) == 0;
    assert UpperBound([CHECK], 2000) == 0;
  }

  lemma KeyboardListens() returns (x: seq<D.Happening>)
    ensures At(x, 0, [], [Item(1000, CALL), CHECK], Shot(Open(4), Some(LISTENING), Some(STEADY)))
  {
    var x0 := GetsKeyboard();
    assert [TaskOf(Job(NEW, Start))] == [TaskOf(Job(NEW, Start))] + [];
    x := TakeKeyboardJob(x0, 0, Start, IoService.Start(true), [], [Item(1000, CALL), CHECK], Shot(Open(4), Some(IoService.INITIAL), Some(STEADY)));
    assert SignalJobs(NEW, []) == [] && [] + Tickets([]) == [];
  }

  const CONNECTED := Shot(Open(4), Some(Open(5)), Some(STEADY))

  lemma ConnectsKeyboard() returns (x: seq<D.Happening>)
    ensures At(x, 0, [], [Item(1000, CALL), CHECK], CONNECTED)
  {
    var later := [Item(1000, CALL), CHECK];
    var x0 := KeyboardListens();
    var s := Shot(Open(4), Some(LISTENING), Some(STEADY));
    CoreStage(D.Run(x0), 0, [], later, s);
    KeyboardMatched(D.Core(D.Run(x0), P), s);
    var x1 := MatchAt(x0, NEW, 5, 0, later, s, CONNECTED);
    var x2 := TakeSignals(x1, NEW, later, CONNECTED);
    var task := Issue(DriverCall.InitializeKeyboard(DEFAULT_PARAMETERS));
    assert Tickets(Opening(NEW)) == [TaskOf(Job(NEW, task))] + [];
    x := TakeCallOut(x2, 0, DriverCall.InitializeKeyboard(DEFAULT_PARAMETERS), [], later, CONNECTED);
  }

  /** A call into the driver queues nothing. */
  lemma TakeCallOut(x: seq<D.Happening>, now: nat, call: DriverCall, front: seq<D.Ticket>, later: seq<Item<D.Ticket>>, s: Shot)
    returns (x': seq<D.Happening>)
    requires s.keyboard.Some?
    requires At(x, now, [TaskOf(Job(NEW, Issue(call)))] + front, later, s) && forall t | t in front :: Lives(t, s)
    ensures At(x', now, front, later, s)
  {
    x' := TakeKeyboardJob(x, now, Issue(call), IoService.Issue(call), front, later, s);
    var effects := IoService.Invoke(s.keyboard.value, call).effects;
    CollectNothing(effects, SignalJob(NEW));
    assert front + Tickets([]) == front;
  }

  // ---------------------------------------------------------------- the run: question, termination, reset

  const LATER := [Item(2000, CALL), CHECK]

  const ASKING := Job(NEW, AskReady(Keyboard))
  const STORING := Job(NEW, StoreReady(Keyboard, Some(true)))
  const TERMINATING := Job(ENTRY, Apply(KeyboardTerminate))
  const RESETTING := Job(NEW, Issue(ResetDevice(Keyboard)))

  /** A second later the timer has its one question asked. */
  lemma Asks() returns (x: seq<D.Happening>)
    ensures At(x, 1000, [TaskOf(ASKING)], LATER, CONNECTED)
  {
    var x0 := ConnectsKeyboard();
    var x1 := PassesAt(x0, 1000, 0, [], [Item(1000, CALL), CHECK], CONNECTED);
    assert [Item(1000, CALL), CHECK] == [Item(1000, CALL)] + [CHECK];
    var x2 := TakeDueCall(x1, 1000, 1000, [CHECK], CONNECTED);
    CheckBehind();
    assert [ASK_BOTH] == [ASK_BOTH] + [];
    x := TakeAskBoth(x2, 1000, [], LATER, CONNECTED);
    assert [] + Tickets([ASKING]) == [TaskOf(ASKING)];
  }

  lemma AskRuns(c: Entry, s: Shot)
    requires Stage(c, [], [], s) && s.keyboard.Some? && IoService.Gate(s.keyboard.value)
    ensures Stage(RunJob(c, ASKING, Kernel(Some(true))), [STORING], [], s)
  {
    var event := IoService.Issue(QueryReady(Keyboard));
    KeyboardSteps(c, s, event);
    CollectNothing(IoService.Step(s.keyboard.value, event).effects, SignalJob(NEW));
    assert [] + [STORING] == [STORING];
  }

  /** The termination arrives before the question is asked, and the answer is to be stored after it is passed on. */
  lemma AsksAndTerminates() returns (x: seq<D.Happening>)
    ensures At(x, 1000, [Sent(TERMINATE), TaskOf(STORING)], LATER, CONNECTED)
  {
    var x0 := Asks();
    var x1 := ArrivesAt(x0, D.Received(P, Wire.Encode(TERMINATE)), 1000, [TaskOf(ASKING)], LATER, CONNECTED);
    x := TakeAsk(x1, [Sent(TERMINATE)], CONNECTED);
    assert [Sent(TERMINATE)] + [TaskOf(STORING)] == [Sent(TERMINATE), TaskOf(STORING)];
  }

  lemma TakeAsk(x: seq<D.Happening>, front: seq<D.Ticket>, s: Shot) returns (x': seq<D.Happening>)
    requires s.keyboard.Some? && IoService.Gate(s.keyboard.value)
    requires At(x, 1000, [TaskOf(ASKING)] + front, LATER, s) && forall t | t in front :: Lives(t, s)
    ensures At(x', 1000, front + [TaskOf(STORING)], LATER, s)
  {
    x' := x + [D.Take(Kernel(Some(true)))];
    var g := D.Run(x);
    RunThen(x, D.Take(Kernel(Some(true))));
    CoreStage(g, 1000, [TaskOf(ASKING)] + front, LATER, s);
    AskRuns(D.Core(g, P), s);
    JobTaken(g, 1000, ASKING, front, LATER, s, Kernel(Some(true)), RunJob(D.Core(g, P), ASKING, Kernel(Some(true))), [STORING], s);
    assert Tickets([STORING]) == [TaskOf(STORING)];
  }

  /** The reset arrives; then the termination is passed on. */
  lemma PassesTermination() returns (x: seq<D.Happening>)
    ensures At(x, 1000, [TaskOf(STORING), Sent(RESET), TaskOf(TERMINATING)], LATER, CONNECTED)
  {
    var x0 := AsksAndTerminates();
    var x1 := ArrivesAt(x0, D.Received(P, Wire.Encode(RESET)), 1000, [Sent(TERMINATE), TaskOf(STORING)], LATER, CONNECTED);
    var front := [TaskOf(STORING), Sent(RESET)];
    assert [Sent(TERMINATE), TaskOf(STORING)] + [Sent(RESET)] == [Sent(TERMINATE)] + front;
    x := TakeRequest(x1, 1000, TERMINATE, front, LATER, CONNECTED);
    assert front + Tickets(Asked(TERMINATE)) == [TaskOf(STORING), Sent(RESET), TaskOf(TERMINATING)];
  }

  const ANSWERED := CONNECTED.(keyboard := Some(Open(5).(keyboardReady := Some(true))))

  /** The keyboard gets ready; the announcement comes in behind the termination. */
  lemma GetsReady() returns (x: seq<D.Happening>)
    ensures At(x, 1000, [Sent(RESET), TaskOf(TERMINATING), TaskOf(Changed(NEW))], LATER, ANSWERED)
  {
    var x0 := PassesTermination();
    var front := [Sent(RESET), TaskOf(TERMINATING)];
    assert [TaskOf(STORING), Sent(RESET), TaskOf(TERMINATING)] == [TaskOf(STORING)] + front;
    x := TakeKeyboardJob(x0, 1000, STORING.task, IoService.StoreReady(Keyboard, Some(true)), front, LATER, CONNECTED);
    CollectOne(IoService.Enqueue(IoService.StateChangedSignal), SignalJob(NEW));
    assert front + Tickets([Changed(NEW)]) == [Sent(RESET), TaskOf(TERMINATING), TaskOf(Changed(NEW))];
  }

  // ---------------------------------------------------------------- what is said

  lemma AnswersReset() returns (x: seq<D.Happening>)
    ensures At(x, 1000, [TaskOf(TERMINATING)] + Leftover(), LATER, ANSWERED)
    ensures Told(x, P) != [] && Last(Told(x, P)) == READY
  {
    var x0 := GetsReady();
    var front := [TaskOf(TERMINATING), TaskOf(Changed(NEW))];
    assert [Sent(RESET), TaskOf(TERMINATING), TaskOf(Changed(NEW))] == [Sent(RESET)] + front;
    x := TakeRequest(x0, 1000, RESET, front, LATER, ANSWERED);
    assert front + Tickets(Asked(RESET)) == [TaskOf(TERMINATING)] + Leftover();
    ToldReady(x0, x, front);
  }

  lemma ToldReady(x: seq<D.Happening>, x': seq<D.Happening>, front: seq<D.Ticket>)
    requires At(x, 1000, [Sent(RESET)] + front, LATER, ANSWERED) && x' == x + [D.Take(Kernel(None))]
    requires P in D.Run(x').entries && Stage(D.Run(x').entries[P], [], [], ANSWERED)
    ensures Told(x', P) != [] && Last(Told(x', P)) == READY
  {
    var g, e := D.Run(x), D.Run(x').entries[P];
    assert Front(x') == x && Last(x') == D.Take(Kernel(None));
    FrontTaken(g, 1000, Sent(RESET), front, LATER, ANSWERED, Kernel(None));
    Wire.RoundTrip(RESET);
    FaceIs(e, [], [], ANSWERED);
    assert ResponseTo(D.Served(g, Last(x')), e, P, true) == [READY];
  }

  /** Terminating drops the client with its tasks; the status is back to the one last pushed. */
  lemma Terminates(c: Entry)
    requires Stage(c, [], [], ANSWERED)
    ensures var e := RunJob(c, TERMINATING, Kernel(None));
            && e.ready == [] && e.timers == [] && e.keyboard.client.None? && e.pointing.client.None?
            && e.history.pushes == c.history.pushes
  {
    var changed := Reconfigure(c, KeyboardTerminate);
    ReconcilerInvariant.TerminateIs(c, Keyboard);
    ReconcilerInvariant.ShutdownSilent(ANSWERED.keyboard.value, NEW);
    assert Without([], NEW) == [];
    assert changed.ready == [] && changed.status == c.status && changed.last == c.last;
    var recorded := changed.(history := changed.history.(applied := changed.history.applied + [KeyboardTerminate]));
    assert MakeResponse(recorded, true) == STEADY;
  }

  /** What is left in the queue is not of this entry's objects. */
  lemma NothingLeft(g: D.State, front: seq<D.Ticket>, e: Entry)
    requires Queued(g, 1000, front, LATER) && e.ready == [] && e.timers == [] && e.keyboard.client.None? && e.pointing.client.None?
    requires forall t | t in front :: t.Of? && t.work.Task? && t.work.job.owner == NEW
    ensures D.Seen(D.Executed(g, P, e), P).ready == []
  {
    var kept := Filter(g.queue, D.Survives(P, e));
    assert D.Added(P, e) == [];
    forall x | x in kept ensures D.JobsOf(P)(x) == [] {
      FilterMember(g.queue, D.Survives(P, e), x);
      if x !in LATER {
        var i :| 0 <= i < |front| && Soon(front)[i] == x;
        assert front[i] in front && !AliveIn(e)(front[i].work.job);
      }
    }
    CollectNothing(kept, D.JobsOf(P));
  }

  /**
    Main result: it does happen in a run of the daemon that nothing is queued any more and the client library holds a ready keyboard that
    the daemon has not got, although a driver is activated all the time, no service has gone, and nothing was put into the queue but
    what the client library sent and the entry's own tasks. The client library, which has asked for this keyboard once, leaves out the
    request when it is asked for it again.
   */
  lemma ResponseMisleads() returns (x: seq<D.Happening>)
    ensures P in D.Run(x).entries && forall h | h in x :: Calm(h)
    ensures !StatusPush.WillSample(D.Seen(D.Run(x), P))
    ensures Remembered(x, P).keyboardReady == Some(true) && D.Run(x).entries[P].keyboard.client.None?
    ensures S.Suppressed(Remembered(x, P).(parameters := Some(DEFAULT_PARAMETERS)), S.AskKeyboard(DEFAULT_PARAMETERS, false))
  {
    var x0 := AnswersReset();
    x := x0 + [D.Take(Kernel(None))];
    Misled(x0, x);
    S.LastStatusRemembered(S.UNKNOWN, Told(x, P));
  }

  ghost predicate Over(g: D.State) {
    P in g.entries && D.Seen(g, P).ready == [] && g.entries[P].keyboard.client.None?
  }

  function Leftover(): seq<D.Ticket> {
    [TaskOf(Changed(NEW)), TaskOf(RESETTING)]
  }

  lemma TerminatesAt(g: D.State)
    requires Stands(g, 1000, [TaskOf(TERMINATING)] + Leftover(), LATER, ANSWERED)
    ensures var g' := D.Next(g, D.Take(Kernel(None)));
            Over(g') && g'.entries[P].history.pushes == g.entries[P].history.pushes && D.Served(g, D.Take(Kernel(None))).None?
  {
    FrontTaken(g, 1000, TaskOf(TERMINATING), Leftover(), LATER, ANSWERED, Kernel(None));
    CoreStage(D.Rest(g), 1000, Leftover(), LATER, ANSWERED);
    Terminates(D.Core(g, P));
    NothingLeft(D.Rest(g), Leftover(), RunJob(D.Core(g, P), TERMINATING, Kernel(None)));
  }

  lemma NothingTold(x: seq<D.Happening>, h: D.Happening)
    requires P in D.Run(x).entries && P in D.Run(x + [h]).entries && D.Served(D.Run(x), h).None?
    requires D.Run(x + [h]).entries[P].history.pushes == D.Run(x).entries[P].history.pushes
    ensures Told(x + [h], P) == Told(x, P)
  {
    assert Front(x + [h]) == x;
    assert Told(x, P) + [] + [] == Told(x, P);
  }

  lemma Misled(x: seq<D.Happening>, x': seq<D.Happening>)
    requires At(x, 1000, [TaskOf(TERMINATING)] + Leftover(), LATER, ANSWERED) && x' == x + [D.Take(Kernel(None))]
    ensures Over(D.Run(x')) && Told(x', P) == Told(x, P)
  {
    RunThen(x, D.Take(Kernel(None)));
    TerminatesAt(D.Run(x));
    NothingTold(x, D.Take(Kernel(None)));
  }
}
