/**
  Which connection a shown ready value came from. `async_virtual_hid_keyboard_ready` asks the driver in one task and stores the
  answer in a later one, so the connection that answered may be gone by then. Here every answer carries the handle that gave it,
  how many openings there had been before, and how many closes.
 */
module ReadyOrigin {
  import opened Wrappers
  import opened Protocol
  import opened Sequences
  import opened IoService

  /** An answer on its way to be stored. */
  datatype Answer = Answer(device: Device, value: Option<bool>, handle: Option<Handle>, opening: nat, closesBefore: nat)

  /** Where a stored value came from: the answering handle, its opening, and the closes before the question and before the storing. */
  datatype Origin = Origin(handle: Option<Handle>, opening: nat, asked: nat, stored: nat)

  datatype World = World(io: State, log: seq<Effect>, waiting: seq<Answer>, keyboard: Option<Origin>, pointing: Option<Origin>)

  const START := World(INITIAL, [], [], None, None)

  datatype Happening = Event(event: IoService.Event) | Ask(device: Device, answer: Option<bool>) | Store

  predicate IsClose(e: Effect) {
    e.Close?
  }

  predicate IsOpen(e: Effect) {
    e.Open?
  }

  function CloseCount(log: seq<Effect>): nat {
    |Filter(log, IsClose)|
  }

  /** Openings are numbered as they come: the last one so far has this number. */
  function OpenCount(log: seq<Effect>): nat {
    |Filter(log, IsOpen)|
  }

  function OriginOf(w: World, d: Device): Option<Origin> {
    match d
    case Keyboard => w.keyboard
    case Pointing => w.pointing
  }

  function WithOrigin(w: World, d: Device, o: Origin): World {
    match d
    case Keyboard => w.(keyboard := Some(o))
    case Pointing => w.(pointing := Some(o))
  }

  function Goes(w: World, out: Out): World {
    w.(io := out.state, log := w.log + out.effects)
  }

  /** Values are stored by `Store` only, in the order in which they were asked for. */
  function Next(w: World, h: Happening): World {
    match h
    case Event(event) => if event.StoreReady? then w else Goes(w, Step(w.io, event))
    case Ask(d, answer) =>
      Goes(w, Invoke(w.io, QueryReady(d)))
        .(waiting := w.waiting + [Answer(d, ReadyAnswer(w.io, answer), w.io.connection, OpenCount(w.log), CloseCount(w.log))])
    case Store =>
      if w.waiting == [] then w
      else
        var a := w.waiting[0];
        WithOrigin(Goes(w, SetReady(w.io, a.device, a.value)), a.device, Origin(a.handle, a.opening, a.closesBefore, CloseCount(w.log)))
          .(waiting := w.waiting[1..])
  }

  function Run(happenings: seq<Happening>): World {
    if happenings == [] then START else Next(Run(Front(happenings)), Last(happenings))
  }

  // ---------------------------------------------------------------- what one event does

  lemma CountConcat(a: seq<Effect>, b: seq<Effect>)
    ensures CloseCount(a + b) == CloseCount(a) + CloseCount(b)
    ensures OpenCount(a + b) == OpenCount(a) + OpenCount(b)
  {
    FilterConcat(a, b, IsClose);
    FilterConcat(a, b, IsOpen);
  }

  lemma {:induction false} TryServicesKeepsReady(s: State, i: nat, kernel: Kernel, d: Device)
    requires i <= |s.services|
    ensures CachedReady(TryServices(s, i, kernel).state, d) == CachedReady(s, d)
    decreases |s.services| - i
  {
    if i < |s.services| {
      var v := s.services[i];
      var reply := Reply(kernel, v.id);
      if v.isInvalidated || reply.OpenFailed? {
        TryServicesKeepsReady(s, i + 1, kernel, d);
      } else if Reported(reply).None? {
        TryServicesKeepsReady(SetVersion(s, Reported(reply)).state.(services := s.services[i := v.(isInvalidated := true)]), i + 1, kernel, d);
      }
    }
  }

  /** The connection and the stored values stay as they are and nothing is closed, or all stored values are cleared. */
  ghost predicate KeepsOrClears(s: State, out: Out) {
    || (forall d :: CachedReady(out.state, d).None?)
    || (&& out.state.connection == s.connection && CloseCount(out.effects) == 0
        && forall d :: CachedReady(out.state, d) == CachedReady(s, d))
  }

  lemma OpenConnectionKeepsOrClears(s: State, kernel: Kernel)
    ensures if s.connection.Some? then OpenConnection(s, kernel) == Out(s, [])
            else forall d :: CachedReady(OpenConnection(s, kernel).state, d).None?
  {
    if s.connection.None? {
      var cleared := ClearCaches(s).state;
      forall d ensures CachedReady(OpenConnection(s, kernel).state, d).None? { TryServicesKeepsReady(cleared, 0, kernel, d); }
    }
  }

  lemma MatchedKeepsOrClears(s: State, id: RegistryId, kernel: Kernel)
    ensures KeepsOrClears(s, Matched(s, id, kernel))
  {
    var listed := s.(services := Insert(s.services, id));
    OpenConnectionKeepsOrClears(listed, kernel);
    if s.connection.Some? { NoClose([Enqueue(StateChangedSignal)]); }
  }

  lemma NoClose(effects: seq<Effect>)
    requires forall e | e in effects :: !e.Close?
    ensures CloseCount(effects) == 0
  {
    FilterNone(effects, IsClose);
  }

  lemma NoOpen(effects: seq<Effect>)
    requires forall e | e in effects :: !e.Open?
    ensures OpenCount(effects) == 0
  {
    FilterNone(effects, IsOpen);
  }

  lemma CloseConnectionCases(s: State, id: RegistryId)
    ensures CloseConnection(s, id) == Out(s, []) || CloseConnection(s, id).state.connection.None?
  {
  }

  /** After `first`, the rest of a termination. */
  lemma ReopenKeepsOrClears(s: State, erased: State, kernel: Kernel)
    requires erased.connection.None? || (erased.connection == s.connection && forall d :: CachedReady(erased, d) == CachedReady(s, d))
    ensures var reopened := OpenConnection(erased, kernel);
            if erased.connection.Some? then KeepsOrClears(s, Out(reopened.state, [] + reopened.effects + [Enqueue(StateChangedSignal)]))
            else forall d :: CachedReady(reopened.state, d).None?
  {
    OpenConnectionKeepsOrClears(erased, kernel);
    if erased.connection.Some? { NoClose([] + [] + [Enqueue(StateChangedSignal)]); }
  }

  lemma TerminatedKeepsOrClears(s: State, id: RegistryId, kernel: Kernel)
    ensures KeepsOrClears(s, Terminated(s, id, kernel))
  {
    var closed := CloseConnection(s, id);
    CloseConnectionCases(s, id);
    ReopenKeepsOrClears(s, closed.state.(services := Erase(closed.state.services, id)), kernel);
  }

  lemma EventKeepsOrClears(s: State, event: IoService.Event)
    requires !event.StoreReady?
    ensures KeepsOrClears(s, Step(s, event))
  {
    match event
    case ServiceMatched(id, kernel) => if s.monitoring { MatchedKeepsOrClears(s, id, kernel); }
    case ServiceTerminated(id, kernel) => if s.monitoring { TerminatedKeepsOrClears(s, id, kernel); }
    case Issue(call) => NoClose(Step(s, event).effects);
    case Start(_) =>
  }

  // ---------------------------------------------------------------- what every run keeps

  /** An answer asked for after the last close came from the present connection; one from its opening on came after the last close. */
  ghost predicate AnswerInv(w: World, a: Answer) {
    && a.closesBefore <= CloseCount(w.log) && a.opening <= OpenCount(w.log)
    && (a.value.Some? && a.closesBefore == CloseCount(w.log) ==>
          a.handle.Some? && w.io.connection == a.handle && a.opening == OpenCount(w.log))
    && (a.opening == OpenCount(w.log) && w.io.connection.Some? ==> a.closesBefore == CloseCount(w.log))
  }

  ghost predicate OriginInv(w: World, d: Device) {
    CachedReady(w.io, d).Some? ==>
      && OriginOf(w, d).Some?
      && var o := OriginOf(w, d).value;
         && o.asked <= o.stored == CloseCount(w.log) && o.opening <= OpenCount(w.log)
         && (o.asked == o.stored ==> o.handle.Some? && w.io.connection == o.handle && o.opening == OpenCount(w.log))
         && (o.opening == OpenCount(w.log) && w.io.connection.Some? ==> o.asked == CloseCount(w.log))
  }

  ghost predicate Inv(w: World) {
    && (forall a | a in w.waiting :: AnswerInv(w, a))
    && (forall d :: OriginInv(w, d))
  }

  /** A connection is lost by a close only, and got by an opening only. */
  ghost predicate Tracked(s: State, out: Out) {
    && (s.connection.Some? && CloseCount(out.effects) == 0 ==> out.state.connection == s.connection && OpenCount(out.effects) == 0)
    && (OpenCount(out.effects) == 0 && out.state.connection.Some? ==> s.connection == out.state.connection && CloseCount(out.effects) == 0)
  }

  lemma {:induction false} TryServicesOpens(s: State, i: nat, kernel: Kernel)
    requires i <= |s.services| && s.connection.None?
    ensures TryServices(s, i, kernel).state.connection.Some? ==> OpenCount(TryServices(s, i, kernel).effects) > 0
    decreases |s.services| - i
  {
    if i < |s.services| {
      var v := s.services[i];
      var reply := Reply(kernel, v.id);
      if v.isInvalidated || reply.OpenFailed? {
        TryServicesOpens(s, i + 1, kernel);
      } else {
        OpenedFirst(v.id, reply.handle, TryServices(s, i, kernel).effects);
      }
    }
  }

  lemma OpenedFirst(id: RegistryId, handle: Handle, effects: seq<Effect>)
    requires effects != [] && effects[0] == Open(id, handle)
    ensures OpenCount(effects) > 0
  {
    FilterMember(effects, IsOpen, effects[0]);
  }

  lemma OpenConnectionOpens(s: State, kernel: Kernel)
    requires s.connection.None?
    ensures OpenConnection(s, kernel).state.connection.Some? ==> OpenCount(OpenConnection(s, kernel).effects) > 0
  {
    var cleared := ClearCaches(s);
    TryServicesOpens(cleared.state, 0, kernel);
    CountConcat(cleared.effects, TryServices(cleared.state, 0, kernel).effects);
  }

  lemma MatchedTracked(s: State, id: RegistryId, kernel: Kernel)
    ensures Tracked(s, Matched(s, id, kernel))
  {
    var listed := s.(services := Insert(s.services, id));
    var reopened := OpenConnection(listed, kernel);
    CountConcat(reopened.effects, [Enqueue(StateChangedSignal)]);
    NoClose([Enqueue(StateChangedSignal)]);
    NoOpen([Enqueue(StateChangedSignal)]);
    if s.connection.None? { OpenConnectionOpens(listed, kernel); }
  }

  lemma CloseConnectionLoss(s: State, id: RegistryId)
    requires s.connection.Some?
    ensures var closed := CloseConnection(s, id);
            closed == Out(s, []) || (closed.state.connection.None? && CloseCount(closed.effects) > 0)
  {
    var closed := CloseConnection(s, id);
    if closed != Out(s, []) {
      assert closed.effects[0] == Close(s.connection.value);
      FilterMember(closed.effects, IsClose, closed.effects[0]);
    }
  }

  /** Closing, then opening. */
  lemma ReopenTracked(s: State, closed: Out, erased: State, kernel: Kernel)
    requires erased.connection == closed.state.connection
    requires closed == Out(s, []) || (closed.state.connection.None? && (s.connection.Some? ==> CloseCount(closed.effects) > 0))
    ensures var reopened := OpenConnection(erased, kernel);
            Tracked(s, Out(reopened.state, closed.effects + reopened.effects + [Enqueue(StateChangedSignal)]))
  {
    var reopened := OpenConnection(erased, kernel);
    CountConcat(closed.effects, reopened.effects);
    CountConcat(closed.effects + reopened.effects, [Enqueue(StateChangedSignal)]);
    NoClose([Enqueue(StateChangedSignal)]);
    NoOpen([Enqueue(StateChangedSignal)]);
    if erased.connection.None? { OpenConnectionOpens(erased, kernel); }
  }

  lemma TerminatedTracked(s: State, id: RegistryId, kernel: Kernel)
    ensures Tracked(s, Terminated(s, id, kernel))
  {
    var closed := CloseConnection(s, id);
    if s.connection.Some? { CloseConnectionLoss(s, id); }
    CloseConnectionCases(s, id);
    ReopenTracked(s, closed, closed.state.(services := Erase(closed.state.services, id)), kernel);
  }

  lemma EventTracked(s: State, event: IoService.Event)
    requires !event.StoreReady?
    ensures Tracked(s, Step(s, event))
  {
    match event
    case ServiceMatched(id, kernel) => if s.monitoring { MatchedTracked(s, id, kernel); }
    case ServiceTerminated(id, kernel) => if s.monitoring { TerminatedTracked(s, id, kernel); }
    case Issue(call) => NoClose(Step(s, event).effects); NoOpen(Step(s, event).effects);
    case Start(_) =>
  }

  lemma GoesInv(w: World, out: Out)
    requires Inv(w) && KeepsOrClears(w.io, out) && Tracked(w.io, out)
    ensures Inv(Goes(w, out))
  {
    CountConcat(w.log, out.effects);
    forall a | a in w.waiting ensures AnswerInv(Goes(w, out), a) { assert AnswerInv(w, a); }
    forall d ensures OriginInv(Goes(w, out), d) { assert OriginInv(w, d); }
  }

  lemma WaitingInv(w: World, a: Answer)
    requires Inv(w) && AnswerInv(w, a)
    ensures Inv(w.(waiting := w.waiting + [a]))
  {
    var w' := w.(waiting := w.waiting + [a]);
    forall b | b in w'.waiting ensures AnswerInv(w', b) { assert AnswerInv(w, b); }
    forall d ensures OriginInv(w', d) { assert OriginInv(w, d); }
  }

  lemma AskInv(w: World, d: Device, answer: Option<bool>)
    requires Inv(w)
    ensures Inv(Next(w, Ask(d, answer)))
  {
    var out := Invoke(w.io, QueryReady(d));
    NoClose(out.effects);
    NoOpen(out.effects);
    CountConcat(w.log, out.effects);
    GoesInv(w, out);
    WaitingInv(Goes(w, out), Answer(d, ReadyAnswer(w.io, answer), w.io.connection, OpenCount(w.log), CloseCount(w.log)));
  }

  /** Storing closes nothing and touches one value. */
  lemma SetReadyIs(s: State, d: Device, value: Option<bool>)
    ensures var out := SetReady(s, d, value);
            && CloseCount(out.effects) == 0 && OpenCount(out.effects) == 0 && out.state.connection == s.connection
            && forall e :: CachedReady(out.state, e) == if e == d then value else CachedReady(s, e)
  {
    NoClose(SetReady(s, d, value).effects);
    NoOpen(SetReady(s, d, value).effects);
  }

  lemma StoreInv(w: World, a: Answer)
    requires Inv(w) && w.waiting != [] && a == w.waiting[0]
    ensures Inv(Next(w, Store))
  {
    var out := SetReady(w.io, a.device, a.value);
    SetReadyIs(w.io, a.device, a.value);
    CountConcat(w.log, out.effects);
    assert AnswerInv(w, a);
    StoredInv(w, a, out, Next(w, Store));
  }

  lemma StoredInv(w: World, a: Answer, out: Out, w': World)
    requires Inv(w) && AnswerInv(w, a)
    requires CloseCount(w'.log) == CloseCount(w.log) && OpenCount(w'.log) == OpenCount(w.log)
    requires w'.io == out.state && out.state.connection == w.io.connection
    requires forall e :: CachedReady(out.state, e) == if e == a.device then a.value else CachedReady(w.io, e)
    requires forall b | b in w'.waiting :: b in w.waiting
    requires forall e :: OriginOf(w', e) == if e == a.device then Some(Origin(a.handle, a.opening, a.closesBefore, CloseCount(w.log))) else OriginOf(w, e)
    ensures Inv(w')
  {
    forall b | b in w'.waiting ensures AnswerInv(w', b) { assert AnswerInv(w, b); }
    forall d ensures OriginInv(w', d) { assert OriginInv(w, d); }
  }

  lemma {:induction false} RunInv(happenings: seq<Happening>)
    ensures Inv(Run(happenings))
  {
    if happenings != [] {
      var w := Run(Front(happenings));
      RunInv(Front(happenings));
      match Last(happenings)
      case Event(event) =>
        if !event.StoreReady? {
          EventKeepsOrClears(w.io, event);
          EventTracked(w.io, event);
          GoesInv(w, Step(w.io, event));
        }
      case Ask(d, answer) => AskInv(w, d, answer);
      case Store => if w.waiting != [] { StoreInv(w, w.waiting[0]); }
    }
  }

  /** The answering handle is open now, and the opening that it came from is the last one. */
  ghost predicate FromPresentConnection(w: World, o: Origin) {
    w.io.connection.Some? && o.handle == w.io.connection && o.opening == OpenCount(w.log)
  }

  /**
    Main result: in every run, a ready value that is shown was answered by the connection now open exactly when no handle was closed
    between its question and its storing.
   */
  lemma ShownReadyOrigin(happenings: seq<Happening>, d: Device)
    requires ShownReady(Run(happenings).io, d).Some?
    ensures var w := Run(happenings);
            && OriginOf(w, d).Some?
            && (FromPresentConnection(w, OriginOf(w, d).value) <==> OriginOf(w, d).value.asked == OriginOf(w, d).value.stored)
  {
    RunInv(happenings);
    assert OriginInv(Run(happenings), d);
  }

  // ---------------------------------------------------------------- a stale value

  function GoodReply(handle: Handle): OpenReply {
    OpenSucceeded(handle, Some(EMBEDDED_DRIVER_VERSION))
  }

  /** Two services; the first answers that its keyboard is ready and is terminated before the answer is stored. */
  function StaleRun(): seq<Happening> {
    [Event(Start(true)),
     Event(ServiceMatched(1, map[1 := GoodReply(5)])),
     Event(ServiceMatched(2, map[])),
     Ask(Keyboard, Some(true)),
     Event(ServiceTerminated(1, map[2 := GoodReply(6)])),
     Store]
  }

  const OPENED_FIRST := State(true, [Service(1, true, false)], Some(5), Some(EMBEDDED_DRIVER_VERSION), None, None)
  const LISTED_BOTH := OPENED_FIRST.(services := [Service(1, true, false), Service(2, false, false)])
  const OPENED_SECOND := State(true, [Service(2, true, false)], Some(6), Some(EMBEDDED_DRIVER_VERSION), None, None)

  lemma OpensFirst(s: State)
    requires s == INITIAL.(monitoring := true)
    ensures Matched(s, 1, map[1 := GoodReply(5)]).state == OPENED_FIRST
    ensures CloseCount(Matched(s, 1, map[1 := GoodReply(5)]).effects) == 0
  {
    var listed := s.(services := [Service(1, false, false)]);
    assert Insert([], 1) == [] + [Service(1, false, false)];
    assert OpenConnection(listed, map[1 := GoodReply(5)]).state == OPENED_FIRST;
    NoClose(Matched(s, 1, map[1 := GoodReply(5)]).effects);
  }

  lemma ListsSecond()
    ensures Matched(OPENED_FIRST, 2, map[]) == Out(LISTED_BOTH, [] + [Enqueue(StateChangedSignal)])
  {
    assert IndexOf([Service(1, true, false)], 2) == 1;
    assert Insert([Service(1, true, false)], 2) == [Service(1, true, false), Service(2, false, false)];
  }

  lemma ClosesFirst()
    ensures var closed := CloseConnection(LISTED_BOTH, 1);
            && closed.state == State(true, [Service(1, false, false), Service(2, false, false)], None, None, None, None)
            && CloseCount(closed.effects) == 1
  {
    assert IndexOf(LISTED_BOTH.services, 1) == 0;
    var first := [Close(5), Enqueue(ClosedSignal)];
    assert CloseConnection(LISTED_BOTH, 1).effects == first + [Enqueue(StateChangedSignal)];
    assert Front(first) == [Close(5)] && Front([Close(5)]) == [];
    assert CloseCount(first) == 1;
    CountConcat(first, [Enqueue(StateChangedSignal)]);
    NoClose([Enqueue(StateChangedSignal)]);
  }

  lemma ErasesFirst()
    ensures Erase([Service(1, false, false), Service(2, false, false)], 1) == [Service(2, false, false)]
  {
    var services := [Service(1, false, false), Service(2, false, false)];
    assert services[..1] == [services[0]] && [services[0]][..0] == [];
    assert Erase([services[0]], 1) == Erase([], 1) == [];
    assert Erase(services, 1) == Erase(services[..1], 1) + [services[1]];
  }

  lemma Reopens(s: State)
    requires s == State(true, [Service(2, false, false)], None, None, None, None)
    ensures var out := OpenConnection(s, map[2 := GoodReply(6)]);
            out.state == OPENED_SECOND && CloseCount(out.effects) == 0
  {
    var out := OpenConnection(s, map[2 := GoodReply(6)]);
    assert out.state == OPENED_SECOND;
    NoClose(out.effects);
  }

  lemma OpensSecond()
    ensures var out := Terminated(LISTED_BOTH, 1, map[2 := GoodReply(6)]);
            out.state == OPENED_SECOND && CloseCount(out.effects) == 1
  {
    var closed := CloseConnection(LISTED_BOTH, 1);
    ClosesFirst();
    ErasesFirst();
    var erased := closed.state.(services := [Service(2, false, false)]);
    Reopens(erased);
    var reopened := OpenConnection(erased, map[2 := GoodReply(6)]);
    CountConcat(closed.effects, reopened.effects);
    CountConcat(closed.effects + reopened.effects, [Enqueue(StateChangedSignal)]);
    NoClose([Enqueue(StateChangedSignal)]);
  }

  /** Where the stale run stands. */
  ghost predicate At(w: World, io: State, waiting: seq<Answer>, closes: nat) {
    w.io == io && w.waiting == waiting && CloseCount(w.log) == closes
  }

  lemma EventAt(w: World, event: IoService.Event, out: Out)
    requires !event.StoreReady? && Step(w.io, event) == out
    ensures At(Next(w, Event(event)), out.state, w.waiting, CloseCount(w.log) + CloseCount(out.effects))
  {
    CountConcat(w.log, out.effects);
  }

  lemma RunOneMore(s: seq<Happening>, k: nat)
    requires k < |s|
    ensures Run(s[..k + 1]) == Next(Run(s[..k]), s[k])
  {
    assert Front(s[..k + 1]) == s[..k];
  }

  lemma Starts(s: seq<Happening>)
    requires s == StaleRun()
    ensures At(Run(s[..1]), INITIAL.(monitoring := true), [], 0)
  {
    assert s[..0] == [];
    RunOneMore(s, 0);
    EventAt(START, Start(true), Out(INITIAL.(monitoring := true), []));
  }

  lemma MatchFirstAt(w: World)
    requires At(w, INITIAL.(monitoring := true), [], 0)
    ensures At(Next(w, Event(ServiceMatched(1, map[1 := GoodReply(5)]))), OPENED_FIRST, [], 0)
  {
    OpensFirst(w.io);
    EventAt(w, ServiceMatched(1, map[1 := GoodReply(5)]), Matched(w.io, 1, map[1 := GoodReply(5)]));
  }

  lemma MatchesFirst(s: seq<Happening>)
    requires s == StaleRun()
    ensures At(Run(s[..2]), OPENED_FIRST, [], 0)
  {
    Starts(s);
    RunOneMore(s, 1);
    MatchFirstAt(Run(s[..1]));
  }

  lemma MatchSecondAt(w: World)
    requires At(w, OPENED_FIRST, [], 0)
    ensures At(Next(w, Event(ServiceMatched(2, map[]))), LISTED_BOTH, [], 0)
  {
    ListsSecond();
    NoClose([] + [Enqueue(StateChangedSignal)]);
    EventAt(w, ServiceMatched(2, map[]), Out(LISTED_BOTH, [] + [Enqueue(StateChangedSignal)]));
  }

  lemma MatchesSecond(s: seq<Happening>)
    requires s == StaleRun()
    ensures At(Run(s[..3]), LISTED_BOTH, [], 0)
  {
    MatchesFirst(s);
    RunOneMore(s, 2);
    MatchSecondAt(Run(s[..2]));
  }

  /** The answer of the first handle is waiting to be stored. */
  ghost predicate Waits(w: World, io: State, closes: nat) {
    && w.io == io && CloseCount(w.log) == closes && |w.waiting| == 1
    && w.waiting[0].device == Keyboard && w.waiting[0].value == Some(true)
    && w.waiting[0].handle == Some(5) && w.waiting[0].closesBefore == 0
  }

  lemma AskAt(w: World)
    requires At(w, LISTED_BOTH, [], 0)
    ensures Waits(Next(w, Ask(Keyboard, Some(true))), LISTED_BOTH, 0)
  {
    var asked := Invoke(w.io, QueryReady(Keyboard)).effects;
    NoClose(asked);
    CountConcat(w.log, asked);
  }

  lemma AsksFirst(s: seq<Happening>)
    requires s == StaleRun()
    ensures Waits(Run(s[..4]), LISTED_BOTH, 0)
  {
    MatchesSecond(s);
    RunOneMore(s, 3);
    AskAt(Run(s[..3]));
  }

  lemma LoseFirstAt(w: World)
    requires Waits(w, LISTED_BOTH, 0)
    ensures Waits(Next(w, Event(ServiceTerminated(1, map[2 := GoodReply(6)]))), OPENED_SECOND, 1)
  {
    OpensSecond();
    EventAt(w, ServiceTerminated(1, map[2 := GoodReply(6)]), Terminated(LISTED_BOTH, 1, map[2 := GoodReply(6)]));
  }

  lemma LosesFirst(s: seq<Happening>)
    requires s == StaleRun()
    ensures Waits(Run(s[..5]), OPENED_SECOND, 1)
  {
    AsksFirst(s);
    RunOneMore(s, 4);
    LoseFirstAt(Run(s[..4]));
  }

  /** A value of the first handle, shown while the second is open. */
  ghost predicate Stale(w: World) {
    && ShownReady(w.io, Keyboard) == Some(true) && w.io.connection == Some(6)
    && OriginOf(w, Keyboard).Some? && OriginOf(w, Keyboard).value.handle == Some(5)
    && OriginOf(w, Keyboard).value.asked == 0 && OriginOf(w, Keyboard).value.stored == 1
    && !FromPresentConnection(w, OriginOf(w, Keyboard).value)
  }

  lemma StoresLate(w: World)
    requires Waits(w, OPENED_SECOND, 1)
    ensures Stale(Next(w, Store))
  {
    var effects := SetReady(w.io, Keyboard, Some(true)).effects;
    NoClose(effects);
    CountConcat(w.log, effects);
  }

  /** It does happen: a value that the first handle gave is shown while the second is open. */
  lemma ShowsStaleValue()
    ensures Stale(Run(StaleRun()))
  {
    var s := StaleRun();
    LosesFirst(s);
    RunOneMore(s, 5);
    assert s[..6] == s;
    StoresLate(Run(s[..5]));
  }
}
