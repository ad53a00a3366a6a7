/**
  What every run of `io_service_client` keeps. The log of effects is read by an auditor that knows
  nothing of the client's fields: it rejects a log in which a handle is closed twice, a second handle
  is opened before the first is closed, a call goes through a closed or mismatched connection, the
  `opened` and `closed` signals fail to alternate, or a service whose version query failed is opened again.
 */
module ConnectionAudit {
  import opened Wrappers
  import opened Protocol
  import opened IoService

  /** The auditor's memory: the handle it saw opened, the version it saw reported, and the failed services. */
  datatype Ledger = Ledger(
    open: Option<Handle>,
    service: RegistryId,
    reported: Option<Version>,
    announced: bool,
    failed: set<RegistryId>)

  const BLANK := Ledger(None, 0, None, false, {})

  /** The ledger after one more effect, or `None` if the effect is forbidden. */
  function Admit(l: Ledger, e: Effect): Option<Ledger> {
    match e
    case Open(service, handle) =>
      if l.open.None? && service !in l.failed then Some(l.(open := Some(handle), service := service, reported := None)) else None
    case QueryVersion(handle, version) =>
      if l.open == Some(handle) then Some(l.(reported := version)) else None
    case Close(handle) =>
      if l.open == Some(handle) then
        Some(l.(open := None, reported := None, failed := if l.reported.None? then l.failed + {l.service} else l.failed))
      else None
    case Call(handle, _) =>
      if l.open == Some(handle) && l.reported == Some(EMBEDDED_DRIVER_VERSION) then Some(l) else None
    case Enqueue(signal) =>
      match signal
      case OpenedSignal => if l.open.Some? && l.reported.Some? && !l.announced then Some(l.(announced := true)) else None
      case ClosedSignal => if l.open.None? && l.announced then Some(l.(announced := false)) else None
      case StateChangedSignal => Some(l)
  }

  function Audit(l: Ledger, effects: seq<Effect>): Option<Ledger>
    decreases |effects|
  {
    if effects == [] then Some(l)
    else
      match Admit(l, effects[0])
      case None => None
      case Some(next) => Audit(next, effects[1..])
  }

  /** A log is audited piece by piece. */
  lemma {:induction false} AuditConcat(l: Ledger, a: seq<Effect>, b: seq<Effect>)
    ensures Audit(l, a + b) == match Audit(l, a) case None => None case Some(next) => Audit(next, b)
    decreases |a|
  {
    if a == [] {
      assert a + b == b;
    } else {
      assert (a + b)[1..] == a[1..] + b;
      match Admit(l, a[0])
      case None =>
      case Some(next) => AuditConcat(next, a[1..], b);
    }
  }

  // ---------------------------------------------------------------- the client's own invariant

  ghost predicate UniqueIds(services: seq<Service>) {
    forall i, j | 0 <= i < j < |services| :: services[i].id != services[j].id
  }

  /** The fields agree with one another. */
  ghost predicate Inv(s: State) {
    && UniqueIds(s.services)
    && (forall i | 0 <= i < |s.services| :: s.services[i].isOpened ==> !s.services[i].isInvalidated)
    && (forall i, j | 0 <= i < j < |s.services| :: !(s.services[i].isOpened && s.services[j].isOpened))
    && (s.connection.Some? <==> exists i | 0 <= i < |s.services| :: s.services[i].isOpened)
    && (s.connection.Some? <==> s.version.Some?)
    && (s.connection.Some? ==> s.connection.value != NULL_HANDLE)
  }

  ghost function InvalidatedIds(services: seq<Service>): set<RegistryId> {
    set i | 0 <= i < |services| && services[i].isInvalidated :: services[i].id
  }

  /** The auditor's view of the connection is what the client's fields say. */
  ghost predicate Tracks(l: Ledger, s: State) {
    l.open == s.connection && l.reported == s.version && (l.announced <==> s.connection.Some?)
  }

  ghost predicate Agrees(l: Ledger, s: State) {
    Tracks(l, s) && l.failed == InvalidatedIds(s.services)
  }

  ghost predicate Faithful(l: Ledger, out: Out) {
    && Audit(l, out.effects).Some?
    && Agrees(Audit(l, out.effects).value, out.state)
    && Inv(out.state)
  }

  // ---------------------------------------------------------------- pieces of a task

  lemma QuietAudit(l: Ledger, effects: seq<Effect>)
    requires forall e | e in effects :: e == Enqueue(StateChangedSignal)
    ensures Audit(l, effects) == Some(l)
  {
    if effects != [] {
      assert effects[0] in effects;
      assert forall e | e in effects[1..] :: e in effects;
      QuietAudit(l, effects[1..]);
    }
  }

  lemma ClearCachesQuiet(s: State)
    ensures forall e | e in ClearCaches(s).effects :: e == Enqueue(StateChangedSignal)
    ensures ClearCaches(s).state == s.(version := None, keyboardReady := None, pointingReady := None)
  {
  }

  /** What one attempt to open a service writes to the log. */
  lemma AttemptAudit(l: Ledger, id: RegistryId, reply: OpenReply, quiet: seq<Effect>)
    requires reply.OpenSucceeded? && l.open.None? && l.reported.None? && id !in l.failed
    requires forall e | e in quiet :: e == Enqueue(StateChangedSignal)
    ensures Audit(l, [Open(id, reply.handle)] + QueryEffects(reply) + quiet)
         == Some(l.(open := Some(reply.handle), service := id, reported := Reported(reply)))
  {
    var opening := [Open(id, reply.handle)];
    var asking := QueryEffects(reply);
    var l1 := l.(open := Some(reply.handle), service := id);
    var l2 := l1.(reported := Reported(reply));
    assert Audit(l, opening) == Some(l1) by { assert Audit(l1, opening[1..]) == Some(l1); }
    assert Audit(l1, asking) == Some(l2) by {
      if asking != [] { assert Audit(l2, asking[1..]) == Some(l2); }
    }
    AuditConcat(l, opening, asking);
    AuditConcat(l, opening + asking, quiet);
    QuietAudit(l2, quiet);
  }

  lemma SingleAudit(l: Ledger, e: Effect)
    ensures Audit(l, [e]) == Admit(l, e)
  {
    match Admit(l, e)
    case None =>
    case Some(next) => assert Audit(next, [e][1..]) == Some(next);
  }

  /** Flags changed at one position: ids stay, and the sets of flagged ids change as expected. */
  lemma MarkedInvalid(services: seq<Service>, i: nat)
    requires i < |services| && UniqueIds(services)
    ensures var marked := services[i := services[i].(isInvalidated := true)];
            UniqueIds(marked) && InvalidatedIds(marked) == InvalidatedIds(services) + {services[i].id}
  {
    var marked := services[i := services[i].(isInvalidated := true)];
    assert forall k | 0 <= k < |services| :: marked[k].id == services[k].id;
    forall x | x in InvalidatedIds(services) + {services[i].id}
      ensures x in InvalidatedIds(marked)
    {
      if x == services[i].id { assert marked[i].isInvalidated; }
      else {
        var k :| 0 <= k < |services| && services[k].isInvalidated && services[k].id == x;
        assert marked[k].isInvalidated;
      }
    }
  }

  lemma SameInvalidated(a: seq<Service>, b: seq<Service>)
    requires |a| == |b|
    requires forall i | 0 <= i < |a| :: a[i].id == b[i].id && a[i].isInvalidated == b[i].isInvalidated
    ensures InvalidatedIds(a) == InvalidatedIds(b)
  {
    forall x ensures x in InvalidatedIds(a) <==> x in InvalidatedIds(b) {
      if x in InvalidatedIds(a) { var i :| 0 <= i < |a| && a[i].isInvalidated && a[i].id == x; assert b[i].isInvalidated; }
      if x in InvalidatedIds(b) { var i :| 0 <= i < |b| && b[i].isInvalidated && b[i].id == x; assert a[i].isInvalidated; }
    }
  }

  /** Nothing is open and nothing is remembered of a driver. */
  ghost predicate Disconnected(s: State) {
    && UniqueIds(s.services)
    && s.connection.None? && s.version.None?
    && forall i | 0 <= i < |s.services| :: !s.services[i].isOpened
  }

  lemma {:induction false} TryServicesFaithful(l: Ledger, s: State, i: nat, kernel: Kernel)
    requires i <= |s.services| && Disconnected(s) && Agrees(l, s)
    ensures Faithful(l, TryServices(s, i, kernel))
    decreases |s.services| - i
  {
    if i < |s.services| {
      var id := s.services[i].id;
      if s.services[i].isInvalidated || Reply(kernel, id).OpenFailed? {
        TryServicesFaithful(l, s, i + 1, kernel);
      } else {
        var reply := Reply(kernel, id);
        var queried := SetVersion(s, Reported(reply));
        var asked := [Open(id, reply.handle)] + QueryEffects(reply) + queried.effects;
        assert id !in l.failed by {
          if id in InvalidatedIds(s.services) {
            var k :| 0 <= k < |s.services| && s.services[k].isInvalidated && s.services[k].id == id;
            assert false;
          }
        }
        AttemptAudit(l, id, reply, queried.effects);
        var l1 := Audit(l, asked).value;
        if Reported(reply).None? {
          MarkedInvalid(s.services, i);
          var next := queried.state.(services := s.services[i := s.services[i].(isInvalidated := true)]);
          SingleAudit(l1, Close(reply.handle));
          AuditConcat(l, asked, [Close(reply.handle)]);
          var l2 := Admit(l1, Close(reply.handle)).value;
          TryServicesFaithful(l2, next, i + 1, kernel);
          AuditConcat(l, asked + [Close(reply.handle)], TryServices(next, i + 1, kernel).effects);
        } else {
          var services' := s.services[i := s.services[i].(isOpened := true)];
          SameInvalidated(s.services, services');
          assert services'[i].isOpened;
          SingleAudit(l1, Enqueue(OpenedSignal));
          AuditConcat(l, asked, [Enqueue(OpenedSignal)]);
        }
      }
    }
  }

  lemma OpenConnectionFaithful(l: Ledger, s: State, kernel: Kernel)
    requires Inv(s) && Agrees(l, s)
    ensures Faithful(l, OpenConnection(s, kernel))
  {
    if s.connection.None? {
      ClearCachesQuiet(s);
      var cleared := ClearCaches(s);
      QuietAudit(l, cleared.effects);
      TryServicesFaithful(l, cleared.state, 0, kernel);
      AuditConcat(l, cleared.effects, TryServices(cleared.state, 0, kernel).effects);
    }
  }

  /** `close_connection` gives the connection back if `id` holds it, and touches nothing otherwise. */
  lemma CloseConnectionFaithful(l: Ledger, s: State, id: RegistryId)
    requires Inv(s) && Tracks(l, s)
    ensures var closed := CloseConnection(s, id);
            && Inv(closed.state)
            && Audit(l, closed.effects).Some?
            && Tracks(Audit(l, closed.effects).value, closed.state)
            && Audit(l, closed.effects).value.failed == l.failed
            && InvalidatedIds(closed.state.services) == InvalidatedIds(s.services)
            && forall i | 0 <= i < |closed.state.services| && closed.state.services[i].id == id :: !closed.state.services[i].isOpened
  {
    var i := IndexOf(s.services, id);
    if i < |s.services| && s.services[i].isOpened {
      assert s.connection.Some?;
      var marked := s.(services := s.services[i := s.services[i].(isOpened := false)]);
      SameInvalidated(s.services, marked.services);
      var dropped := marked.(connection := None);
      ClearCachesQuiet(dropped);
      var cleared := ClearCaches(dropped);
      var head := [Close(s.connection.value), Enqueue(ClosedSignal)];
      var l1 := Admit(l, head[0]).value;
      var l2 := Admit(l1, head[1]).value;
      assert head[1..] == [head[1]];
      SingleAudit(l1, head[1]);
      QuietAudit(l2, cleared.effects);
      AuditConcat(l, head, cleared.effects);
      assert Disconnected(cleared.state);
    } else if i < |s.services| {
      assert forall k | 0 <= k < |s.services| && s.services[k].id == id :: k == i;
    }
  }

  lemma {:induction false} EraseKeepsOthers(services: seq<Service>, id: RegistryId)
    ensures forall x :: x in Erase(services, id) <==> x in services && x.id != id
  {
    if services != [] {
      EraseKeepsOthers(services[..|services| - 1], id);
      assert services == services[..|services| - 1] + [services[|services| - 1]];
    }
  }

  lemma {:induction false} EraseUnique(services: seq<Service>, id: RegistryId)
    requires UniqueIds(services)
    ensures UniqueIds(Erase(services, id))
  {
    if services != [] {
      var front := services[..|services| - 1];
      EraseUnique(front, id);
      EraseKeepsOthers(front, id);
      var erased := Erase(services, id);
      forall i, j | 0 <= i < j < |erased|
        ensures erased[i].id != erased[j].id
      {
        if j == |Erase(front, id)| {
          assert erased[i] in front;
        }
      }
    }
  }

  lemma InvalidatedByMembership(services: seq<Service>)
    ensures forall x :: x in InvalidatedIds(services) <==> exists v | v in services :: v.isInvalidated && v.id == x
  {
    forall x
      ensures x in InvalidatedIds(services) <==> exists v | v in services :: v.isInvalidated && v.id == x
    {
      if x in InvalidatedIds(services) {
        var i :| 0 <= i < |services| && services[i].isInvalidated && services[i].id == x;
        assert services[i] in services;
      }
    }
  }

  /** Taking a closed service off the list. */
  lemma EraseFaithful(s: State, id: RegistryId)
    requires Inv(s)
    requires forall i | 0 <= i < |s.services| && s.services[i].id == id :: !s.services[i].isOpened
    ensures Inv(s.(services := Erase(s.services, id)))
    ensures InvalidatedIds(Erase(s.services, id)) == InvalidatedIds(s.services) - {id}
  {
    var erased := Erase(s.services, id);
    EraseKeepsOthers(s.services, id);
    EraseUnique(s.services, id);
    forall i | 0 <= i < |erased| ensures erased[i] in s.services { assert erased[i] in erased; }
    forall i, j | 0 <= i < j < |erased| ensures !(erased[i].isOpened && erased[j].isOpened) {
      var a :| 0 <= a < |s.services| && s.services[a] == erased[i];
      var b :| 0 <= b < |s.services| && s.services[b] == erased[j];
      assert a != b;
    }
    if s.connection.Some? {
      var a :| 0 <= a < |s.services| && s.services[a].isOpened;
      assert s.services[a] in erased;
    }
    InvalidatedByMembership(erased);
    InvalidatedByMembership(s.services);
  }

  lemma InsertFaithful(s: State, id: RegistryId)
    requires Inv(s)
    ensures Inv(s.(services := Insert(s.services, id)))
    ensures InvalidatedIds(Insert(s.services, id)) == InvalidatedIds(s.services)
  {
    var grown := Insert(s.services, id);
    assert forall i | 0 <= i < |s.services| :: grown[i] == s.services[i];
    if s.connection.Some? {
      var a :| 0 <= a < |s.services| && s.services[a].isOpened;
      assert grown[a].isOpened;
    }
    InvalidatedByMembership(grown);
    InvalidatedByMembership(s.services);
  }

  // ---------------------------------------------------------------- whole runs

  /** A service that goes away may come back: the auditor forgets that its version query failed. */
  function Forget(l: Ledger, event: Event, s: State): Ledger {
    match event
    case ServiceTerminated(id, _) => if s.monitoring then l.(failed := l.failed - {id}) else l
    case _ => l
  }

  /** The audit of a whole run, task by task. */
  function AuditRun(events: seq<Event>): Option<Ledger> {
    if events == [] then Some(BLANK)
    else
      var before := events[..|events| - 1];
      var event := events[|events| - 1];
      match AuditRun(before)
      case None => None
      case Some(l) => Audit(Forget(l, event, Run(before).state), Step(Run(before).state, event).effects)
  }

  lemma AnnounceChange(l: Ledger, out: Out)
    requires Faithful(l, out)
    ensures Faithful(l, Out(out.state, out.effects + [Enqueue(StateChangedSignal)]))
  {
    AuditConcat(l, out.effects, [Enqueue(StateChangedSignal)]);
    SingleAudit(Audit(l, out.effects).value, Enqueue(StateChangedSignal));
  }

  lemma TerminatedFaithful(l: Ledger, s: State, id: RegistryId, kernel: Kernel)
    requires Inv(s) && Agrees(l, s)
    ensures Faithful(l.(failed := l.failed - {id}), Terminated(s, id, kernel))
  {
    var forgiving := l.(failed := l.failed - {id});
    var closed := CloseConnection(s, id);
    CloseConnectionFaithful(forgiving, s, id);
    EraseFaithful(closed.state, id);
    var erased := closed.state.(services := Erase(closed.state.services, id));
    var l1 := Audit(forgiving, closed.effects).value;
    OpenConnectionFaithful(l1, erased, kernel);
    var reopened := OpenConnection(erased, kernel);
    AuditConcat(forgiving, closed.effects, reopened.effects);
    AnnounceChange(forgiving, Out(reopened.state, closed.effects + reopened.effects));
  }

  lemma StepFaithful(l: Ledger, s: State, event: Event)
    requires Inv(s) && Agrees(l, s)
    ensures Faithful(Forget(l, event, s), Step(s, event))
  {
    match event
    case Start(_) =>
    case ServiceMatched(id, kernel) =>
      if s.monitoring {
        InsertFaithful(s, id);
        var listed := s.(services := Insert(s.services, id));
        OpenConnectionFaithful(l, listed, kernel);
        AnnounceChange(l, OpenConnection(listed, kernel));
      }
    case ServiceTerminated(id, kernel) =>
      if s.monitoring { TerminatedFaithful(l, s, id, kernel); }
    case Issue(call) =>
      if Gate(s) { SingleAudit(l, Call(s.connection.value, call)); }
    case StoreReady(device, value) =>
      QuietAudit(l, Step(s, event).effects);
  }

  /**
    Main result: over every run, the auditor accepts the log and ends up knowing exactly the connection,
    the version that this very connection reported, and the services that are not to be tried again.
   */
  lemma {:induction false} RunsAreAccepted(events: seq<Event>)
    ensures AuditRun(events).Some?
    ensures Inv(Run(events).state) && Agrees(AuditRun(events).value, Run(events).state)
  {
    if events != [] {
      var before := events[..|events| - 1];
      RunsAreAccepted(before);
      StepFaithful(AuditRun(before).value, Run(before).state, events[|events| - 1]);
    } else {
      assert InvalidatedIds(INITIAL.services) == {};
    }
  }
}
