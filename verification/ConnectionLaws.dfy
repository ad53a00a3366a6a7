/** What the audit of `io_service_client` means for its caller: conservation of handles, the gate, and which service is chosen. */
module ConnectionLaws {
  import opened Wrappers
  import opened Protocol
  import opened Sequences
  import opened IoService
  import opened ConnectionAudit

  function Opens(log: seq<Effect>, handle: Handle): nat {
    if log == [] then 0
    else (if log[0].Open? && log[0].handle == handle then 1 else 0) + Opens(log[1..], handle)
  }

  function Closes(log: seq<Effect>, handle: Handle): nat {
    if log == [] then 0
    else (if log[0] == Close(handle) then 1 else 0) + Closes(log[1..], handle)
  }

  function Signals(log: seq<Effect>, signal: Signal): nat {
    if log == [] then 0
    else (if log[0] == Enqueue(signal) then 1 else 0) + Signals(log[1..], signal)
  }

  function Held(connection: Option<Handle>, handle: Handle): nat {
    if connection == Some(handle) then 1 else 0
  }

  function Announced(l: Ledger): nat {
    if l.announced then 1 else 0
  }

  /** An accepted log conserves handles and alternates the two connection signals. */
  lemma {:induction false} AcceptedBalance(l: Ledger, log: seq<Effect>, handle: Handle)
    requires Audit(l, log).Some?
    ensures var end := Audit(l, log).value;
            && Held(l.open, handle) + Opens(log, handle) == Closes(log, handle) + Held(end.open, handle)
            && Announced(l) + Signals(log, OpenedSignal) == Signals(log, ClosedSignal) + Announced(end)
    decreases |log|
  {
    if log != [] {
      AcceptedBalance(Admit(l, log[0]).value, log[1..], handle);
    }
  }

  lemma {:induction false} CountsConcat(a: seq<Effect>, b: seq<Effect>, handle: Handle, signal: Signal)
    ensures Opens(a + b, handle) == Opens(a, handle) + Opens(b, handle)
    ensures Closes(a + b, handle) == Closes(a, handle) + Closes(b, handle)
    ensures Signals(a + b, signal) == Signals(a, signal) + Signals(b, signal)
  {
    if a == [] {
      assert a + b == b;
    } else {
      assert (a + b)[1..] == a[1..] + b;
      CountsConcat(a[1..], b, handle, signal);
    }
  }

  /** During a run, what was opened and not closed is the connection, and nothing else. */
  lemma {:induction false} RunBalance(events: seq<Event>, handle: Handle)
    ensures var run := Run(events);
            && Opens(run.effects, handle) == Closes(run.effects, handle) + Held(run.state.connection, handle)
            && Signals(run.effects, OpenedSignal) == Signals(run.effects, ClosedSignal) + (if run.state.connection.Some? then 1 else 0)
  {
    if events != [] {
      var before := events[..|events| - 1];
      var event := events[|events| - 1];
      RunBalance(before, handle);
      RunsAreAccepted(before);
      RunsAreAccepted(events);
      var s := Run(before).state;
      var step := Step(s, event);
      AcceptedBalance(Forget(AuditRun(before).value, event, s), step.effects, handle);
      CountsConcat(Run(before).effects, step.effects, handle, OpenedSignal);
      CountsConcat(Run(before).effects, step.effects, handle, ClosedSignal);
    }
  }

  /** The destructor closes the connection if there is one, and enqueues nothing. */
  lemma ShutdownCloses(s: State)
    requires Inv(s)
    ensures Shutdown(s).effects == if s.connection.Some? then [Close(s.connection.value)] else []
    ensures Shutdown(s).state.connection.None? && Shutdown(s).state.version.None?
  {
    var i := FirstOpened(s.services);
    if i < |s.services| {
      assert s.services[i].isOpened && s.connection.Some?;
      var id := s.services[i].id;
      assert IndexOf(s.services, id) == i;
      var head := [Close(s.connection.value), Enqueue(ClosedSignal)];
      var dropped := s.(services := s.services[i := s.services[i].(isOpened := false)], connection := None);
      ClearCachesQuiet(dropped);
      FilterConcat(head, ClearCaches(dropped).effects, IsKernelCall);
      FilterNone(ClearCaches(dropped).effects, IsKernelCall);
      assert Filter(head, IsKernelCall) == [head[0]] by {
        assert head == [head[0]] + [head[1]];
        FilterConcat([head[0]], [head[1]], IsKernelCall);
      }
    }
  }

  /** Over the whole life of a client every handle is closed as often as it was opened. */
  lemma HandlesConserved(events: seq<Event>, handle: Handle)
    ensures var run := Run(events);
            var log := run.effects + Shutdown(run.state).effects;
            Opens(log, handle) == Closes(log, handle)
  {
    var run := Run(events);
    RunBalance(events, handle);
    RunsAreAccepted(events);
    ShutdownCloses(run.state);
    CountsConcat(run.effects, Shutdown(run.state).effects, handle, OpenedSignal);
  }

  /**
    The gate over a whole run: a call goes out only through the open connection, while the version that
    this connection reported is the built-in one; and then, and only then, a ready value is shown.
   */
  lemma GateOverRuns(events: seq<Event>, call: DriverCall, device: Device)
    ensures var run := Run(events);
            var l := AuditRun(events);
            && l.Some?
            && (Invoke(run.state, call).effects != [] <==> l.value.open.Some? && l.value.reported == Some(EMBEDDED_DRIVER_VERSION))
            && (Invoke(run.state, call).effects != [] ==> Invoke(run.state, call).effects == [Call(l.value.open.value, call)])
            && (ShownReady(run.state, device).Some? ==> l.value.open.Some? && l.value.reported == Some(EMBEDDED_DRIVER_VERSION))
  {
    RunsAreAccepted(events);
  }

  // ---------------------------------------------------------------- calls and the open handle

  /** The handle that is open after `log`. */
  function OpenAfter(open: Option<Handle>, log: seq<Effect>): Option<Handle> {
    if log == [] then open
    else
      match Last(log)
      case Open(_, handle) => Some(handle)
      case Close(_) => None
      case _ => OpenAfter(open, Front(log))
  }

  predicate OnOpen(open: Option<Handle>, e: Effect) {
    match e
    case Call(handle, _) => open == Some(handle)
    case QueryVersion(handle, _) => open == Some(handle)
    case _ => true
  }

  /** Each call and each version query in the log goes through the handle that is open then. */
  predicate CallsOnOpenFrom(open: Option<Handle>, log: seq<Effect>) {
    log == [] || (CallsOnOpenFrom(open, Front(log)) && OnOpen(OpenAfter(open, Front(log)), Last(log)))
  }

  predicate CallsOnOpen(log: seq<Effect>) {
    CallsOnOpenFrom(None, log)
  }

  lemma {:induction false} AcceptedOnOpen(l: Ledger, log: seq<Effect>)
    requires Audit(l, log).Some?
    ensures CallsOnOpenFrom(l.open, log) && OpenAfter(l.open, log) == Audit(l, log).value.open
    decreases |log|
  {
    if log != [] {
      assert log == Front(log) + [Last(log)];
      AuditConcat(l, Front(log), [Last(log)]);
      AcceptedOnOpen(l, Front(log));
      assert [Last(log)][1..] == [];
    }
  }

  lemma {:induction false} OnOpenConcat(open: Option<Handle>, a: seq<Effect>, b: seq<Effect>)
    ensures OpenAfter(open, a + b) == OpenAfter(OpenAfter(open, a), b)
    ensures CallsOnOpenFrom(open, a) && CallsOnOpenFrom(OpenAfter(open, a), b) ==> CallsOnOpenFrom(open, a + b)
    decreases |b|
  {
    if b == [] {
      assert a + b == a;
    } else {
      assert Front(a + b) == a + Front(b) && Last(a + b) == Last(b);
      OnOpenConcat(open, a, Front(b));
    }
  }

  lemma {:induction false} RunOnOpen(events: seq<Event>)
    ensures CallsOnOpen(Run(events).effects) && OpenAfter(None, Run(events).effects) == Run(events).state.connection
  {
    if events != [] {
      var before := Front(events);
      RunOnOpen(before);
      RunsAreAccepted(before);
      RunsAreAccepted(events);
      var s := Run(before).state;
      var effects := Step(s, Last(events)).effects;
      AcceptedOnOpen(Forget(AuditRun(before).value, Last(events), s), effects);
      OnOpenConcat(None, Run(before).effects, effects);
    }
  }

  /** The same with the destructor. */
  lemma LifeCallsOnOpen(events: seq<Event>)
    ensures CallsOnOpen(Run(events).effects)
    ensures CallsOnOpen(Run(events).effects + Shutdown(Run(events).state).effects)
  {
    RunOnOpen(events);
    RunsAreAccepted(events);
    ClosingOnOpen(Run(events).state, OpenAfter(None, Run(events).effects));
    OnOpenConcat(None, Run(events).effects, Shutdown(Run(events).state).effects);
  }

  /** The destructor makes no call. */
  lemma ClosingOnOpen(s: State, open: Option<Handle>)
    requires Inv(s)
    ensures CallsOnOpenFrom(open, Shutdown(s).effects)
  {
    ShutdownCloses(s);
    if s.connection.Some? { OneCloseOnOpen(open, s.connection.value); }
  }

  lemma OneCloseOnOpen(open: Option<Handle>, handle: Handle)
    ensures CallsOnOpenFrom(open, [Close(handle)])
  {
    assert Front([Close(handle)]) == [] && Last([Close(handle)]) == Close(handle);
    assert CallsOnOpenFrom(open, []);
  }

  /** In every run, the early return of `close_connection` for a missing connection is never taken. */
  lemma EarlyReturnUnreachable(events: seq<Event>, id: RegistryId)
    ensures var s := Run(events).state;
            var i := IndexOf(s.services, id);
            i < |s.services| && s.services[i].isOpened ==> s.connection.Some?
  {
    RunsAreAccepted(events);
  }

  // ---------------------------------------------------------------- which service is chosen

  predicate Opening(v: Service, kernel: Kernel) {
    !v.isInvalidated && Reply(kernel, v.id).OpenSucceeded?
  }

  /** It opens and says its version. */
  predicate Usable(v: Service, kernel: Kernel) {
    Opening(v, kernel) && Reported(Reply(kernel, v.id)).Some?
  }

  /** It opens but does not say its version. */
  predicate Mute(v: Service, kernel: Kernel) {
    Opening(v, kernel) && Reported(Reply(kernel, v.id)).None?
  }

  /** The service that was at position `k` after a search that started at `from` and settled on `chosen`. */
  function Settled(v: Service, k: nat, from: nat, chosen: nat, kernel: Kernel): Service {
    if k == chosen then v.(isOpened := true)
    else if from <= k < chosen && Mute(v, kernel) then v.(isInvalidated := true)
    else v
  }

  /** `chosen` is the first usable position at or after `from`, if any. */
  ghost predicate FirstUsable(services: seq<Service>, from: nat, chosen: nat, kernel: Kernel) {
    && from <= chosen <= |services|
    && (forall k | from <= k < chosen :: !Usable(services[k], kernel))
    && (chosen < |services| ==> Usable(services[chosen], kernel))
  }

  function Choice(services: seq<Service>, from: nat, kernel: Kernel): (chosen: nat)
    requires from <= |services|
    ensures FirstUsable(services, from, chosen, kernel)
    decreases |services| - from
  {
    if from == |services| || Usable(services[from], kernel) then from else Choice(services, from + 1, kernel)
  }

  lemma {:induction false} TryServicesChooses(s: State, i: nat, chosen: nat, kernel: Kernel)
    requires FirstUsable(s.services, i, chosen, kernel) && s.version.None? && s.connection.None?
    requires UniqueIds(s.services)
    ensures var r := TryServices(s, i, kernel).state;
            && |r.services| == |s.services|
            && (forall k | 0 <= k < |s.services| :: r.services[k] == Settled(s.services[k], k, i, chosen, kernel))
            && (chosen == |s.services| ==> r.connection.None? && r.version.None?)
            && (chosen < |s.services| ==>
                  && r.connection == Some(Reply(kernel, s.services[chosen].id).handle)
                  && r.version == Reply(kernel, s.services[chosen].id).version)
            && r.keyboardReady == s.keyboardReady && r.pointingReady == s.pointingReady
    decreases |s.services| - i
  {
    if i < |s.services| && i < chosen {
      if Mute(s.services[i], kernel) {
        var next := s.(services := s.services[i := s.services[i].(isInvalidated := true)]);
        assert UniqueIds(next.services) by { MarkedInvalid(s.services, i); }
        assert forall k | i < k < |s.services| :: next.services[k] == s.services[k];
        TryServicesChooses(next, i + 1, chosen, kernel);
        assert TryServices(s, i, kernel).state == TryServices(next, i + 1, kernel).state;
      } else {
        TryServicesChooses(s, i + 1, chosen, kernel);
      }
    }
  }

  /**
    From a disconnected state, `open_connection` connects to the first service in arrival order that is
    not invalidated, opens and reports a version; exactly the earlier mute ones are invalidated.
   */
  lemma OpenConnectionChooses(s: State, kernel: Kernel)
    requires Inv(s) && s.connection.None?
    ensures var r := OpenConnection(s, kernel).state;
            var chosen := Choice(s.services, 0, kernel);
            && |r.services| == |s.services|
            && (forall k | 0 <= k < |s.services| :: r.services[k] == Settled(s.services[k], k, 0, chosen, kernel))
            && (chosen == |s.services| ==> r.connection.None? && r.version.None?)
            && (chosen < |s.services| ==>
                  && r.connection == Some(Reply(kernel, s.services[chosen].id).handle)
                  && r.version == Reply(kernel, s.services[chosen].id).version)
            && r.keyboardReady.None? && r.pointingReady.None?
  {
    var cleared := ClearCaches(s).state;
    TryServicesChooses(cleared, 0, Choice(s.services, 0, kernel), kernel);
  }
}
