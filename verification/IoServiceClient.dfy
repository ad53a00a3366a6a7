/**
  `io_service_client` as the object it is: fields that its methods update, and matched services that are objects of their own.
  Each method is proved to do what IoService says on values. `effects` records what the object asks of the kernel and the
  tasks it enqueues; the kernel's answers are parameters.
 */
module IoServiceClient {
  import opened Wrappers
  import opened Protocol
  import opened Sequences
  import opened IoService

  class MatchedService {
    const id: RegistryId
    var isOpened: bool
    var isInvalidated: bool

    constructor (id: RegistryId)
      ensures this.id == id && !isOpened && !isInvalidated
    {
      this.id := id;
      isOpened, isInvalidated := false, false;
    }

    ghost function View(): Service
      reads this
    {
      Service(id, isOpened, isInvalidated)
    }
  }

  ghost function Views(services: seq<MatchedService>): (r: seq<Service>)
    reads services
    ensures |r| == |services| && forall i | 0 <= i < |r| :: r[i] == services[i].View()
  {
    seq(|services|, i requires 0 <= i < |services| reads services => services[i].View())
  }

  ghost predicate AllDifferent(services: seq<MatchedService>) {
    forall i, j | 0 <= i < j < |services| :: services[i] != services[j]
  }

  class Client {
    var monitoring: bool
    var services: seq<MatchedService>
    var connection: Option<Handle>
    var version: Option<Version>
    var keyboardReady: Option<bool>
    var pointingReady: Option<bool>
    var effects: seq<Effect>

    ghost predicate Valid()
      reads this
    {
      AllDifferent(services)
    }

    ghost function View(): State
      reads this, services
    {
      State(monitoring, Views(services), connection, version, keyboardReady, pointingReady)
    }

    /** The state with everything done so far. */
    ghost function Done(): Out
      reads this, services
    {
      Out(View(), effects)
    }

    constructor ()
      ensures Valid() && Done() == Out(INITIAL, [])
    {
      monitoring, services, connection, version := false, [], None, None;
      keyboardReady, pointingReady, effects := None, None, [];
    }

    method Enqueue(signal: Signal)
      modifies this`effects
      ensures effects == old(effects) + [Effect.Enqueue(signal)]
    {
      effects := effects + [Effect.Enqueue(signal)];
    }

    // ---------------------------------------------------------------- cached values

    method SetDriverVersion(value: Option<Version>)
      modifies this`version, this`effects
      ensures Done() == After(old(effects), SetVersion(old(View()), value))
    {
      if version != value {
        version := value;
        Enqueue(StateChangedSignal);
      } else {
        assert effects + [] == effects;
      }
    }

    method SetDeviceReady(d: Device, value: Option<bool>)
      modifies this`keyboardReady, this`pointingReady, this`effects
      ensures Done() == After(old(effects), SetReady(old(View()), d, value))
    {
      assert effects + [] == effects;
      match d {
        case Keyboard =>
          if keyboardReady != value {
            keyboardReady := value;
            Enqueue(StateChangedSignal);
          }
        case Pointing =>
          if pointingReady != value {
            pointingReady := value;
            Enqueue(StateChangedSignal);
          }
      }
    }

    method ClearCachedValues()
      modifies this`version, this`keyboardReady, this`pointingReady, this`effects
      ensures Done() == After(old(effects), ClearCaches(old(View())))
    {
      SetDriverVersion(None);
      SetDeviceReady(Keyboard, None);
      SetDeviceReady(Pointing, None);
    }

    // ---------------------------------------------------------------- matched services

    method Find(id: RegistryId) returns (i: nat)
      ensures i == IndexOf(Views(services), id)
    {
      i := 0;
      while i < |services|
        invariant i <= |services|
        invariant forall j | 0 <= j < i :: services[j].id != id
      {
        if services[i].id == id {
          return;
        }
        i := i + 1;
      }
    }

    method FindOpened() returns (i: nat)
      ensures i == FirstOpened(Views(services))
    {
      i := 0;
      while i < |services|
        invariant i <= |services|
        invariant forall j | 0 <= j < i :: !services[j].isOpened
      {
        if services[i].isOpened {
          return;
        }
        i := i + 1;
      }
    }

    method InsertService(id: RegistryId)
      requires Valid()
      modifies this`services
      ensures Valid() && View() == old(View()).(services := Insert(old(View()).services, id))
      ensures services == old(services) || (exists m :: fresh(m) && services == old(services) + [m])
    {
      var i := Find(id);
      if i < |services| {
        return;
      }
      var m := new MatchedService(id);
      services := services + [m];
    }

    method EraseService(id: RegistryId)
      requires Valid()
      modifies this`services
      ensures Valid() && View() == old(View()).(services := Erase(old(View()).services, id))
      ensures forall i | 0 <= i < |services| :: services[i] in old(services)
    {
      var kept: seq<MatchedService> := [];
      for i := 0 to |services|
        invariant Views(kept) == Erase(Views(services[..i]), id)
        invariant AllDifferent(kept) && forall m | m in kept :: m in services[..i]
      {
        ghost var seen := Views(services[..i + 1]);
        assert seen[..|seen| - 1] == Views(services[..i]);
        assert services[i] !in services[..i] && services[i] !in kept;
        if services[i].id != id {
          kept := kept + [services[i]];
        }
      }
      assert services[..|services|] == services;
      services := kept;
    }

    // ---------------------------------------------------------------- connecting

    /** `call_driver_version`. */
    method CallDriverVersion(reply: OpenReply) returns (value: Option<Version>)
      requires reply.OpenSucceeded?
      modifies this`effects
      ensures value == Reported(reply) && effects == old(effects) + QueryEffects(reply)
    {
      if reply.handle == NULL_HANDLE {
        assert effects + [] == effects;
        return None;
      }
      effects := effects + [QueryVersion(reply.handle, reply.version)];
      return reply.version;
    }

    method SetOpened(i: nat, value: bool)
      requires Valid() && i < |services|
      modifies services[i]
      ensures View() == WithOpened(old(View()), i, value)
    {
      services[i].isOpened := value;
    }

    method SetInvalidated(i: nat)
      requires Valid() && i < |services|
      modifies services[i]
      ensures View() == WithInvalidated(old(View()), i)
    {
      services[i].isInvalidated := true;
    }

    /** Opens the service at `i` and asks it for its version. */
    method OpenAndAsk(i: nat, reply: OpenReply) returns (value: Option<Version>)
      requires i < |services| && reply.OpenSucceeded?
      modifies this`version, this`effects
      ensures value == Reported(reply)
      ensures Done() == After(old(effects), Asked(old(View()), i, reply))
    {
      effects := effects + [Open(services[i].id, reply.handle)];
      value := CallDriverVersion(reply);
      SetDriverVersion(value);
    }

    method Reject(i: nat, handle: Handle)
      requires Valid() && i < |services|
      modifies this`effects, services[i]
      ensures Done() == Out(WithInvalidated(old(View()), i), old(effects) + [Close(handle)])
    {
      effects := effects + [Close(handle)];
      SetInvalidated(i);
    }

    method Accept(i: nat, handle: Handle)
      requires Valid() && i < |services|
      modifies this`connection, this`effects, services[i]
      ensures Done() == Out(WithOpened(old(View()).(connection := Some(handle)), i, true), old(effects) + [Effect.Enqueue(OpenedSignal)])
    {
      connection := Some(handle);
      SetOpened(i, true);
      Enqueue(OpenedSignal);
    }

    /** One turn of the loop of `open_connection`: `true` if it connected. */
    method TryService(i: nat, kernel: Kernel) returns (connected: bool)
      requires Valid() && i < |services|
      modifies this`connection, this`version, this`effects, services[i]
      ensures connected == Connects(old(View()), i, kernel)
      ensures Done() == After(old(effects), TryOne(old(View()), i, kernel))
    {
      var reply := Reply(kernel, services[i].id);
      if services[i].isInvalidated || reply.OpenFailed? {
        assert effects + [] == effects;
        return false;
      }
      ghost var start, s := effects, View();
      var value := OpenAndAsk(i, reply);
      if value.None? {
        Reject(i, reply.handle);
        Associate(start, Asked(s, i, reply).effects, [Close(reply.handle)]);
        return false;
      }
      Accept(i, reply.handle);
      Associate(start, Asked(s, i, reply).effects, [Effect.Enqueue(OpenedSignal)]);
      return true;
    }

    method OpenConnection(kernel: Kernel)
      requires Valid()
      modifies this, services
      ensures Valid() && services == old(services)
      ensures Done() == After(old(effects), IoService.OpenConnection(old(View()), kernel))
    {
      if connection.Some? {
        assert effects + [] == effects;
        return;
      }
      ghost var start := effects;
      ghost var cleared := ClearCaches(View());
      ClearCachedValues();
      Associate(start, cleared.effects, TryServices(cleared.state, 0, kernel).effects);
      TryAll(kernel);
    }

    /** The loop of `open_connection`. */
    method TryAll(kernel: Kernel)
      requires Valid()
      modifies this`connection, this`version, this`effects, services
      ensures Done() == After(old(effects), TryServices(old(View()), 0, kernel))
    {
      ghost var goal := After(effects, TryServices(View(), 0, kernel));
      var i := 0;
      while i < |services|
        invariant i <= |services|
        invariant goal == After(effects, TryServices(View(), i, kernel))
        decreases |services| - i
      {
        ghost var s, before := View(), effects;
        TryServicesStep(before, s, i, kernel);
        var connected := TryService(i, kernel);
        assert Done() == After(before, TryOne(s, i, kernel));
        if connected {
          return;
        }
        i := i + 1;
      }
      assert effects + [] == effects;
    }

    method CloseConnection(id: RegistryId)
      requires Valid()
      modifies this, services
      ensures Valid() && services == old(services)
      ensures Done() == After(old(effects), IoService.CloseConnection(old(View()), id))
    {
      var i := Find(id);
      if i == |services| || !services[i].isOpened {
        assert effects + [] == effects;
        return;
      }
      SetOpened(i, false);
      if connection.None? {
        assert effects + [] == effects;
        return;
      }
      DropConnection();
    }

    /** The second half of `close_connection`. */
    method DropConnection()
      requires connection.Some?
      modifies this`connection, this`version, this`keyboardReady, this`pointingReady, this`effects
      ensures Done() == After(old(effects), Dropped(old(View())))
    {
      ghost var start, closing := effects, [Close(connection.value), Effect.Enqueue(ClosedSignal)];
      effects := effects + [Close(connection.value)];
      connection := None;
      Enqueue(ClosedSignal);
      assert effects == start + closing;
      Associate(start, closing, ClearCaches(View()).effects);
      ClearCachedValues();
    }

    // ---------------------------------------------------------------- events

    /** `async_start`: from then on the service monitor reports. */
    method Start(dictionary: bool)
      requires Valid()
      modifies this`monitoring
      ensures Valid() && Done() == After(old(effects), Step(old(View()), Event.Start(dictionary)))
    {
      assert effects + [] == effects;
      if dictionary {
        monitoring := true;
      }
    }

    method ServiceMatched(id: RegistryId, kernel: Kernel)
      requires Valid() && monitoring
      modifies this, services
      ensures Valid() && Done() == After(old(effects), Matched(old(View()), id, kernel))
    {
      InsertService(id);
      OpenConnection(kernel);
      Enqueue(StateChangedSignal);
    }

    method EraseAndReopen(id: RegistryId, kernel: Kernel)
      requires Valid()
      modifies this, services
      ensures Valid()
      ensures Done() == After(old(effects), IoService.OpenConnection(old(View()).(services := Erase(old(View()).services, id)), kernel))
    {
      EraseService(id);
      OpenConnection(kernel);
    }

    method ServiceTerminated(id: RegistryId, kernel: Kernel)
      requires Valid() && monitoring
      modifies this, services
      ensures Valid() && Done() == After(old(effects), Terminated(old(View()), id, kernel))
    {
      TerminatedInTurn(effects, View(), id, kernel);
      CloseConnection(id);
      EraseAndReopen(id, kernel);
      Enqueue(StateChangedSignal);
    }

    /** `driver_connected`, `driver_version_mismatched` and the getters of the ready values. */
    method GetDeviceReady(d: Device) returns (ready: Option<bool>)
      ensures ready == ShownReady(View(), d)
    {
      if version.None? || version.value != EMBEDDED_DRIVER_VERSION {
        return None;
      }
      return if d.Keyboard? then keyboardReady else pointingReady;
    }

    /** `call`, `call_scalar_method`, `call_ready` and `post_report`. */
    method Invoke(call: DriverCall) returns (issued: bool)
      modifies this`effects
      ensures issued == Gate(View())
      ensures Done() == After(old(effects), IoService.Invoke(old(View()), call))
    {
      assert effects + [] == effects;
      if connection.None? {
        return false;
      }
      if version.None? || version.value != EMBEDDED_DRIVER_VERSION {
        return false;
      }
      effects := effects + [Call(connection.value, call)];
      return true;
    }

    /** The destructor: detached from the dispatcher, so signals are dropped and only the kernel calls happen. */
    method Destroy()
      requires Valid()
      modifies this, services
      ensures View() == Shutdown(old(View())).state
      ensures effects == old(effects) + Shutdown(old(View())).effects
    {
      assert effects + [] == effects;
      ghost var start := effects;
      var i := FindOpened();
      if i < |services| {
        var before := effects;
        CloseConnection(services[i].id);
        effects := before + KernelCalls(effects[|before|..]);
      }
    }
  }

  // ---------------------------------------------------------------- one turn of the loop, on values

  function WithOpened(s: State, i: nat, value: bool): State
    requires i < |s.services|
  {
    s.(services := s.services[i := s.services[i].(isOpened := value)])
  }

  function WithInvalidated(s: State, i: nat): State
    requires i < |s.services|
  {
    s.(services := s.services[i := s.services[i].(isInvalidated := true)])
  }

  function Dropped(s: State): Out
    requires s.connection.Some?
  {
    After([Close(s.connection.value), Effect.Enqueue(ClosedSignal)], ClearCaches(s.(connection := None)))
  }

  /** The service at `i` is opened and reports a version. */
  predicate Connects(s: State, i: nat, kernel: Kernel)
    requires i < |s.services|
  {
    var reply := Reply(kernel, s.services[i].id);
    !s.services[i].isInvalidated && reply.OpenSucceeded? && Reported(reply).Some?
  }

  function Asked(s: State, i: nat, reply: OpenReply): Out
    requires i < |s.services| && reply.OpenSucceeded?
  {
    var queried := SetVersion(s, Reported(reply));
    Out(queried.state, [Open(s.services[i].id, reply.handle)] + QueryEffects(reply) + queried.effects)
  }

  function TryOne(s: State, i: nat, kernel: Kernel): Out
    requires i < |s.services|
  {
    var reply := Reply(kernel, s.services[i].id);
    if s.services[i].isInvalidated || reply.OpenFailed? then Out(s, [])
    else
      var asked := Asked(s, i, reply);
      if Reported(reply).None? then Out(WithInvalidated(asked.state, i), asked.effects + [Close(reply.handle)])
      else
        Out(WithOpened(asked.state.(connection := Some(reply.handle)), i, true), asked.effects + [Effect.Enqueue(OpenedSignal)])
  }

  lemma TerminatedInTurn(before: seq<Effect>, s: State, id: RegistryId, kernel: Kernel)
    ensures var closed := After(before, IoService.CloseConnection(s, id));
            var reopened := After(closed.effects, IoService.OpenConnection(closed.state.(services := Erase(closed.state.services, id)), kernel));
            After(before, Terminated(s, id, kernel)) == Out(reopened.state, reopened.effects + [Effect.Enqueue(StateChangedSignal)])
  {
    var closed := IoService.CloseConnection(s, id);
    var reopened := IoService.OpenConnection(closed.state.(services := Erase(closed.state.services, id)), kernel);
    AssociateAll(before, closed.effects, reopened.effects, [Effect.Enqueue(StateChangedSignal)]);
  }

  lemma AssociateAll<T>(a: seq<T>, b: seq<T>, c: seq<T>, d: seq<T>)
    ensures a + b + c + d == a + (b + c + d)
  {
  }

  lemma TryServicesStep(before: seq<Effect>, s: State, i: nat, kernel: Kernel)
    requires i < |s.services|
    ensures var one := TryOne(s, i, kernel);
            |one.state.services| == |s.services| &&
            After(before, TryServices(s, i, kernel)) ==
              if Connects(s, i, kernel) then After(before, one)
              else After(After(before, one).effects, TryServices(one.state, i + 1, kernel))
  {
    TryServicesUnfold(s, i, kernel);
    var one := TryOne(s, i, kernel);
    Associate(before, one.effects, TryServices(one.state, i + 1, kernel).effects);
  }

  lemma TryServicesUnfold(s: State, i: nat, kernel: Kernel)
    requires i < |s.services|
    ensures var one := TryOne(s, i, kernel);
            |one.state.services| == |s.services| &&
            TryServices(s, i, kernel) == if Connects(s, i, kernel) then one else After(one.effects, TryServices(one.state, i + 1, kernel))
  {
    var one := TryOne(s, i, kernel);
    assert [] + TryServices(s, i + 1, kernel).effects == TryServices(s, i + 1, kernel).effects;
  }
}
