/**
  The daemon's `io_service_client` as a state machine on values: a list of matched driver services,
  at most one open connection, and values cached from the driver. The kernel's answers are inputs;
  what the client asks of the kernel, and the signals it enqueues, come out as effects in order.
 */
module IoService {
  import opened Wrappers
  import opened Protocol
  import opened Sequences

  type RegistryId = nat
  type Handle = nat
  type Version = uint64

  /** `IO_OBJECT_NULL`: `IOServiceOpen` may report success with it, but no query goes through it. */
  const NULL_HANDLE: Handle := 0

  datatype Service = Service(id: RegistryId, isOpened: bool, isInvalidated: bool)

  /** What the kernel says when one service is opened and its version is asked for. */
  datatype OpenReply = OpenFailed | OpenSucceeded(handle: Handle, version: Option<Version>)

  /** The kernel's answers during one task; a service that is not listed fails to open. */
  type Kernel = map<RegistryId, OpenReply>

  datatype Signal = OpenedSignal | ClosedSignal | StateChangedSignal

  datatype Effect =
    | Open(service: RegistryId, handle: Handle)
    | QueryVersion(handle: Handle, version: Option<Version>)
    | Close(handle: Handle)
    | Call(handle: Handle, call: DriverCall)
    | Enqueue(signal: Signal)

  datatype State = State(
    monitoring: bool,
    services: seq<Service>,
    connection: Option<Handle>,
    version: Option<Version>,
    keyboardReady: Option<bool>,
    pointingReady: Option<bool>)

  datatype Out = Out(state: State, effects: seq<Effect>)

  const INITIAL := State(false, [], None, None, None, None)

  /** `first` happened, then `rest` was computed from the state it left. */
  function After(first: seq<Effect>, rest: Out): Out {
    Out(rest.state, first + rest.effects)
  }

  // ---------------------------------------------------------------- cached values

  function SetVersion(s: State, value: Option<Version>): Out {
    if s.version == value then Out(s, []) else Out(s.(version := value), [Enqueue(StateChangedSignal)])
  }

  function CachedReady(s: State, device: Device): Option<bool> {
    match device
    case Keyboard => s.keyboardReady
    case Pointing => s.pointingReady
  }

  function SetReady(s: State, device: Device, value: Option<bool>): Out {
    if CachedReady(s, device) == value then Out(s, [])
    else
      var changed := match device case Keyboard => s.(keyboardReady := value) case Pointing => s.(pointingReady := value);
      Out(changed, [Enqueue(StateChangedSignal)])
  }

  function ClearCaches(s: State): Out {
    var a := SetVersion(s, None);
    var b := SetReady(a.state, Keyboard, None);
    var c := SetReady(b.state, Pointing, None);
    Out(c.state, a.effects + b.effects + c.effects)
  }

  predicate Connected(s: State) {
    s.version.Some?
  }

  predicate Mismatched(s: State) {
    s.version.Some? && s.version.value != EMBEDDED_DRIVER_VERSION
  }

  /** `get_virtual_hid_*_ready`: the stored value, shown only while the driver is usable. */
  function ShownReady(s: State, device: Device): Option<bool> {
    if !Connected(s) || Mismatched(s) then None else CachedReady(s, device)
  }

  // ---------------------------------------------------------------- matched services

  /** Position of the entry for `id`, or the length of the list. */
  function IndexOf(services: seq<Service>, id: RegistryId): (i: nat)
    ensures i <= |services|
    ensures i < |services| ==> services[i].id == id
    ensures forall j | 0 <= j < i :: services[j].id != id
  {
    if services == [] then 0
    else if services[0].id == id then 0
    else
      var rest := IndexOf(services[1..], id);
      assert forall j | 1 <= j < rest + 1 :: services[j] == services[1..][j - 1];
      1 + rest
  }

  function Insert(services: seq<Service>, id: RegistryId): seq<Service> {
    if IndexOf(services, id) < |services| then services else services + [Service(id, false, false)]
  }

  function Erase(services: seq<Service>, id: RegistryId): seq<Service> {
    if services == [] then []
    else if services[|services| - 1].id == id then Erase(services[..|services| - 1], id)
    else Erase(services[..|services| - 1], id) + [services[|services| - 1]]
  }

  // ---------------------------------------------------------------- connecting

  function Reply(kernel: Kernel, id: RegistryId): OpenReply {
    if id in kernel then kernel[id] else OpenFailed
  }

  /** `call_driver_version`: the null handle is never asked. */
  function Reported(reply: OpenReply): Option<Version>
    requires reply.OpenSucceeded?
  {
    if reply.handle == NULL_HANDLE then None else reply.version
  }

  function QueryEffects(reply: OpenReply): seq<Effect>
    requires reply.OpenSucceeded?
  {
    if reply.handle == NULL_HANDLE then [] else [QueryVersion(reply.handle, reply.version)]
  }

  /** The loop of `open_connection` from position `i` on. */
  function TryServices(s: State, i: nat, kernel: Kernel): (r: Out)
    requires i <= |s.services|
    decreases |s.services| - i
  {
    if i == |s.services| then Out(s, [])
    else if s.services[i].isInvalidated then TryServices(s, i + 1, kernel)
    else
      match Reply(kernel, s.services[i].id)
      case OpenFailed => TryServices(s, i + 1, kernel)
      case OpenSucceeded(handle, _) =>
        var reply := Reply(kernel, s.services[i].id);
        var queried := SetVersion(s, Reported(reply));
        var asked := [Open(s.services[i].id, handle)] + QueryEffects(reply) + queried.effects;
        if Reported(reply).None? then
          var next := queried.state.(services := s.services[i := s.services[i].(isInvalidated := true)]);
          After(asked + [Close(handle)], TryServices(next, i + 1, kernel))
        else
          Out(queried.state.(connection := Some(handle), services := s.services[i := s.services[i].(isOpened := true)]),
              asked + [Enqueue(OpenedSignal)])
  }

  function OpenConnection(s: State, kernel: Kernel): Out {
    if s.connection.Some? then Out(s, [])
    else
      var cleared := ClearCaches(s);
      After(cleared.effects, TryServices(cleared.state, 0, kernel))
  }

  function CloseConnection(s: State, id: RegistryId): Out {
    var i := IndexOf(s.services, id);
    if i == |s.services| || !s.services[i].isOpened then Out(s, [])
    else
      var marked := s.(services := s.services[i := s.services[i].(isOpened := false)]);
      if s.connection.None? then Out(marked, [])
      else After([Close(s.connection.value), Enqueue(ClosedSignal)], ClearCaches(marked.(connection := None)))
  }

  // ---------------------------------------------------------------- events

  /** `service_matched`. Signals can only arrive once the service monitor exists. */
  function Matched(s: State, id: RegistryId, kernel: Kernel): Out {
    var reopened := OpenConnection(s.(services := Insert(s.services, id)), kernel);
    Out(reopened.state, reopened.effects + [Enqueue(StateChangedSignal)])
  }

  /** `service_terminated`. */
  function Terminated(s: State, id: RegistryId, kernel: Kernel): Out {
    var closed := CloseConnection(s, id);
    var reopened := OpenConnection(closed.state.(services := Erase(closed.state.services, id)), kernel);
    Out(reopened.state, closed.effects + reopened.effects + [Enqueue(StateChangedSignal)])
  }

  function FirstOpened(services: seq<Service>): (i: nat)
    ensures i <= |services|
    ensures i < |services| ==> services[i].isOpened
    ensures forall j | 0 <= j < i :: !services[j].isOpened
  {
    if services == [] then 0
    else if services[0].isOpened then 0
    else
      var rest := FirstOpened(services[1..]);
      assert forall j | 1 <= j < rest + 1 :: services[j] == services[1..][j - 1];
      1 + rest
  }

  predicate IsKernelCall(e: Effect) {
    !e.Enqueue?
  }

  function KernelCalls(effects: seq<Effect>): seq<Effect> {
    Filter(effects, IsKernelCall)
  }

  /** The destructor. The object is detached from the dispatcher first, so no signal can be enqueued any more. */
  function Shutdown(s: State): Out {
    var i := FirstOpened(s.services);
    if i == |s.services| then Out(s, [])
    else
      var closed := CloseConnection(s, s.services[i].id);
      Out(closed.state, KernelCalls(closed.effects))
  }

  /** `call`, `call_scalar_method` and `post_report`: nothing is issued unless the gate is passed. */
  predicate Gate(s: State) {
    s.connection.Some? && Connected(s) && !Mismatched(s)
  }

  function Invoke(s: State, call: DriverCall): Out {
    Out(s, if Gate(s) then [Call(s.connection.value, call)] else [])
  }

  /** `call_ready`: the driver's answer if the call could be made. */
  function ReadyAnswer(s: State, answer: Option<bool>): Option<bool> {
    if Gate(s) then answer else None
  }

  // ---------------------------------------------------------------- runs

  datatype Event =
    | Start(dictionary: bool)
    | ServiceMatched(id: RegistryId, kernel: Kernel)
    | ServiceTerminated(id: RegistryId, kernel: Kernel)
    | Issue(call: DriverCall)
    | StoreReady(device: Device, value: Option<bool>)

  function Step(s: State, event: Event): Out {
    match event
    case Start(dictionary) => Out(s.(monitoring := s.monitoring || dictionary), [])
    case ServiceMatched(id, kernel) => if s.monitoring then Matched(s, id, kernel) else Out(s, [])
    case ServiceTerminated(id, kernel) => if s.monitoring then Terminated(s, id, kernel) else Out(s, [])
    case Issue(call) => Invoke(s, call)
    case StoreReady(device, value) => SetReady(s, device, value)
  }

  function Run(events: seq<Event>): Out {
    if events == [] then Out(INITIAL, [])
    else
      var before := Run(Front(events));
      After(before.effects, Step(before.state, Last(events)))
  }
}
