/**
  One `client_entry` of the daemon together with its three `io_service_client`s and the part of the
  dispatcher queue that belongs to them, as a state machine on values.

  The dispatcher keeps one queue sorted by due time. Immediate tasks carry the smallest due time, so they
  always stand before delayed ones and in the order in which they were enqueued; all delayed tasks here
  have the same delay, so they stand in the order in which they were enqueued too. The queue is therefore
  `ready` followed by `timers`, and the next task is the first of `ready`, or else the first due timer.
  `Daemon` proves this of the queue that all entries share with the rest of the process.
 */
module Reconciler {
  import opened Wrappers
  import opened Protocol
  import opened Sequences
  import IoService

  type ObjectId = nat

  /** The entry itself and its status-only client (`no_virtual_devices_io_service_client_`). */
  const ENTRY: ObjectId := 0
  const STATUS: ObjectId := 1

  const CHECK_DELAY: nat := 5000

  /** A client instance; `generation` and `parameters` are what the entry held when it was created. */
  datatype Client = Client(id: ObjectId, generation: nat, parameters: Parameters, io: IoService.State)

  datatype Slot = Slot(enabled: bool, generation: nat, client: Option<Client>)

  datatype Request =
    | KeyboardInitialize(parameters: Parameters)
    | KeyboardTerminate
    | PointingInitialize
    | PointingTerminate

  datatype Task =
    | Apply(request: Request)
    | CheckStatus
    | Start
    | Emit(signal: IoService.Signal)
    | Issue(call: DriverCall)
    | AskReady(device: Device)
    | StoreReady(device: Device, value: Option<bool>)

  datatype Job = Job(owner: ObjectId, task: Task)

  /** A delayed check; `armedFor` is the instance whose creation enqueued it. */
  datatype Timer = Timer(due: nat, device: Device, generation: nat, armedFor: ObjectId)

  /** The five pairs of `make_response`. */
  datatype Status = Status(activated: bool, connected: bool, mismatched: bool, keyboardReady: bool, pointingReady: bool)

  datatype Traced = Traced(client: ObjectId, effect: IoService.Effect)

  /** What has happened so far: kept for the statements below, never read by the entry. */
  datatype History = History(
    applied: seq<Request>,
    trace: seq<Traced>,
    samples: seq<Status>,
    pushes: seq<Status>,
    runs: map<ObjectId, seq<IoService.Event>>,
    births: map<ObjectId, Parameters>)

  datatype Entry = Entry(
    now: nat,
    nextId: ObjectId,
    ready: seq<Job>,
    timers: seq<Timer>,
    status: Client,
    keyboard: Slot,
    pointing: Slot,
    parameters: Parameters,
    last: Option<Status>,
    history: History)

  function SlotOf(e: Entry, d: Device): Slot {
    match d case Keyboard => e.keyboard case Pointing => e.pointing
  }

  function WithSlot(e: Entry, d: Device, s: Slot): Entry {
    match d case Keyboard => e.(keyboard := s) case Pointing => e.(pointing := s)
  }

  /** A fresh entry: its status client is about to start and a first status check is pending. */
  const INITIAL := Entry(
    0, 2,
    [Job(STATUS, Start), Job(ENTRY, CheckStatus)], [],
    Client(STATUS, 0, DEFAULT_PARAMETERS, IoService.INITIAL),
    Slot(false, 0, None), Slot(false, 0, None), DEFAULT_PARAMETERS, None,
    History([], [], [], [], map[STATUS := []], map[STATUS := DEFAULT_PARAMETERS]))

  // ---------------------------------------------------------------- queue

  function OwnedByOther(owner: ObjectId): Job -> bool {
    (job: Job) => job.owner != owner
  }

  /** Jobs of a destroyed object leave the queue. */
  function Without(jobs: seq<Job>, owner: ObjectId): seq<Job> {
    Filter(jobs, OwnedByOther(owner))
  }

  function SignalJob(owner: ObjectId): IoService.Effect -> seq<Job> {
    (effect: IoService.Effect) => if effect.Enqueue? then [Job(owner, Emit(effect.signal))] else []
  }

  function SignalJobs(owner: ObjectId, effects: seq<IoService.Effect>): seq<Job> {
    Collect(effects, SignalJob(owner))
  }

  function Tag(owner: ObjectId, effects: seq<IoService.Effect>): seq<Traced> {
    seq(|effects|, i requires 0 <= i < |effects| => Traced(owner, effects[i]))
  }

  function Push(e: Entry, job: Job): Entry {
    e.(ready := e.ready + [job])
  }

  /** The effects of client `owner` reach the kernel and the queue. */
  function Perform(e: Entry, owner: ObjectId, effects: seq<IoService.Effect>): Entry {
    e.(ready := e.ready + SignalJobs(owner, effects), history := e.history.(trace := e.history.trace + Tag(owner, effects)))
  }

  // ---------------------------------------------------------------- status

  function IsReady(e: Entry, d: Device): bool {
    SlotOf(e, d).client.Some? && IoService.ShownReady(SlotOf(e, d).client.value.io, d) == Some(true)
  }

  /** `make_response`; whether a driver is activated is asked of the kernel each time. */
  function MakeResponse(e: Entry, activated: bool): Status {
    Status(activated, IoService.Connected(e.status.io), IoService.Mismatched(e.status.io), IsReady(e, Keyboard), IsReady(e, Pointing))
  }

  function CheckStatusChanged(e: Entry, activated: bool): Entry {
    var status := MakeResponse(e, activated);
    var sampled := e.(history := e.history.(samples := e.history.samples + [status]));
    if e.last == Some(status) then sampled
    else sampled.(last := Some(status), history := sampled.history.(pushes := sampled.history.pushes + [status]))
  }

  // ---------------------------------------------------------------- clients

  function Destroy(e: Entry, d: Device): Entry {
    var slot := SlotOf(e, d);
    if slot.client.None? then e
    else
      var client := slot.client.value;
      var dropped := WithSlot(e, d, slot.(client := None)).(ready := Without(e.ready, client.id));
      Perform(dropped, client.id, IoService.Shutdown(client.io).effects)
  }

  /** `create_virtual_hid_client`. */
  function Create(e: Entry, d: Device): Entry {
    var slot := SlotOf(e, d);
    var generation := slot.generation + 1;
    var client := Client(e.nextId, generation, e.parameters, IoService.INITIAL);
    var created := WithSlot(e, d, Slot(slot.enabled, generation, Some(client)))
      .(nextId := e.nextId + 1, history := e.history.(runs := e.history.runs[client.id := []], births := e.history.births[client.id := client.parameters]));
    Push(created, Job(client.id, Start)).(timers := e.timers + [Timer(e.now + CHECK_DELAY, d, generation, client.id)])
  }

  function SetupDevice(e: Entry, d: Device): Entry {
    if SlotOf(e, d).enabled then
      if !IsReady(e, d) && SlotOf(e, d).client.None? then Create(e, d) else e
    else Destroy(e, d)
  }

  /** `setup_virtual_hid_devices`. */
  function Setup(e: Entry): Entry {
    SetupDevice(SetupDevice(e, Keyboard), Pointing)
  }

  // ---------------------------------------------------------------- requests

  function Reconfigure(e: Entry, request: Request): Entry {
    match request
    case KeyboardInitialize(parameters) => EnableKeyboard(e, parameters)
    case KeyboardTerminate => Terminate(e, Keyboard)
    case PointingInitialize => Setup(e.(pointing := e.pointing.(enabled := true)))
    case PointingTerminate => Terminate(e, Pointing)
  }

  function ApplyRequest(e: Entry, request: Request, activated: bool): Entry {
    var changed := Reconfigure(e, request);
    CheckStatusChanged(changed.(history := changed.history.(applied := changed.history.applied + [request])), activated)
  }

  function EnableKeyboard(e: Entry, parameters: Parameters): Entry {
    var cleaned := if e.keyboard.client.Some? && e.parameters != parameters then Destroy(e, Keyboard) else e;
    Setup(cleaned.(keyboard := cleaned.keyboard.(enabled := true), parameters := parameters))
  }

  function Terminate(e: Entry, d: Device): Entry {
    var slot := SlotOf(e, d);
    Destroy(WithSlot(e, d, slot.(enabled := false, generation := slot.generation + 1)), d)
  }

  /** The delayed check armed by `create_virtual_hid_client`. */
  function Check(e: Entry, timer: Timer): Entry {
    var slot := SlotOf(e, timer.device);
    if timer.generation != slot.generation then e
    else if slot.enabled && !IsReady(e, timer.device) then Setup(Destroy(e, timer.device))
    else e
  }

  // ---------------------------------------------------------------- one task

  /** Which client a queued job belongs to. */
  datatype Place = InStatus | InSlot(device: Device) | Nowhere

  function PlaceOf(e: Entry, id: ObjectId): Place {
    if id == e.status.id then InStatus
    else if e.keyboard.client.Some? && e.keyboard.client.value.id == id then InSlot(Keyboard)
    else if e.pointing.client.Some? && e.pointing.client.value.id == id then InSlot(Pointing)
    else Nowhere
  }

  function IoAt(e: Entry, p: Place): IoService.State
    requires p.InSlot? ==> SlotOf(e, p.device).client.Some?
    requires !p.Nowhere?
  {
    match p
    case InStatus => e.status.io
    case InSlot(d) => SlotOf(e, d).client.value.io
  }

  function WithIo(e: Entry, p: Place, io: IoService.State): Entry
    requires p.InSlot? ==> SlotOf(e, p.device).client.Some?
  {
    match p
    case InStatus => e.(status := e.status.(io := io))
    case InSlot(d) => WithSlot(e, d, SlotOf(e, d).(client := Some(SlotOf(e, d).client.value.(io := io))))
    case Nowhere => e
  }

  /** A step of the client at `p`, with its effects. */
  function StepClient(e: Entry, p: Place, id: ObjectId, event: IoService.Event): Entry
    requires p.InSlot? ==> SlotOf(e, p.device).client.Some?
    requires !p.Nowhere?
  {
    var out := IoService.Step(IoAt(e, p), event);
    var run := if id in e.history.runs then e.history.runs[id] else [];
    Perform(WithIo(e, p, out.state).(history := e.history.(runs := e.history.runs[id := run + [event]])), id, out.effects)
  }

  /** The kernel's answers to what a task may ask. */
  datatype Answers = Answers(activated: bool, dictionary: bool, ready: Option<bool>)

  /** What the slots of `opened`, `closed` and `state_changed` do. */
  function Emitted(e: Entry, p: Place, id: ObjectId, signal: IoService.Signal, activated: bool): Entry {
    match signal
    case StateChangedSignal => CheckStatusChanged(e, activated)
    case ClosedSignal => e
    case OpenedSignal =>
      match p
      case InSlot(Keyboard) => Push(e, Job(id, Issue(DriverCall.InitializeKeyboard(e.parameters))))
      case InSlot(Pointing) => Push(e, Job(id, Issue(DriverCall.InitializePointing)))
      case _ => e
  }

  /** What a client's own task does inside `io_service_client`. */
  function EventOf(task: Task, answers: Answers): Option<IoService.Event> {
    match task
    case Start => Some(IoService.Start(answers.dictionary))
    case Issue(call) => Some(IoService.Issue(call))
    case AskReady(d) => Some(IoService.Issue(DriverCall.QueryReady(d)))
    case StoreReady(d, value) => Some(IoService.StoreReady(d, value))
    case _ => None
  }

  /** A client's task; the answer to a ready query is stored by a task of its own, later. */
  function RunClientJob(e: Entry, p: Place, job: Job, answers: Answers): Entry
    requires p.InSlot? ==> SlotOf(e, p.device).client.Some?
    requires !p.Nowhere?
  {
    match EventOf(job.task, answers)
    case None => if job.task.Emit? then Emitted(e, p, job.owner, job.task.signal, answers.activated) else e
    case Some(event) =>
      var stepped := StepClient(e, p, job.owner, event);
      if job.task.AskReady? then
        Push(stepped, Job(job.owner, StoreReady(job.task.device, IoService.ReadyAnswer(IoAt(e, p), answers.ready))))
      else stepped
  }

  function RunJob(e: Entry, job: Job, answers: Answers): Entry {
    if job.owner == ENTRY then
      match job.task
      case Apply(request) => ApplyRequest(e, request, answers.activated)
      case CheckStatus => CheckStatusChanged(e, answers.activated)
      case _ => e
    else
      var p := PlaceOf(e, job.owner);
      if p.Nowhere? then e else RunClientJob(e, p, job, answers)
  }

  /** The dispatcher takes the front of its queue. */
  function Dispatch(e: Entry, answers: Answers): Entry {
    if e.ready != [] then RunJob(e.(ready := e.ready[1..]), e.ready[0], answers)
    else if e.timers != [] && e.timers[0].due <= e.now then Check(e.(timers := e.timers[1..]), e.timers[0])
    else e
  }

  // ---------------------------------------------------------------- what may happen

  datatype Action =
    | AskStatus
    | Receive(request: Request)
    | ReceiveReset(device: Device)
    | ReceiveReport(report: Report)
    | Elapse(milliseconds: nat)
    | ReadyTimer
    | KernelMatched(client: ObjectId, service: IoService.RegistryId, kernel: IoService.Kernel)
    | KernelTerminated(client: ObjectId, service: IoService.RegistryId, kernel: IoService.Kernel)
    | RunNext(answers: Answers)

  /** Ask the device's client, if there is one, to do `task`. */
  function PushToClient(e: Entry, d: Device, task: Task): Entry {
    match SlotOf(e, d).client
    case None => e
    case Some(client) => Push(e, Job(client.id, task))
  }

  function KernelEvent(e: Entry, id: ObjectId, event: IoService.Event): Entry {
    var p := PlaceOf(e, id);
    if p.Nowhere? then e else StepClient(e, p, id, event)
  }

  function Step(e: Entry, action: Action): Entry {
    match action
    case AskStatus => Push(e, Job(ENTRY, CheckStatus))
    case Receive(request) => Push(e, Job(ENTRY, Apply(request)))
    case ReceiveReset(d) => PushToClient(e, d, Issue(ResetDevice(d)))
    case ReceiveReport(report) => PushToClient(e, report.device, Issue(PostReport(report.device, report.bytes)))
    case Elapse(milliseconds) => e.(now := e.now + milliseconds)
    case ReadyTimer => PushToClient(PushToClient(e, Keyboard, AskReady(Keyboard)), Pointing, AskReady(Pointing))
    case KernelMatched(id, service, kernel) => KernelEvent(e, id, IoService.ServiceMatched(service, kernel))
    case KernelTerminated(id, service, kernel) => KernelEvent(e, id, IoService.ServiceTerminated(service, kernel))
    case RunNext(answers) => Dispatch(e, answers)
  }

  function Run(actions: seq<Action>): Entry {
    if actions == [] then INITIAL else Step(Run(Front(actions)), Last(actions))
  }
}
