/** The layers put together: from the bytes a client library sends to what a driver object posts, and from statuses back to its cache. */
module EndToEnd {
  import opened Wrappers
  import opened Protocol
  import opened Sequences
  import IoService
  import opened Reconciler
  import RequestFlow
  import StatusPush
  import ConnectionLaws
  import InstanceHistory
  import S = ServiceClient
  import U = UserClient
  import V = VirtualKeyboard
  import Wire

  // ---------------------------------------------------------------- reports and resets

  function DeviceFor(kind: Wire.ReportKind): Device {
    if kind.PointingInput? then Pointing else Keyboard
  }

  /** What a command asks to be handed to a device. */
  function OutputOf(c: Wire.Command): seq<Output> {
    match c
    case Post(kind, report) => [Posting(Report(DeviceFor(kind), report))]
    case Reset(d) => [Clearing(d)]
    case _ => []
  }

  /** The output that the server finds in a buffer. */
  function OutputIn(buffer: seq<uint8>): seq<Output> {
    if Wire.Decode(buffer).Some? then OutputOf(Wire.Decode(buffer).value) else []
  }

  function Encoded(commands: seq<Wire.Command>): seq<seq<uint8>> {
    seq(|commands|, i requires 0 <= i < |commands| => Wire.Encode(commands[i]))
  }

  lemma ServerFindsOutputs(commands: seq<Wire.Command>, received: seq<seq<uint8>>)
    requires forall c | c in commands :: Wire.Sendable(c)
    requires Subseq(received, Encoded(commands))
    ensures Subseq(Collect(received, OutputIn), Collect(commands, OutputOf))
  {
    CollectSubseq(received, Encoded(commands), OutputIn);
    forall i | 0 <= i < |commands| ensures OutputIn(Encoded(commands)[i]) == OutputOf(commands[i]) {
      assert commands[i] in commands;
      Wire.RoundTrip(commands[i]);
    }
    CollectPairwise(Encoded(commands), commands, OutputIn, OutputOf);
  }

  /**
    Main result: let a client library send `commands`, let the transport deliver an in-order selection of the buffers, and
    let a daemon entry run in any way in which it receives exactly the reports and resets that the server finds in them. Then
    what the driver is asked for is an in-order selection of the very reports and resets that were sent.
   */
  lemma OutputsEndToEnd(commands: seq<Wire.Command>, received: seq<seq<uint8>>, actions: seq<Action>)
    requires forall c | c in commands :: Wire.Sendable(c)
    requires Subseq(received, Encoded(commands))
    requires Collect(actions, RequestFlow.ReceivedOutput) == Collect(received, OutputIn)
    ensures Subseq(RequestFlow.Posted(Run(actions).history.trace), Collect(commands, OutputOf))
  {
    ServerFindsOutputs(commands, received);
    RequestFlow.PostedInOrder(actions);
    SubseqTransitive(RequestFlow.Posted(Run(actions).history.trace), Collect(received, OutputIn), Collect(commands, OutputOf));
  }

  // ---------------------------------------------------------------- one connection to the driver

  /** What client `id` asked of the driver object behind `handle`. */
  function OnHandle(id: ObjectId, handle: IoService.Handle): Traced -> bool {
    (t: Traced) => t.client == id &&
      match t.effect
      case QueryVersion(h, _) => h == handle
      case Call(h, _) => h == handle
      case _ => false
  }

  function Selector(call: DriverCall): uint64 {
    match call
    case InitializeKeyboard(_) => 1
    case InitializePointing => 5
    case QueryReady(d) => if d.Keyboard? then 2 else 6
    case PostReport(d, _) => if d.Keyboard? then 3 else 7
    case ResetDevice(d) => if d.Keyboard? then 4 else 8
  }

  /** `r` is the call as it arrives at the driver object; the system passes a report on in either form. */
  predicate Carries(r: U.Request, effect: IoService.Effect) {
    match effect
    case QueryVersion(_, _) => r.selector == 0
    case Call(_, call) =>
      && r.selector == Selector(call)
      && (call.InitializeKeyboard? ==> r.arguments.scalars == U.Scalars(call.parameters))
      && (call.PostReport? ==> U.ReportIn(r) == Some(call.report))
    case _ => false
  }

  ghost predicate Arrive(requests: seq<U.Request>, sent: seq<Traced>) {
    |requests| == |sent| && forall i | 0 <= i < |sent| :: Carries(requests[i], sent[i].effect)
  }

  /**
    The life of one driver object: `IOServiceOpen` creates it and gives its handle, and it goes when the handle is closed. The handle
    may be given out again later, for another object.
   */
  ghost predicate Lifetime(trace: seq<Traced>, id: ObjectId, handle: IoService.Handle, from: nat, to: nat) {
    && from < to <= |trace|
    && trace[from].client == id && trace[from].effect.Open? && trace[from].effect.handle == handle
    && forall k | from < k < to :: trace[k].client == id ==> !trace[k].effect.Open? && !trace[k].effect.Close?
  }

  /** What the driver object is sent during its life. */
  function SentDuring(trace: seq<Traced>, id: ObjectId, handle: IoService.Handle, from: nat, to: nat): seq<Traced>
    requires from <= to <= |trace|
  {
    Filter(trace[from..to], OnHandle(id, handle))
  }

  /** All requests that belong to an instance's traced calls carry its birth parameters. */
  lemma BirthScalars(e: Entry, id: ObjectId, sent: seq<Traced>, requests: seq<U.Request>, r: U.Request)
    requires InstanceHistory.BirthInv(e) && id in e.history.births
    requires forall t | t in sent :: t in e.history.trace && t.client == id
    requires Arrive(requests, sent) && r in requests && U.IsKeyboardInitialize(r)
    ensures r.arguments.scalars == U.Scalars(e.history.births[id])
  {
    var i :| 0 <= i < |requests| && requests[i] == r;
    assert sent[i] in sent && Carries(r, sent[i].effect);
    assert InstanceHistory.BornWith(e, sent[i]);
  }

  lemma SentMembers(trace: seq<Traced>, id: ObjectId, handle: IoService.Handle, from: nat, to: nat)
    requires from <= to <= |trace|
    ensures forall t | t in SentDuring(trace, id, handle, from, to) :: t in trace && t.client == id
  {
    FilterMembers(trace[from..to], OnHandle(id, handle));
    assert forall t | t in trace[from..to] :: t in trace;
  }

  /**
    Main result: the keyboard that a client instance gets created in a driver object has the ids of the one parameter tuple that
    the instance was born with, modulo 2^32, whatever else is called and whatever fails.
   */
  lemma DriverHasBirthIds(actions: seq<Action>, id: ObjectId, handle: IoService.Handle, from: nat, to: nat, requests: seq<U.Request>)
    requires id in Run(actions).history.births
    requires Lifetime(Run(actions).history.trace, id, handle, from, to)
    requires Arrive(requests, SentDuring(Run(actions).history.trace, id, handle, from, to))
    ensures U.Run(requests).keyboard ==> U.Run(requests).ids == U.IdsOf(Run(actions).history.births[id])
  {
    InstanceHistory.OneTuplePerInstance(actions);
    IdsOfBirth(Run(actions), id, handle, from, to, requests);
  }

  lemma IdsOfBirth(e: Entry, id: ObjectId, handle: IoService.Handle, from: nat, to: nat, requests: seq<U.Request>)
    requires InstanceHistory.BirthInv(e) && id in e.history.births && from <= to <= |e.history.trace|
    requires Arrive(requests, SentDuring(e.history.trace, id, handle, from, to))
    ensures U.Run(requests).keyboard ==> U.Run(requests).ids == U.IdsOf(e.history.births[id])
  {
    SentMembers(e.history.trace, id, handle, from, to);
    forall r | r in requests && U.IsKeyboardInitialize(r) ensures r.arguments.scalars == U.Scalars(e.history.births[id]) {
      BirthScalars(e, id, SentDuring(e.history.trace, id, handle, from, to), requests, r);
    }
    U.KeyboardHasIds(requests, e.history.births[id]);
  }

  /** What an output hands to a device: a report, or the empty reports of a reset. */
  function Delivered(output: Output): seq<Report> {
    match output
    case Posting(report) => [report]
    case Clearing(d) => U.ReportsTo(d, V.EmptyFor(d))
  }

  function DeliveredBy(t: Traced): seq<Report> {
    Collect(RequestFlow.PostedBy(t), Delivered)
  }

  function MethodFor(call: DriverCall): U.Method {
    match call
    case InitializeKeyboard(_) => U.Initialize(Keyboard)
    case InitializePointing => U.Initialize(Pointing)
    case QueryReady(d) => U.Ready(d)
    case PostReport(d, _) => U.Post(d)
    case ResetDevice(d) => U.Reset(d)
  }

  lemma SelectorMeans(call: DriverCall)
    ensures U.MethodOf(Selector(call)) == MethodFor(call)
  {
  }

  lemma CallDelivers(r: U.Request, call: DriverCall)
    requires U.MethodOf(r.selector) == MethodFor(call) && (call.PostReport? ==> U.ReportIn(r) == Some(call.report))
    ensures U.PostsOf(r) == Collect(RequestFlow.OutputOf(call), Delivered)
  {
    var outputs := RequestFlow.OutputOf(call);
    if outputs != [] { CollectOne(outputs[0], Delivered); }
  }

  lemma RequestDelivers(r: U.Request, t: Traced)
    requires Carries(r, t.effect)
    ensures U.PostsOf(r) == DeliveredBy(t)
  {
    if t.effect.Call? {
      SelectorMeans(t.effect.call);
      CallDelivers(r, t.effect.call);
    }
  }

  lemma {:induction false} CollectTwice(trace: seq<Traced>)
    ensures Collect(trace, DeliveredBy) == Collect(RequestFlow.Posted(trace), Delivered)
  {
    if trace != [] {
      CollectTwice(Front(trace));
      CollectConcat(RequestFlow.Posted(Front(trace)), RequestFlow.PostedBy(Last(trace)), Delivered);
    }
  }

  /** What one driver object hands to its devices is an in-order selection of what the daemon asked for. */
  lemma PostedByDriver(trace: seq<Traced>, id: ObjectId, handle: IoService.Handle, from: nat, to: nat, requests: seq<U.Request>)
    requires from <= to <= |trace| && Arrive(requests, SentDuring(trace, id, handle, from, to))
    ensures Subseq(U.Run(requests).posted, Collect(RequestFlow.Posted(trace), Delivered))
  {
    var sent := SentDuring(trace, id, handle, from, to);
    U.PostedAsAsked(requests);
    forall i | 0 <= i < |sent| ensures U.PostsOf(requests[i]) == DeliveredBy(sent[i]) { RequestDelivers(requests[i], sent[i]); }
    CollectPairwise(requests, sent, U.PostsOf, DeliveredBy);
    FilterSubseq(trace[from..to], OnHandle(id, handle));
    SubseqStretch(trace, from, to);
    SubseqTransitive(sent, trace[from..to], trace);
    CollectSubseq(sent, trace, DeliveredBy);
    CollectTwice(trace);
    SubseqTransitive(U.Run(requests).posted, Collect(sent, DeliveredBy), Collect(trace, DeliveredBy));
  }

  /**
    All the way: what any driver object hands to its devices, during its whole life, is an in-order selection of the reports that the
    client library sent and of the empty reports of the resets that it sent.
   */
  lemma SentToDriver(commands: seq<Wire.Command>, received: seq<seq<uint8>>, actions: seq<Action>,
                     id: ObjectId, handle: IoService.Handle, from: nat, to: nat, requests: seq<U.Request>)
    requires forall c | c in commands :: Wire.Sendable(c)
    requires Subseq(received, Encoded(commands))
    requires Collect(actions, RequestFlow.ReceivedOutput) == Collect(received, OutputIn)
    requires Lifetime(Run(actions).history.trace, id, handle, from, to)
    requires Arrive(requests, SentDuring(Run(actions).history.trace, id, handle, from, to))
    ensures Subseq(U.Run(requests).posted, Collect(Collect(commands, OutputOf), Delivered))
  {
    OutputsEndToEnd(commands, received, actions);
    DeliveredEndToEnd(commands, Run(actions).history.trace, id, handle, from, to, requests);
  }

  lemma DeliveredEndToEnd(commands: seq<Wire.Command>, trace: seq<Traced>,
                          id: ObjectId, handle: IoService.Handle, from: nat, to: nat, requests: seq<U.Request>)
    requires Subseq(RequestFlow.Posted(trace), Collect(commands, OutputOf))
    requires from <= to <= |trace| && Arrive(requests, SentDuring(trace, id, handle, from, to))
    ensures Subseq(U.Run(requests).posted, Collect(Collect(commands, OutputOf), Delivered))
  {
    PostedByDriver(trace, id, handle, from, to, requests);
    CollectSubseq(RequestFlow.Posted(trace), Collect(commands, OutputOf), Delivered);
    SubseqTransitive(U.Run(requests).posted, Collect(RequestFlow.Posted(trace), Delivered), Collect(Collect(commands, OutputOf), Delivered));
  }

  // ---------------------------------------------------------------- every call has its driver object

  /** The handle that `id` has open after `trace`. */
  function OpenIn(trace: seq<Traced>, id: ObjectId): Option<IoService.Handle> {
    if trace == [] then None
    else if Last(trace).client != id then OpenIn(Front(trace), id)
    else
      match Last(trace).effect
      case Open(_, handle) => Some(handle)
      case Close(_) => None
      case _ => OpenIn(Front(trace), id)
  }

  lemma {:induction false} OpenInLog(trace: seq<Traced>, id: ObjectId)
    ensures OpenIn(trace, id) == ConnectionLaws.OpenAfter(None, InstanceHistory.ForClient(trace, id))
  {
    if trace != [] {
      OpenInLog(Front(trace), id);
      var log := InstanceHistory.ForClient(Front(trace), id);
      if Last(trace).client == id {
        assert Front(log + [Last(trace).effect]) == log;
      } else {
        assert log + [] == log;
      }
    }
  }

  /** What is open was opened at some point and neither closed nor replaced since. */
  lemma {:induction false} OpenSince(trace: seq<Traced>, id: ObjectId) returns (from: nat)
    requires OpenIn(trace, id).Some?
    ensures Lifetime(trace, id, OpenIn(trace, id).value, from, |trace|)
  {
    if Last(trace).client == id && Last(trace).effect.Open? {
      from := |trace| - 1;
    } else {
      from := OpenSince(Front(trace), id);
      assert forall k | from < k < |trace| - 1 :: trace[k] == Front(trace)[k];
    }
  }

  lemma {:induction false} CallIsOnOpen(trace: seq<Traced>, id: ObjectId, handle: IoService.Handle, k: nat)
    requires k < |trace| && OnHandle(id, handle)(trace[k])
    requires ConnectionLaws.CallsOnOpen(InstanceHistory.ForClient(trace, id))
    ensures OpenIn(trace[..k], id) == Some(handle)
  {
    var front := Front(trace);
    var log := InstanceHistory.ForClient(front, id);
    if Last(trace).client == id {
      assert Front(log + [Last(trace).effect]) == log;
    } else {
      assert log + [] == log;
    }
    if k == |trace| - 1 {
      OpenInLog(front, id);
    } else {
      CallIsOnOpen(front, id, handle, k);
      assert front[..k] == trace[..k];
    }
  }

  /** Every call and version query of every run belongs to the life of one driver object. */
  lemma CallsHaveTheirObject(actions: seq<Action>, id: ObjectId, handle: IoService.Handle, k: nat) returns (from: nat)
    requires k < |Run(actions).history.trace| && OnHandle(id, handle)(Run(actions).history.trace[k])
    ensures Lifetime(Run(actions).history.trace, id, handle, from, k + 1)
  {
    InstanceHistory.LogsCallOnOpen(actions, k);
    from := ObjectOfCall(Run(actions).history.trace, id, handle, k);
  }

  lemma ObjectOfCall(trace: seq<Traced>, id: ObjectId, handle: IoService.Handle, k: nat) returns (from: nat)
    requires k < |trace| && OnHandle(id, handle)(trace[k])
    requires ConnectionLaws.CallsOnOpen(InstanceHistory.ForClient(trace, id))
    ensures Lifetime(trace, id, handle, from, k + 1)
  {
    CallIsOnOpen(trace, id, handle, k);
    from := OpenSince(trace[..k], id);
    assert forall j | from <= j < k :: trace[..k][j] == trace[j];
  }

  // ---------------------------------------------------------------- statuses

  /**
    Main result: a client library that has heard all pushes in order remembers the ready flags of the latest sample; and
    while no status check is queued these are what the daemon would answer now.
   */
  lemma ClientAgrees(actions: seq<Action>)
    requires Run(actions).history.pushes != []
    ensures var e := Run(actions);
            var cache := S.HearAll(S.UNKNOWN, S.Messages(e.history.pushes));
            && e.history.samples != []
            && cache.keyboardReady == Some(Last(e.history.samples).keyboardReady)
            && cache.pointingReady == Some(Last(e.history.samples).pointingReady)
            && (!StatusPush.WillSample(e) ==>
                  cache.keyboardReady == Some(IsReady(e, Keyboard)) && cache.pointingReady == Some(IsReady(e, Pointing)))
  {
    var e := Run(actions);
    StatusPush.PushesAreSamplesOnce(actions);
    DestutterLast(e.history.samples);
    S.LastStatusRemembered(S.UNKNOWN, e.history.pushes);
    if !StatusPush.WillSample(e) { StatusPush.NoChangeIsMissed(actions); }
  }
}
