/**
  The driver's user client: one object per opened connection, driven by `ExternalMethod`. What the system
  answers (creating a device, asking it, copying a report) is an input of each call.
 */
module UserClient {
  import opened Wrappers
  import opened Protocol
  import opened Sequences
  import V = VirtualKeyboard

  datatype Ids = Ids(vendorId: uint32, productId: uint32, countryCode: uint32)

  /** `Create`: the device service may be refused, be of the wrong class, or be there. */
  datatype CreateReply = Refused(code: nat) | WrongClass | Created

  /** What the caller passes: scalars in, room for scalars out, and a report in one of two forms. */
  datatype Arguments = Arguments(scalars: seq<uint64>, outputs: nat, structure: Option<seq<uint8>>, descriptor: Option<seq<uint8>>)

  /** The system's answers during one call. */
  datatype System = System(created: CreateReply, deviceReady: bool, copied: Return, length: Return, handled: Return, memories: V.Memories)

  datatype Request = Request(selector: uint64, arguments: Arguments, system: System)

  datatype State = State(ids: Ids, keyboard: bool, pointing: bool, posted: seq<Report>)

  /** `IONewZero`. */
  const INITIAL: State := State.State(Ids.Ids(0, 0, 0), false, false, [])

  datatype Reply = Reply(kr: Return, output: Option<uint64>)

  // ---------------------------------------------------------------- selectors

  datatype Method =
    | DriverVersion
    | Initialize(device: Device)
    | Ready(device: Device)
    | Post(device: Device)
    | Reset(device: Device)
    | Unknown

  /** The selector is converted to a 32-bit enumeration: higher bits are dropped. */
  function MethodOf(selector: uint64): Method {
    match selector % 0x1_0000_0000
    case 0 => DriverVersion
    case 1 => Initialize(Keyboard)
    case 2 => Ready(Keyboard)
    case 3 => Post(Keyboard)
    case 4 => Reset(Keyboard)
    case 5 => Initialize(Pointing)
    case 6 => Ready(Pointing)
    case 7 => Post(Pointing)
    case 8 => Reset(Pointing)
    case _ => Unknown
  }

  function Low32(x: uint64): uint32 {
    (x % 0x1_0000_0000) as uint32
  }

  // ---------------------------------------------------------------- what a call does

  predicate Has(s: State, d: Device) {
    match d case Keyboard => s.keyboard case Pointing => s.pointing
  }

  /** The ids are taken from the scalars before the keyboard is created, whether or not it can be. */
  function TakeIds(ids: Ids, scalars: seq<uint64>): Ids {
    if |scalars| > 2 then Ids.Ids(Low32(scalars[0]), Low32(scalars[1]), Low32(scalars[2])) else ids
  }

  function AfterInitialize(s: State, d: Device, r: Request): State {
    if Has(s, d) then s
    else
      match d
      case Keyboard => s.(ids := TakeIds(s.ids, r.arguments.scalars), keyboard := r.system.created.Created?)
      case Pointing => s.(pointing := r.system.created.Created?)
  }

  /** The report to post, if any: a structure is copied, a descriptor is used as it is. */
  function ReportIn(r: Request): Option<seq<uint8>> {
    if r.arguments.structure.Some? then r.arguments.structure else r.arguments.descriptor
  }

  predicate CopyFails(r: Request) {
    r.arguments.structure.Some? && !r.system.copied.Success?
  }

  function AfterPost(s: State, d: Device, r: Request): State {
    if Has(s, d) && !CopyFails(r) && ReportIn(r).Some? && r.system.length.Success?
    then s.(posted := s.posted + [Report(d, ReportIn(r).value)])
    else s
  }

  function ReportsTo(d: Device, reports: seq<seq<uint8>>): seq<Report> {
    seq(|reports|, i requires 0 <= i < |reports| => Report(d, reports[i]))
  }

  /** `reset` posts the empty reports through the same `postReport`. */
  function AfterReset(s: State, d: Device, r: Request): State {
    if Has(s, d) then s.(posted := s.posted + ReportsTo(d, V.ResetPosts(d, r.system.memories))) else s
  }

  function After(s: State, r: Request): State {
    match MethodOf(r.selector)
    case Initialize(d) => AfterInitialize(s, d, r)
    case Post(d) => AfterPost(s, d, r)
    case Reset(d) => AfterReset(s, d, r)
    case _ => s
  }

  function InitializeReply(s: State, d: Device, r: Request): Return {
    if Has(s, d) then Success
    else match r.system.created case Refused(code) => Foreign(code) case WrongClass => Error case Created => Success
  }

  function PostReply(s: State, d: Device, r: Request): Return {
    if !Has(s, d) then Error
    else if CopyFails(r) then r.system.copied
    else if ReportIn(r).None? then BadArgument
    else if !r.system.length.Success? then r.system.length
    else r.system.handled
  }

  function Output(r: Request, value: uint64): Reply {
    if r.arguments.outputs > 0 then Reply.Reply(Success, Some(value)) else Reply.Reply(Error, None)
  }

  function ReplyTo(s: State, r: Request): Reply {
    match MethodOf(r.selector)
    case DriverVersion => Output(r, EMBEDDED_DRIVER_VERSION)
    case Initialize(d) => Reply.Reply(InitializeReply(s, d, r), None)
    case Ready(d) => Output(r, if Has(s, d) && r.system.deviceReady then 1 else 0)
    case Post(d) => Reply.Reply(PostReply(s, d, r), None)
    case Reset(d) => Reply.Reply(if Has(s, d) then V.ResetReply(d, r.system.memories) else Error, None)
    case Unknown => Reply.Reply(BadArgument, None)
  }

  function Run(requests: seq<Request>): State {
    if requests == [] then INITIAL else After(Run(Front(requests)), Last(requests))
  }

  // ---------------------------------------------------------------- the keyboard's ids

  /** Once there is a keyboard, it stays, with its ids, whatever is called. */
  lemma {:induction false} KeyboardStays(before: seq<Request>, later: seq<Request>)
    requires Run(before).keyboard
    ensures Run(before + later).keyboard && Run(before + later).ids == Run(before).ids
  {
    if later == [] {
      assert before + later == before;
    } else {
      KeyboardStays(before, Front(later));
      assert Front(before + later) == before + Front(later) && Last(before + later) == Last(later);
    }
  }

  predicate IsKeyboardInitialize(r: Request) {
    MethodOf(r.selector) == Initialize(Keyboard)
  }

  /** The scalars that the daemon passes for `parameters`. */
  function Scalars(parameters: Parameters): seq<uint64> {
    [parameters.vendorId, parameters.productId, parameters.countryCode]
  }

  function IdsOf(parameters: Parameters): Ids {
    Ids.Ids(Low32(parameters.vendorId), Low32(parameters.productId), Low32(parameters.countryCode))
  }

  /** If all keyboard initializations carry the same parameters, the keyboard has those, modulo 2^32, from the first one on. */
  lemma {:induction false} KeyboardHasIds(requests: seq<Request>, parameters: Parameters)
    requires forall r | r in requests && IsKeyboardInitialize(r) :: r.arguments.scalars == Scalars(parameters)
    ensures Run(requests).keyboard ==> Run(requests).ids == IdsOf(parameters)
    ensures Run(requests).ids == IdsOf(parameters) || (Run(requests).ids == INITIAL.ids && forall r | r in requests :: !IsKeyboardInitialize(r))
  {
    if requests != [] {
      var front := Front(requests);
      forall r | r in front && IsKeyboardInitialize(r) ensures r.arguments.scalars == Scalars(parameters) { assert r in requests; }
      KeyboardHasIds(front, parameters);
      assert Last(requests) in requests;
      assert requests == front + [Last(requests)];
    }
  }

  /** What a call asks to be handed to a device: the report it carries, or the empty reports. */
  function PostsOf(r: Request): seq<Report> {
    match MethodOf(r.selector)
    case Post(d) => if ReportIn(r).Some? then [Report(d, ReportIn(r).value)] else []
    case Reset(d) => ReportsTo(d, V.EmptyFor(d))
    case _ => []
  }

  /** The reports that one call hands to `handleReport`. */
  function Posts(s: State, r: Request): seq<Report>
    ensures After(s, r).posted == s.posted + Posts(s, r)
  {
    assert s.posted + [] == s.posted;
    match MethodOf(r.selector)
    case Post(d) =>
      if Has(s, d) && !CopyFails(r) && ReportIn(r).Some? && r.system.length.Success? then [Report(d, ReportIn(r).value)] else []
    case Reset(d) => if Has(s, d) then ReportsTo(d, V.ResetPosts(d, r.system.memories)) else []
    case _ => []
  }

  lemma {:induction false} ReportsToSelection(d: Device, a: seq<seq<uint8>>, b: seq<seq<uint8>>)
    requires Subseq(a, b)
    ensures Subseq(ReportsTo(d, a), ReportsTo(d, b))
    decreases |b|
  {
    if a != [] {
      assert Front(ReportsTo(d, b)) == ReportsTo(d, Front(b)) && Front(ReportsTo(d, a)) == ReportsTo(d, Front(a));
      if Last(a) == Last(b) {
        ReportsToSelection(d, Front(a), Front(b));
      } else {
        ReportsToSelection(d, a, Front(b));
        SubseqGrow(ReportsTo(d, a), ReportsTo(d, Front(b)), Report(d, Last(b)));
        assert ReportsTo(d, Front(b)) + [Report(d, Last(b))] == ReportsTo(d, b);
      }
    }
  }

  lemma PostsAreAsked(s: State, r: Request)
    ensures Subseq(Posts(s, r), PostsOf(r))
  {
    SubseqReflexive(PostsOf(r));
    SubseqNothing(PostsOf(r));
    if MethodOf(r.selector).Reset? {
      var d := MethodOf(r.selector).device;
      V.ResetPostsSelection(d, r.system.memories);
      ReportsToSelection(d, V.ResetPosts(d, r.system.memories), V.EmptyFor(d));
    }
  }

  /** All that reaches the devices was asked for, and comes in the order in which it was. */
  lemma {:induction false} PostedAsAsked(requests: seq<Request>)
    ensures Subseq(Run(requests).posted, Collect(requests, PostsOf))
  {
    if requests != [] {
      var s := Run(Front(requests));
      PostedAsAsked(Front(requests));
      PostsAreAsked(s, Last(requests));
      SubseqConcat(s.posted, Collect(Front(requests), PostsOf), Posts(s, Last(requests)), PostsOf(Last(requests)));
    }
  }

  // ---------------------------------------------------------------- the object

  class Client {
    var keyboardVendorId: uint32
    var keyboardProductId: uint32
    var keyboardCountryCode: uint32
    var keyboard: bool
    var pointing: bool
    var posted: seq<Report>

    ghost function View(): State
      reads this
    {
      State.State(Ids.Ids(keyboardVendorId, keyboardProductId, keyboardCountryCode), keyboard, pointing, posted)
    }

    constructor ()
      ensures View() == INITIAL
    {
      keyboardVendorId, keyboardProductId, keyboardCountryCode := 0, 0, 0;
      keyboard, pointing, posted := false, false, [];
    }

    method ExternalMethod(r: Request) returns (reply: Reply)
      modifies this
      ensures View() == After(old(View()), r)
      ensures reply == ReplyTo(old(View()), r)
    {
      match MethodOf(r.selector) {
        case DriverVersion =>
          if r.arguments.outputs > 0 {
            return Reply.Reply(Success, Some(EMBEDDED_DRIVER_VERSION));
          }
          return Reply.Reply(Error, None);
        case Initialize(d) => reply := InitializeDevice(d, r);
        case Ready(d) =>
          if r.arguments.outputs > 0 {
            var ready := Exists(d);
            return Reply.Reply(Success, Some(if ready && r.system.deviceReady then 1 else 0));
          }
          return Reply.Reply(Error, None);
        case Post(d) => reply := PostTo(d, r);
        case Reset(d) => reply := ResetDevice(d, r);
        case Unknown => return Reply.Reply(BadArgument, None);
      }
    }

    method Exists(d: Device) returns (present: bool)
      ensures present == Has(View(), d)
    {
      present := if d.Keyboard? then keyboard else pointing;
    }

    method InitializeDevice(d: Device, r: Request) returns (reply: Reply)
      modifies this
      ensures View() == AfterInitialize(old(View()), d, r)
      ensures reply == Reply.Reply(InitializeReply(old(View()), d, r), None)
    {
      var present := Exists(d);
      if !present {
        var scalars := r.arguments.scalars;
        if d.Keyboard? && |scalars| > 2 {
          keyboardVendorId, keyboardProductId, keyboardCountryCode := Low32(scalars[0]), Low32(scalars[1]), Low32(scalars[2]);
        }
        match r.system.created {
          case Refused(code) => return Reply.Reply(Foreign(code), None);
          case WrongClass => return Reply.Reply(Error, None);
          case Created =>
            if d.Keyboard? { keyboard := true; } else { pointing := true; }
        }
      }
      return Reply.Reply(Success, None);
    }

    method ResetDevice(d: Device, r: Request) returns (reply: Reply)
      modifies this
      ensures View() == AfterReset(old(View()), d, r)
      ensures reply == Reply.Reply(if Has(old(View()), d) then V.ResetReply(d, r.system.memories) else Error, None)
    {
      var present := Exists(d);
      if !present {
        return Reply.Reply(Error, None);
      }
      var reports, kr := V.PostEmptyReports(d, r.system.memories);
      posted := posted + ReportsTo(d, reports);
      return Reply.Reply(kr, None);
    }

    method PostTo(d: Device, r: Request) returns (reply: Reply)
      modifies this
      ensures View() == AfterPost(old(View()), d, r)
      ensures reply == Reply.Reply(PostReply(old(View()), d, r), None)
    {
      var present := Exists(d);
      if !present {
        return Reply.Reply(Error, None);
      }
      var memory: Option<seq<uint8>> := None;
      if r.arguments.structure.Some? {
        if !r.system.copied.Success? {
          return Reply.Reply(r.system.copied, None);
        }
        memory := r.arguments.structure;
      } else if r.arguments.descriptor.Some? {
        memory := r.arguments.descriptor;
      }
      if memory.None? {
        return Reply.Reply(BadArgument, None);
      }
      if !r.system.length.Success? {
        return Reply.Reply(r.system.length, None);
      }
      posted := posted + [Report(d, memory.value)];
      return Reply.Reply(r.system.handled, None);
    }
  }
}
