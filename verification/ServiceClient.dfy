/** The client library: what it remembers of the daemon's messages, and the requests it leaves out on that ground. */
module ServiceClient {
  import opened Wrappers
  import opened Protocol
  import opened Sequences
  import Reconciler
  import opened Wire

  // ---------------------------------------------------------------- messages

  /** `make_response`: pairs of a response code and a value. */
  function StatusMessage(s: Reconciler.Status): seq<uint8> {
    [1, Flag(s.activated), 2, Flag(s.connected), 3, Flag(s.mismatched), 4, Flag(s.keyboardReady), 5, Flag(s.pointingReady)]
  }

  function Flag(b: bool): uint8 {
    if b then 1 else 0
  }

  /** What the client library tells its user. */
  datatype Notice =
    | DriverActivated(value: bool)
    | DriverConnected(value: bool)
    | DriverVersionMismatched(value: bool)
    | DeviceReady(device: Device, value: bool)
    | InvalidSize
    | UnknownMessage

  datatype Cache = Cache(keyboardReady: Option<bool>, pointingReady: Option<bool>, parameters: Option<Parameters>)

  const UNKNOWN := Cache(None, None, None)

  datatype Heard = Heard(cache: Cache, notices: seq<Notice>)

  /** One pair of a message. */
  function HearPair(h: Heard, code: uint8, value: uint8): Heard {
    match code
    case 0 => h
    case 1 => h.(notices := h.notices + [DriverActivated(value != 0)])
    case 2 => h.(notices := h.notices + [DriverConnected(value != 0)])
    case 3 => h.(notices := h.notices + [DriverVersionMismatched(value != 0)])
    case 4 => Heard(h.cache.(keyboardReady := Some(value != 0)), h.notices + [DeviceReady(Keyboard, value != 0)])
    case 5 => Heard(h.cache.(pointingReady := Some(value != 0)), h.notices + [DeviceReady(Pointing, value != 0)])
    case _ => h.(notices := h.notices + [UnknownMessage])
  }

  function HearPairs(cache: Cache, buffer: seq<uint8>): Heard
    requires |buffer| % 2 == 0
  {
    if buffer == [] then Heard(cache, [])
    else HearPair(HearPairs(cache, buffer[..|buffer| - 2]), buffer[|buffer| - 2], buffer[|buffer| - 1])
  }

  /** `handle_message`. */
  function Hear(cache: Cache, buffer: seq<uint8>): Heard {
    if |buffer| % 2 != 0 then Heard(cache, [InvalidSize]) else HearPairs(cache, buffer)
  }

  /** The value of the last pair with `code`, if there is one. */
  function LastValue(buffer: seq<uint8>, code: uint8): Option<bool>
    requires |buffer| % 2 == 0
  {
    if buffer == [] then None
    else if buffer[|buffer| - 2] == code then Some(buffer[|buffer| - 1] != 0)
    else LastValue(buffer[..|buffer| - 2], code)
  }

  function Or<T>(a: Option<T>, b: Option<T>): Option<T> {
    if a.Some? then a else b
  }

  /** For any bytes: a malformed message changes nothing, any other leaves the last ready flags it holds. */
  lemma {:induction false} HearRemembersLast(cache: Cache, buffer: seq<uint8>)
    ensures Hear(cache, buffer).cache ==
      if |buffer| % 2 != 0 then cache
      else Cache(Or(LastValue(buffer, 4), cache.keyboardReady), Or(LastValue(buffer, 5), cache.pointingReady), cache.parameters)
  {
    if |buffer| % 2 == 0 && buffer != [] {
      HearRemembersLast(cache, buffer[..|buffer| - 2]);
    }
  }

  /** A status message tells the client the five values, and leaves it with the two ready flags. */
  lemma HearStatus(cache: Cache, s: Reconciler.Status)
    ensures Hear(cache, StatusMessage(s)) ==
      Heard(cache.(keyboardReady := Some(s.keyboardReady), pointingReady := Some(s.pointingReady)),
            [DriverActivated(s.activated), DriverConnected(s.connected), DriverVersionMismatched(s.mismatched),
             DeviceReady(Keyboard, s.keyboardReady), DeviceReady(Pointing, s.pointingReady)])
  {
    var m := StatusMessage(s);
    assert m[..8][..6] == m[..6] && m[..6][..4] == m[..4] && m[..4][..2] == m[..2] && m[..2][..0] == [];
    var h1 := HearPair(Heard(cache, []), 1, Flag(s.activated));
    var h2 := HearPair(h1, 2, Flag(s.connected));
    var h3 := HearPair(h2, 3, Flag(s.mismatched));
    var h4 := HearPair(h3, 4, Flag(s.keyboardReady));
    assert HearPairs(cache, m[..2]) == h1;
    assert HearPairs(cache, m[..4]) == h2;
    assert HearPairs(cache, m[..6]) == h3;
    assert HearPairs(cache, m[..8]) == h4;
    assert HearPairs(cache, m) == HearPair(h4, 5, Flag(s.pointingReady));
  }

  /** The messages of a connection, one after the other. */
  function HearAll(cache: Cache, messages: seq<seq<uint8>>): Cache {
    if messages == [] then cache else Hear(HearAll(cache, Front(messages)), Last(messages)).cache
  }

  function Messages(statuses: seq<Reconciler.Status>): seq<seq<uint8>> {
    seq(|statuses|, i requires 0 <= i < |statuses| => StatusMessage(statuses[i]))
  }

  /** After any status messages the client holds the two ready flags of the last one. */
  lemma {:induction false} LastStatusRemembered(cache: Cache, statuses: seq<Reconciler.Status>)
    requires statuses != []
    ensures HearAll(cache, Messages(statuses))
         == cache.(keyboardReady := Some(Last(statuses).keyboardReady), pointingReady := Some(Last(statuses).pointingReady))
  {
    var front := Front(statuses);
    assert Front(Messages(statuses)) == Messages(front);
    if front == [] {
      assert HearAll(cache, Messages(front)) == cache;
    } else {
      LastStatusRemembered(cache, front);
    }
    HearStatus(HearAll(cache, Messages(front)), Last(statuses));
  }

  // ---------------------------------------------------------------- calls

  /** What the user asks of the client library about the devices' life; `force` skips the suppression. */
  datatype Ask =
    | AskKeyboard(parameters: Parameters, force: bool)
    | AskPointing(force: bool)
    | AskTerminate(device: Device)

  predicate Suppressed(c: Cache, ask: Ask) {
    match ask
    case AskKeyboard(parameters, force) => !force && c.keyboardReady == Some(true) && c.parameters == Some(parameters)
    case AskPointing(force) => !force && c.pointingReady == Some(true)
    case AskTerminate(_) => false
  }

  function CommandOf(ask: Ask): Command {
    match ask
    case AskKeyboard(parameters, _) => Initialize(parameters)
    case AskPointing(_) => Command.InitializePointing
    case AskTerminate(d) => Terminate(d)
  }

  function AfterAsk(c: Cache, ask: Ask): Cache {
    if ask.AskKeyboard? && !Suppressed(c, ask) then c.(parameters := Some(ask.parameters)) else c
  }

  /** The requests sent for `ask`, as bytes. */
  function Sent(c: Cache, ask: Ask): seq<seq<uint8>> {
    if Suppressed(c, ask) then [] else [Encode(CommandOf(ask))]
  }

  /** `clear_state`. */
  function Forgotten(c: Cache): Heard {
    Heard(UNKNOWN, [DeviceReady(Keyboard, false), DeviceReady(Pointing, false)])
  }

  // ---------------------------------------------------------------- the object

  class Client {
    var lastKeyboardReady: Option<bool>
    var lastPointingReady: Option<bool>
    var lastParameters: Option<Parameters>

    /** Signals emitted and requests handed to the transport. */
    var notices: seq<Notice>
    var requests: seq<seq<uint8>>

    ghost function View(): Cache
      reads this
    {
      Cache(lastKeyboardReady, lastPointingReady, lastParameters)
    }

    constructor ()
      ensures View() == UNKNOWN && notices == [] && requests == []
    {
      lastKeyboardReady, lastPointingReady, lastParameters := None, None, None;
      notices, requests := [], [];
    }

    method HandleMessage(buffer: seq<uint8>)
      modifies this
      ensures View() == Hear(old(View()), buffer).cache
      ensures notices == old(notices) + Hear(old(View()), buffer).notices
      ensures requests == old(requests)
    {
      if buffer == [] {
        assert notices == notices + [];
        return;
      }
      if |buffer| % 2 != 0 {
        notices := notices + [InvalidSize];
        return;
      }
      for index := 0 to |buffer| / 2
        invariant View() == HearPairs(old(View()), buffer[..2 * index]).cache
        invariant notices == old(notices) + HearPairs(old(View()), buffer[..2 * index]).notices
        invariant requests == old(requests)
      {
        var code, value := buffer[2 * index], buffer[2 * index + 1];
        ghost var done := buffer[..2 * index + 2];
        assert done[..|done| - 2] == buffer[..2 * index];
        match code {
          case 0 =>
          case 1 => notices := notices + [DriverActivated(value != 0)];
          case 2 => notices := notices + [DriverConnected(value != 0)];
          case 3 => notices := notices + [DriverVersionMismatched(value != 0)];
          case 4 =>
            lastKeyboardReady := Some(value != 0);
            notices := notices + [DeviceReady(Keyboard, value != 0)];
          case 5 =>
            lastPointingReady := Some(value != 0);
            notices := notices + [DeviceReady(Pointing, value != 0)];
          case _ => notices := notices + [UnknownMessage];
        }
      }
      assert buffer[..2 * (|buffer| / 2)] == buffer;
    }

    method ClearState()
      modifies this
      ensures View() == Forgotten(old(View())).cache && notices == old(notices) + Forgotten(old(View())).notices
      ensures requests == old(requests)
    {
      lastKeyboardReady := None;
      notices := notices + [DeviceReady(Keyboard, false)];
      lastPointingReady := None;
      notices := notices + [DeviceReady(Pointing, false)];
      lastParameters := None;
    }

    method Request(c: Command)
      modifies this
      ensures requests == old(requests) + [Encode(c)]
      ensures View() == old(View()) && notices == old(notices)
    {
      var buffer := MakeRequestBuffer(c);
      requests := requests + [buffer.data[..]];
    }

    method InitializeKeyboard(parameters: Parameters, force: bool)
      modifies this
      ensures View() == AfterAsk(old(View()), AskKeyboard(parameters, force))
      ensures requests == old(requests) + Sent(old(View()), AskKeyboard(parameters, force))
      ensures notices == old(notices)
    {
      if !force {
        if lastKeyboardReady == Some(true) && lastParameters == Some(parameters) {
          assert requests == requests + [];
          return;
        }
      }
      lastParameters := Some(parameters);
      Request(Initialize(parameters));
    }

    method InitializePointing(force: bool)
      modifies this
      ensures View() == AfterAsk(old(View()), AskPointing(force))
      ensures requests == old(requests) + Sent(old(View()), AskPointing(force))
      ensures notices == old(notices)
    {
      if !force {
        if lastPointingReady == Some(true) {
          assert requests == requests + [];
          return;
        }
      }
      Request(Command.InitializePointing);
    }

    method TerminateDevice(d: Device)
      modifies this
      ensures View() == AfterAsk(old(View()), AskTerminate(d))
      ensures requests == old(requests) + Sent(old(View()), AskTerminate(d))
      ensures notices == old(notices)
    {
      Request(Terminate(d));
    }
  }
}
