/** The driver's keyboard and pointing objects: the LED echo of `setReport`, and `reset`. */
module VirtualKeyboard {
  import opened Protocol
  import opened Sequences
  import opened HidDescriptor
  import opened DescriptorTables
  import opened ReportLayout
  import Bits
  import Keys

  /** What the host passes to `setReport`. */
  datatype Incoming = NoReport | Unmapped(code: nat) | Mapped(bytes: seq<uint8>)

  /** The system's answers while one report is copied and posted: `createWithBytes`, `GetLength`, `handleReport`. */
  datatype Memory = Memory(create: Return, length: Return, handled: Return)

  predicate Works(memory: Memory) {
    memory.create.Success? && memory.length.Success?
  }

  // ---------------------------------------------------------------- LED echo

  datatype Call = SetReport(incoming: Incoming, memory: Memory)

  /** `posted` are the reports handed to `handleReport`. */
  datatype Leds = Leds(lastLedState: uint8, posted: seq<seq<uint8>>)

  const INITIAL := Leds(0, [])

  /** The LED states that a call carries. */
  function LedStates(call: Call): seq<uint8> {
    match call.incoming
    case Mapped(bytes) => if |bytes| >= 2 && bytes[0] == LED_OUTPUT_ID then [bytes[1]] else []
    case _ => []
  }

  predicate Changes(s: Leds, call: Call) {
    LedStates(call) != [] && LedStates(call)[0] != s.lastLedState
  }

  function After(s: Leds, call: Call): Leds {
    if !Changes(s, call) then s
    else Leds(LedStates(call)[0], s.posted + if Works(call.memory) then [LedReport(LED_INPUT_ID, LedStates(call)[0])] else [])
  }

  function Run(calls: seq<Call>): Leds {
    if calls == [] then INITIAL else After(Run(Front(calls)), Last(calls))
  }

  function Received(calls: seq<Call>): seq<uint8> {
    Collect(calls, LedStates)
  }

  /** The LED states in the posted reports. */
  function EchoOf(report: seq<uint8>): seq<uint8> {
    if |report| == 2 && report[0] == LED_INPUT_ID then [report[1]] else []
  }

  function Echoed(posted: seq<seq<uint8>>): seq<uint8> {
    Collect(posted, EchoOf)
  }

  ghost predicate OnlyEchoes(posted: seq<seq<uint8>>) {
    forall r | r in posted :: |r| == 2 && r[0] == LED_INPUT_ID
  }

  lemma EchoedAppend(posted: seq<seq<uint8>>, state: uint8)
    ensures Echoed(posted + [LedReport(LED_INPUT_ID, state)]) == Echoed(posted) + [state]
  {
    assert Front(posted + [LedReport(LED_INPUT_ID, state)]) == posted;
  }

  lemma ReceivedLast(calls: seq<Call>)
    requires calls != []
    ensures Received(calls) == Received(Front(calls)) + LedStates(Last(calls))
  {
  }

  /** The remembered state is the last one received, whatever fails. */
  lemma {:induction false} RemembersLast(calls: seq<Call>)
    ensures Run(calls).lastLedState == Last([0] + Received(calls))
    ensures OnlyEchoes(Run(calls).posted)
  {
    if calls != [] {
      RemembersLast(Front(calls));
      ReceivedLast(calls);
    }
  }

  /** Each call that changed the state got its echo through; calls that change nothing may fail. */
  predicate AllChangesWork(calls: seq<Call>) {
    calls == [] ||
    (AllChangesWork(Front(calls)) && (Changes(Run(Front(calls)), Last(calls)) ==> Works(Last(calls).memory)))
  }

  /** The states that should have been echoed, after the 0 from the start. */
  function Expected(calls: seq<Call>): seq<uint8> {
    Destutter([0] + Received(calls))
  }

  lemma ExpectedStep(calls: seq<Call>)
    requires calls != []
    ensures var s := Run(Front(calls));
            Expected(calls) == Expected(Front(calls)) + if Changes(s, Last(calls)) then LedStates(Last(calls)) else []
  {
    var received := Received(Front(calls));
    var states := LedStates(Last(calls));
    RemembersLast(Front(calls));
    ReceivedLast(calls);
    if states == [] {
      assert received + states == received;
    } else {
      assert states == [states[0]] && [0] + (received + states) == [0] + received + [states[0]];
      DestutterAppend([0] + received, states[0]);
    }
    assert Expected(Front(calls)) + [] == Expected(Front(calls));
  }

  lemma EchoedStep(calls: seq<Call>)
    requires calls != []
    ensures var s := Run(Front(calls));
            Echoed(Run(calls).posted) == Echoed(s.posted) +
              if Changes(s, Last(calls)) && Works(Last(calls).memory) then LedStates(Last(calls)) else []
  {
    EchoedAfter(Run(Front(calls)), Last(calls));
  }

  lemma {:induction false} EchoesCounted(calls: seq<Call>)
    ensures |Echoed(Run(calls).posted)| + 1 <= |Expected(calls)|
    ensures |Echoed(Run(calls).posted)| + 1 == |Expected(calls)| <==> AllChangesWork(calls)
    ensures AllChangesWork(calls) ==> [0] + Echoed(Run(calls).posted) == Expected(calls)
  {
    if calls == [] {
      assert Front([0 as uint8]) == [];
      assert [0 as uint8] + Received(calls) == [0];
    } else {
      EchoesCounted(Front(calls));
      ExpectedStep(calls);
      EchoedStep(calls);
      Associate([0], Echoed(Run(Front(calls)).posted), LedStates(Last(calls)));
      assert Expected(Front(calls)) + [] == Expected(Front(calls));
      assert Echoed(Run(Front(calls)).posted) + [] == Echoed(Run(Front(calls)).posted);
    }
  }

  /**
    Main result: the echoes are the received states without repetitions, starting from 0, exactly when each call that
    changes the state gets its echo through.
   */
  lemma EchoesAreChanges(calls: seq<Call>)
    ensures [0] + Echoed(Run(calls).posted) == Destutter([0] + Received(calls)) <==> AllChangesWork(calls)
  {
    EchoesCounted(calls);
  }

  /** With failures, echoes may be missing, but none is invented, repeated or reordered. */
  lemma {:induction false} EchoesAreSelected(calls: seq<Call>)
    ensures Subseq(Echoed(Run(calls).posted), Received(calls))
  {
    if calls != [] {
      EchoesAreSelected(Front(calls));
      ReceivedLast(calls);
      var s := Run(Front(calls));
      var states := LedStates(Last(calls));
      var keep := Changes(s, Last(calls)) && Works(Last(calls).memory);
      SubseqExtend(Echoed(s.posted), Received(Front(calls)), states, keep);
      EchoedAfter(s, Last(calls));
    }
  }

  lemma EchoedAfter(s: Leds, call: Call)
    ensures Echoed(After(s, call).posted) == Echoed(s.posted) + if Changes(s, call) && Works(call.memory) then LedStates(call) else []
  {
    assert s.posted + [] == s.posted;
    if Changes(s, call) && Works(call.memory) {
      assert LedStates(call) == [LedStates(call)[0]];
      EchoedAppend(s.posted, LedStates(call)[0]);
    } else {
      assert After(s, call).posted == s.posted;
    }
  }

  /**
    The state is remembered before the echo is made, so an echo that failed is not made up for: here the host sets a LED, there is
    no memory for the echo, and setting it again echoes nothing.
   */
  lemma EchoIsLost(code: nat, good: Memory)
    requires Works(good)
    ensures var failed := Call.SetReport(Mapped([LED_OUTPUT_ID, 1]), Memory(Foreign(code), Success, Success));
            var again := Call.SetReport(Mapped([LED_OUTPUT_ID, 1]), good);
            && Received([failed, again]) == [1, 1] && Run([failed, again]) == Leds(1, [])
            && !AllChangesWork([failed, again])
  {
    var failed := Call.SetReport(Mapped([LED_OUTPUT_ID, 1]), Memory(Foreign(code), Success, Success));
    var again := Call.SetReport(Mapped([LED_OUTPUT_ID, 1]), good);
    assert Front([failed]) == [] && Front([failed, again]) == [failed];
    assert LedStates(failed) == [1] && Changes(INITIAL, failed) && !Works(failed.memory);
    assert Run([]) == INITIAL && Run([failed]) == After(INITIAL, failed) == Leds(1, [] + []);
    assert Received([failed]) == Received([]) + [1] == [1];
    assert Received([failed, again]) == [1] + LedStates(again);
  }

  /** The echo tells the host's readers the LED usages that the host set. */
  lemma EchoKeepsMeaning(state: uint8, usage: Usage, value: int)
    ensures Reports(KeyboardDeclared(), Output, LedReport(LED_OUTPUT_ID, state), usage, value)
       <==> Reports(KeyboardDeclared(), Input, LedReport(LED_INPUT_ID, state), usage, value)
  {
    LedReportReads(Output, LED_OUTPUT_ID, state, usage, value);
    LedReportReads(Input, LED_INPUT_ID, state, usage, value);
  }

  // ---------------------------------------------------------------- reset

  /** Empty reports, in the order in which the keyboard posts them. */
  function EmptyReports(): seq<seq<uint8>> {
    [KeyboardReport(0, Keys.Cleared()), KeysReport(CONSUMER_ID, Keys.Cleared()), KeysReport(VENDOR_KEYBOARD_ID, Keys.Cleared()),
     KeysReport(TOP_CASE_ID, Keys.Cleared()), KeysReport(DESKTOP_ID, Keys.Cleared())]
  }

  function EmptyFor(d: Device): (reports: seq<seq<uint8>>)
    ensures 0 < |reports| <= RESET_REPORTS
  {
    match d
    case Keyboard => EmptyReports()
    case Pointing => [PointingReport(0, 0, 0, 0, 0)]
  }

  const RESET_REPORTS: nat := 5

  /** The answers for the reports of one reset. */
  type Memories = m: seq<Memory> | |m| == RESET_REPORTS witness seq(RESET_REPORTS, i => Memory(Success, Success, Success))

  /** Position of the first report for which no memory can be had. */
  function FirstFailure(memories: seq<Memory>): (i: nat)
    ensures i <= |memories|
    ensures forall j | 0 <= j < i :: memories[j].create.Success?
    ensures i < |memories| ==> !memories[i].create.Success?
  {
    if memories == [] || !memories[0].create.Success? then 0
    else
      var rest := FirstFailure(memories[1..]);
      assert forall j | 1 <= j < rest + 1 :: memories[j] == memories[1..][j - 1];
      1 + rest
  }

  /** The reports that get through, of those whose memory could be had. */
  function Through(reports: seq<seq<uint8>>, memories: seq<Memory>): seq<seq<uint8>>
    requires |reports| <= |memories|
  {
    if reports == [] then []
    else Through(Front(reports), memories) + if memories[|reports| - 1].length.Success? then [Last(reports)] else []
  }

  /** How many of `count` reports memory could be had for. */
  function Reached(count: nat, memories: Memories): (n: nat)
    ensures n <= count
  {
    if FirstFailure(memories) < count then FirstFailure(memories) else count
  }

  function ResetPosts(d: Device, memories: Memories): seq<seq<uint8>> {
    Through(EmptyFor(d)[..Reached(|EmptyFor(d)|, memories)], memories)
  }

  function ResetReply(d: Device, memories: Memories): Return {
    if FirstFailure(memories) < |EmptyFor(d)| then memories[FirstFailure(memories)].create else Success
  }

  lemma {:induction false} AllGetThrough(reports: seq<seq<uint8>>, memories: seq<Memory>)
    requires |reports| <= |memories| && forall i | 0 <= i < |reports| :: memories[i].length.Success?
    ensures Through(reports, memories) == reports
  {
    if reports != [] { AllGetThrough(Front(reports), memories); }
  }

  /** When nothing fails, every empty report gets through. */
  lemma ResetPostsAll(d: Device, memories: Memories)
    requires forall i | 0 <= i < |memories| :: Works(memories[i])
    ensures ResetPosts(d, memories) == EmptyFor(d) && ResetReply(d, memories) == Success
  {
    assert FirstFailure(memories) == |memories|;
    var reports := EmptyFor(d);
    assert reports[..|reports|] == reports;
    AllGetThrough(reports, memories);
  }

  lemma {:induction false} ThroughIsSelection(reports: seq<seq<uint8>>, memories: seq<Memory>)
    requires |reports| <= |memories|
    ensures Subseq(Through(reports, memories), reports)
  {
    if reports != [] {
      ThroughIsSelection(Front(reports), memories);
      SubseqExtend(Through(Front(reports), memories), Front(reports), [Last(reports)], memories[|reports| - 1].length.Success?);
      assert Front(reports) + [Last(reports)] == reports;
    }
  }

  /** Whatever fails, what `reset` posts is an in-order selection of the empty reports. */
  lemma ResetPostsSelection(d: Device, memories: Memories)
    ensures Subseq(ResetPosts(d, memories), EmptyFor(d))
  {
    var n := Reached(|EmptyFor(d)|, memories);
    ThroughIsSelection(EmptyFor(d)[..n], memories);
    SubseqStretch(EmptyFor(d), 0, n);
    SubseqTransitive(ResetPosts(d, memories), EmptyFor(d)[..n], EmptyFor(d));
  }

  lemma NothingHeld(key: uint16)
    ensures key !in Keys.KeySet(Keys.Cleared())
  {
  }

  /** Each empty report tells the host that nothing is pressed. */
  lemma EmptyReportsRelease(report: seq<uint8>, usage: Usage)
    requires report in EmptyReports()
    ensures !Reports(KeyboardDeclared(), Input, report, usage, 1)
  {
    var slots := Keys.Cleared();
    if 0 < usage.id < 0x1_0000 { NothingHeld(usage.id as uint16); }
    if report == KeyboardReport(0, slots) {
      KeyboardReportReads(0, slots, usage, 1);
      if 0xe0 <= usage.id { NoModifier(usage.id - 0xe0); }
    } else if report == KeysReport(CONSUMER_ID, slots) {
      KeysReportReads(CONSUMER_ID, 0x0c, 768, slots, usage, 1);
    } else if report == KeysReport(VENDOR_KEYBOARD_ID, slots) {
      KeysReportReads(VENDOR_KEYBOARD_ID, 0xff01, 255, slots, usage, 1);
    } else if report == KeysReport(TOP_CASE_ID, slots) {
      KeysReportReads(TOP_CASE_ID, 0xff, 255, slots, usage, 1);
    } else {
      KeysReportReads(DESKTOP_ID, 0x01, 255, slots, usage, 1);
    }
  }

  lemma NoModifier(i: nat)
    ensures BitValue(0, i) == 0
  {
    Bits.BitOfZero(i);
  }

  // ---------------------------------------------------------------- the object

  class Keyboard {
    var lastLedState: uint8
    var posted: seq<seq<uint8>>

    ghost function View(): Leds
      reads this
    {
      Leds(lastLedState, posted)
    }

    constructor ()
      ensures View() == INITIAL
    {
      lastLedState, posted := 0, [];
    }

    /** `postReport`: the report reaches `handleReport` if its length can be had. */
    method PostReport(report: seq<uint8>, memory: Memory) returns (kr: Return)
      modifies this
      ensures lastLedState == old(lastLedState)
      ensures posted == old(posted) + if memory.length.Success? then [report] else []
      ensures kr == if memory.length.Success? then memory.handled else memory.length
    {
      if !memory.length.Success? {
        return memory.length;
      }
      posted := posted + [report];
      return memory.handled;
    }

    method SetReport(incoming: Incoming, memory: Memory) returns (kr: Return)
      modifies this
      ensures View() == After(old(View()), Call.SetReport(incoming, memory))
      ensures incoming.NoReport? ==> kr == BadArgument
      ensures incoming.Unmapped? ==> kr == Foreign(incoming.code)
      ensures incoming.Mapped? && |incoming.bytes| < 2 ==> kr == BadArgument
      ensures incoming.Mapped? && |incoming.bytes| >= 2 && incoming.bytes[0] != LED_OUTPUT_ID ==> kr == Unsupported
      ensures LedStates(Call.SetReport(incoming, memory)) != [] ==>
                kr == if Changes(old(View()), Call.SetReport(incoming, memory)) then memory.create else Success
    {
      match incoming {
        case NoReport => return BadArgument;
        case Unmapped(code) => return Foreign(code);
        case Mapped(bytes) =>
          if |bytes| < 2 {
            return BadArgument;
          }
          var state := bytes[1];
          if bytes[0] != LED_OUTPUT_ID {
            return Unsupported;
          }
          if lastLedState == state {
            return Success;
          }
          lastLedState := state;
          if !memory.create.Success? {
            return memory.create;
          }
          var _ := PostReport(LedReport(LED_INPUT_ID, state), memory);
          return Success;
      }
    }

    method Reset(memories: Memories) returns (kr: Return)
      modifies this
      ensures lastLedState == old(lastLedState)
      ensures posted == old(posted) + ResetPosts(Device.Keyboard, memories)
      ensures kr == ResetReply(Device.Keyboard, memories)
    {
      var reports;
      reports, kr := PostEmptyReports(Device.Keyboard, memories);
      posted := posted + reports;
    }
  }

  class Pointing {
    var posted: seq<seq<uint8>>

    constructor ()
      ensures posted == []
    {
      posted := [];
    }

    method Reset(memories: Memories) returns (kr: Return)
      modifies this
      ensures posted == old(posted) + ResetPosts(Device.Pointing, memories)
      ensures kr == ResetReply(Device.Pointing, memories)
    {
      var reports;
      reports, kr := PostEmptyReports(Device.Pointing, memories);
      posted := posted + reports;
    }
  }

  /** The loop of `reset`: posts `inputs` until memory for one cannot be had. */
  method PostWhilePossible(inputs: seq<seq<uint8>>, memories: Memories) returns (reports: seq<seq<uint8>>, kr: Return)
    requires |inputs| <= RESET_REPORTS
    ensures reports == Through(inputs[..Reached(|inputs|, memories)], memories)
    ensures kr == if FirstFailure(memories) < |inputs| then memories[FirstFailure(memories)].create else Success
  {
    reports := [];
    for i := 0 to |inputs|
      invariant i <= FirstFailure(memories)
      invariant reports == Through(inputs[..i], memories)
    {
      if !memories[i].create.Success? {
        return reports, memories[i].create;
      }
      assert Front(inputs[..i + 1]) == inputs[..i];
      if memories[i].length.Success? {
        reports := reports + [inputs[i]];
      }
    }
    return reports, Success;
  }

  method PostEmptyReports(d: Device, memories: Memories) returns (reports: seq<seq<uint8>>, kr: Return)
    ensures reports == ResetPosts(d, memories)
    ensures kr == ResetReply(d, memories)
  {
    reports, kr := PostWhilePossible(EmptyFor(d), memories);
  }
}
