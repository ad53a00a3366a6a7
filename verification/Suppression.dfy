/**
  The client library leaves out initialize requests that it takes to be redundant. Two daemons are compared under the
  same schedule: one is sent every request the user asked for, the other only those that were not left out.
 */
module Suppression {
  import opened Wrappers
  import opened Protocol
  import opened Sequences
  import opened Reconciler
  import opened Lifecycle
  import LifecycleLaws
  import S = ServiceClient

  function RequestOf(ask: S.Ask): Request {
    match ask
    case AskKeyboard(parameters, _) => KeyboardInitialize(parameters)
    case AskPointing(_) => PointingInitialize
    case AskTerminate(Keyboard) => KeyboardTerminate
    case AskTerminate(Pointing) => PointingTerminate
  }

  // ---------------------------------------------------------------- two daemons, one schedule

  /** A request on its way; a suppressed one reaches the first daemon only. */
  datatype Sending = Sending(request: Request, suppressed: bool)

  /** The ready flags of a status on its way to the client. */
  datatype Told = Told(keyboardReady: bool, pointingReady: bool)

  datatype World = World(cache: S.Cache, sending: seq<Sending>, telling: seq<Told>, full: Lives, filtered: Lives)

  const START := World(S.UNKNOWN, [], [], UNBORN, UNBORN)

  datatype Happening =
    | Call(ask: S.Ask)
    | Apply
    | CheckFails(device: Device)
    | Sample(told: Told)
    | Hear

  function LifeIn(l: Lives, d: Device): Life {
    match d
    case Keyboard => l.keyboard
    case Pointing => l.pointing
  }

  /** A check only ever replaces a live instance. */
  function CheckFailed(l: Lives, d: Device): Lives {
    if LifeIn(l, d).live then Do(l, Replace(d)) else l
  }

  /** A daemon calls a device ready only while it has an instance. */
  predicate Truthful(l: Lives, told: Told) {
    (told.keyboardReady ==> l.keyboard.live) && (told.pointingReady ==> l.pointing.live)
  }

  function Next(w: World, h: Happening): World {
    match h
    case Call(ask) =>
      w.(cache := S.AfterAsk(w.cache, ask), sending := w.sending + [Sending(RequestOf(ask), S.Suppressed(w.cache, ask))])
    case Apply =>
      if w.sending == [] then w
      else
        var s := w.sending[0];
        w.(sending := w.sending[1..],
           full := Do(w.full, Want(s.request)),
           filtered := if s.suppressed then w.filtered else Do(w.filtered, Want(s.request)))
    case CheckFails(d) => w.(full := CheckFailed(w.full, d), filtered := CheckFailed(w.filtered, d))
    case Sample(told) => if Truthful(w.filtered, told) then w.(telling := w.telling + [told]) else w
    case Hear =>
      if w.telling == [] then w
      else
        w.(telling := w.telling[1..],
           cache := w.cache.(keyboardReady := Some(w.telling[0].keyboardReady), pointingReady := Some(w.telling[0].pointingReady)))
  }

  function Run(happenings: seq<Happening>): World {
    if happenings == [] then START else Next(Run(Front(happenings)), Last(happenings))
  }

  // ---------------------------------------------------------------- why nothing is lost

  predicate IsInitialize(r: Request) {
    r.KeyboardInitialize? || r.PointingInitialize?
  }

  /** The parameters that the keyboard will have been given once `sending` is applied, if it is alive then. */
  function Coming(l: Lives, sending: seq<Sending>): Option<Parameters> {
    if sending == [] then (if l.keyboard.live then Some(l.parameters) else None)
    else if Last(sending).request.KeyboardInitialize? && !Last(sending).suppressed then Some(Last(sending).request.parameters)
    else Coming(l, Front(sending))
  }

  /** A suppressed request will find what it asks for. */
  predicate Fulfilled(l: Lives, before: seq<Sending>, r: Request) {
    match r
    case KeyboardInitialize(parameters) => Coming(l, before) == Some(parameters)
    case PointingInitialize => l.pointing.live
    case _ => false
  }

  predicate AllFulfilled(l: Lives, sending: seq<Sending>) {
    sending == [] ||
    (&& AllFulfilled(l, Front(sending))
     && IsInitialize(Last(sending).request)
     && (Last(sending).suppressed ==> Fulfilled(l, Front(sending), Last(sending).request)))
  }

  predicate Proper(l: Lives) {
    (l.keyboard.live ==> l.keyboard.enabled) && (l.pointing.live ==> l.pointing.enabled)
  }

  ghost predicate Good(w: World) {
    && w.full == w.filtered
    && Proper(w.full)
    && AllFulfilled(w.full, w.sending)
    && (w.cache.parameters.Some? ==> Coming(w.full, w.sending) == w.cache.parameters)
    && (w.cache.pointingReady == Some(true) ==> w.full.pointing.live)
    && (forall told | told in w.telling :: told.pointingReady ==> w.full.pointing.live)
  }

  /** Only the keyboard's instance and parameters, and whether there is a pointing instance, matter. */
  lemma {:induction false} SameFulfilment(l: Lives, l': Lives, sending: seq<Sending>)
    requires l'.keyboard.live == l.keyboard.live && l'.parameters == l.parameters && (l.pointing.live ==> l'.pointing.live)
    ensures Coming(l', sending) == Coming(l, sending)
    ensures AllFulfilled(l, sending) ==> AllFulfilled(l', sending)
  {
    if sending != [] { SameFulfilment(l, l', Front(sending)); }
  }

  /** The daemon after the request that arrives first. */
  function Applied(l: Lives, s: Sending): Lives {
    if s.suppressed then l else Do(l, Want(s.request))
  }

  lemma {:induction false} FirstApplied(l: Lives, sending: seq<Sending>)
    requires sending != [] && AllFulfilled(l, sending)
    ensures IsInitialize(sending[0].request)
    ensures sending[0].suppressed ==> Fulfilled(l, [], sending[0].request)
    ensures Coming(Applied(l, sending[0]), sending[1..]) == Coming(l, sending)
    ensures AllFulfilled(Applied(l, sending[0]), sending[1..])
  {
    if |sending| > 1 {
      FirstApplied(l, Front(sending));
      assert Front(sending)[0] == sending[0] && Front(sending)[1..] == Front(sending[1..]) && Last(sending[1..]) == Last(sending);
    } else {
      assert Front(sending) == [] && sending[1..] == [] && Last(sending) == sending[0];
    }
  }

  /** Asking for what is there changes nothing. */
  lemma FulfilledIsRedundant(l: Lives, r: Request)
    requires Proper(l) && Fulfilled(l, [], r)
    ensures Do(l, Want(r)) == l
  {
  }

  lemma ApplyGood(w: World)
    requires Good(w) && w.sending != []
    ensures Good(Next(w, Happening.Apply))
  {
    var s := w.sending[0];
    FirstApplied(w.full, w.sending);
    if s.suppressed { FulfilledIsRedundant(w.full, s.request); }
    assert Next(w, Happening.Apply).full == Applied(w.full, s);
  }

  /** What the client leaves out will be found by the daemon. */
  lemma CallFulfilled(w: World, ask: S.Ask)
    requires Good(w) && !ask.AskTerminate?
    ensures IsInitialize(RequestOf(ask))
    ensures S.Suppressed(w.cache, ask) ==> Fulfilled(w.full, w.sending, RequestOf(ask))
  {
  }

  lemma CallRemembers(w: World, ask: S.Ask)
    requires Good(w) && !ask.AskTerminate?
    ensures var cache := S.AfterAsk(w.cache, ask);
            cache.parameters.Some? ==>
              Coming(w.full, w.sending + [Sending(RequestOf(ask), S.Suppressed(w.cache, ask))]) == cache.parameters
  {
    ComingOneMore(w.full, w.sending, Sending(RequestOf(ask), S.Suppressed(w.cache, ask)));
  }

  lemma ComingOneMore(l: Lives, sending: seq<Sending>, s: Sending)
    ensures Coming(l, sending + [s])
         == if s.request.KeyboardInitialize? && !s.suppressed then Some(s.request.parameters) else Coming(l, sending)
  {
    assert Front(sending + [s]) == sending;
  }

  lemma AllFulfilledOneMore(l: Lives, sending: seq<Sending>, s: Sending)
    requires AllFulfilled(l, sending) && IsInitialize(s.request) && (s.suppressed ==> Fulfilled(l, sending, s.request))
    ensures AllFulfilled(l, sending + [s])
  {
    assert Front(sending + [s]) == sending;
  }

  lemma CallGood(w: World, ask: S.Ask)
    requires Good(w) && !ask.AskTerminate?
    ensures Good(Next(w, Call(ask)))
  {
    CallFulfilled(w, ask);
    CallRemembers(w, ask);
    AllFulfilledOneMore(w.full, w.sending, Sending(RequestOf(ask), S.Suppressed(w.cache, ask)));
  }

  lemma NextGood(w: World, h: Happening)
    requires Good(w) && !(h.Call? && h.ask.AskTerminate?)
    ensures Good(Next(w, h))
  {
    match h
    case Call(ask) => CallGood(w, ask);
    case Apply => if w.sending != [] { ApplyGood(w); }
    case CheckFails(d) => SameFulfilment(w.full, CheckFailed(w.full, d), w.sending);
    case Sample(told) =>
    case Hear =>
      if w.telling != [] {
        assert w.telling[0] in w.telling;
        forall told | told in w.telling[1..] && told.pointingReady ensures w.full.pointing.live { assert told in w.telling; }
      }
  }

  ghost predicate NoTerminate(happenings: seq<Happening>) {
    forall h | h in happenings && h.Call? :: !h.ask.AskTerminate?
  }

  lemma {:induction false} RunGood(happenings: seq<Happening>)
    requires NoTerminate(happenings)
    ensures Good(Run(happenings))
  {
    if happenings != [] {
      forall h | h in Front(happenings) && h.Call? ensures !h.ask.AskTerminate? { assert h in happenings; }
      RunGood(Front(happenings));
      assert Last(happenings) in happenings;
      NextGood(Run(Front(happenings)), Last(happenings));
    }
  }

  /**
    Main result: while nothing is terminated, both daemons always agree on what is enabled, with which parameters, and
    on every instance and generation, however requests, statuses and failing checks interleave.
   */
  lemma SuppressionPreservesMeaning(happenings: seq<Happening>)
    requires NoTerminate(happenings)
    ensures Run(happenings).filtered == Run(happenings).full
  {
    RunGood(happenings);
  }

  // ---------------------------------------------------------------- the same for daemon entries

  /** The moves that a happening makes the two daemons do. */
  function FullMoves(w: World, h: Happening): seq<Move> {
    match h
    case Apply => if w.sending == [] then [] else [Want(w.sending[0].request)]
    case CheckFails(d) => if LifeIn(w.full, d).live then [Replace(d)] else []
    case _ => []
  }

  function FilteredMoves(w: World, h: Happening): seq<Move> {
    match h
    case Apply => if w.sending == [] || w.sending[0].suppressed then [] else [Want(w.sending[0].request)]
    case CheckFails(d) => if LifeIn(w.filtered, d).live then [Replace(d)] else []
    case _ => []
  }

  function AllFullMoves(happenings: seq<Happening>): seq<Move> {
    if happenings == [] then [] else AllFullMoves(Front(happenings)) + FullMoves(Run(Front(happenings)), Last(happenings))
  }

  function AllFilteredMoves(happenings: seq<Happening>): seq<Move> {
    if happenings == [] then [] else AllFilteredMoves(Front(happenings)) + FilteredMoves(Run(Front(happenings)), Last(happenings))
  }

  function DoAny(l: Lives, moves: seq<Move>): Lives {
    if moves == [] then l else Do(l, moves[0])
  }

  lemma FollowOneMore(moves: seq<Move>, more: seq<Move>)
    requires |more| <= 1
    ensures Follow(moves + more) == DoAny(Follow(moves), more)
  {
    if more == [] {
      assert moves + more == moves;
    } else {
      assert Front(moves + more) == moves;
    }
  }

  lemma NextFollows(w: World, h: Happening)
    ensures |FullMoves(w, h)| <= 1 && Next(w, h).full == DoAny(w.full, FullMoves(w, h))
    ensures |FilteredMoves(w, h)| <= 1 && Next(w, h).filtered == DoAny(w.filtered, FilteredMoves(w, h))
  {
  }

  lemma {:induction false} DaemonsFollow(happenings: seq<Happening>)
    ensures Run(happenings).full == Follow(AllFullMoves(happenings))
    ensures Run(happenings).filtered == Follow(AllFilteredMoves(happenings))
  {
    if happenings != [] {
      DaemonsFollow(Front(happenings));
      DaemonsFollowNext(AllFullMoves(Front(happenings)), AllFilteredMoves(Front(happenings)), Run(Front(happenings)), Last(happenings));
    }
  }

  lemma DaemonsFollowNext(full: seq<Move>, filtered: seq<Move>, w: World, h: Happening)
    requires w.full == Follow(full) && w.filtered == Follow(filtered)
    ensures Next(w, h).full == Follow(full + FullMoves(w, h))
    ensures Next(w, h).filtered == Follow(filtered + FilteredMoves(w, h))
  {
    NextFollows(w, h);
    FollowOneMore(full, FullMoves(w, h));
    FollowOneMore(filtered, FilteredMoves(w, h));
  }

  function IsBusy(): Move -> bool {
    (move: Move) => !move.Idle?
  }

  lemma {:induction false} IdleDoesNothing(moves: seq<Move>)
    ensures Follow(Filter(moves, IsBusy())) == Follow(moves)
  {
    if moves != [] {
      IdleDoesNothing(Front(moves));
      var last := if IsBusy()(Last(moves)) then [Last(moves)] else [];
      FollowOneMore(Filter(Front(moves), IsBusy()), last);
    }
  }

  /** Two runs of a daemon entry, one with every request and one without those left out, end with the same instances. */
  lemma EntriesAgree(full: seq<Action>, filtered: seq<Action>, happenings: seq<Happening>)
    requires NoTerminate(happenings)
    requires Filter(Moves(full), IsBusy()) == AllFullMoves(happenings)
    requires Filter(Moves(filtered), IsBusy()) == AllFilteredMoves(happenings)
    ensures Abstract(Reconciler.Run(full)) == Abstract(Reconciler.Run(filtered))
  {
    RunRefines(full);
    RunRefines(filtered);
    IdleDoesNothing(Moves(full));
    IdleDoesNothing(Moves(filtered));
    DaemonsFollow(happenings);
    SuppressionPreservesMeaning(happenings);
  }

  // ---------------------------------------------------------------- with terminations

  /** The client alone, with whatever messages it gets, and the requests it has sent. */
  datatype ClientEvent = Asks(ask: S.Ask) | Hears(buffer: seq<uint8>)

  datatype ClientState = ClientState(cache: S.Cache, sent: seq<Request>)

  function AfterEvent(c: ClientState, event: ClientEvent): ClientState {
    match event
    case Hears(buffer) => c.(cache := S.Hear(c.cache, buffer).cache)
    case Asks(ask) =>
      ClientState(S.AfterAsk(c.cache, ask), if S.Suppressed(c.cache, ask) then c.sent else c.sent + [RequestOf(ask)])
  }

  function ClientRun(events: seq<ClientEvent>): ClientState {
    if events == [] then ClientState(S.UNKNOWN, []) else AfterEvent(ClientRun(Front(events)), Last(events))
  }

  /** The last request sent for a device. */
  function LastSent(sent: seq<Request>, d: Device): Option<Request> {
    if sent == [] then None
    else if LifecycleLaws.DeviceOf(Last(sent)) == d then Some(Last(sent))
    else LastSent(Front(sent), d)
  }

  lemma {:induction false} LastSentDecides(sent: seq<Request>)
    ensures var wish := LifecycleLaws.Asked(sent);
            && (wish.keyboard <==> LastSent(sent, Keyboard).Some? && LastSent(sent, Keyboard).value.KeyboardInitialize?)
            && (wish.pointing <==> LastSent(sent, Pointing) == Some(PointingInitialize))
  {
    if sent != [] { LastSentDecides(Front(sent)); }
  }

  /** The remembered parameters are those of the last initialize request sent. */
  lemma {:induction false} RemembersParameters(events: seq<ClientEvent>)
    ensures var c := ClientRun(events);
            c.cache.parameters.Some? ==> LifecycleLaws.Asked(c.sent).parameters == c.cache.parameters.value
  {
    if events != [] {
      var c := ClientRun(Front(events));
      RemembersParameters(Front(events));
      match Last(events)
      case Hears(buffer) => S.HearRemembersLast(c.cache, buffer);
      case Asks(ask) => assert Front(c.sent + [RequestOf(ask)]) == c.sent;
    }
  }

  /**
    Main result with terminations: leaving a request out is harmless exactly when the last request sent for the device was
    an initialization.
   */
  lemma HarmlessIffNotTerminated(events: seq<ClientEvent>, ask: S.Ask)
    requires S.Suppressed(ClientRun(events).cache, ask)
    ensures var sent := ClientRun(events).sent;
            var last := LastSent(sent, LifecycleLaws.DeviceOf(RequestOf(ask)));
            LifecycleLaws.Asked(sent + [RequestOf(ask)]) == LifecycleLaws.Asked(sent) <==> last.Some? && IsInitialize(last.value)
  {
    var c := ClientRun(events);
    RemembersParameters(events);
    LastSentDecides(c.sent);
    LastSentIsOfDevice(c.sent, Keyboard);
    LastSentIsOfDevice(c.sent, Pointing);
    assert Front(c.sent + [RequestOf(ask)]) == c.sent;
  }

  lemma {:induction false} LastSentIsOfDevice(sent: seq<Request>, d: Device)
    ensures LastSent(sent, d).Some? ==> LifecycleLaws.DeviceOf(LastSent(sent, d).value) == d
  {
    if sent != [] { LastSentIsOfDevice(Front(sent), d); }
  }

  /** It does happen: initialize, ready, terminate, and the same initialize at once. The user wants a keyboard and gets none. */
  lemma InitializeAfterTerminateIsLost(p: Parameters, s: Status)
    requires s.keyboardReady
    ensures var events := [Asks(S.AskKeyboard(p, false)), Hears(S.StatusMessage(s)), Asks(S.AskTerminate(Keyboard)), Asks(S.AskKeyboard(p, false))];
            ClientRun(events).sent == [KeyboardInitialize(p), KeyboardTerminate] && !LifecycleLaws.Asked(ClientRun(events).sent).keyboard
  {
    var a, h, t := Asks(S.AskKeyboard(p, false)), Hears(S.StatusMessage(s)), Asks(S.AskTerminate(Keyboard));
    assert Front([a]) == [] && Front([a, h]) == [a] && Front([a, h, t]) == [a, h] && Front([a, h, t, a]) == [a, h, t];
    S.HearStatus(ClientRun([a]).cache, s);
    assert ClientRun([]).cache == S.UNKNOWN;
    assert ClientRun([a]) == ClientState(S.Cache(None, None, Some(p)), [KeyboardInitialize(p)]);
    assert ClientRun([a, h]) == ClientState(S.Cache(Some(true), Some(s.pointingReady), Some(p)), [KeyboardInitialize(p)]);
    assert ClientRun([a, h, t]).sent == [KeyboardInitialize(p), KeyboardTerminate];
    assert ClientRun([a, h, t, a]).sent == [KeyboardInitialize(p), KeyboardTerminate];
  }
}
