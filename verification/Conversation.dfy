/**
  Everything that the daemon says to one client library, in order: the pushed statuses, and the statuses that come as responses to
  requests. A response is not remembered as a push, so it may leave the client library with something that no push corrects.
 */
module Conversation {
  import opened Wrappers
  import opened Protocol
  import opened Sequences
  import IoService
  import opened Reconciler
  import opened ReconcilerInvariant
  import opened Lifecycle
  import opened StatusPush
  import S = ServiceClient

  /** An action, with the kernel's answer on the activated driver in case the action is answered with a status. */
  datatype Exchange = Exchange(action: Action, activated: bool)

  /** Lifecycle and reset requests are answered with a status, taken when they arrive. */
  predicate Responds(action: Action) {
    action.Receive? || action.ReceiveReset?
  }

  function Actions(exchanges: seq<Exchange>): seq<Action> {
    seq(|exchanges|, i requires 0 <= i < |exchanges| => exchanges[i].action)
  }

  function Daemon(exchanges: seq<Exchange>): Entry {
    Run(Actions(exchanges))
  }

  /** What the step from `e` to `e'` pushed. */
  function Pushed(e: Entry, e': Entry): seq<Status> {
    if |e.history.pushes| < |e'.history.pushes| then e'.history.pushes[|e.history.pushes|..] else []
  }

  function Response(e: Entry, x: Exchange): seq<Status> {
    if Responds(x.action) then [MakeResponse(e, x.activated)] else []
  }

  function Said(exchanges: seq<Exchange>): seq<Status> {
    if exchanges == [] then []
    else
      var e, e' := Daemon(Front(exchanges)), Daemon(exchanges);
      Said(Front(exchanges)) + Pushed(e, e') + Response(e', Last(exchanges))
  }

  /** What the client library remembers after all that. */
  function Heard(exchanges: seq<Exchange>): S.Cache {
    S.HearAll(S.UNKNOWN, S.Messages(Said(exchanges)))
  }

  // ---------------------------------------------------------------- a step pushes at most once

  ghost predicate PushesOnce(a: Entry, b: Entry) {
    b.history.pushes == a.history.pushes || (b.last.Some? && b.history.pushes == a.history.pushes + [b.last.value])
  }

  lemma CheckPushesOnce(a: Entry, e: Entry, activated: bool)
    requires e.history.pushes == a.history.pushes
    ensures PushesOnce(a, CheckStatusChanged(e, activated))
  {
  }

  lemma ClientJobPushesOnce(e: Entry, p: Place, job: Job, answers: Answers)
    requires PlaceOf(e, job.owner) == p && !p.Nowhere?
    ensures PushesOnce(e, RunClientJob(e, p, job, answers))
  {
    match EventOf(job.task, answers)
    case Some(event) => StepClientSamples(e, p, job.owner, event);
    case None => CheckPushesOnce(e, e, answers.activated);
  }

  lemma ApplyPushesOnce(e: Entry, request: Request, activated: bool)
    requires ReconcilerInvariant.Inv(e)
    ensures PushesOnce(e, ApplyRequest(e, request, activated))
  {
    ReconfigureSamples(e, request);
    var changed := Reconfigure(e, request);
    CheckPushesOnce(e, changed.(history := changed.history.(applied := changed.history.applied + [request])), activated);
  }

  lemma DispatchPushesOnce(e: Entry, answers: Answers)
    requires ReconcilerInvariant.Inv(e)
    ensures PushesOnce(e, Dispatch(e, answers))
  {
    if e.ready != [] {
      var job, rest := e.ready[0], e.(ready := e.ready[1..]);
      assert JobInv(e, job);
      JobTaken(e);
      if job.task.Apply? {
        ApplyPushesOnce(rest, job.task.request, answers.activated);
      } else if job.owner == ENTRY {
        CheckPushesOnce(e, rest, answers.activated);
      } else {
        ClientJobPushesOnce(rest, PlaceOf(rest, job.owner), job, answers);
      }
    } else if CheckDue(e) {
      TimerTaken(e);
      CheckSamples(e.(timers := e.timers[1..]), e.timers[0]);
    }
  }

  lemma KernelEventPushesOnce(e: Entry, id: ObjectId, event: IoService.Event)
    ensures PushesOnce(e, KernelEvent(e, id, event))
  {
    if !PlaceOf(e, id).Nowhere? { StepClientSamples(e, PlaceOf(e, id), id, event); }
  }

  lemma StepPushesOnce(e: Entry, action: Action)
    requires ReconcilerInvariant.Inv(e)
    ensures PushesOnce(e, Step(e, action))
  {
    match action
    case RunNext(answers) => DispatchPushesOnce(e, answers);
    case KernelMatched(id, service, kernel) => KernelEventPushesOnce(e, id, IoService.ServiceMatched(service, kernel));
    case KernelTerminated(id, service, kernel) => KernelEventPushesOnce(e, id, IoService.ServiceTerminated(service, kernel));
    case _ =>
  }

  // ---------------------------------------------------------------- who has the last word

  predicate SameFlags(a: Status, b: Status) {
    a.keyboardReady == b.keyboardReady && a.pointingReady == b.pointingReady
  }

  lemma DaemonNext(exchanges: seq<Exchange>)
    requires exchanges != []
    ensures Daemon(exchanges) == Step(Daemon(Front(exchanges)), Last(exchanges).action)
  {
    assert Front(Actions(exchanges)) == Actions(Front(exchanges));
  }

  lemma SaidNext(exchanges: seq<Exchange>)
    requires exchanges != []
    ensures PushesOnce(Daemon(Front(exchanges)), Daemon(exchanges))
    ensures Responds(Last(exchanges).action) ==>
              && Daemon(exchanges).history.pushes == Daemon(Front(exchanges)).history.pushes
              && forall d :: IsReady(Daemon(exchanges), d) == IsReady(Daemon(Front(exchanges)), d)
  {
    RunKeeps(Actions(Front(exchanges)));
    DaemonNext(exchanges);
    StepPushesOnce(Daemon(Front(exchanges)), Last(exchanges).action);
  }

  /** The last thing said is the last push, or a response given later. */
  lemma {:induction false} SomethingSaid(exchanges: seq<Exchange>)
    ensures Daemon(exchanges).history.pushes != [] ==> Said(exchanges) != []
  {
    if exchanges != [] {
      SomethingSaid(Front(exchanges));
      SaidNext(exchanges);
    }
  }

  /**
    Main result: whenever no status check is queued, a client library that has heard everything agrees with the daemon exactly when
    the last thing it heard, push or response, has the ready flags of the last push.
   */
  lemma AgreesIff(exchanges: seq<Exchange>)
    requires !WillSample(Daemon(exchanges))
    ensures var e := Daemon(exchanges);
            && Said(exchanges) != [] && e.history.pushes != []
            && (Heard(exchanges).keyboardReady == Some(IsReady(e, Keyboard)) && Heard(exchanges).pointingReady == Some(IsReady(e, Pointing))
                <==> SameFlags(Last(Said(exchanges)), Last(e.history.pushes)))
  {
    NoChangeIsMissed(Actions(exchanges));
    SomethingSaid(exchanges);
    S.LastStatusRemembered(S.UNKNOWN, Said(exchanges));
  }

  /** No response came after the last push, or the last one came while no status check was queued. */
  ghost predicate LastWordIsQuiet(exchanges: seq<Exchange>) {
    if exchanges == [] then true
    else if Responds(Last(exchanges).action) then !WillSample(Daemon(Front(exchanges)))
    else Pushed(Daemon(Front(exchanges)), Daemon(exchanges)) != [] || LastWordIsQuiet(Front(exchanges))
  }

  lemma QuietResponse(exchanges: seq<Exchange>)
    requires exchanges != [] && Responds(Last(exchanges).action) && !WillSample(Daemon(Front(exchanges)))
    ensures Daemon(exchanges).history.pushes != [] && Said(exchanges) != []
    ensures SameFlags(Last(Said(exchanges)), Last(Daemon(exchanges).history.pushes))
  {
    SaidNext(exchanges);
    NoChangeIsMissed(Actions(Front(exchanges)));
    assert Last(Said(exchanges)) == MakeResponse(Daemon(exchanges), Last(exchanges).activated);
  }

  lemma {:induction false} QuietLastWord(exchanges: seq<Exchange>)
    requires LastWordIsQuiet(exchanges) && Daemon(exchanges).history.pushes != []
    ensures Said(exchanges) != [] && SameFlags(Last(Said(exchanges)), Last(Daemon(exchanges).history.pushes))
  {
    if exchanges != [] {
      if Responds(Last(exchanges).action) {
        QuietResponse(exchanges);
      } else {
        var e, e' := Daemon(Front(exchanges)), Daemon(exchanges);
        SaidNext(exchanges);
        if Pushed(e, e') == [] {
          QuietLastWord(Front(exchanges));
          assert Said(exchanges) == Said(Front(exchanges)) + [] + [];
        }
      }
    }
  }

  /** So a response given while no status check is queued does no harm: after it the client library still agrees. */
  lemma QuietResponsesDoNoHarm(exchanges: seq<Exchange>)
    requires LastWordIsQuiet(exchanges) && !WillSample(Daemon(exchanges))
    ensures var e := Daemon(exchanges);
            Heard(exchanges).keyboardReady == Some(IsReady(e, Keyboard)) && Heard(exchanges).pointingReady == Some(IsReady(e, Pointing))
  {
    AgreesIff(exchanges);
    QuietLastWord(exchanges);
  }
}
