/**
  What the daemon says to each of its peers, over runs of the whole daemon with its one queue. The server answers a message in the very
  task that passes it on, so a response stands among the pushes where that task stands in the queue.
 */
module PeerConversation {
  import opened Wrappers
  import opened Protocol
  import opened Sequences
  import opened Reconciler
  import opened Conversation
  import StatusPush
  import D = Daemon
  import S = ServiceClient
  import Wire

  /** The kernel's answer on the activated driver during a task. */
  predicate Activated(h: D.Happening) {
    h.Take? && h.answers.activated
  }

  function ResponseTo(m: Option<D.Message>, e: Entry, p: D.PeerId, activated: bool): seq<Status> {
    match m
    case Some(Received(q, buffer)) =>
      if q == p && Wire.Decode(buffer).Some? && Responds(D.ActionFor(Wire.Decode(buffer).value)) then [MakeResponse(e, activated)] else []
    case _ => []
  }

  /** Everything that `p` has been told since it last connected, pushes and responses. */
  function Told(happenings: seq<D.Happening>, p: D.PeerId): seq<Status> {
    if happenings == [] || p !in D.Run(happenings).entries || p !in D.Run(Front(happenings)).entries then []
    else
      var g, h, g' := D.Run(Front(happenings)), Last(happenings), D.Run(happenings);
      Told(Front(happenings), p) + Pushed(g.entries[p], g'.entries[p]) + ResponseTo(D.Served(g, h), g'.entries[p], p, Activated(h))
  }

  /** What the client library of `p` remembers after all that. */
  function Remembered(happenings: seq<D.Happening>, p: D.PeerId): S.Cache {
    S.HearAll(S.UNKNOWN, S.Messages(Told(happenings, p)))
  }

  // ---------------------------------------------------------------- a peer's own exchanges

  function ExchangesOf(actions: seq<Action>, activated: bool): seq<Exchange> {
    seq(|actions|, i requires 0 <= i < |actions| => Exchange(actions[i], activated))
  }

  function OwnExchanges(happenings: seq<D.Happening>, p: D.PeerId): seq<Exchange> {
    if happenings == [] || D.Own(happenings, p).None? then []
    else
      var g, h := D.Run(Front(happenings)), Last(happenings);
      if D.Own(Front(happenings), p).None? then [Exchange(Elapse(g.now), false)]
      else OwnExchanges(Front(happenings), p) + ExchangesOf(D.ActionsOf(g, h, p), Activated(h))
  }

  lemma {:induction false} OwnActions(happenings: seq<D.Happening>, p: D.PeerId)
    requires D.Own(happenings, p).Some?
    ensures Actions(OwnExchanges(happenings, p)) == D.Own(happenings, p).value
  {
    if D.Own(Front(happenings), p).Some? {
      var g, h := D.Run(Front(happenings)), Last(happenings);
      OwnActions(Front(happenings), p);
      ActionsMore(OwnExchanges(Front(happenings), p), D.ActionsOf(g, h, p), Activated(h));
    }
  }

  lemma ActionsMore(x: seq<Exchange>, more: seq<Action>, activated: bool)
    ensures Actions(x + ExchangesOf(more, activated)) == Actions(x) + more
  {
  }

  lemma PeerSeen(happenings: seq<D.Happening>, p: D.PeerId)
    ensures p in D.Run(happenings).entries <==> D.Own(happenings, p).Some?
    ensures p in D.Run(happenings).entries ==> D.Seen(D.Run(happenings), p) == Daemon(OwnExchanges(happenings, p))
  {
    D.PeersAreIndependent(happenings, p);
    if D.Own(happenings, p).Some? { OwnActions(happenings, p); }
  }

  /** A response is given for exactly those of a peer's own actions that are answered. */
  lemma AnswersAreResponses(g: D.State, h: D.Happening, e: Entry, p: D.PeerId)
    ensures var actions := D.ActionsOf(g, h, p);
            && |actions| <= 1
            && ResponseTo(D.Served(g, h), e, p, Activated(h)) == if actions == [] then [] else Response(e, Exchange(actions[0], Activated(h)))
  {
  }

  lemma SameFace(g: D.State, p: D.PeerId)
    requires p in g.entries
    ensures D.Seen(g, p).history == g.entries[p].history
    ensures forall d :: IsReady(D.Seen(g, p), d) == IsReady(g.entries[p], d)
  {
  }

  /** One more own action, or none. */
  lemma SaidMore(x: seq<Exchange>, more: seq<Exchange>, e': Entry)
    requires |more| <= 1 && e' == Daemon(x + more)
    ensures Said(x + more) == Said(x) + Pushed(Daemon(x), e') + if more == [] then [] else Response(e', more[0])
  {
    if more == [] {
      assert x + more == x;
      assert Said(x) + [] + [] == Said(x);
    } else {
      assert Front(x + more) == x && Last(x + more) == more[0];
    }
  }

  lemma PushedSeen(g: D.State, g': D.State, p: D.PeerId)
    requires p in g.entries && p in g'.entries
    ensures Pushed(D.Seen(g, p), D.Seen(g', p)) == Pushed(g.entries[p], g'.entries[p])
  {
  }

  lemma ResponseSeen(g: D.State, p: D.PeerId, x: Exchange)
    requires p in g.entries
    ensures Response(D.Seen(g, p), x) == Response(g.entries[p], x)
  {
  }

  lemma ToldStep(g: D.State, h: D.Happening, g': D.State, p: D.PeerId, x: seq<Exchange>, more: seq<Exchange>)
    requires p in g.entries && p in g'.entries && more == ExchangesOf(D.ActionsOf(g, h, p), Activated(h))
    requires D.Seen(g, p) == Daemon(x) && D.Seen(g', p) == Daemon(x + more)
    ensures Said(x + more) == Said(x) + Pushed(g.entries[p], g'.entries[p]) + ResponseTo(D.Served(g, h), g'.entries[p], p, Activated(h))
  {
    AnswersAreResponses(g, h, g'.entries[p], p);
    SaidMore(x, more, D.Seen(g', p));
    PushedSeen(g, g', p);
    if more != [] { ResponseSeen(g', p, more[0]); }
  }

  lemma ToldNext(happenings: seq<D.Happening>, p: D.PeerId)
    requires happenings != [] && p in D.Run(Front(happenings)).entries && p in D.Run(happenings).entries
    requires Told(Front(happenings), p) == Said(OwnExchanges(Front(happenings), p))
    ensures Told(happenings, p) == Said(OwnExchanges(happenings, p))
  {
    var g, h := D.Run(Front(happenings)), Last(happenings);
    PeerSeen(Front(happenings), p);
    PeerSeen(happenings, p);
    var more := ExchangesOf(D.ActionsOf(g, h, p), Activated(h));
    ToldStep(g, h, D.Run(happenings), p, OwnExchanges(Front(happenings), p), more);
  }

  /** What a peer is told is what the conversation of its own entry says. */
  lemma {:induction false} ToldIsSaid(happenings: seq<D.Happening>, p: D.PeerId)
    requires p in D.Run(happenings).entries
    ensures Told(happenings, p) == Said(OwnExchanges(happenings, p))
  {
    PeerSeen(happenings, p);
    PeerSeen(Front(happenings), p);
    if p in D.Run(Front(happenings)).entries {
      ToldIsSaid(Front(happenings), p);
      ToldNext(happenings, p);
    } else {
      FirstExchange(D.Run(Front(happenings)).now);
    }
  }

  lemma FirstExchange(now: nat)
    ensures Said([Exchange(Elapse(now), false)]) == []
  {
    var x := [Exchange(Elapse(now), false)];
    assert Front(x) == [] && Actions([]) == [];
    DaemonNext(x);
  }

  /**
    Main result: in every run of the daemon, whenever no status check of a peer is queued, its client library agrees with the daemon
    exactly when the last thing it was told, push or response, has the ready flags of the last push.
   */
  lemma PeerAgreesIff(happenings: seq<D.Happening>, p: D.PeerId)
    requires p in D.Run(happenings).entries && !StatusPush.WillSample(D.Seen(D.Run(happenings), p))
    ensures var e := D.Run(happenings).entries[p];
            var cache := Remembered(happenings, p);
            && Told(happenings, p) != [] && e.history.pushes != []
            && (cache.keyboardReady == Some(IsReady(e, Keyboard)) && cache.pointingReady == Some(IsReady(e, Pointing))
                <==> SameFlags(Last(Told(happenings, p)), Last(e.history.pushes)))
  {
    PeerSeen(happenings, p);
    ToldIsSaid(happenings, p);
    SameFace(D.Run(happenings), p);
    AgreesIff(OwnExchanges(happenings, p));
  }
}
