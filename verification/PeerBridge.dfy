/**
 Two routes answer an ask: the peer watcher, which polls the durable reply store and forwards what
 it finds, and the host's `answer`, called by whoever reads the pending list. Both end in the
 transport's `reply`, and each is one step between two `await`s.
 */
module PeerBridge {
  import opened Prelude
  import opened Sequences
  import opened Interaction

  /** `stored` is the durable reply store; `watched` the asks a watcher polls it for. */
  datatype System = System(t: Transport, watched: set<MessageId>, stored: map<MessageId, string>)

  const IDLE := System(Interaction.EMPTY, {}, map[])

  datatype Step =
    | Send(input: SendInput, id: MessageId, now: int)
    | Request(input: SendInput, id: MessageId, now: int)
    | Watch(id: MessageId)
    | DeliveryDone(id: MessageId, receipt: bool)
    | SendDone(id: MessageId)
    | Woken(id: MessageId)
    | Store(id: MessageId, body: string)
    | Tick(id: MessageId, expired: bool, replyId: MessageId, now: int)
    | Answer(id: MessageId, body: string, replyId: MessageId, now: int)
    | SendReply(input: SendInput, replyId: MessageId, now: int)

  function CorrelatedReply(ask: Message, body: string): SendInput {
    SendInput(Reply, ask.to, ask.from, ask.activationId, ask.attemptId, None, body, Some(ask.id))
  }

  predicate Enabled(s: System, step: Step) {
    match step
    case Send(input, id, _) => Fresh(s.t, id) && input.kind != Reply
    case Request(input, id, _) => Fresh(s.t, id) && input.kind in {Question, Escalation}
    case Watch(id) => id in s.t.calls && s.t.calls[id].Delivering? && IsAskIn(s.t.log, id)
    case DeliveryDone(id, _) => id in s.t.calls && s.t.calls[id].Delivering?
    case SendDone(id) => id in s.t.calls && s.t.calls[id].Delivered?
    case Woken(id) => id in s.t.calls && s.t.calls[id] == Blocked && id in s.t.resolved
    case Store(_, _) => true
    case Tick(id, _, replyId, _) => id in s.watched && Fresh(s.t, replyId)
    case Answer(_, _, replyId, _) => Fresh(s.t, replyId)
    case SendReply(input, replyId, _) => Fresh(s.t, replyId) && input.kind == Reply
  }

  /** Any `send` of kind `reply`; an uncorrelated one throws and changes nothing. */
  function Sent(t: Transport, input: SendInput, replyId: MessageId, now: int): Transport {
    if Target(t, input).Some? then ReplyTo(t, input, replyId, now) else t
  }

  /** The watcher's reply; a refused correlation is the other route having won, and is swallowed. */
  function Route(t: Transport, id: MessageId, body: string, replyId: MessageId, now: int): Transport {
    if id in t.pending then Sent(t, CorrelatedReply(t.pending[id].message, body), replyId, now) else t
  }

  function Apply(s: System, step: Step): System
    requires Enabled(s, step)
  {
    match step
    case Send(input, id, now) => s.(t := Begin(s.t, input, id, now, false))
    case Request(input, id, now) => s.(t := Begin(s.t, input, id, now, true))
    case Watch(id) => s.(watched := s.watched + {id})
    case DeliveryDone(id, receipt) => s.(t := FinishDelivery(s.t, id, receipt))
    case SendDone(id) => s.(t := Continue(s.t, id))
    case Woken(id) => s.(t := Wake(s.t, id))
    case Store(id, body) => s.(stored := s.stored[id := body])
    case Tick(id, expired, replyId, now) =>
      if expired then s.(watched := s.watched - {id})
      else if id !in s.stored then s
      else s.(watched := s.watched - {id}, t := Route(s.t, id, s.stored[id], replyId, now))
    case Answer(id, body, replyId, now) => s.(t := Route(s.t, id, body, replyId, now))
    case SendReply(input, replyId, now) => s.(t := Sent(s.t, input, replyId, now))
  }

  ghost predicate IsRun(s: System, steps: seq<Step>)
    decreases steps
  {
    steps == [] || (Enabled(s, steps[0]) && IsRun(Apply(s, steps[0]), steps[1..]))
  }

  ghost function After(s: System, steps: seq<Step>): System
    requires IsRun(s, steps)
    decreases steps
  {
    if steps == [] then s else After(Apply(s, steps[0]), steps[1..])
  }

  /** Only asks are watched, so a watcher's tick is never aimed at an id the transport never saw. */
  ghost predicate SystemInv(s: System) {
    Inv(s.t) && forall id :: id in s.watched ==> IsAskIn(s.t.log, id)
  }

  lemma PendingIsTargeted(t: Transport, id: MessageId, body: string)
    requires Inv(t) && id in t.pending
    ensures Target(t, CorrelatedReply(t.pending[id].message, body)) == Some(id)
  {
    assert AskInv(t, id);
  }

  lemma RouteKeepsInv(t: Transport, id: MessageId, body: string, replyId: MessageId, now: int)
    requires Inv(t) && Fresh(t, replyId)
    ensures Inv(Route(t, id, body, replyId, now))
    ensures t.log <= Route(t, id, body, replyId, now).log
  {
    if id in t.pending {
      PendingIsTargeted(t, id, body);
      ReplyKeepsInv(t, CorrelatedReply(t.pending[id].message, body), replyId, now);
    }
  }

  lemma StepKeepsInv(s: System, step: Step)
    requires SystemInv(s) && Enabled(s, step)
    ensures SystemInv(Apply(s, step)) && s.t.log <= Apply(s, step).t.log
  {
    match step
    case Send(input, id, now) => BeginKeepsInv(s.t, input, id, now, false);
    case Request(input, id, now) => BeginKeepsInv(s.t, input, id, now, true);
    case DeliveryDone(id, receipt) => DeliveryKeepsInv(s.t, id, receipt);
    case SendDone(id) => ContinueKeepsInv(s.t, id);
    case Woken(id) => WakeKeepsInv(s.t, id);
    case Tick(id, expired, replyId, now) =>
      if !expired && id in s.stored {
        RouteKeepsInv(s.t, id, s.stored[id], replyId, now);
      }
    case Answer(id, body, replyId, now) => RouteKeepsInv(s.t, id, body, replyId, now);
    case SendReply(input, replyId, now) =>
      if Target(s.t, input).Some? {
        ReplyKeepsInv(s.t, input, replyId, now);
      }
    case _ =>
    assert forall m :: m in s.t.log ==> m in Apply(s, step).t.log;
  }

  lemma {:induction false} RunKeepsInv(s: System, steps: seq<Step>)
    requires SystemInv(s) && IsRun(s, steps)
    ensures SystemInv(After(s, steps)) && s.t.log <= After(s, steps).t.log
    decreases steps
  {
    if steps != [] {
      StepKeepsInv(s, steps[0]);
      RunKeepsInv(Apply(s, steps[0]), steps[1..]);
    }
  }

  lemma IdleIsGood()
    ensures SystemInv(IDLE)
  {
    forall id
      ensures AskInv(IDLE.t, id) && CallInv(IDLE.t, id)
    {
    }
  }

  // ------------------------------------------------------------------------------- theorems

  /**
   Conservation: in every reachable state each ask of the log is either pending or cited by exactly
   one reply of the log, and a run never loses a message.
   */
  lemma AsksAreConserved(steps: seq<Step>, ask: Message)
    requires IsRun(IDLE, steps)
    requires ask in After(IDLE, steps).t.log && ExpectsAnswer(ask)
    ensures var t := After(IDLE, steps).t;
            && (ask.id in t.pending <==> RepliesTo(t.log, ask.id) == [])
            && (ask.id !in t.pending <==> |RepliesTo(t.log, ask.id)| == 1)
            && (ask.id in t.pending ==> t.pending[ask.id].message == ask)
  {
    IdleIsGood();
    RunKeepsInv(IDLE, steps);
    var t := After(IDLE, steps).t;
    assert AskInv(t, ask.id);
    PendingIsUnanswered(t);
  }

  /** A request's id, and how the reply that reaches it is correlated, over every run. */
  lemma RequestsReturnTheirOwnReply(steps: seq<Step>, id: MessageId)
    requires IsRun(IDLE, steps) && id in After(IDLE, steps).t.calls
    ensures var t := After(IDLE, steps).t;
            && (t.calls[id] == Blocked && RepliesTo(t.log, id) == [] ==> id in t.pending)
            && (t.calls[id] == Blocked && RepliesTo(t.log, id) != [] ==>
                  Enabled(After(IDLE, steps), Woken(id))
                  && Apply(After(IDLE, steps), Woken(id)).t.calls[id] == Returned(RepliesTo(t.log, id)[0]))
            && (t.calls[id].Returned? ==>
                  RepliesTo(t.log, id) == [t.calls[id].reply] && t.calls[id].reply.inReplyTo == Some(id))
  {
    IdleIsGood();
    RunKeepsInv(IDLE, steps);
    var t := After(IDLE, steps).t;
    NoLostWakeup(t, id, false);
    if t.calls[id].Returned? {
      NoCrossedReplies(t, id);
      assert CallInv(t, id);
    }
  }

  /** An ask once answered is never pending again. */
  lemma {:induction false} AnsweredStaysAnswered(s: System, steps: seq<Step>, id: MessageId)
    requires SystemInv(s) && IsRun(s, steps) && id in s.t.calls && id !in s.t.pending
    ensures id !in After(s, steps).t.pending
    decreases steps
  {
    if steps != [] {
      StepKeepsInv(s, steps[0]);
      AnsweredStaysAnswered(Apply(s, steps[0]), steps[1..], id);
    }
  }

  predicate MarkedDelivered(t: Transport, id: MessageId) {
    id in t.pending && t.pending[id].delivered
  }

  /** A step changes an ask's delivery mark only by reporting a receipt for it. */
  lemma StepMarks(s: System, step: Step, id: MessageId)
    requires SystemInv(s) && Enabled(s, step)
    requires id in s.t.calls && s.t.calls[id].Delivering? ==> !MarkedDelivered(s.t, id)
    ensures var s' := Apply(s, step);
            && (id in s'.t.calls && s'.t.calls[id].Delivering? ==> !MarkedDelivered(s'.t, id))
            && (id in s'.t.pending ==>
                  (MarkedDelivered(s'.t, id) <==> MarkedDelivered(s.t, id) || step == DeliveryDone(id, true)))
            && (step == DeliveryDone(id, true) || id in s.t.pending ==> id in s'.t.calls)
  {
    hide CallInv, RepliesTo, IsAskIn, ExpectsAnswer;
    assert AskInv(s.t, id);
  }

  lemma {:induction false} MarksFollowReceipts(s: System, steps: seq<Step>, id: MessageId)
    requires SystemInv(s) && IsRun(s, steps)
    requires id in s.t.calls && s.t.calls[id].Delivering? ==> !MarkedDelivered(s.t, id)
    ensures id in After(s, steps).t.pending ==>
              (MarkedDelivered(After(s, steps).t, id) <==> MarkedDelivered(s.t, id) || DeliveryDone(id, true) in steps)
    decreases steps
  {
    hide Apply, Enabled, SystemInv;
    if steps != [] {
      var s', rest := Apply(s, steps[0]), steps[1..];
      StepMarks(s, steps[0], id);
      StepKeepsInv(s, steps[0]);
      MarksFollowReceipts(s', rest, id);
      if id in s'.t.calls && id !in s'.t.pending {
        AnsweredStaysAnswered(s', rest, id);
      }
      assert steps == [steps[0]] + rest;
    }
  }

  /** No receipt, no `delivered`: over every run a pending ask is so marked exactly if one was reported. */
  lemma DeliveredMeansAReceipt(steps: seq<Step>, id: MessageId)
    requires IsRun(IDLE, steps) && id in After(IDLE, steps).t.pending
    ensures After(IDLE, steps).t.pending[id].delivered <==> DeliveryDone(id, true) in steps
  {
    IdleIsGood();
    MarksFollowReceipts(IDLE, steps, id);
  }

  /** The step that answers: a watcher that found a stored reply, or an `answer`. */
  predicate Answers(s: System, step: Step, id: MessageId) {
    || (step.Tick? && step.id == id && !step.expired && id in s.stored)
    || (step.Answer? && step.id == id)
  }

  /**
   Whichever route comes first answers a pending ask with one reply; the other, coming second,
   leaves the log and the pending asks as they were.
   */
  lemma FirstRouteWins(s: System, step: Step, id: MessageId)
    requires SystemInv(s) && Enabled(s, step) && Answers(s, step, id)
    ensures var t, t' := s.t, Apply(s, step).t;
            && id !in t'.pending
            && (id in t.pending ==>
                  |t'.log| == |t.log| + 1 && RepliesTo(t'.log, id) == [t'.log[|t.log|]]
                  && t'.log[|t.log|].id == step.replyId
                  && t'.log[|t.log|].to == t.pending[id].message.from
                  && t'.log[|t.log|].from == t.pending[id].message.to
                  && t'.log[|t.log|].body == (if step.Tick? then s.stored[id] else step.body)
                  && t'.pending == t.pending - {id})
            && (id !in t.pending ==> t' == t)
  {
    if id in s.t.pending {
      var body := if step.Tick? then s.stored[id] else step.body;
      var input := CorrelatedReply(s.t.pending[id].message, body);
      PendingIsTargeted(s.t, id, body);
      assert AskInv(s.t, id);
      LogGrows(s.t, Compose(input, step.replyId, step.now), id);
    }
  }

  /** A late tick gives up without a word, an early one waits, and one that finds a reply stops watching. */
  lemma TickEndsTheWatchExactlyWhen(s: System, id: MessageId, expired: bool, replyId: MessageId, now: int)
    requires Enabled(s, Tick(id, expired, replyId, now))
    ensures var s' := Apply(s, Tick(id, expired, replyId, now));
            && (id !in s'.watched <==> expired || id in s.stored)
            && (forall x :: x != id ==> (x in s'.watched <==> x in s.watched))
            && (expired || id !in s.stored ==> s'.t == s.t)
            && s'.stored == s.stored
  {
  }

  // ----------------------------------------------------------------------------- the two routes

  /**
   The watcher of the bridge. `watched` holds the asks its closures captured, and `timers` the ticks
   scheduled; each ask watched has exactly one.
   */
  class PeerDelivery {
    const transport: InteractionTransport
    var watched: map<MessageId, Message>
    var timers: multiset<MessageId>

    ghost predicate Valid()
      reads this, transport
    {
      && SystemInv(View(map[]))
      && (forall id :: id in watched ==>
            watched[id] in transport.log && watched[id].id == id && ExpectsAnswer(watched[id]))
      && (forall id :: timers[id] == if id in watched then 1 else 0)
    }

    function View(stored: map<MessageId, string>): System
      reads this, transport
    {
      System(transport.State(), watched.Keys, stored)
    }

    constructor (transport: InteractionTransport)
      requires Inv(transport.State())
      ensures this.transport == transport && watched == map[] && Valid()
    {
      this.transport, watched, timers := transport, map[], multiset{};
    }

    /** A message being delivered: an ask gets its one watcher, anything else none. */
    method WatchForReply(message: Message)
      requires Valid() && message in transport.log
      requires message.id in transport.calls && transport.calls[message.id].Delivering?
      modifies this
      ensures Valid()
      ensures ExpectsAnswer(message) ==>
                Enabled(old(View(map[])), Watch(message.id)) && View(map[]) == Apply(old(View(map[])), Watch(message.id))
      ensures !ExpectsAnswer(message) ==> watched == old(watched)
    {
      if !ExpectsAnswer(message) { return; }
      assert IsAskIn(transport.log, message.id);
      if message.id in watched {
        assert watched.Keys + {message.id} == watched.Keys;
        return;
      }
      watched := watched[message.id := message];
      timers := timers + multiset{message.id};
      assert watched.Keys == old(watched.Keys) + {message.id};
    }

    method Unwatch(id: MessageId)
      requires Valid() && id in watched
      modifies this
      ensures Valid() && watched == old(watched) - {id}
      ensures View(map[]).watched == old(View(map[]).watched) - {id}
    {
      watched := watched - {id};
      timers := timers - multiset{id};
    }

    /** A refused correlation is swallowed: another route has answered. */
    method RouteReply(ask: Message, body: string, replyId: MessageId, now: int)
      requires Valid() && ask in transport.log && Fresh(transport.State(), replyId)
      modifies transport
      ensures Valid()
      ensures transport.State() == Route(old(transport.State()), ask.id, body, replyId, now)
    {
      hide Inv, Target, ReplyTo;
      ghost var before := transport.State();
      var accepted := transport.BeginReply(CorrelatedReply(ask, body), replyId, now);
      RouteOfWatched(before, ask, body, replyId, now);
      RouteKeepsInv(before, ask.id, body, replyId, now);
      assert forall m :: m in before.log ==> m in transport.log;
    }

    /** One tick: it gives up, polls again, or routes what it found to the transport. */
    method Tick(id: MessageId, expired: bool, stored: map<MessageId, string>, replyId: MessageId, now: int)
      requires Valid() && id in watched && Fresh(transport.State(), replyId)
      modifies this, transport
      ensures Valid()
      ensures Enabled(old(View(stored)), Step.Tick(id, expired, replyId, now))
      ensures View(stored) == Apply(old(View(stored)), Step.Tick(id, expired, replyId, now))
    {
      hide Inv, Route;
      var ask := watched[id];
      if !expired && id !in stored { return; }
      Unwatch(id);
      if expired { return; }
      RouteReply(ask, stored[id], replyId, now);
    }
  }

  lemma WatchedIsPendingsOwn(t: Transport, ask: Message)
    requires Inv(t) && ask in t.log
    ensures ask.id in t.pending ==> t.pending[ask.id].message == ask
  {
    assert AskInv(t, ask.id);
    if ask.id in t.pending {
      SameIdSameMessage(t, ask, t.pending[ask.id].message);
    }
  }

  /** The captured ask routes as the pending one would: the transport alone decides which is first. */
  lemma RouteOfWatched(t: Transport, ask: Message, body: string, replyId: MessageId, now: int)
    requires Inv(t) && ask in t.log
    ensures Sent(t, CorrelatedReply(ask, body), replyId, now) == Route(t, ask.id, body, replyId, now)
  {
    WatchedIsPendingsOwn(t, ask);
  }

  /** The host's `answer`: it looks the ask up among the pending ones; no ask, no answer. */
  method AnswerAsk(transport: InteractionTransport, id: MessageId, body: string, replyId: MessageId, now: int)
      returns (answered: bool)
    requires Inv(transport.State()) && Fresh(transport.State(), replyId)
    modifies transport
    ensures transport.State() == Route(old(transport.State()), id, body, replyId, now)
    ensures answered <==> id in old(transport.pending)
    ensures answered ==> |RepliesTo(transport.log, id)| == 1 && transport.log[|transport.log| - 1] in RepliesTo(transport.log, id)
    ensures Inv(transport.State())
  {
    if id !in transport.pending { return false; }
    ghost var before := transport.State();
    var ask := transport.pending[id].message;
    PendingIsTargeted(before, id, body);
    answered := transport.BeginReply(CorrelatedReply(ask, body), replyId, now);
    RouteKeepsInv(before, id, body, replyId, now);
    AnswerCitesOnce(before, id, body, replyId, now);
  }

  lemma AnswerCitesOnce(t: Transport, id: MessageId, body: string, replyId: MessageId, now: int)
    requires Inv(t) && Fresh(t, replyId) && id in t.pending
    ensures var log := Route(t, id, body, replyId, now).log;
            log != [] && RepliesTo(log, id) == [log[|log| - 1]]
  {
    assert AskInv(t, id);
    PendingIsTargeted(t, id, body);
    LogGrows(t, Compose(CorrelatedReply(t.pending[id].message, body), replyId, now), id);
  }
}
