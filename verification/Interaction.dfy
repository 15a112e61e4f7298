/**
 The direct participant transport: asks, replies correlated by id, and the waiters they resolve.

 Every operation below is the code between two `await`s, so it runs without interruption. A
 `deliver` hook that replies while the send is still in flight is a `Reply` between `Begin` and
 `FinishDelivery`. The promise of `request` is the pair of fields `calls` and `resolved`: where
 each call stands, and the values its resolver was given.
 */
module Interaction {
  import opened Prelude
  import opened Sequences
  import opened StableSort

  type MessageId = string
  type ParticipantId = string

  datatype Kind = Question | Escalation | Finding | Completion | Reply | Instruction

  datatype Message = Message(
    id: MessageId,
    kind: Kind,
    from: ParticipantId,
    to: ParticipantId,
    activationId: string,
    attemptId: string,
    piSessionId: Option<string>,
    body: string,
    inReplyTo: Option<MessageId>,
    createdAt: int)

  datatype SendInput = SendInput(
    kind: Kind,
    from: ParticipantId,
    to: ParticipantId,
    activationId: string,
    attemptId: string,
    piSessionId: Option<string>,
    body: string,
    inReplyTo: Option<MessageId>)

  datatype Ask = Ask(message: Message, delivered: bool, askedAt: int)

  /** Where a call of `send` or `request` stands; `wants` marks a `request`. */
  datatype Call =
    | Delivering(wants: bool)
    | Delivered(wants: bool)
    | Blocked
    | Returned(reply: Message)
    | Finished

  datatype Transport = Transport(
    pending: map<MessageId, Ask>,
    waiters: set<MessageId>,
    answered: map<MessageId, Message>,
    log: seq<Message>,
    calls: map<MessageId, Call>,
    resolved: map<MessageId, Message>)

  const EMPTY := Transport(map[], {}, map[], [], map[], map[])

  predicate ExpectsAnswer(m: Message) {
    m.kind == Question || m.kind == Escalation
  }

  /** An empty string is dropped, as the source's truthiness test drops it. */
  function Present(s: Option<string>): Option<string> {
    if s == Some("") then None else s
  }

  function Compose(input: SendInput, id: MessageId, now: int): Message {
    Message(id, input.kind, input.from, input.to, input.activationId, input.attemptId,
            Present(input.piSessionId), input.body, Present(input.inReplyTo), now)
  }

  /** A message says what was put in, under the id and time it was given; empty optionals are absent. */
  ghost predicate Carries(m: Message, input: SendInput, id: MessageId, now: int) {
    && m.id == id && m.createdAt == now
    && m.kind == input.kind && m.from == input.from && m.to == input.to && m.body == input.body
    && m.activationId == input.activationId && m.attemptId == input.attemptId
    && (forall x :: m.piSessionId == Some(x) <==> input.piSessionId == Some(x) && x != "")
    && (forall x :: m.inReplyTo == Some(x) <==> input.inReplyTo == Some(x) && x != "")
  }

  lemma ComposeCarries(input: SendInput, id: MessageId, now: int)
    ensures Carries(Compose(input, id, now), input, id, now)
  {
  }

  // ------------------------------------------------------------------- operations on values

  predicate Fresh(t: Transport, id: MessageId) {
    id != "" && id !in t.calls
  }

  /** `request` registers its waiter first; `send` composes, logs, and registers an ask. */
  function Begin(t: Transport, input: SendInput, id: MessageId, now: int, wants: bool): Transport {
    var message := Compose(input, id, now);
    t.(log := t.log + [message],
       pending := if ExpectsAnswer(message) then t.pending[id := Ask(message, false, now)] else t.pending,
       waiters := if wants then t.waiters + {id} else t.waiters,
       calls := t.calls[id := Delivering(wants)])
  }

  function FinishDelivery(t: Transport, id: MessageId, receipt: bool): Transport
    requires id in t.calls && t.calls[id].Delivering?
  {
    t.(pending := if id in t.pending then t.pending[id := t.pending[id].(delivered := receipt)] else t.pending,
       calls := t.calls[id := Delivered(t.calls[id].wants)])
  }

  /** What follows the awaited send: a `request` takes an early answer or blocks. */
  function Continue(t: Transport, id: MessageId): Transport
    requires id in t.calls && t.calls[id].Delivered?
  {
    if !t.calls[id].wants then t.(calls := t.calls[id := Finished])
    else if id in t.answered then
      t.(waiters := t.waiters - {id},
         answered := t.answered - {id},
         calls := t.calls[id := Returned(t.answered[id])])
    else t.(calls := t.calls[id := Blocked])
  }

  /** The target of a correlated reply; `None` is an `UncorrelatedReplyError`. */
  function Target(t: Transport, input: SendInput): Option<MessageId> {
    match Present(input.inReplyTo)
    case None => None
    case Some(target) => if target in t.pending then Some(target) else None
  }

  function ReplyTo(t: Transport, input: SendInput, id: MessageId, now: int): Transport
    requires Target(t, input).Some?
  {
    var target := Target(t, input).value;
    var message := Compose(input, id, now);
    t.(log := t.log + [message],
       pending := t.pending - {target},
       waiters := t.waiters - {target},
       resolved := if target in t.waiters then t.resolved[target := message] else t.resolved,
       answered := t.answered[target := message],
       calls := t.calls[id := Delivering(false)])
  }

  function Wake(t: Transport, id: MessageId): Transport
    requires id in t.calls && t.calls[id] == Blocked && id in t.resolved
  {
    t.(calls := t.calls[id := Returned(t.resolved[id])])
  }

  // -------------------------------------------------------------------------------- queries

  predicate Concerns(ask: Ask, participant: Option<ParticipantId>) {
    Present(participant).None? || ask.message.from == participant.value || ask.message.to == participant.value
  }

  function Waiting(t: Transport, participant: Option<ParticipantId>): Message -> bool {
    (m: Message) => m.id in t.pending && t.pending[m.id].message == m && Concerns(t.pending[m.id], participant)
  }

  function ByAge(): (Message, Message) -> int {
    (a: Message, b: Message) => a.createdAt - b.createdAt
  }

  /**
   The asks awaiting an answer, oldest first. A JavaScript `Map` iterates in insertion order and
   asks are inserted as they are logged, so the order before sorting is the log's.
   */
  function PendingAsks(t: Transport, participant: Option<ParticipantId>): seq<Message> {
    Sort(Filter(t.log, Waiting(t, participant)), ByAge())
  }

  predicate Attention(t: Transport, participant: ParticipantId) {
    exists id :: id in t.pending && t.pending[id].message.to == participant
  }

  datatype ImpliedState = NeedsReply | Escalated

  function Implied(t: Transport, activationId: string): Option<ImpliedState> {
    var asks := set id | id in t.pending && t.pending[id].message.activationId == activationId;
    if exists id :: id in asks && t.pending[id].message.kind == Escalation then Some(Escalated)
    else if asks != {} then Some(NeedsReply)
    else None
  }

  // ------------------------------------------------------------------------------ the class

  class InteractionTransport {
    var pending: map<MessageId, Ask>
    var waiters: set<MessageId>
    var answered: map<MessageId, Message>
    var log: seq<Message>
    var calls: map<MessageId, Call>
    var resolved: map<MessageId, Message>

    function State(): Transport
      reads this
    {
      Transport(pending, waiters, answered, log, calls, resolved)
    }

    constructor ()
      ensures State() == EMPTY
    {
      pending, waiters, answered, log, calls, resolved := map[], {}, map[], [], map[], map[];
    }

    method BeginSend(input: SendInput, id: MessageId, now: int)
      requires input.kind != Reply && Fresh(State(), id)
      modifies this
      ensures State() == Begin(old(State()), input, id, now, false)
      ensures |log| == |old(log)| + 1 && Carries(log[|log| - 1], input, id, now)
      ensures pending == if input.kind in {Question, Escalation} then old(pending)[id := Ask(log[|log| - 1], false, now)]
                         else old(pending)
    {
      Register(input, id, now, false);
    }

    method BeginRequest(input: SendInput, id: MessageId, now: int)
      requires input.kind in {Question, Escalation} && Fresh(State(), id)
      modifies this
      ensures State() == Begin(old(State()), input, id, now, true)
      ensures |log| == |old(log)| + 1 && Carries(log[|log| - 1], input, id, now)
      ensures pending == old(pending)[id := Ask(log[|log| - 1], false, now)] && waiters == old(waiters) + {id}
    {
      waiters := waiters + {id};
      Register(input, id, now, true);
    }

    method Register(input: SendInput, id: MessageId, now: int, wants: bool)
      requires wants ==> id in waiters
      modifies this
      ensures State() == Begin(old(State()), input, id, now, wants)
      ensures |log| == |old(log)| + 1 && Carries(log[|log| - 1], input, id, now)
      ensures pending == if input.kind in {Question, Escalation} then old(pending)[id := Ask(log[|log| - 1], false, now)]
                         else old(pending)
    {
      ComposeCarries(input, id, now);
      var message := Compose(input, id, now);
      log := log + [message];
      if ExpectsAnswer(message) {
        pending := pending[id := Ask(message, false, now)];
      }
      assert wants ==> waiters + {id} == waiters;
      calls := calls[id := Delivering(wants)];
    }

    method DeliveryFinished(id: MessageId, receipt: bool)
      requires id in calls && calls[id].Delivering?
      modifies this
      ensures State() == FinishDelivery(old(State()), id, receipt)
    {
      if id in pending {
        pending := pending[id := pending[id].(delivered := receipt)];
      }
      calls := calls[id := Delivered(calls[id].wants)];
    }

    method SendReturned(id: MessageId)
      requires id in calls && calls[id].Delivered?
      modifies this
      ensures State() == Continue(old(State()), id)
    {
      if !calls[id].wants {
        calls := calls[id := Finished];
        return;
      }
      if id in answered {
        var early := answered[id];
        waiters := waiters - {id};
        answered := answered - {id};
        calls := calls[id := Returned(early)];
        return;
      }
      calls := calls[id := Blocked];
    }

    /** `send` with kind `reply`; false is an `UncorrelatedReplyError`, which changes nothing. */
    method BeginReply(input: SendInput, id: MessageId, now: int) returns (accepted: bool)
      requires input.kind == Reply && Fresh(State(), id)
      modifies this
      ensures accepted <==> Target(old(State()), input).Some?
      ensures State() == if accepted then ReplyTo(old(State()), input, id, now) else old(State())
      ensures accepted <==> input.inReplyTo.Some? && input.inReplyTo.value != "" && input.inReplyTo.value in old(pending)
      ensures accepted ==>
                && |log| == |old(log)| + 1 && Carries(log[|log| - 1], input, id, now)
                && pending == old(pending) - {input.inReplyTo.value}
                && waiters == old(waiters) - {input.inReplyTo.value}
                && (input.inReplyTo.value in old(waiters) ==> resolved == old(resolved)[input.inReplyTo.value := log[|log| - 1]])
                && answered == old(answered)[input.inReplyTo.value := log[|log| - 1]]
    {
      ComposeCarries(input, id, now);
      var cited := Present(input.inReplyTo);
      if cited.None? || cited.value !in pending { return false; }
      var target := cited.value;
      var message := Compose(input, id, now);
      log := log + [message];
      pending := pending - {target};
      if target in waiters {
        waiters := waiters - {target};
        resolved := resolved[target := message];
      }
      assert waiters == old(waiters) - {target};
      answered := answered[target := message];
      calls := calls[id := Delivering(false)];
      return true;
    }

    method WaitResolved(id: MessageId)
      requires id in calls && calls[id] == Blocked && id in resolved
      modifies this
      ensures State() == Wake(old(State()), id)
    {
      calls := calls[id := Returned(resolved[id])];
    }
  }

  // ------------------------------------------------------------------------------ invariant

  predicate IsAskIn(log: seq<Message>, id: MessageId) {
    exists m :: m in log && m.id == id && ExpectsAnswer(m)
  }

  function Cites(id: MessageId): Message -> bool {
    (m: Message) => m.kind == Reply && m.inReplyTo == Some(id)
  }

  /** The replies in a log that cite `id`. */
  function RepliesTo(log: seq<Message>, id: MessageId): seq<Message> {
    Filter(log, Cites(id))
  }

  ghost predicate LogInv(t: Transport) {
    && (forall m :: m in t.log ==> m.id in t.calls && m.id != "")
    && (forall i, j :: 0 <= i < j < |t.log| ==> t.log[i].id != t.log[j].id)
    && (forall m :: m in t.log && m.kind == Reply && m.inReplyTo.Some? ==> m.inReplyTo.value in t.calls)
  }

  /** One ask, seen from the log: pending while no reply cites it, cited at most once. */
  ghost predicate AskInv(t: Transport, id: MessageId) {
    && (id in t.pending <==> IsAskIn(t.log, id) && RepliesTo(t.log, id) == [])
    && (id in t.pending ==>
          && t.pending[id].message in t.log && t.pending[id].message.id == id
          && ExpectsAnswer(t.pending[id].message) && t.pending[id].askedAt == t.pending[id].message.createdAt)
    && |RepliesTo(t.log, id)| <= 1
    && (RepliesTo(t.log, id) != [] ==> IsAskIn(t.log, id))
  }

  /** One `request`, seen from the log: who waits for it and where its answer is kept. */
  ghost predicate CallInv(t: Transport, id: MessageId) {
    var wanted := id in t.calls && match t.calls[id]
                                   case Delivering(wants) => wants
                                   case Delivered(wants) => wants
                                   case Blocked => true
                                   case _ => false;
    && (id in t.waiters <==> wanted && RepliesTo(t.log, id) == [])
    && (wanted ==> IsAskIn(t.log, id))
    && (wanted && RepliesTo(t.log, id) != [] ==>
          id in t.resolved && (t.calls[id] != Blocked ==> id in t.answered))
    && (id in t.resolved ==> RepliesTo(t.log, id) == [t.resolved[id]])
    && (id in t.answered ==> RepliesTo(t.log, id) == [t.answered[id]])
    && (id in t.calls && t.calls[id].Returned? ==> RepliesTo(t.log, id) == [t.calls[id].reply])
  }

  ghost predicate Inv(t: Transport) {
    && LogInv(t)
    && forall id :: AskInv(t, id) && CallInv(t, id)
  }

  /** What a new message adds to the replies of one ask, and to the asks. */
  lemma LogGrows(t: Transport, m: Message, id: MessageId)
    ensures RepliesTo(t.log + [m], id) == RepliesTo(t.log, id) + (if Cites(id)(m) then [m] else [])
    ensures IsAskIn(t.log + [m], id) <==> IsAskIn(t.log, id) || (m.id == id && ExpectsAnswer(m))
  {
    assert (t.log + [m])[..|t.log|] == t.log;
    assert forall x :: x in t.log + [m] <==> x in t.log || x == m;
  }

  /** Nothing in the log speaks of an id never used. */
  lemma FreshIsUnknown(t: Transport, id: MessageId)
    requires Inv(t) && Fresh(t, id)
    ensures RepliesTo(t.log, id) == [] && !IsAskIn(t.log, id)
    ensures id !in t.pending && id !in t.waiters && id !in t.answered && id !in t.resolved
  {
    assert AskInv(t, id) && CallInv(t, id);
    assert forall m :: m in t.log ==> !Cites(id)(m);
    FilterNone(t.log, Cites(id));
  }

  lemma BeginKeepsInv(t: Transport, input: SendInput, id: MessageId, now: int, wants: bool)
    requires Inv(t) && Fresh(t, id) && input.kind != Reply
    requires wants ==> input.kind in {Question, Escalation}
    ensures Inv(Begin(t, input, id, now, wants))
  {
    var t' := Begin(t, input, id, now, wants);
    var m := Compose(input, id, now);
    FreshIsUnknown(t, id);
    forall x
      ensures AskInv(t', x) && CallInv(t', x)
    {
      assert AskInv(t, x) && CallInv(t, x);
      LogGrows(t, m, x);
    }
  }

  lemma DeliveryKeepsInv(t: Transport, id: MessageId, receipt: bool)
    requires Inv(t) && id in t.calls && t.calls[id].Delivering?
    ensures Inv(FinishDelivery(t, id, receipt))
  {
    var t' := FinishDelivery(t, id, receipt);
    forall x
      ensures AskInv(t', x) && CallInv(t', x)
    {
      assert AskInv(t, x) && CallInv(t, x);
    }
  }

  lemma ContinueKeepsInv(t: Transport, id: MessageId)
    requires Inv(t) && id in t.calls && t.calls[id].Delivered?
    ensures Inv(Continue(t, id))
  {
    var t' := Continue(t, id);
    assert CallInv(t, id);
    forall x
      ensures AskInv(t', x)
    {
      assert AskInv(t, x);
    }
    forall x
      ensures CallInv(t', x)
    {
      assert CallInv(t, x);
    }
  }

  lemma ReplyKeepsAsks(t: Transport, input: SendInput, id: MessageId, now: int, x: MessageId)
    requires Inv(t) && Fresh(t, id) && input.kind == Reply && Target(t, input).Some?
    ensures AskInv(ReplyTo(t, input, id, now), x)
  {
    assert AskInv(t, x);
    LogGrows(t, Compose(input, id, now), x);
  }

  lemma ReplyKeepsCalls(t: Transport, input: SendInput, id: MessageId, now: int, x: MessageId)
    requires Inv(t) && Fresh(t, id) && input.kind == Reply && Target(t, input).Some?
    ensures CallInv(ReplyTo(t, input, id, now), x)
  {
    FreshIsUnknown(t, id);
    assert AskInv(t, x) && CallInv(t, x);
    LogGrows(t, Compose(input, id, now), x);
  }

  lemma ReplyKeepsInv(t: Transport, input: SendInput, id: MessageId, now: int)
    requires Inv(t) && Fresh(t, id) && input.kind == Reply && Target(t, input).Some?
    ensures Inv(ReplyTo(t, input, id, now))
  {
    FreshIsUnknown(t, id);
    assert AskInv(t, Target(t, input).value);
    forall x
      ensures AskInv(ReplyTo(t, input, id, now), x) && CallInv(ReplyTo(t, input, id, now), x)
    {
      ReplyKeepsAsks(t, input, id, now, x);
      ReplyKeepsCalls(t, input, id, now, x);
    }
  }

  lemma WakeKeepsInv(t: Transport, id: MessageId)
    requires Inv(t) && id in t.calls && t.calls[id] == Blocked && id in t.resolved
    ensures Inv(Wake(t, id))
  {
    var t' := Wake(t, id);
    forall x
      ensures AskInv(t', x) && CallInv(t', x)
    {
      assert AskInv(t, x) && CallInv(t, x);
    }
  }

  // ------------------------------------------------------------------------------- theorems

  /**
   No lost wakeup: while no reply cites it, a blocked request is pending; once one does, the
   request's own remaining code, whatever its delivery reported, returns exactly that reply.
   */
  lemma NoLostWakeup(t: Transport, id: MessageId, receipt: bool)
    requires Inv(t) && id in t.calls
    ensures t.calls[id] == Blocked && RepliesTo(t.log, id) == [] ==> id in t.pending && id in t.waiters
    ensures RepliesTo(t.log, id) != [] ==>
              match t.calls[id]
              case Blocked => id in t.resolved && Wake(t, id).calls[id] == Returned(RepliesTo(t.log, id)[0])
              case Delivered(true) => Continue(t, id).calls[id] == Returned(RepliesTo(t.log, id)[0])
              case Delivering(true) =>
                Continue(FinishDelivery(t, id, receipt), id).calls[id] == Returned(RepliesTo(t.log, id)[0])
              case _ => true
  {
    assert AskInv(t, id) && CallInv(t, id);
  }

  /** No crossed replies: what a request returned is the one reply in the log that cites it. */
  lemma NoCrossedReplies(t: Transport, id: MessageId)
    requires Inv(t) && id in t.calls && t.calls[id].Returned?
    ensures t.calls[id].reply.kind == Reply && t.calls[id].reply.inReplyTo == Some(id)
    ensures forall m :: m in t.log && m.kind == Reply && m.inReplyTo == Some(id) ==> m == t.calls[id].reply
  {
    assert CallInv(t, id);
    var reply := t.calls[id].reply;
    FilterFinds(t.log, Cites(id), reply);
    forall m | m in t.log && m.kind == Reply && m.inReplyTo == Some(id)
      ensures m == reply
    {
      FilterFinds(t.log, Cites(id), m);
    }
  }

  lemma SameIdSameMessage(t: Transport, a: Message, b: Message)
    requires LogInv(t) && a in t.log && b in t.log && a.id == b.id
    ensures a == b
  {
    var i :| 0 <= i < |t.log| && t.log[i] == a;
    var j :| 0 <= j < |t.log| && t.log[j] == b;
    assert !(i < j) && !(j < i);
  }

  /** An ask of the log that no reply cites. */
  predicate Unanswered(t: Transport, m: Message) {
    m in t.log && ExpectsAnswer(m) && RepliesTo(t.log, m.id) == []
  }

  /** The pending map holds exactly the unanswered asks, under their own ids. */
  lemma PendingIsUnanswered(t: Transport)
    requires Inv(t)
    ensures forall m :: Unanswered(t, m) ==> m.id in t.pending && t.pending[m.id].message == m
    ensures forall id :: id in t.pending ==> Unanswered(t, t.pending[id].message) && t.pending[id].message.id == id
  {
    forall m | Unanswered(t, m)
      ensures m.id in t.pending && t.pending[m.id].message == m
    {
      assert AskInv(t, m.id);
      SameIdSameMessage(t, m, t.pending[m.id].message);
    }
    forall id | id in t.pending
      ensures Unanswered(t, t.pending[id].message) && t.pending[id].message.id == id
    {
      assert AskInv(t, id);
    }
  }

  /** The list an operator reads: every unanswered ask that concerns the participant, oldest first. */
  lemma PendingAsksAreTheUnanswered(t: Transport, participant: Option<ParticipantId>, m: Message)
    requires Inv(t)
    ensures m in PendingAsks(t, participant) <==>
              && Unanswered(t, m)
              && (Present(participant).None? || m.from == participant.value || m.to == participant.value)
    ensures forall i, j :: 0 <= i < j < |PendingAsks(t, participant)| ==>
              PendingAsks(t, participant)[i].createdAt <= PendingAsks(t, participant)[j].createdAt
  {
    var asks := Filter(t.log, Waiting(t, participant));
    assert forall a, b :: ByAge()(a, b) == a.createdAt - b.createdAt;
    SortSorts(asks, ByAge());
    SortPermutes(asks, ByAge());
    assert m in PendingAsks(t, participant) <==> m in multiset(PendingAsks(t, participant));
    assert m in multiset(asks) <==> m in asks;
    FilterFinds(t.log, Waiting(t, participant), m);
    PendingIsUnanswered(t);
    assert SortedBy(PendingAsks(t, participant), ByAge());
  }

  /** Each is listed once, and those of one age in the order in which they were asked. */
  lemma PendingAsksKeepTheOrderOfAsking(t: Transport, participant: Option<ParticipantId>, age: int)
    ensures var ofAge := (m: Message) => m.createdAt == age;
            Filter(PendingAsks(t, participant), ofAge) == Filter(Filter(t.log, Waiting(t, participant)), ofAge)
    ensures multiset(PendingAsks(t, participant)) == multiset(Filter(t.log, Waiting(t, participant)))
  {
    var asks := Filter(t.log, Waiting(t, participant));
    SortPermutes(asks, ByAge());
    SortIsStable(asks, ByAge(), (m: Message) => m.createdAt == age);
  }

  /** Attention says nothing the log does not: it cannot drift from the asks. */
  lemma AttentionFollowsTheLog(t: Transport, participant: ParticipantId)
    requires Inv(t)
    ensures Attention(t, participant) <==> exists m :: Unanswered(t, m) && m.to == participant
  {
    PendingIsUnanswered(t);
  }

  /** Nor does the state implied for an activation: escalated if any escalation is unanswered. */
  lemma ImpliedStateFollowsTheLog(t: Transport, a: string)
    requires Inv(t)
    ensures Implied(t, a) == Some(Escalated) <==>
            exists m :: Unanswered(t, m) && m.kind == Escalation && m.activationId == a
    ensures Implied(t, a) == None <==> !exists m :: Unanswered(t, m) && m.activationId == a
  {
    PendingIsUnanswered(t);
    var asks := set id | id in t.pending && t.pending[id].message.activationId == a;
    assert asks != {} <==> exists id :: id in asks;
    assert forall id :: id in asks ==> Unanswered(t, t.pending[id].message);
    assert forall m :: Unanswered(t, m) && m.activationId == a ==> m.id in asks;
  }
}
