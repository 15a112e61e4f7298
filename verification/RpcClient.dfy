/** Request correlation above the line reader: ids, timers and who gets which line. */
module RpcClient {
  import opened Prelude
  import opened Decimal

  type RequestId = string

  /** A parsed line. `Garbage` is a line that is not JSON and is ignored. */
  datatype Line = Response(id: RequestId, payload: string) | OtherJson(payload: string) | Garbage

  datatype Settlement = Resolved(id: RequestId, response: Line) | TimedOut(id: RequestId)

  /**
   `timers` are the requests whose timeout is still set. `settled` and `events` are what callers
   and listeners have been given; `stops` counts the `stop` calls awaiting the process's exit.
   */
  datatype Client = Client(
    started: bool,
    reading: bool,
    stops: nat,
    requestId: nat,
    pending: set<RequestId>,
    timers: set<RequestId>,
    settled: seq<Settlement>,
    events: seq<Line>)

  const NEW := Client(false, false, 0, 0, {}, {}, [], [])

  datatype Step =
    | Start
    | Send
    | Handle(line: Line)
    | Timeout(id: RequestId)
    | StopBegins
    | StopEnds

  function IdOf(n: nat): RequestId {
    "req_" + Print(n)
  }

  predicate Enabled(c: Client, s: Step) {
    match s
    case Start => true
    case Send => true
    case Handle(_) => c.reading
    case Timeout(id) => id in c.timers
    case StopBegins => true
    case StopEnds => c.stops > 0
  }

  function HandleLine(c: Client, line: Line): Client {
    match line
    case Garbage => c
    case OtherJson(_) => c.(events := c.events + [line])
    case Response(id, _) =>
      if id in c.pending then
        c.(pending := c.pending - {id}, timers := c.timers - {id}, settled := c.settled + [Resolved(id, line)])
      else c.(events := c.events + [line])
  }

  /** A second `start`, and a `send` before the first, throw and change nothing. */
  function Apply(c: Client, s: Step): Client
    requires Enabled(c, s)
  {
    match s
    case Start => if c.started then c else c.(started := true, reading := true)
    case Send =>
      if !c.started then c
      else
        var id := IdOf(c.requestId + 1);
        c.(requestId := c.requestId + 1, pending := c.pending + {id}, timers := c.timers + {id})
    case Handle(line) => HandleLine(c, line)
    case Timeout(id) =>
      c.(pending := c.pending - {id}, timers := c.timers - {id}, settled := c.settled + [TimedOut(id)])
    case StopBegins => if !c.started then c else c.(reading := false, stops := c.stops + 1)
    case StopEnds => c.(started := false, pending := {}, stops := c.stops - 1)
  }

  ghost predicate IsRun(c: Client, steps: seq<Step>)
    decreases steps
  {
    steps == [] || (Enabled(c, steps[0]) && IsRun(Apply(c, steps[0]), steps[1..]))
  }

  ghost function After(c: Client, steps: seq<Step>): Client
    requires IsRun(c, steps)
    decreases steps
  {
    if steps == [] then c else After(Apply(c, steps[0]), steps[1..])
  }

  class RpcClient {
    var started: bool
    var reading: bool
    var stops: nat
    var requestId: nat
    var pendingRequests: set<RequestId>
    var timers: set<RequestId>
    var settled: seq<Settlement>
    var events: seq<Line>

    function State(): Client
      reads this
    {
      Client(started, reading, stops, requestId, pendingRequests, timers, settled, events)
    }

    constructor ()
      ensures State() == NEW
    {
      started, reading, stops, requestId := false, false, 0, 0;
      pendingRequests, timers, settled, events := {}, {}, [], [];
    }

    method SendCommand() returns (id: Option<RequestId>)
      modifies this
      ensures State() == Apply(old(State()), Send)
      ensures id == if old(started) then Some(IdOf(old(requestId) + 1)) else None
      ensures id.Some? ==>
                && id.value == "req_" + Print(requestId) && requestId == old(requestId) + 1
                && pendingRequests == old(pendingRequests) + {id.value} && timers == old(timers) + {id.value}
      ensures id.None? ==> State() == old(State())
    {
      if !started { return None; }
      requestId := requestId + 1;
      var issued := IdOf(requestId);
      pendingRequests := pendingRequests + {issued};
      timers := timers + {issued};
      return Some(issued);
    }

    method HandleOneLine(line: Line)
      requires reading
      modifies this
      ensures State() == Apply(old(State()), Handle(line))
      ensures line.Response? && line.id in old(pendingRequests) ==>
                && settled == old(settled) + [Resolved(line.id, line)] && events == old(events)
                && pendingRequests == old(pendingRequests) - {line.id} && timers == old(timers) - {line.id}
      ensures !line.Garbage? && !(line.Response? && line.id in old(pendingRequests)) ==>
                && events == old(events) + [line] && settled == old(settled)
                && pendingRequests == old(pendingRequests) && timers == old(timers)
      ensures line.Garbage? ==> State() == old(State())
    {
      if line.Garbage? { return; }
      if line.Response? && line.id in pendingRequests {
        pendingRequests := pendingRequests - {line.id};
        timers := timers - {line.id};
        settled := settled + [Resolved(line.id, line)];
        return;
      }
      events := events + [line];
    }

    method TimeOut(id: RequestId)
      requires id in timers
      modifies this
      ensures State() == Apply(old(State()), Timeout(id))
      ensures settled == old(settled) + [TimedOut(id)] && events == old(events)
      ensures pendingRequests == old(pendingRequests) - {id} && timers == old(timers) - {id}
    {
      pendingRequests := pendingRequests - {id};
      timers := timers - {id};
      settled := settled + [TimedOut(id)];
    }

    method StartProcess()
      modifies this
      ensures State() == Apply(old(State()), Start)
      ensures started && (old(started) ==> State() == old(State())) && (!old(started) ==> reading)
      ensures requestId == old(requestId) && pendingRequests == old(pendingRequests) && timers == old(timers)
    {
      if started { return; }
      started, reading := true, true;
    }

    method BeginStop()
      modifies this
      ensures State() == Apply(old(State()), StopBegins)
      ensures old(started) ==> !reading && started && stops == old(stops) + 1
      ensures !old(started) ==> State() == old(State())
      ensures pendingRequests == old(pendingRequests) && timers == old(timers)
    {
      if !started { return; }
      reading := false;
      stops := stops + 1;
    }

    method EndStop()
      requires stops > 0
      modifies this
      ensures State() == Apply(old(State()), StopEnds)
      ensures !started && pendingRequests == {} && timers == old(timers)
      ensures settled == old(settled) && events == old(events) && requestId == old(requestId)
    {
      started := false;
      pendingRequests := {};
      stops := stops - 1;
    }
  }

  // ------------------------------------------------------------------------------ invariant

  predicate Issued(c: Client, id: RequestId) {
    exists n: nat :: 1 <= n <= c.requestId && IdOf(n) == id
  }

  predicate IsSettled(c: Client, id: RequestId) {
    exists s :: s in c.settled && s.id == id
  }

  ghost predicate Inv(c: Client) {
    && c.pending <= c.timers
    && (forall id :: Issued(c, id) <==> id in c.timers || IsSettled(c, id))
    && (forall id :: id in c.timers ==> !IsSettled(c, id))
    && (forall i, j :: 0 <= i < j < |c.settled| ==> c.settled[i].id != c.settled[j].id)
    && (forall s :: s in c.settled && s.Resolved? ==> s.response.Response? && s.response.id == s.id)
  }

  lemma IdsAreInjective(m: nat, n: nat)
    requires IdOf(m) == IdOf(n)
    ensures m == n
  {
    assert IdOf(m)[4..] == Print(m) && IdOf(n)[4..] == Print(n);
    PrintIsInjective(m, n);
  }

  /** The next id was never issued, so it is neither timed nor settled. */
  lemma NextIdIsNew(c: Client)
    requires Inv(c)
    ensures var id := IdOf(c.requestId + 1);
            !Issued(c, id) && id !in c.pending && id !in c.timers && !IsSettled(c, id)
  {
    var id := IdOf(c.requestId + 1);
    if Issued(c, id) {
      var n: nat :| 1 <= n <= c.requestId && IdOf(n) == id;
      IdsAreInjective(n, c.requestId + 1);
    }
  }

  lemma SettlingKeepsInv(c: Client, s: Settlement, c': Client)
    requires Inv(c) && s.id in c.timers
    requires s.Resolved? ==> s.response.Response? && s.response.id == s.id
    requires c' == c.(pending := c.pending - {s.id}, timers := c.timers - {s.id}, settled := c.settled + [s])
    ensures Inv(c')
  {
    forall id
      ensures IsSettled(c', id) <==> IsSettled(c, id) || id == s.id
    {
      assert forall x :: x in c'.settled <==> x in c.settled || x == s;
      assert s in c'.settled;
    }
    forall id
      ensures Issued(c', id) <==> Issued(c, id)
    {
    }
  }

  lemma SendKeepsInv(c: Client)
    requires Inv(c) && c.started
    ensures Inv(Apply(c, Send))
  {
    var c' := Apply(c, Send);
    NextIdIsNew(c);
    forall id
      ensures Issued(c', id) <==> Issued(c, id) || id == IdOf(c'.requestId)
    {
      if Issued(c', id) {
        var n: nat :| 1 <= n <= c'.requestId && IdOf(n) == id;
        assert n == c'.requestId || Issued(c, id);
      }
      if Issued(c, id) {
        var n: nat :| 1 <= n <= c.requestId && IdOf(n) == id;
        assert 1 <= n <= c'.requestId;
      }
    }
    assert forall id :: IsSettled(c', id) <==> IsSettled(c, id);
  }

  lemma StepKeepsInv(c: Client, s: Step)
    requires Inv(c) && Enabled(c, s)
    ensures Inv(Apply(c, s))
  {
    var c' := Apply(c, s);
    match s
    case Send => if c.started { SendKeepsInv(c); }
    case Handle(line) =>
      if line.Response? && line.id in c.pending {
        SettlingKeepsInv(c, Resolved(line.id, line), c');
      } else {
        assert forall id :: (Issued(c', id) <==> Issued(c, id)) && (IsSettled(c', id) <==> IsSettled(c, id));
      }
    case Timeout(id) => SettlingKeepsInv(c, TimedOut(id), c');
    case _ => assert forall id :: (Issued(c', id) <==> Issued(c, id)) && (IsSettled(c', id) <==> IsSettled(c, id));
  }

  lemma {:induction false} RunKeepsInv(c: Client, steps: seq<Step>)
    requires Inv(c) && IsRun(c, steps)
    ensures Inv(After(c, steps))
    decreases steps
  {
    if steps != [] {
      StepKeepsInv(c, steps[0]);
      RunKeepsInv(Apply(c, steps[0]), steps[1..]);
    }
  }

  lemma NewIsGood()
    ensures Inv(NEW)
  {
    assert forall id :: !Issued(NEW, id) && !IsSettled(NEW, id);
  }

  // ------------------------------------------------------------------------------- theorems

  /**
   Over every run, each request issued is settled at most once, and until then its timer is set:
   so none is lost, whatever stops and restarts. A resolution carries its request's own id.
   */
  lemma RequestsSettleAtMostOnce(steps: seq<Step>, id: RequestId)
    requires IsRun(NEW, steps) && Issued(After(NEW, steps), id)
    ensures var c := After(NEW, steps);
            && (id in c.timers <==> !IsSettled(c, id))
            && (forall i, j :: 0 <= i < j < |c.settled| ==> !(c.settled[i].id == id == c.settled[j].id))
            && (forall s :: s in c.settled && s.Resolved? ==> s.response.Response? && s.response.id == s.id)
  {
    NewIsGood();
    RunKeepsInv(NEW, steps);
  }

  /** A send issues an id no earlier request had. */
  lemma RequestIdsNeverRepeat(steps: seq<Step>)
    requires IsRun(NEW, steps) && After(NEW, steps).started
    ensures var c := After(NEW, steps);
            !Issued(c, IdOf(c.requestId + 1)) && Issued(Apply(c, Send), IdOf(c.requestId + 1))
  {
    NewIsGood();
    RunKeepsInv(NEW, steps);
    NextIdIsNew(After(NEW, steps));
  }

  /** A line, and where it goes: to the request it answers, if that is pending, and else to the listeners. */
  lemma AnswersSettle(c: Client, line: Line)
    requires Enabled(c, Handle(line))
    ensures var c' := Apply(c, Handle(line));
            && (line.Response? && line.id in c.pending ==>
                  c'.settled == c.settled + [Resolved(line.id, line)] && line.id !in c'.pending
                  && line.id !in c'.timers && c'.events == c.events)
            && (line.Response? && line.id !in c.pending ==> c'.events == c.events + [line] && c'.settled == c.settled)
            && (line.OtherJson? ==> c'.events == c.events + [line] && c'.settled == c.settled)
            && (line.Garbage? ==> c' == c)
  {
  }

  /** A settled request stays settled, and is settled by nothing more. */
  lemma {:induction false} SettledForGood(c: Client, steps: seq<Step>, s: Settlement)
    requires Inv(c) && IsRun(c, steps) && s in c.settled
    ensures Inv(After(c, steps)) && s in After(c, steps).settled
    ensures forall other :: other in After(c, steps).settled && other.id == s.id ==> other == s
    decreases steps
  {
    if steps == [] {
      OneSettlement(c, s);
    } else {
      hide Inv;
      StepKeepsInv(c, steps[0]);
      SettledForGood(Apply(c, steps[0]), steps[1..], s);
    }
  }

  lemma OneSettlement(c: Client, s: Settlement)
    requires Inv(c) && s in c.settled
    ensures forall other :: other in c.settled && other.id == s.id ==> other == s
  {
    var i :| 0 <= i < |c.settled| && c.settled[i] == s;
    forall other | other in c.settled && other.id == s.id
      ensures other == s
    {
      var j :| 0 <= j < |c.settled| && c.settled[j] == other;
      assert !(i < j) && !(j < i);
    }
  }

  /**
   A response that finds its request pending is what its caller gets, over every run before and after:
   the request is settled by that response, and by nothing else.
   */
  lemma PendingRequestsGetTheirResponse(pre: seq<Step>, id: RequestId, payload: string, post: seq<Step>)
    requires IsRun(NEW, pre) && id in After(NEW, pre).pending
    requires Enabled(After(NEW, pre), Handle(Response(id, payload)))
    requires IsRun(Apply(After(NEW, pre), Handle(Response(id, payload))), post)
    ensures var end := After(Apply(After(NEW, pre), Handle(Response(id, payload))), post);
            && Resolved(id, Response(id, payload)) in end.settled
            && (forall s :: s in end.settled && s.id == id ==> s == Resolved(id, Response(id, payload)))
            && id !in end.pending && id !in end.timers
    ensures IsRun(NEW, pre + [Handle(Response(id, payload))] + post)
    ensures After(NEW, pre + [Handle(Response(id, payload))] + post)
         == After(Apply(After(NEW, pre), Handle(Response(id, payload))), post)
  {
    var line := Response(id, payload);
    var c := After(NEW, pre);
    NewIsGood();
    RunKeepsInv(NEW, pre);
    StepKeepsInv(c, Handle(line));
    AnswersSettle(c, line);
    SettledForGood(Apply(c, Handle(line)), post, Resolved(id, line));
    SettledIsNotPending(After(Apply(c, Handle(line)), post), Resolved(id, line));
    AppendRun(NEW, pre, [Handle(line)]);
    AppendRun(NEW, pre + [Handle(line)], post);
  }

  lemma SettledIsNotPending(c: Client, s: Settlement)
    requires Inv(c) && s in c.settled
    ensures s.id !in c.pending && s.id !in c.timers
  {
  }

  lemma {:induction false} AppendRun(c: Client, first: seq<Step>, second: seq<Step>)
    requires IsRun(c, first) && IsRun(After(c, first), second)
    ensures IsRun(c, first + second) && After(c, first + second) == After(After(c, first), second)
    decreases first
  {
    hide Apply, Enabled;
    if first == [] {
      assert first + second == second;
    } else {
      AppendRun(Apply(c, first[0]), first[1..], second);
      assert (first + second)[1..] == first[1..] + second;
    }
  }

  function Resolutions(settled: seq<Settlement>): nat {
    if settled == [] then 0
    else Resolutions(settled[..|settled| - 1]) + (if settled[|settled| - 1].Resolved? then 1 else 0)
  }

  function JsonLines(steps: seq<Step>): nat {
    if steps == [] then 0
    else (if steps[0].Handle? && !steps[0].line.Garbage? then 1 else 0) + JsonLines(steps[1..])
  }

  /** No line goes both ways: JSON lines handled are requests resolved plus events delivered. */
  lemma {:induction false} EachLineGoesOneWay(c: Client, steps: seq<Step>)
    requires IsRun(c, steps)
    ensures var c' := After(c, steps);
            Resolutions(c'.settled) + |c'.events| == Resolutions(c.settled) + |c.events| + JsonLines(steps)
    ensures c.settled <= After(c, steps).settled && c.events <= After(c, steps).events
    decreases steps
  {
    hide Apply, Enabled, Resolutions;
    if steps != [] {
      LineGoesOneWay(c, steps[0]);
      EachLineGoesOneWay(Apply(c, steps[0]), steps[1..]);
    }
  }

  lemma LineGoesOneWay(c: Client, s: Step)
    requires Enabled(c, s)
    ensures var c' := Apply(c, s);
            Resolutions(c'.settled) + |c'.events|
              == Resolutions(c.settled) + |c.events| + (if s.Handle? && !s.line.Garbage? then 1 else 0)
    ensures c.settled <= Apply(c, s).settled && c.events <= Apply(c, s).events
  {
    var c' := Apply(c, s);
    assert |c'.settled| > |c.settled| ==> c'.settled[..|c'.settled| - 1] == c.settled;
  }

  /** Dropped by `stop`: issued, no longer pending, and settled, if at all, by its timer. */
  ghost predicate Abandoned(c: Client, id: RequestId) {
    && Issued(c, id) && id !in c.pending
    && forall s :: s in c.settled && s.id == id ==> s == TimedOut(id)
  }

  lemma StepKeepsAbandoned(c: Client, s: Step, id: RequestId)
    requires Inv(c) && Enabled(c, s) && Abandoned(c, id)
    ensures Abandoned(Apply(c, s), id)
    ensures id in Apply(c, s).timers <==> id in c.timers && s != Timeout(id)
  {
    var c' := Apply(c, s);
    NextIdIsNew(c);
    assert Issued(c', id) by {
      var n: nat :| 1 <= n <= c.requestId && IdOf(n) == id;
      assert 1 <= n <= c'.requestId;
    }
  }

  /**
   A request abandoned by `stop` is out of reach of responses for good: over every run after it, it
   is never pending again, its only settlement is its timeout, and that comes exactly with its timer.
   */
  lemma {:induction false} AbandonedRequestsOnlyTimeOut(c: Client, steps: seq<Step>, id: RequestId)
    requires Inv(c) && IsRun(c, steps) && Abandoned(c, id)
    ensures var c' := After(c, steps);
            && id !in c'.pending
            && (forall s :: s in c'.settled && s.id == id ==> s == TimedOut(id))
            && (id in c'.timers <==> id in c.timers && Timeout(id) !in steps)
    decreases steps
  {
    hide Apply, Enabled, Inv, Issued;
    if steps != [] {
      StepKeepsInv(c, steps[0]);
      StepKeepsAbandoned(c, steps[0], id);
      AbandonedRequestsOnlyTimeOut(Apply(c, steps[0]), steps[1..], id);
      assert steps == [steps[0]] + steps[1..];
    }
  }

  /** `stop` abandons every request still pending when the process has exited. */
  lemma StopAbandons(c: Client, id: RequestId)
    requires Inv(c) && Enabled(c, StopEnds) && id in c.pending
    ensures Abandoned(Apply(c, StopEnds), id) && id in Apply(c, StopEnds).timers
  {
    assert Issued(c, id) && !IsSettled(c, id);
    var n: nat :| 1 <= n <= c.requestId && IdOf(n) == id;
    assert 1 <= n <= Apply(c, StopEnds).requestId;
  }
}
