/** The merged feed: one queue per job in the job's own order, and a k-way merge of the queues. */
module FeedMerge {
  import opened Prelude
  import opened Sequences
  import opened StableSort
  import opened Chronology

  datatype MergedEvent = MergedEvent(jobId: string, t: int, seqNo: Option<int>, payload: string)

  type Order = (MergedEvent, MergedEvent) -> int

  function StampOf(e: MergedEvent): Stamp {
    Stamp(e.t, e.jobId, e.seqNo)
  }

  function CompareChronologically(locale: (string, string) -> int): Order {
    ByStamp(locale, StampOf)
  }

  function BySequence(): Order {
    (a: MergedEvent, b: MergedEvent) => SeqOr0(StampOf(a)) - SeqOr0(StampOf(b))
  }

  function ByTime(): Order {
    (a: MergedEvent, b: MergedEvent) =>
      if a.t != b.t then a.t - b.t else SeqOr0(StampOf(a)) - SeqOr0(StampOf(b))
  }

  function OfJob(job: string): MergedEvent -> bool {
    (e: MergedEvent) => e.jobId == job
  }

  /** A job's own order: its sequence numbers when every event has one, else time then sequence. */
  function JobOrder(events: seq<MergedEvent>): Order {
    if forall e :: e in events ==> e.seqNo.Some? then BySequence() else ByTime()
  }

  function Queue(jobEvents: seq<MergedEvent>): seq<MergedEvent> {
    Sort(jobEvents, JobOrder(jobEvents))
  }

  /** The jobs of a feed, each where it first appears. */
  function Jobs(events: seq<MergedEvent>): seq<string> {
    if events == [] then []
    else
      var before, job := Jobs(events[..|events| - 1]), events[|events| - 1].jobId;
      if job in before then before else before + [job]
  }

  function Queues(events: seq<MergedEvent>, jobs: seq<string>): seq<seq<MergedEvent>> {
    seq(|jobs|, i requires 0 <= i < |jobs| => Queue(Filter(events, OfJob(jobs[i]))))
  }

  // -------------------------------------------------------------------------------- the merge

  /** Among the first `n` queues, the first with a least head; `None` if all are empty. */
  function Best(queues: seq<seq<MergedEvent>>, n: nat, cmp: Order): Option<nat>
    requires n <= |queues|
    ensures Best(queues, n, cmp).Some? ==>
              Best(queues, n, cmp).value < n && queues[Best(queues, n, cmp).value] != []
    ensures Best(queues, n, cmp).None? ==> forall i :: 0 <= i < n ==> queues[i] == []
  {
    if n == 0 then None
    else
      var best := Best(queues, n - 1, cmp);
      if queues[n - 1] == [] then best
      else if best.None? || cmp(queues[n - 1][0], queues[best.value][0]) < 0 then Some(n - 1)
      else best
  }

  function Total(queues: seq<seq<MergedEvent>>): nat {
    if queues == [] then 0 else Total(queues[..|queues| - 1]) + |queues[|queues| - 1]|
  }

  function Advance(queues: seq<seq<MergedEvent>>, k: nat): seq<seq<MergedEvent>>
    requires k < |queues| && queues[k] != []
  {
    queues[k := queues[k][1..]]
  }

  lemma {:induction false} AdvanceTakesOne(queues: seq<seq<MergedEvent>>, k: nat)
    requires k < |queues| && queues[k] != []
    ensures Total(Advance(queues, k)) == Total(queues) - 1
  {
    var last := |queues| - 1;
    if k == last {
      assert Advance(queues, k)[..last] == queues[..last];
    } else {
      AdvanceTakesOne(queues[..last], k);
      assert Advance(queues, k)[..last] == Advance(queues[..last], k);
    }
  }

  lemma {:induction false} EmptyTotals(queues: seq<seq<MergedEvent>>)
    ensures Total(queues) == 0 <==> forall i :: 0 <= i < |queues| ==> queues[i] == []
  {
    if queues != [] {
      EmptyTotals(queues[..|queues| - 1]);
    }
  }

  ghost function Merge(queues: seq<seq<MergedEvent>>, cmp: Order): seq<MergedEvent>
    decreases Total(queues)
  {
    var best := Best(queues, |queues|, cmp);
    if best.None? then []
    else
      AdvanceTakesOne(queues, best.value);
      [queues[best.value][0]] + Merge(Advance(queues, best.value), cmp)
  }

  lemma {:induction false} MergeTakesAll(queues: seq<seq<MergedEvent>>, cmp: Order)
    ensures |Merge(queues, cmp)| == Total(queues)
    decreases Total(queues)
  {
    var best := Best(queues, |queues|, cmp);
    EmptyTotals(queues);
    if best.Some? {
      AdvanceTakesOne(queues, best.value);
      MergeTakesAll(Advance(queues, best.value), cmp);
    }
  }

  /** Queues as read so far: each from its index on. */
  function Rest(queues: seq<seq<MergedEvent>>, index: seq<nat>): seq<seq<MergedEvent>>
    requires |index| == |queues| && forall i :: 0 <= i < |queues| ==> index[i] <= |queues[i]|
  {
    seq(|queues|, i requires 0 <= i < |queues| => queues[i][index[i]..])
  }

  predicate InBounds(queues: seq<seq<MergedEvent>>, index: seq<nat>) {
    |index| == |queues| && forall i :: 0 <= i < |queues| ==> index[i] <= |queues[i]|
  }

  /** The inner loop: the queue whose next event is chronologically first. */
  method SelectNext(queues: seq<seq<MergedEvent>>, index: seq<nat>, cmp: Order) returns (next: Option<nat>)
    requires InBounds(queues, index)
    ensures next == Best(Rest(queues, index), |queues|, cmp)
  {
    next := None;
    ghost var rest := Rest(queues, index);
    for i := 0 to |queues|
      invariant next == Best(rest, i, cmp)
    {
      if index[i] == |queues[i]| { continue; }
      if next.None? || cmp(queues[i][index[i]], queues[next.value][index[next.value]]) < 0 {
        next := Some(i);
      }
    }
  }

  lemma AdvanceIndex(queues: seq<seq<MergedEvent>>, index: seq<nat>, k: nat)
    requires InBounds(queues, index) && k < |queues| && Rest(queues, index)[k] != []
    ensures InBounds(queues, index[k := index[k] + 1])
    ensures Rest(queues, index[k := index[k] + 1]) == Advance(Rest(queues, index), k)
    ensures Rest(queues, index)[k][0] == queues[k][index[k]]
  {
  }

  /** While events remain some queue is not exhausted, and taking its head is one step of the merge. */
  lemma MergeOneMore(queues: seq<seq<MergedEvent>>, index: seq<nat>, cmp: Order)
    requires InBounds(queues, index) && Total(Rest(queues, index)) > 0
    ensures Best(Rest(queues, index), |queues|, cmp).Some?
    ensures var k := Best(Rest(queues, index), |queues|, cmp).value;
            var index' := index[k := index[k] + 1];
            && index[k] < |queues[k]| && InBounds(queues, index')
            && Merge(Rest(queues, index), cmp) == [queues[k][index[k]]] + Merge(Rest(queues, index'), cmp)
            && Total(Rest(queues, index')) == Total(Rest(queues, index)) - 1
  {
    hide Advance;
    var rest := Rest(queues, index);
    EmptyTotals(rest);
    var k := Best(rest, |queues|, cmp).value;
    AdvanceTakesOne(rest, k);
    AdvanceIndex(queues, index, k);
  }

  /** `broke` tells whether the defensive `break` was reached. */
  method MergeQueues(queues: seq<seq<MergedEvent>>, count: nat, cmp: Order)
      returns (ordered: seq<MergedEvent>, broke: bool)
    requires count == Total(queues)
    ensures ordered == Merge(queues, cmp) && !broke
  {
    hide Rest, Best, Merge;
    ordered, broke := [], false;
    var index: seq<nat> := seq(|queues|, i => 0);
    RestFromZero(queues, index);
    while |ordered| < count
      invariant InBounds(queues, index)
      invariant ordered + Merge(Rest(queues, index), cmp) == Merge(queues, cmp)
      invariant |ordered| + Total(Rest(queues, index)) == count
      invariant !broke
    {
      MergeOneMore(queues, index, cmp);
      var next := SelectNext(queues, index, cmp);
      if next.None? { broke := true; break; }
      ordered := ordered + [queues[next.value][index[next.value]]];
      index := index[next.value := index[next.value] + 1];
    }
    MergeTakesAll(Rest(queues, index), cmp);
  }

  lemma RestFromZero(queues: seq<seq<MergedEvent>>, index: seq<nat>)
    requires |index| == |queues| && forall i :: 0 <= i < |index| ==> index[i] == 0
    ensures Rest(queues, index) == queues
  {
  }

  /** The grouping loop: a map filled in order, with its keys as first inserted. */
  method GroupByJob(events: seq<MergedEvent>) returns (jobs: seq<string>, byJob: map<string, seq<MergedEvent>>)
    ensures jobs == Jobs(events)
    ensures forall job :: job in byJob <==> job in jobs
    ensures forall job :: job in byJob ==> byJob[job] == Filter(events, OfJob(job))
  {
    jobs, byJob := [], map[];
    for i := 0 to |events|
      invariant jobs == Jobs(events[..i])
      invariant forall job :: job in byJob <==> job in jobs
      invariant forall job :: job in byJob ==> byJob[job] == Filter(events[..i], OfJob(job))
    {
      assert events[..i + 1][..i] == events[..i];
      var job := events[i].jobId;
      JobsAreTheJobs(events[..i], job);
      FilterStepForAll(events, i);
      var jobEvents := if job in byJob then byJob[job] else [];
      if job !in byJob { jobs := jobs + [job]; }
      byJob := byJob[job := jobEvents + [events[i]]];
    }
    assert events[..|events|] == events;
  }

  method OrderMergedEvents(events: seq<MergedEvent>, locale: (string, string) -> int)
      returns (ordered: seq<MergedEvent>, broke: bool)
    ensures ordered == Merge(Queues(events, Jobs(events)), CompareChronologically(locale))
    ensures !broke
  {
    hide CompareChronologically, Queue;
    var jobs, byJob := GroupByJob(events);
    var queues: seq<seq<MergedEvent>> := [];
    for i := 0 to |jobs|
      invariant queues == Queues(events, jobs)[..i]
    {
      queues := queues + [Queue(byJob[jobs[i]])];
    }
    assert Queues(events, jobs)[..|jobs|] == Queues(events, jobs);
    QueuesHoldEverything(events);
    ordered, broke := MergeQueues(queues, |events|, CompareChronologically(locale));
  }

  lemma FilterStepForAll(events: seq<MergedEvent>, i: nat)
    requires i < |events|
    ensures forall job :: Filter(events[..i + 1], OfJob(job))
                       == Filter(events[..i], OfJob(job)) + (if events[i].jobId == job then [events[i]] else [])
  {
    forall job
      ensures Filter(events[..i + 1], OfJob(job))
           == Filter(events[..i], OfJob(job)) + (if events[i].jobId == job then [events[i]] else [])
    {
      FilterStep(events, i, OfJob(job));
    }
  }

  lemma {:induction false} JobsAreTheJobs(events: seq<MergedEvent>, job: string)
    ensures job in Jobs(events) <==> exists e :: e in events && e.jobId == job
    ensures job !in Jobs(events) ==> Filter(events, OfJob(job)) == []
    ensures forall i, j :: 0 <= i < j < |Jobs(events)| ==> Jobs(events)[i] != Jobs(events)[j]
  {
    if events != [] {
      var front := events[..|events| - 1];
      JobsAreTheJobs(front, job);
      JobsAreTheJobs(front, events[|events| - 1].jobId);
      assert forall e :: e in events <==> e in front || e == events[|events| - 1];
    }
  }

  /** Events filed under the first `n` jobs. */
  function Filed(events: seq<MergedEvent>, jobs: seq<string>): nat {
    if jobs == [] then 0
    else Filed(events, jobs[..|jobs| - 1]) + |Filter(events, OfJob(jobs[|jobs| - 1]))|
  }

  lemma {:induction false} FiledOneMore(events: seq<MergedEvent>, e: MergedEvent, jobs: seq<string>)
    requires forall i, j :: 0 <= i < j < |jobs| ==> jobs[i] != jobs[j]
    ensures Filed(events + [e], jobs) == Filed(events, jobs) + (if e.jobId in jobs then 1 else 0)
  {
    if jobs != [] {
      var front, last := jobs[..|jobs| - 1], jobs[|jobs| - 1];
      FiledOneMore(events, e, front);
      FilterStep(events + [e], |events|, OfJob(last));
      assert (events + [e])[..|events| + 1] == events + [e] && (events + [e])[..|events|] == events;
      assert e.jobId in jobs <==> e.jobId in front || e.jobId == last;
    }
  }

  lemma FiledUnderOneMore(events: seq<MergedEvent>, jobs: seq<string>, job: string)
    ensures Filed(events, jobs + [job]) == Filed(events, jobs) + |Filter(events, OfJob(job))|
  {
    assert (jobs + [job])[..|jobs|] == jobs;
  }

  lemma JobsGrow(front: seq<MergedEvent>, e: MergedEvent)
    ensures Jobs(front + [e]) == if e.jobId in Jobs(front) then Jobs(front) else Jobs(front) + [e.jobId]
  {
    assert (front + [e])[..|front|] == front;
  }

  lemma FilingOneMore(front: seq<MergedEvent>, e: MergedEvent)
    requires Filed(front, Jobs(front)) == |front|
    ensures Filed(front + [e], Jobs(front + [e])) == |front| + 1
  {
    hide Filed, Filter, Jobs;
    var jobs := Jobs(front + [e]);
    JobsGrow(front, e);
    JobsAreTheJobs(front, e.jobId);
    FiledUnderOneMore(front, Jobs(front), e.jobId);
    FiledOneMore(front, e, jobs);
  }

  lemma {:induction false} AllAreFiled(events: seq<MergedEvent>)
    ensures Filed(events, Jobs(events)) == |events|
  {
    if events != [] {
      var front, e := events[..|events| - 1], events[|events| - 1];
      assert front + [e] == events;
      AllAreFiled(front);
      FilingOneMore(front, e);
    }
  }

  lemma {:induction false} TotalIsFiled(events: seq<MergedEvent>, jobs: seq<string>)
    ensures Total(Queues(events, jobs)) == Filed(events, jobs)
  {
    if jobs != [] {
      var front, last := jobs[..|jobs| - 1], jobs[|jobs| - 1];
      TotalIsFiled(events, front);
      assert Queues(events, jobs)[..|front|] == Queues(events, front);
      SortPermutes(Filter(events, OfJob(last)), JobOrder(Filter(events, OfJob(last))));
    }
  }

  lemma QueuesHoldEverything(events: seq<MergedEvent>)
    ensures Total(Queues(events, Jobs(events))) == |events|
  {
    TotalIsFiled(events, Jobs(events));
    AllAreFiled(events);
  }

  // ------------------------------------------------------------------------------- theorems

  /** What the feed shows. */
  ghost function Ordered(events: seq<MergedEvent>, locale: (string, string) -> int): seq<MergedEvent> {
    Merge(Queues(events, Jobs(events)), CompareChronologically(locale))
  }

  /** Each queue holds its own job's events only, and no two queues share a job. */
  ghost predicate Separated(queues: seq<seq<MergedEvent>>, jobs: seq<string>) {
    && |queues| == |jobs|
    && (forall i, e :: 0 <= i < |queues| && e in queues[i] ==> e.jobId == jobs[i])
    && (forall i, j :: 0 <= i < j < |jobs| ==> jobs[i] != jobs[j])
  }

  lemma AdvanceKeepsSeparated(queues: seq<seq<MergedEvent>>, jobs: seq<string>, k: nat)
    requires Separated(queues, jobs) && k < |queues| && queues[k] != []
    ensures Separated(Advance(queues, k), jobs)
    ensures queues[k] == [queues[k][0]] + Advance(queues, k)[k] && queues[k][0].jobId == jobs[k]
  {
    assert forall e :: e in queues[k][1..] ==> e in queues[k];
  }

  /** The merge interleaves: reading off one job gives its queue back, in order and whole. */
  lemma {:induction false} MergeKeepsEachQueue(queues: seq<seq<MergedEvent>>, jobs: seq<string>, cmp: Order, job: string)
    requires Separated(queues, jobs)
    ensures forall i :: 0 <= i < |jobs| && jobs[i] == job ==> Filter(Merge(queues, cmp), OfJob(job)) == queues[i]
    ensures job !in jobs ==> Filter(Merge(queues, cmp), OfJob(job)) == []
    decreases Total(queues)
  {
    hide Best, Filter;
    var best := Best(queues, |queues|, cmp);
    if best.Some? {
      var k := best.value;
      var next := Advance(queues, k);
      AdvanceTakesOne(queues, k);
      AdvanceKeepsSeparated(queues, jobs, k);
      MergeKeepsEachQueue(next, jobs, cmp, job);
      FilterFirst(queues[k][0], Merge(next, cmp), OfJob(job));
    } else {
      FilterNone(Merge(queues, cmp), OfJob(job));
    }
  }

  lemma {:induction false} FilterCounts(s: seq<MergedEvent>, p: MergedEvent -> bool, e: MergedEvent)
    requires p(e)
    ensures multiset(Filter(s, p))[e] == multiset(s)[e]
  {
    if s != [] {
      FilterCounts(s[..|s| - 1], p, e);
      assert s == s[..|s| - 1] + [s[|s| - 1]];
    }
  }

  lemma QueuesAreSeparated(events: seq<MergedEvent>)
    ensures Separated(Queues(events, Jobs(events)), Jobs(events))
  {
    var jobs := Jobs(events);
    JobsAreTheJobs(events, "");
    forall i, e | 0 <= i < |jobs| && e in Queues(events, jobs)[i]
      ensures e.jobId == jobs[i]
    {
      var own := Filter(events, OfJob(jobs[i]));
      SortPermutes(own, JobOrder(own));
      assert e in multiset(Queue(own));
      assert e in own;
      FilterFinds(events, OfJob(jobs[i]), e);
    }
  }

  /** Each job's events come out in the job's own order, none added and none lost. */
  lemma FeedKeepsEachJob(events: seq<MergedEvent>, locale: (string, string) -> int, job: string)
    ensures Filter(Ordered(events, locale), OfJob(job)) == Queue(Filter(events, OfJob(job)))
  {
    var jobs := Jobs(events);
    QueuesAreSeparated(events);
    MergeKeepsEachQueue(Queues(events, jobs), jobs, CompareChronologically(locale), job);
    JobsAreTheJobs(events, job);
    if job in jobs {
      var i :| 0 <= i < |jobs| && jobs[i] == job;
      assert Queues(events, jobs)[i] == Queue(Filter(events, OfJob(job)));
    }
  }

  /** The merged feed is a permutation of its input. */
  lemma FeedIsAPermutation(events: seq<MergedEvent>, locale: (string, string) -> int)
    ensures multiset(Ordered(events, locale)) == multiset(events)
  {
    forall e: MergedEvent
      ensures multiset(Ordered(events, locale))[e] == multiset(events)[e]
    {
      var own := Filter(events, OfJob(e.jobId));
      FeedKeepsEachJob(events, locale, e.jobId);
      FilterCounts(Ordered(events, locale), OfJob(e.jobId), e);
      FilterCounts(events, OfJob(e.jobId), e);
      SortPermutes(own, JobOrder(own));
    }
  }

  /** Every event of the job carries a sequence number. */
  ghost predicate FullyNumbered(events: seq<MergedEvent>, job: string) {
    forall e :: e in events && e.jobId == job ==> e.seqNo.Some?
  }

  /** The second may follow the first in a job's own order: by number, or by time and then by number. */
  predicate MayFollow(numbered: bool, a: MergedEvent, b: MergedEvent) {
    var x, y := if a.seqNo.Some? then a.seqNo.value else 0, if b.seqNo.Some? then b.seqNo.value else 0;
    if numbered then x <= y else a.t < b.t || (a.t == b.t && x <= y)
  }

  lemma OwnOrderIsMeant(events: seq<MergedEvent>, job: string, a: MergedEvent, b: MergedEvent)
    ensures JobOrder(Filter(events, OfJob(job)))(a, b) <= 0 <==> MayFollow(FullyNumbered(events, job), a, b)
  {
    var own := Filter(events, OfJob(job));
    forall e
      ensures e in own <==> e in events && e.jobId == job
    {
      FilterFinds(events, OfJob(job), e);
    }
    assert JobOrder(own) == if FullyNumbered(events, job) then BySequence() else ByTime();
  }

  /**
   A job whose events all carry a sequence number comes out in ascending sequence; others by ascending
   time, then sequence. Events that come in this order come out as they came.
   */
  lemma JobsComeOutInTheirOrder(events: seq<MergedEvent>, locale: (string, string) -> int, job: string)
    ensures var own := Filter(events, OfJob(job));
            var out := Filter(Ordered(events, locale), OfJob(job));
            && (forall i, j :: 0 <= i < j < |out| ==> MayFollow(FullyNumbered(events, job), out[i], out[j]))
            && multiset(out) == multiset(own)
            && ((forall i, j :: 0 <= i < j < |own| ==> MayFollow(FullyNumbered(events, job), own[i], own[j])) ==> out == own)
  {
    hide JobOrder, MayFollow, FullyNumbered;
    var own := Filter(events, OfJob(job));
    var out := Filter(Ordered(events, locale), OfJob(job));
    FeedKeepsEachJob(events, locale, job);
    OwnOrdersAreConsistent();
    JobOrderIsConsistent(own);
    SortSorts(own, JobOrder(own));
    SortPermutes(own, JobOrder(own));
    forall i, j | 0 <= i < j < |out|
      ensures MayFollow(FullyNumbered(events, job), out[i], out[j])
    {
      OwnOrderIsMeant(events, job, out[i], out[j]);
    }
    if forall i, j :: 0 <= i < j < |own| ==> MayFollow(FullyNumbered(events, job), own[i], own[j]) {
      forall i, j | 0 <= i < j < |own|
        ensures JobOrder(own)(own[i], own[j]) <= 0
      {
        OwnOrderIsMeant(events, job, own[i], own[j]);
      }
      SortedIsFixed(own, JobOrder(own));
    }
  }

  lemma JobOrderIsConsistent(own: seq<MergedEvent>)
    ensures Consistent(JobOrder(own))
  {
    OwnOrdersAreConsistent();
  }

  lemma OwnOrdersAreConsistent()
    ensures Consistent(BySequence()) && Consistent(ByTime())
  {
  }

  lemma CompareIsConsistent(locale: (string, string) -> int)
    requires Consistent(locale)
    ensures Consistent(CompareChronologically(locale))
  {
    ByStampIsConsistent(locale, StampOf);
  }

  lemma {:induction false} BestIsLeast(queues: seq<seq<MergedEvent>>, n: nat, cmp: Order, i: nat)
    requires Consistent(cmp) && i < n <= |queues| && queues[i] != []
    ensures Best(queues, n, cmp).Some? && cmp(queues[Best(queues, n, cmp).value][0], queues[i][0]) <= 0
  {
    if i < n - 1 {
      BestIsLeast(queues, n - 1, cmp, i);
    }
  }

  /** Of equal heads the first queue's is taken. */
  lemma {:induction false} BestIsFirst(queues: seq<seq<MergedEvent>>, n: nat, cmp: Order, i: nat)
    requires Consistent(cmp) && n <= |queues| && Best(queues, n, cmp).Some?
    requires i < Best(queues, n, cmp).value && queues[i] != []
    ensures cmp(queues[Best(queues, n, cmp).value][0], queues[i][0]) < 0
  {
    var best := Best(queues, n, cmp).value;
    if best == n - 1 {
      var before := Best(queues, n - 1, cmp);
      BestIsLeast(queues, n - 1, cmp, i);
      CompareChain(cmp, queues[n - 1][0], queues[before.value][0], queues[i][0]);
    } else {
      BestIsFirst(queues, n - 1, cmp, i);
    }
  }

  lemma {:induction false} MergedComesFromAQueue(queues: seq<seq<MergedEvent>>, cmp: Order, e: MergedEvent) returns (i: nat)
    requires e in Merge(queues, cmp)
    ensures i < |queues| && e in queues[i]
    decreases Total(queues)
  {
    var k := Best(queues, |queues|, cmp).value;
    AdvanceTakesOne(queues, k);
    if e == queues[k][0] {
      i := k;
    } else {
      i := MergedComesFromAQueue(Advance(queues, k), cmp, e);
    }
  }

  /** Merging sorted queues sorts: the least head is least of everything left. */
  lemma {:induction false} MergeSorts(queues: seq<seq<MergedEvent>>, cmp: Order)
    requires Consistent(cmp)
    requires forall i :: 0 <= i < |queues| ==> SortedBy(queues[i], cmp)
    ensures SortedBy(Merge(queues, cmp), cmp)
    decreases Total(queues)
  {
    hide Best, Consistent;
    var best := Best(queues, |queues|, cmp);
    if best.Some? {
      var k, first := best.value, queues[best.value][0];
      AdvanceTakesOne(queues, k);
      var next := Advance(queues, k);
      MergeSorts(next, cmp);
      forall e | e in Merge(next, cmp)
        ensures cmp(first, e) <= 0
      {
        var i := MergedComesFromAQueue(next, cmp, e);
        assert e in queues[i];
        BestIsLeast(queues, |queues|, cmp, i);
        HeadIsLeast(queues[i], cmp, e);
        CompareChain(cmp, first, queues[i][0], e);
      }
      FirstSorts(first, Merge(next, cmp), cmp);
    }
  }

  lemma FirstSorts(first: MergedEvent, rest: seq<MergedEvent>, cmp: Order)
    requires SortedBy(rest, cmp) && forall e :: e in rest ==> cmp(first, e) <= 0
    ensures SortedBy([first] + rest, cmp)
  {
  }

  lemma HeadIsLeast(queue: seq<MergedEvent>, cmp: Order, e: MergedEvent)
    requires Consistent(cmp) && SortedBy(queue, cmp) && e in queue
    ensures cmp(queue[0], e) <= 0
  {
    var i :| 0 <= i < |queue| && queue[i] == e;
  }

  lemma {:induction false} FilterOfSorted(s: seq<MergedEvent>, p: MergedEvent -> bool, cmp: Order)
    requires SortedBy(s, cmp)
    ensures SortedBy(Filter(s, p), cmp)
  {
    if s != [] {
      var front := s[..|s| - 1];
      FilterOfSorted(front, p, cmp);
      forall e | e in Filter(front, p)
        ensures cmp(e, s[|s| - 1]) <= 0
      {
        FilterFinds(front, p, e);
      }
      SortedAppend(Filter(front, p), s[|s| - 1], cmp);
    }
  }

  /**
   The feed is chronological exactly when each job's own order is. A job without full sequence
   numbers always is; one with them is unless its clock ran against its sequence.
   */
  lemma FeedIsChronologicalExactlyWhenJobsAre(events: seq<MergedEvent>, locale: (string, string) -> int)
    requires Consistent(locale)
    ensures SortedBy(Ordered(events, locale), CompareChronologically(locale)) <==>
            forall job :: SortedBy(Queue(Filter(events, OfJob(job))), CompareChronologically(locale))
  {
    hide CompareChronologically, Queue;
    var cmp := CompareChronologically(locale);
    CompareIsConsistent(locale);
    if forall job :: SortedBy(Queue(Filter(events, OfJob(job))), cmp) {
      MergeSorts(Queues(events, Jobs(events)), cmp);
    }
    if SortedBy(Ordered(events, locale), cmp) {
      forall job
        ensures SortedBy(Queue(Filter(events, OfJob(job))), cmp)
      {
        FeedKeepsEachJob(events, locale, job);
        FilterOfSorted(Ordered(events, locale), OfJob(job), cmp);
      }
    }
  }

  /** A job lacking some sequence number is sorted by time, so it never breaks the chronology. */
  lemma TimedJobsAreChronological(events: seq<MergedEvent>, locale: (string, string) -> int, job: string)
    requires Consistent(locale)
    requires exists e :: e in events && e.jobId == job && e.seqNo.None?
    ensures SortedBy(Queue(Filter(events, OfJob(job))), CompareChronologically(locale))
  {
    hide CompareChronologically, ByTime, Consistent, Filter, Sort;
    var own := Filter(events, OfJob(job));
    var e :| e in events && e.jobId == job && e.seqNo.None?;
    FilterFinds(events, OfJob(job), e);
    assert JobOrder(own) == ByTime();
    OwnOrdersAreConsistent();
    SortSorts(own, ByTime());
    SortPermutes(own, ByTime());
    var queue := Queue(own);
    forall i, j | 0 <= i < j < |queue|
      ensures CompareChronologically(locale)(queue[i], queue[j]) <= 0
    {
      assert queue[i] in multiset(queue) && queue[j] in multiset(queue);
      FilterFinds(events, OfJob(job), queue[i]);
      FilterFinds(events, OfJob(job), queue[j]);
      WithinAJob(locale, queue[i], queue[j]);
    }
  }

  /** Within one job the chronological order is time, then sequence. */
  lemma WithinAJob(locale: (string, string) -> int, a: MergedEvent, b: MergedEvent)
    requires Consistent(locale) && a.jobId == b.jobId
    ensures CompareChronologically(locale)(a, b) == ByTime()(a, b)
  {
    assert locale(a.jobId, b.jobId) < 0 <==> locale(b.jobId, a.jobId) > 0;
    assert CompareChronologically(locale)(a, b) == CompareStamps(locale)(StampOf(a), StampOf(b));
  }

  ghost predicate InTime(events: seq<MergedEvent>) {
    forall i, j :: 0 <= i < j < |events| ==> events[i].t <= events[j].t
  }

  /** In the clock's terms: the feed never goes back in time exactly when no job's own order does. */
  lemma FeedIsInTimeExactlyWhenJobsAre(events: seq<MergedEvent>, locale: (string, string) -> int)
    requires Consistent(locale)
    ensures InTime(Ordered(events, locale)) <==> forall job :: InTime(Queue(Filter(events, OfJob(job))))
  {
    hide CompareChronologically, Queue, Filter, Merge;
    if forall job :: InTime(Queue(Filter(events, OfJob(job)))) {
      forall job
        ensures SortedBy(Queue(Filter(events, OfJob(job))), CompareChronologically(locale))
      {
        QueueInTimeIsSorted(events, locale, job);
      }
      FeedIsChronologicalExactlyWhenJobsAre(events, locale);
      SortedIsInTime(Ordered(events, locale), locale);
    }
    if InTime(Ordered(events, locale)) {
      forall job
        ensures InTime(Queue(Filter(events, OfJob(job))))
      {
        FeedKeepsEachJob(events, locale, job);
        FilterOfInTime(Ordered(events, locale), OfJob(job));
      }
    }
  }

  lemma SortedIsInTime(events: seq<MergedEvent>, locale: (string, string) -> int)
    requires SortedBy(events, CompareChronologically(locale))
    ensures InTime(events)
  {
    forall i, j | 0 <= i < j < |events|
      ensures events[i].t <= events[j].t
    {
      assert CompareChronologically(locale)(events[i], events[j]) <= 0;
      ByStampOrdersTime(locale, StampOf, events[i], events[j]);
    }
  }

  lemma {:induction false} FilterOfInTime(events: seq<MergedEvent>, p: MergedEvent -> bool)
    requires InTime(events)
    ensures InTime(Filter(events, p))
  {
    if events != [] {
      var front := events[..|events| - 1];
      FilterOfInTime(front, p);
      forall e | e in Filter(front, p)
        ensures e.t <= events[|events| - 1].t
      {
        FilterFinds(front, p, e);
      }
    }
  }

  /** A job's queue whose times do not go back is chronological: its numbers ascend too. */
  lemma QueueInTimeIsSorted(events: seq<MergedEvent>, locale: (string, string) -> int, job: string)
    requires Consistent(locale) && InTime(Queue(Filter(events, OfJob(job))))
    ensures SortedBy(Queue(Filter(events, OfJob(job))), CompareChronologically(locale))
  {
    hide CompareChronologically, Filter, JobOrder, Consistent, Sort;
    var own := Filter(events, OfJob(job));
    var queue := Queue(own);
    JobOrderIsConsistent(own);
    SortSorts(own, JobOrder(own));
    SortPermutes(own, JobOrder(own));
    forall i, j | 0 <= i < j < |queue|
      ensures CompareChronologically(locale)(queue[i], queue[j]) <= 0
    {
      assert queue[i] in multiset(queue) && queue[j] in multiset(queue);
      FilterFinds(events, OfJob(job), queue[i]);
      FilterFinds(events, OfJob(job), queue[j]);
      OwnOrderIsMeant(events, job, queue[i], queue[j]);
      WithinAJob(locale, queue[i], queue[j]);
    }
  }

  /** The first event of a job. */
  function FirstOf(events: seq<MergedEvent>, job: string): nat {
    if events == [] || events[0].jobId == job then 0 else 1 + FirstOf(events[1..], job)
  }

  /** The jobs are taken in the order in which they first appear. */
  lemma {:induction false} JobsInOrderOfAppearance(events: seq<MergedEvent>, i: nat, j: nat)
    requires i < j < |Jobs(events)|
    ensures FirstOf(events, Jobs(events)[i]) < FirstOf(events, Jobs(events)[j]) < |events|
  {
    var front, last := events[..|events| - 1], events[|events| - 1];
    JobsAreTheJobs(front, last.jobId);
    JobsAreTheJobs(front, Jobs(events)[i]);
    JobsAreTheJobs(front, Jobs(events)[j]);
    assert events == front + [last];
    FirstInFront(front, last, Jobs(events)[i]);
    FirstInFront(front, last, Jobs(events)[j]);
    if j < |Jobs(front)| {
      JobsInOrderOfAppearance(front, i, j);
    }
  }

  lemma {:induction false} FirstInFront(front: seq<MergedEvent>, last: MergedEvent, job: string)
    ensures if exists e :: e in front && e.jobId == job
            then FirstOf(front + [last], job) == FirstOf(front, job) < |front|
            else FirstOf(front + [last], job) == if last.jobId == job then |front| else |front| + 1
  {
    if front != [] {
      assert (front + [last])[1..] == front[1..] + [last];
      FirstInFront(front[1..], last, job);
      assert forall e :: e in front <==> e == front[0] || e in front[1..];
    }
  }
}
