/** The order in which the feed and the log show events: time, then job by the locale, then sequence. */
module Chronology {
  import opened Prelude
  import opened StableSort

  datatype Stamp = Stamp(t: int, jobId: string, seqNo: Option<int>)

  function SeqOr0(s: Stamp): int {
    if s.seqNo.Some? then s.seqNo.value else 0
  }

  function CompareStamps(locale: (string, string) -> int): (Stamp, Stamp) -> int {
    (a: Stamp, b: Stamp) =>
      if a.t != b.t then a.t - b.t
      else if locale(a.jobId, b.jobId) != 0 then locale(a.jobId, b.jobId)
      else SeqOr0(a) - SeqOr0(b)
  }

  /** The order on anything that has a stamp. */
  function ByStamp<T>(locale: (string, string) -> int, stamp: T -> Stamp): (T, T) -> int {
    (a: T, b: T) => CompareStamps(locale)(stamp(a), stamp(b))
  }

  lemma StampsAreConsistent(locale: (string, string) -> int)
    requires Consistent(locale)
    ensures Consistent(CompareStamps(locale))
  {
    var cmp := CompareStamps(locale);
    forall a, b
      ensures cmp(a, b) < 0 <==> cmp(b, a) > 0
    {
      assert locale(a.jobId, b.jobId) < 0 <==> locale(b.jobId, a.jobId) > 0;
      assert locale(b.jobId, a.jobId) < 0 <==> locale(a.jobId, b.jobId) > 0;
    }
    forall a, b, c | cmp(a, b) <= 0 && cmp(b, c) <= 0
      ensures cmp(a, c) <= 0
    {
      if a.t == b.t == c.t {
        CompareChain(locale, a.jobId, b.jobId, c.jobId);
      }
    }
  }

  lemma ByStampIsConsistent<T(!new)>(locale: (string, string) -> int, stamp: T -> Stamp)
    requires Consistent(locale)
    ensures Consistent(ByStamp(locale, stamp))
  {
    StampsAreConsistent(locale);
    var cmp, under := ByStamp(locale, stamp), CompareStamps(locale);
    assert forall a, b :: cmp(a, b) == under(stamp(a), stamp(b));
  }

  /** The earlier time first; at one time the job the locale puts first; in one job the lower number, 0 if none. */
  lemma ByStampMeans<T>(locale: (string, string) -> int, stamp: T -> Stamp, a: T, b: T)
    ensures var x, y := stamp(a), stamp(b);
            var tie := locale(x.jobId, y.jobId);
            ByStamp(locale, stamp)(a, b) <= 0 <==>
            || x.t < y.t
            || (x.t == y.t && tie < 0)
            || (x.t == y.t && tie == 0
                && (if x.seqNo.Some? then x.seqNo.value else 0) <= (if y.seqNo.Some? then y.seqNo.value else 0))
  {
    assert ByStamp(locale, stamp)(a, b) == CompareStamps(locale)(stamp(a), stamp(b));
  }

  lemma ByStampOrdersTime<T>(locale: (string, string) -> int, stamp: T -> Stamp, a: T, b: T)
    ensures ByStamp(locale, stamp)(a, b) <= 0 ==> stamp(a).t <= stamp(b).t
  {
    assert ByStamp(locale, stamp)(a, b) == CompareStamps(locale)(stamp(a), stamp(b));
  }
}
