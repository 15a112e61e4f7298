/** The windowed de-duplication of display rows, and the sort and limit around it. */
module LogCollapse {
  import opened Prelude
  import opened Sequences
  import opened StableSort
  import opened Chronology

  const DISPLAY_DUPLICATE_WINDOW_MS := 2000

  /** A timeline event; `payload` is everything but the fields named here. */
  datatype Event = Event(t: int, seqNo: Option<int>, kind: string, elapsed: Option<int>, payload: string)

  datatype Row = Row(jobId: string, event: Event)

  /** The key drops time and sequence, and the elapsed time of a completed run. */
  datatype Key = Key(jobId: string, kind: string, elapsed: Option<int>, payload: string)

  function KeyOf(row: Row): Key {
    Key(row.jobId, row.event.kind,
        if row.event.kind == "run_complete" then None else row.event.elapsed,
        row.event.payload)
  }

  /** Rows are duplicates in kind exactly if they differ in time, sequence or a completed run's length alone. */
  lemma SameKeyExactlyWhen(a: Row, b: Row)
    ensures KeyOf(a) == KeyOf(b) <==>
            && a.jobId == b.jobId
            && (|| a.event == b.event.(t := a.event.t, seqNo := a.event.seqNo)
                || (a.event.kind == "run_complete"
                    && a.event == b.event.(t := a.event.t, seqNo := a.event.seqNo, elapsed := a.event.elapsed)))
  {
  }

  /** The last kept row of each key. */
  function LastByKey(kept: seq<Row>): map<Key, Row> {
    if kept == [] then map[]
    else LastByKey(kept[..|kept| - 1])[KeyOf(kept[|kept| - 1]) := kept[|kept| - 1]]
  }

  /** A row is dropped when the last kept row of its key is within the window. */
  predicate IsDuplicate(kept: seq<Row>, row: Row) {
    var last := LastByKey(kept);
    KeyOf(row) in last && row.event.t - last[KeyOf(row)].event.t <= DISPLAY_DUPLICATE_WINDOW_MS
  }

  function Collapse(rows: seq<Row>): seq<Row> {
    if rows == [] then []
    else
      var kept := Collapse(rows[..|rows| - 1]);
      if IsDuplicate(kept, rows[|rows| - 1]) then kept else kept + [rows[|rows| - 1]]
  }

  method CollapseDisplayDuplicates(rows: seq<Row>) returns (collapsed: seq<Row>)
    ensures collapsed == Collapse(rows)
  {
    collapsed := [];
    var lastByKey: map<Key, Row> := map[];
    for i := 0 to |rows|
      invariant collapsed == Collapse(rows[..i])
      invariant lastByKey == LastByKey(collapsed)
    {
      assert rows[..i + 1][..i] == rows[..i];
      var row := rows[i];
      var key := KeyOf(row);
      if key in lastByKey && row.event.t - lastByKey[key].event.t <= DISPLAY_DUPLICATE_WINDOW_MS { continue; }
      assert (collapsed + [row])[..|collapsed|] == collapsed;
      collapsed := collapsed + [row];
      lastByKey := lastByKey[key := row];
    }
    assert rows[..|rows|] == rows;
  }

  // ------------------------------------------------------------------------------ properties

  ghost predicate TimeSorted(rows: seq<Row>) {
    forall i, j :: 0 <= i < j < |rows| ==> rows[i].event.t <= rows[j].event.t
  }

  /** The entry of a key is its latest kept row, and there is one exactly when the key was kept. */
  lemma {:induction false} LastByKeyFinds(kept: seq<Row>, key: Key) returns (at: int)
    ensures key in LastByKey(kept) <==> exists row :: row in kept && KeyOf(row) == key
    ensures key in LastByKey(kept) ==>
              0 <= at < |kept| && kept[at] == LastByKey(kept)[key] && KeyOf(kept[at]) == key
              && forall j :: at < j < |kept| ==> KeyOf(kept[j]) != key
  {
    at := -1;
    if kept != [] {
      var last := |kept| - 1;
      at := LastByKeyFinds(kept[..last], key);
      assert forall row :: row in kept <==> row in kept[..last] || row == kept[last];
      if KeyOf(kept[last]) == key {
        at := last;
      }
    }
  }

  /** Indices of a subsequence. */
  ghost predicate Selects(at: seq<nat>, rows: seq<Row>, kept: seq<Row>) {
    && |at| == |kept|
    && (forall i :: 0 <= i < |at| ==> at[i] < |rows| && rows[at[i]] == kept[i])
    && (forall i, j :: 0 <= i < j < |at| ==> at[i] < at[j])
  }

  lemma SelectOneMore(at: seq<nat>, rows: seq<Row>, kept: seq<Row>)
    requires rows != [] && Selects(at, rows[..|rows| - 1], kept)
    ensures Selects(at + [|rows| - 1], rows, kept + [rows[|rows| - 1]])
  {
  }

  /** The row at `m` stands for the one at `i`: of one key, and not more than two seconds before it. */
  predicate Covers(rows: seq<Row>, m: nat, i: nat) {
    && m < i < |rows| && KeyOf(rows[m]) == KeyOf(rows[i])
    && rows[i].event.t - rows[m].event.t <= 2000
  }

  /** The position is kept, or its row covered by a kept one. */
  predicate Accounted(at: seq<nat>, rows: seq<Row>, i: nat) {
    i in at || exists m :: m in at && Covers(rows, m, i)
  }

  ghost predicate Accounts(at: seq<nat>, rows: seq<Row>) {
    Selects(at, rows, Collapse(rows)) && forall i :: 0 <= i < |rows| ==> Accounted(at, rows, i)
  }

  lemma StillAccounted(before: seq<nat>, at: seq<nat>, rows: seq<Row>, i: nat)
    requires i < |rows| - 1 && Accounted(before, rows[..|rows| - 1], i)
    requires forall m :: m in before ==> m in at
    ensures Accounted(at, rows, i)
  {
    hide KeyOf;
    if i !in before {
      var m :| m in before && Covers(rows[..|rows| - 1], m, i);
      assert Covers(rows, m, i);
    }
  }

  lemma CollapseOneMore(rows: seq<Row>)
    requires rows != []
    ensures var kept, last := Collapse(rows[..|rows| - 1]), rows[|rows| - 1];
            Collapse(rows) == if IsDuplicate(kept, last) then kept else kept + [last]
  {
  }

  lemma SelectsInLonger(at: seq<nat>, rows: seq<Row>, kept: seq<Row>)
    requires rows != [] && Selects(at, rows[..|rows| - 1], kept)
    ensures Selects(at, rows, kept)
  {
  }

  lemma AccountOneMore(before: seq<nat>, rows: seq<Row>) returns (at: seq<nat>)
    requires rows != [] && Accounts(before, rows[..|rows| - 1])
    ensures Accounts(at, rows)
  {
    hide IsDuplicate, KeyOf, Covers, Collapse, Selects;
    var last, kept := |rows| - 1, Collapse(rows[..|rows| - 1]);
    CollapseOneMore(rows);
    if IsDuplicate(kept, rows[last]) {
      at := before;
      SelectsInLonger(before, rows, kept);
      var m := CoverOfDuplicate(before, rows);
    } else {
      at := before + [last];
      SelectOneMore(before, rows, kept);
    }
    forall i | 0 <= i < last
      ensures Accounted(at, rows, i)
    {
      hide Accounted;
      StillAccounted(before, at, rows, i);
    }
    assert Accounted(at, rows, last);
  }

  lemma CoverOfDuplicate(before: seq<nat>, rows: seq<Row>) returns (m: nat)
    requires rows != [] && Selects(before, rows[..|rows| - 1], Collapse(rows[..|rows| - 1]))
    requires IsDuplicate(Collapse(rows[..|rows| - 1]), rows[|rows| - 1])
    ensures m in before && Covers(rows, m, |rows| - 1)
  {
    hide KeyOf, Collapse;
    var kept := Collapse(rows[..|rows| - 1]);
    var p := LastByKeyFinds(kept, KeyOf(rows[|rows| - 1]));
    m := before[p];
    assert rows[..|rows| - 1][m] == kept[p];
  }

  /**
   Each position is kept, or dropped for an earlier kept one whose row has its key and is no more
   than a window before it. `at` are the positions kept, in order.
   */
  lemma {:induction false} EveryRowIsAccountedFor(rows: seq<Row>) returns (at: seq<nat>)
    ensures Accounts(at, rows)
  {
    at := [];
    if rows != [] {
      hide Accounts;
      var before := EveryRowIsAccountedFor(rows[..|rows| - 1]);
      at := AccountOneMore(before, rows);
    }
  }

  /** The output is a subsequence of the input, in its order. */
  lemma CollapseSelects(rows: seq<Row>) returns (at: seq<nat>)
    ensures Selects(at, rows, Collapse(rows))
  {
    at := EveryRowIsAccountedFor(rows);
  }

  /** Neighbours of one key, with none of that key between them, are more than a window apart. */
  ghost predicate Spaced(kept: seq<Row>) {
    forall i :: 0 <= i < |kept| ==> !IsDuplicate(kept[..i], kept[i])
  }

  lemma {:induction false} CollapseIsSpaced(rows: seq<Row>)
    ensures Spaced(Collapse(rows))
  {
    if rows != [] {
      var front, row := rows[..|rows| - 1], rows[|rows| - 1];
      CollapseIsSpaced(front);
      var kept := Collapse(front);
      if !IsDuplicate(kept, row) {
        forall i | 0 <= i < |kept + [row]|
          ensures !IsDuplicate((kept + [row])[..i], (kept + [row])[i])
        {
          if i < |kept| {
            assert (kept + [row])[..i] == kept[..i];
          } else {
            assert (kept + [row])[..i] == kept;
          }
        }
      }
    }
  }

  lemma {:induction false} SpacedIsFixed(kept: seq<Row>)
    requires Spaced(kept)
    ensures Collapse(kept) == kept
  {
    if kept != [] {
      var front := kept[..|kept| - 1];
      forall i | 0 <= i < |front|
        ensures !IsDuplicate(front[..i], front[i])
      {
        assert front[..i] == kept[..i];
      }
      SpacedIsFixed(front);
      assert front == kept[..|kept| - 1];
    }
  }

  /** De-duplicating twice changes nothing, sorted or not. */
  lemma CollapseIsIdempotent(rows: seq<Row>)
    ensures Collapse(Collapse(rows)) == Collapse(rows)
  {
    CollapseIsSpaced(rows);
    SpacedIsFixed(Collapse(rows));
  }

  lemma CollapseKeepsTimeOrder(rows: seq<Row>)
    requires TimeSorted(rows)
    ensures TimeSorted(Collapse(rows))
  {
    var at := CollapseSelects(rows);
    var kept := Collapse(rows);
    forall i, j | 0 <= i < j < |kept|
      ensures kept[i].event.t <= kept[j].event.t
    {
      assert at[i] < at[j];
      assert rows[at[i]] == kept[i] && rows[at[j]] == kept[j];
    }
  }

  /** On time-sorted rows any two kept rows of one key are more than the window apart. */
  lemma KeptRowsAreApart(rows: seq<Row>, i: nat, j: nat)
    requires TimeSorted(rows)
    requires i < j < |Collapse(rows)| && KeyOf(Collapse(rows)[i]) == KeyOf(Collapse(rows)[j])
    ensures Collapse(rows)[j].event.t - Collapse(rows)[i].event.t > DISPLAY_DUPLICATE_WINDOW_MS
  {
    CollapseIsSpaced(rows);
    CollapseKeepsTimeOrder(rows);
    SpacedRowsAreApart(Collapse(rows), i, j);
  }

  lemma SpacedRowsAreApart(kept: seq<Row>, i: nat, j: nat)
    requires TimeSorted(kept) && Spaced(kept)
    requires i < j < |kept| && KeyOf(kept[i]) == KeyOf(kept[j])
    ensures kept[j].event.t - kept[i].event.t > DISPLAY_DUPLICATE_WINDOW_MS
  {
    hide Collapse, KeyOf, LastByKey;
    assert kept[..j][i] == kept[i];
    var last := LastByKeyFinds(kept[..j], KeyOf(kept[j]));
    assert !IsDuplicate(kept[..j], kept[j]);
    assert i <= last;
    assert kept[i].event.t <= kept[last].event.t;
  }

  // ------------------------------------------------------------------------ sort and limit

  function StampOf(row: Row): Stamp {
    Stamp(row.event.t, row.jobId, row.event.seqNo)
  }

  function RowOrder(locale: (string, string) -> int): (Row, Row) -> int {
    ByStamp(locale, StampOf)
  }

  /** What is shown: the last `limit` of the rows in order, collapsed unless they are shown as JSON. */
  function DisplayRows(rows: seq<Row>, locale: (string, string) -> int, limit: nat, asJson: bool): seq<Row> {
    var sorted := Sort(rows, RowOrder(locale));
    var shown := if asJson then sorted else Collapse(sorted);
    shown[if |shown| > limit then |shown| - limit else 0..]
  }

  /** The rows in time order, of which the last are shown: all of them, or as many as the limit. */
  lemma TheLastRowsAreShown(rows: seq<Row>, locale: (string, string) -> int, limit: nat, asJson: bool)
      returns (earlier: seq<Row>)
    requires Consistent(locale)
    ensures var shown := DisplayRows(rows, locale, limit, asJson);
            && |shown| <= limit && (|shown| < limit ==> earlier == [])
            && TimeSorted(earlier + shown)
            && (asJson ==> multiset(earlier + shown) == multiset(rows))
            && (!asJson ==> earlier + shown == Collapse(Sort(rows, RowOrder(locale))))
  {
    hide Collapse, KeyOf, Sort, ByStamp;
    var sorted := Sort(rows, RowOrder(locale));
    ByStampIsConsistent(locale, StampOf);
    assert Consistent(RowOrder(locale));
    SortSorts(rows, RowOrder(locale));
    SortPermutes(rows, RowOrder(locale));
    SortedByOrderIsTimeSorted(sorted, locale);
    CollapseKeepsTimeOrder(sorted);
    var all := if asJson then sorted else Collapse(sorted);
    earlier := all[..if |all| > limit then |all| - limit else 0];
    assert earlier + DisplayRows(rows, locale, limit, asJson) == all;
  }

  lemma SortedByOrderIsTimeSorted(rows: seq<Row>, locale: (string, string) -> int)
    requires SortedBy(rows, RowOrder(locale))
    ensures TimeSorted(rows)
  {
    forall i, j | 0 <= i < j < |rows|
      ensures rows[i].event.t <= rows[j].event.t
    {
      assert RowOrder(locale)(rows[i], rows[j]) <= 0;
      ByStampOrdersTime(locale, StampOf, rows[i], rows[j]);
    }
  }

  /** End to end: whatever order the rows arrive in, no two shown rows of one key are within a window. */
  lemma ShownRowsAreApart(rows: seq<Row>, locale: (string, string) -> int, limit: nat, i: nat, j: nat)
    requires Consistent(locale)
    requires i < j < |DisplayRows(rows, locale, limit, false)|
    ensures var shown := DisplayRows(rows, locale, limit, false);
            && |shown| <= limit
            && (KeyOf(shown[i]) == KeyOf(shown[j]) ==>
                  shown[j].event.t - shown[i].event.t > 2000)
  {
    hide Collapse, KeyOf, Sort, ByStamp;
    var sorted := Sort(rows, RowOrder(locale));
    ByStampIsConsistent(locale, StampOf);
    assert Consistent(RowOrder(locale));
    SortSorts(rows, RowOrder(locale));
    SortedByOrderIsTimeSorted(sorted, locale);
    var collapsed, shown := Collapse(sorted), DisplayRows(rows, locale, limit, false);
    var skip := |collapsed| - |shown|;
    assert shown[i] == collapsed[skip + i] && shown[j] == collapsed[skip + j];
    if KeyOf(shown[i]) == KeyOf(shown[j]) {
      KeptRowsAreApart(sorted, skip + i, skip + j);
    }
  }
}
