/**
 Usage counters: one row per tenant, metric and day, queried over day windows and purged past a
 retention horizon, against the plain log of everything that was ever recorded.
 */
module Metering {
  import opened Base

  type Day = int

  /** One row of the table, or one recorded amount of the log. */
  datatype Row = Row(tenant: nat, metric: string, day: Day, value: int)

  /** A query of one tenant, for one metric or all, over an optional window with both ends included. */
  datatype Query = Query(tenant: nat, metric: Option<string>, since: Option<Day>, until: Option<Day>)

  predicate Matches(q: Query, r: Row) {
    && q.tenant == r.tenant
    && (q.metric.Some? ==> q.metric.value == r.metric)
    && (q.since.Some? ==> r.day >= q.since.value)
    && (q.until.Some? ==> r.day <= q.until.value)
  }

  function Share(q: Query, r: Row): int {
    if Matches(q, r) then r.value else 0
  }

  function Total(rows: seq<Row>, q: Query): int {
    if rows == [] then 0 else Total(rows[..|rows| - 1], q) + Share(q, rows[|rows| - 1])
  }

  lemma TotalAppend(rows: seq<Row>, r: Row, q: Query)
    ensures Total(rows + [r], q) == Total(rows, q) + Share(q, r)
  {
    assert (rows + [r])[..|rows|] == rows;
  }

  /** An update before the last row. */
  lemma UpdateEarly(rows: seq<Row>, i: nat, r: Row)
    requires i < |rows| - 1
    ensures var n := |rows| - 1; rows[i := r] == rows[..n][i := r] + [rows[n]]
  {
  }

  lemma {:induction false} TotalUpdate(rows: seq<Row>, i: nat, r: Row, q: Query)
    requires i < |rows|
    ensures Total(rows[i := r], q) == Total(rows, q) - Share(q, rows[i]) + Share(q, r)
  {
    var n := |rows| - 1;
    if i == n {
      assert rows[i := r] == rows[..n] + [r];
      TotalAppend(rows[..n], r, q);
    } else {
      TotalUpdate(rows[..n], i, r, q);
      UpdateEarly(rows, i, r);
      TotalAppend(rows[..n][i := r], rows[n], q);
    }
  }

  function Without(rows: seq<Row>, i: nat): seq<Row>
    requires i < |rows|
  {
    rows[..i] + rows[i + 1..]
  }

  lemma WithoutLast(rows: seq<Row>)
    requires rows != []
    ensures Without(rows, |rows| - 1) == rows[..|rows| - 1]
  {
  }

  lemma WithoutEarly(rows: seq<Row>, i: nat)
    requires i < |rows| - 1
    ensures var n := |rows| - 1; Without(rows, i) == Without(rows[..n], i) + [rows[n]]
  {
    var n := |rows| - 1;
    assert rows[i + 1..] == rows[..n][i + 1..] + [rows[n]];
  }

  lemma {:induction false} TotalWithout(rows: seq<Row>, i: nat, q: Query)
    requires i < |rows|
    ensures Total(Without(rows, i), q) == Total(rows, q) - Share(q, rows[i])
  {
    var n := |rows| - 1;
    if i == n {
      WithoutLast(rows);
    } else {
      TotalWithout(rows[..n], i, q);
      WithoutEarly(rows, i);
      TotalAppend(Without(rows[..n], i), rows[n], q);
    }
  }

  // ---------------------------------------------------------------- recording

  predicate SameCounter(a: Row, b: Row) {
    a.tenant == b.tenant && a.metric == b.metric && a.day == b.day
  }

  ghost predicate OneRowEach(rows: seq<Row>) {
    forall i, j :: 0 <= i < j < |rows| ==> !SameCounter(rows[i], rows[j])
  }

  function IndexOf(rows: seq<Row>, r: Row): (i: nat)
    ensures i <= |rows|
    ensures i < |rows| ==> SameCounter(rows[i], r)
    ensures i == |rows| ==> forall k :: 0 <= k < |rows| ==> !SameCounter(rows[k], r)
  {
    if rows == [] then 0
    else
      var i := IndexOf(rows[..|rows| - 1], r);
      if i < |rows| - 1 then i
      else if SameCounter(rows[|rows| - 1], r) then i
      else |rows|
  }

  /** The upsert. */
  function Upserted(rows: seq<Row>, r: Row): seq<Row> {
    var i := IndexOf(rows, r);
    if i < |rows| then rows[i := rows[i].(value := rows[i].value + r.value)] else rows + [r]
  }

  lemma UpsertAdds(rows: seq<Row>, r: Row, q: Query)
    ensures Total(Upserted(rows, r), q) == Total(rows, q) + Share(q, r)
  {
    var i := IndexOf(rows, r);
    if i < |rows| {
      TotalUpdate(rows, i, rows[i].(value := rows[i].value + r.value), q);
    } else {
      TotalAppend(rows, r, q);
    }
  }

  // ---------------------------------------------------------------- runs

  /** `log` is everything recorded; `purged` is everything deleted. */
  datatype State = State(rows: seq<Row>, log: seq<Row>, purged: seq<Row>)

  datatype Step =
    | Record(amount: Row)
    | Purge(cutoff: Day, index: nat)

  predicate Acceptable(r: Row) {
    1 <= |r.metric| <= 128 && r.value >= 1
  }

  /** A purge deletes only rows before its cutoff; a batch is several of these steps. */
  function Apply(s: State, step: Step): State {
    match step
    case Record(r) => if Acceptable(r) then s.(rows := Upserted(s.rows, r), log := s.log + [r]) else s
    case Purge(cutoff, i) =>
      if i < |s.rows| && s.rows[i].day < cutoff
      then s.(rows := Without(s.rows, i), purged := s.purged + [s.rows[i]])
      else s
  }

  function Run(steps: seq<Step>): State {
    if steps == [] then State([], [], []) else Apply(Run(steps[..|steps| - 1]), steps[|steps| - 1])
  }

  /** For every query: what the table still holds and what was purged make up what was recorded. */
  lemma {:induction false} NothingIsLost(steps: seq<Step>, q: Query)
    ensures Total(Run(steps).rows, q) + Total(Run(steps).purged, q) == Total(Run(steps).log, q)
  {
    if steps != [] {
      var s, step := Run(steps[..|steps| - 1]), steps[|steps| - 1];
      NothingIsLost(steps[..|steps| - 1], q);
      if step.Record? && Acceptable(step.amount) {
        UpsertAdds(s.rows, step.amount, q);
        TotalAppend(s.log, step.amount, q);
      } else if step.Purge? && step.index < |s.rows| && s.rows[step.index].day < step.cutoff {
        TotalWithout(s.rows, step.index, q);
        TotalAppend(s.purged, s.rows[step.index], q);
      }
    }
  }

  ghost predicate CutoffsUpTo(steps: seq<Step>, day: Day) {
    forall i :: 0 <= i < |steps| && steps[i].Purge? ==> steps[i].cutoff <= day
  }

  lemma {:induction false} PurgedIsOld(steps: seq<Step>, day: Day)
    requires CutoffsUpTo(steps, day)
    ensures forall i :: 0 <= i < |Run(steps).purged| ==> Run(steps).purged[i].day < day
  {
    if steps != [] {
      PurgedIsOld(steps[..|steps| - 1], day);
    }
  }

  lemma {:induction false} NoShare(rows: seq<Row>, q: Query)
    requires forall i :: 0 <= i < |rows| ==> !Matches(q, rows[i])
    ensures Total(rows, q) == 0
  {
    if rows != [] {
      NoShare(rows[..|rows| - 1], q);
    }
  }

  /** Usage over a window that no purge has reached is exactly what was recorded on its days. */
  lemma UsageIsWhatWasRecorded(steps: seq<Step>, q: Query)
    requires q.since.Some? && CutoffsUpTo(steps, q.since.value)
    ensures Total(Run(steps).rows, q) == Total(Run(steps).log, q)
  {
    NothingIsLost(steps, q);
    PurgedIsOld(steps, q.since.value);
    NoShare(Run(steps).purged, q);
  }

  lemma UpsertKeepsRows(rows: seq<Row>, r: Row)
    requires OneRowEach(rows) && Acceptable(r) && forall i :: 0 <= i < |rows| ==> Acceptable(rows[i])
    ensures OneRowEach(Upserted(rows, r))
    ensures forall i :: 0 <= i < |Upserted(rows, r)| ==> Acceptable(Upserted(rows, r)[i])
  {
  }

  lemma {:induction false} OneRowPerCounter(steps: seq<Step>)
    ensures OneRowEach(Run(steps).rows)
    ensures forall i :: 0 <= i < |Run(steps).rows| ==> Acceptable(Run(steps).rows[i])
    ensures forall i :: 0 <= i < |Run(steps).purged| ==> Acceptable(Run(steps).purged[i])
  {
    if steps != [] {
      OneRowPerCounter(steps[..|steps| - 1]);
      var s, step := Run(steps[..|steps| - 1]), steps[|steps| - 1];
      if step.Record? && Acceptable(step.amount) {
        UpsertKeepsRows(s.rows, step.amount);
      }
    }
  }

  lemma {:induction false} PositiveTotal(rows: seq<Row>, q: Query)
    requires forall i :: 0 <= i < |rows| ==> Acceptable(rows[i])
    ensures Total(rows, q) >= 0
    ensures Total(rows, q) == 0 <==> forall i :: 0 <= i < |rows| ==> !Matches(q, rows[i])
  {
    if rows != [] {
      PositiveTotal(rows[..|rows| - 1], q);
    }
  }

  /** For any window at all, usage is exact if and only if no purged row fell into it. */
  lemma UsageExactly(steps: seq<Step>, q: Query)
    ensures Total(Run(steps).rows, q) == Total(Run(steps).log, q) <==>
            forall i :: 0 <= i < |Run(steps).purged| ==> !Matches(q, Run(steps).purged[i])
    ensures Total(Run(steps).rows, q) <= Total(Run(steps).log, q)
  {
    NothingIsLost(steps, q);
    OneRowPerCounter(steps);
    PositiveTotal(Run(steps).purged, q);
  }

  /** Every accepted amount is in the log, and nothing else. */
  function Accepted(steps: seq<Step>): seq<Row> {
    if steps == [] then []
    else
      var last := steps[|steps| - 1];
      Accepted(steps[..|steps| - 1])
      + if last.Record? && last.amount.metric != "" && |last.amount.metric| <= 128 && last.amount.value > 0
        then [last.amount] else []
  }

  lemma {:induction false} LogIsWhatWasAccepted(steps: seq<Step>)
    ensures Run(steps).log == Accepted(steps)
  {
    if steps != [] {
      LogIsWhatWasAccepted(steps[..|steps| - 1]);
    }
  }

  /** An amount shows in a usage exactly if tenant, metric and day are those asked for. */
  lemma RecordedShows(rows: seq<Row>, r: Row, q: Query)
    ensures Total(Upserted(rows, r), q) - Total(rows, q)
            == if q.tenant == r.tenant && (q.metric == None || q.metric == Some(r.metric))
                  && (q.since.None? || q.since.value <= r.day) && (q.until.None? || r.day <= q.until.value)
               then r.value else 0
  {
    UpsertAdds(rows, r, q);
  }

  /** A purge step deletes the row if it is before the cutoff, and only then. */
  lemma PurgesExactly(s: State, cutoff: Day, i: nat)
    ensures var t := Apply(s, Purge(cutoff, i));
            if i < |s.rows| && s.rows[i].day < cutoff
            then t.purged == s.purged + [s.rows[i]] && multiset(t.rows) == multiset(s.rows) - multiset{s.rows[i]}
            else t == s
  {
    if i < |s.rows| {
      assert s.rows == s.rows[..i] + [s.rows[i]] + s.rows[i + 1..];
    }
  }

  // ---------------------------------------------------------------- windows and the summary

  /** Windows that meet add up. */
  lemma {:induction false} WindowsAddUp(rows: seq<Row>, q: Query, mid: Day)
    requires q.since.Some? ==> q.since.value <= mid + 1
    requires q.until.Some? ==> mid <= q.until.value
    ensures Total(rows, q) == Total(rows, q.(until := Some(mid))) + Total(rows, q.(since := Some(mid + 1)))
  {
    if rows != [] {
      WindowsAddUp(rows[..|rows| - 1], q, mid);
    }
  }

  /** Totals grouped by metric. */
  function Summary(rows: seq<Row>, q: Query): map<string, int> {
    if rows == [] then map[]
    else
      var before, r := Summary(rows[..|rows| - 1], q), rows[|rows| - 1];
      if !Matches(q, r) then before
      else before[r.metric := r.value + if r.metric in before then before[r.metric] else 0]
  }

  /** The summary holds the usage of each metric, and the metrics it leaves out have no row there. */
  lemma {:induction false} SummaryAgrees(rows: seq<Row>, q: Query, metric: string)
    requires q.metric.None?
    ensures metric in Summary(rows, q) ==> Summary(rows, q)[metric] == Total(rows, q.(metric := Some(metric)))
    ensures metric in Summary(rows, q) <==> exists i :: 0 <= i < |rows| && Matches(q.(metric := Some(metric)), rows[i])
    ensures metric !in Summary(rows, q) ==> Total(rows, q.(metric := Some(metric))) == 0
  {
    if rows != [] {
      var n := |rows| - 1;
      var one := q.(metric := Some(metric));
      SummaryAgrees(rows[..n], q, metric);
      if metric in Summary(rows[..n], q) {
        var i :| 0 <= i < n && Matches(one, rows[..n][i]);
        assert Matches(one, rows[i]);
      }
      assert Matches(one, rows[n]) <==> Matches(q, rows[n]) && rows[n].metric == metric;
      if metric !in Summary(rows, q) {
        NoShare(rows, one);
      }
    }
  }

  // ---------------------------------------------------------------- retention

  const SWEEP_BATCH := 1000
  const MAX_DRAIN_BATCHES := 100

  /** The rows that a cutoff leaves alone, in their order. */
  function Kept(rows: seq<Row>, cutoff: Day): seq<Row> {
    if rows == [] then []
    else Kept(rows[..|rows| - 1], cutoff) + if rows[|rows| - 1].day < cutoff then [] else [rows[|rows| - 1]]
  }

  function CountExpired(rows: seq<Row>, cutoff: Day): nat {
    if rows == [] then 0
    else CountExpired(rows[..|rows| - 1], cutoff) + if rows[|rows| - 1].day < cutoff then 1 else 0
  }

  lemma {:induction false} NoneExpired(rows: seq<Row>, cutoff: Day)
    ensures CountExpired(rows, cutoff) == 0 <==> forall i :: 0 <= i < |rows| ==> rows[i].day >= cutoff
  {
    if rows != [] {
      NoneExpired(rows[..|rows| - 1], cutoff);
    }
  }

  lemma KeptAppend(rows: seq<Row>, r: Row, cutoff: Day)
    ensures Kept(rows + [r], cutoff) == Kept(rows, cutoff) + if r.day < cutoff then [] else [r]
  {
    assert (rows + [r])[..|rows|] == rows;
  }

  lemma {:induction false} KeptWithout(rows: seq<Row>, i: nat, cutoff: Day)
    requires i < |rows| && rows[i].day < cutoff
    ensures Kept(Without(rows, i), cutoff) == Kept(rows, cutoff)
  {
    var n := |rows| - 1;
    if i == n {
      WithoutLast(rows);
    } else {
      KeptWithout(rows[..n], i, cutoff);
      WithoutEarly(rows, i);
      KeptAppend(Without(rows[..n], i), rows[n], cutoff);
    }
  }

  lemma ExpiredAppend(rows: seq<Row>, r: Row, cutoff: Day)
    ensures CountExpired(rows + [r], cutoff) == CountExpired(rows, cutoff) + if r.day < cutoff then 1 else 0
  {
    assert (rows + [r])[..|rows|] == rows;
  }

  lemma {:induction false} ExpiredWithout(rows: seq<Row>, i: nat, cutoff: Day)
    requires i < |rows|
    ensures CountExpired(Without(rows, i), cutoff) == CountExpired(rows, cutoff) - if rows[i].day < cutoff then 1 else 0
  {
    var n := |rows| - 1;
    if i == n {
      WithoutLast(rows);
    } else {
      ExpiredWithout(rows[..n], i, cutoff);
      WithoutEarly(rows, i);
      ExpiredAppend(Without(rows[..n], i), rows[n], cutoff);
    }
  }

  lemma {:induction false} ExpiredUpdate(rows: seq<Row>, i: nat, r: Row, cutoff: Day)
    requires i < |rows| && r.day == rows[i].day
    ensures CountExpired(rows[i := r], cutoff) == CountExpired(rows, cutoff)
  {
    var n := |rows| - 1;
    if i == n {
      assert rows[i := r] == rows[..n] + [r];
      ExpiredAppend(rows[..n], r, cutoff);
    } else {
      ExpiredUpdate(rows[..n], i, r, cutoff);
      UpdateEarly(rows, i, r);
      ExpiredAppend(rows[..n][i := r], rows[n], cutoff);
    }
  }

  lemma {:induction false} ExpiredAll(rows: seq<Row>, cutoff: Day)
    ensures CountExpired(rows, cutoff) <= |rows|
    ensures (forall i :: 0 <= i < |rows| ==> rows[i].day < cutoff) ==> CountExpired(rows, cutoff) == |rows|
  {
    if rows != [] {
      ExpiredAll(rows[..|rows| - 1], cutoff);
    }
  }

  lemma {:induction false} ExpiredMonotone(rows: seq<Row>, a: Day, b: Day)
    requires a <= b
    ensures CountExpired(rows, a) <= CountExpired(rows, b)
  {
    if rows != [] {
      ExpiredMonotone(rows[..|rows| - 1], a, b);
    }
  }

  /** The deleted rows were expired, and none that is left is older. */
  ghost predicate OldestOf(victims: seq<Row>, rows: seq<Row>, cutoff: Day) {
    && (forall v :: 0 <= v < |victims| ==> victims[v].day < cutoff)
    && (forall v, k :: 0 <= v < |victims| && 0 <= k < |rows| ==> victims[v].day <= rows[k].day)
  }

  /** Every query finds its total in the two parts together, and every cutoff its rows. */
  ghost predicate Splits(all: seq<Row>, rows: seq<Row>, victims: seq<Row>) {
    && (forall q :: Total(all, q) == Total(rows, q) + Total(victims, q))
    && (forall c :: CountExpired(all, c) == CountExpired(rows, c) + CountExpired(victims, c))
  }

  lemma OldestTaken(victims: seq<Row>, rows: seq<Row>, i: nat, cutoff: Day)
    requires OldestOf(victims, rows, cutoff) && i < |rows| && rows[i].day < cutoff
    requires forall k :: 0 <= k < |rows| ==> rows[i].day <= rows[k].day
    ensures OldestOf(victims + [rows[i]], Without(rows, i), cutoff)
  {
  }

  lemma SplitMoves(all: seq<Row>, rows: seq<Row>, victims: seq<Row>, i: nat)
    requires Splits(all, rows, victims) && i < |rows|
    ensures Splits(all, Without(rows, i), victims + [rows[i]])
  {
    forall q ensures Total(all, q) == Total(Without(rows, i), q) + Total(victims + [rows[i]], q) {
      TotalWithout(rows, i, q);
      TotalAppend(victims, rows[i], q);
    }
    forall c ensures CountExpired(all, c) == CountExpired(Without(rows, i), c) + CountExpired(victims + [rows[i]], c) {
      ExpiredWithout(rows, i, c);
      ExpiredAppend(victims, rows[i], c);
    }
  }

  function Least(a: nat, b: nat): nat {
    if a < b then a else b
  }

  class Table {
    var rows: seq<Row>

    constructor ()
      ensures rows == []
    {
      rows := [];
    }

    method Record(r: Row) returns (answer: Outcome<()>)
      modifies this
      ensures answer == if 1 <= |r.metric| <= 128 && r.value >= 1 then Ok(()) else Err(InvariantViolation)
      ensures answer.Ok? ==> rows == Upserted(old(rows), r)
      ensures answer.Err? ==> rows == old(rows)
      ensures forall q :: Total(rows, q) == Total(old(rows), q) + if answer.Ok? then Share(q, r) else 0
    {
      if |r.metric| == 0 || |r.metric| > 128 {
        return Err(InvariantViolation);
      }
      if r.value < 1 {
        return Err(InvariantViolation);
      }
      forall q ensures Total(Upserted(rows, r), q) == Total(rows, q) + Share(q, r) {
        UpsertAdds(rows, r, q);
      }
      var i := IndexOf(rows, r);
      if i < |rows| {
        rows := rows[i := rows[i].(value := rows[i].value + r.value)];
      } else {
        rows := rows + [r];
      }
      answer := Ok(());
    }

    method Usage(q: Query) returns (total: int)
      ensures total == Total(rows, q)
    {
      total := 0;
      for i := 0 to |rows|
        invariant total == Total(rows[..i], q)
      {
        assert rows[..i + 1][..i] == rows[..i];
        if Matches(q, rows[i]) {
          total := total + rows[i].value;
        }
      }
      assert rows[..|rows|] == rows;
    }

    /** The oldest expired row, if there is one. */
    method OldestExpired(cutoff: Day) returns (i: nat)
      ensures i <= |rows|
      ensures i == |rows| <==> CountExpired(rows, cutoff) == 0
      ensures i < |rows| ==> rows[i].day < cutoff && forall k :: 0 <= k < |rows| ==> rows[i].day <= rows[k].day
    {
      NoneExpired(rows, cutoff);
      i := |rows|;
      for k := 0 to |rows|
        invariant i == |rows| || i < k
        invariant i == |rows| ==> forall j :: 0 <= j < k ==> rows[j].day >= cutoff
        invariant i < |rows| ==> rows[i].day < cutoff && forall j :: 0 <= j < k ==> rows[i].day <= rows[j].day
      {
        if rows[k].day < cutoff && (i == |rows| || rows[k].day < rows[i].day) {
          i := k;
        }
      }
    }

    /** Delete one bounded batch of expired rows, the oldest first. */
    method PurgeExpired(cutoff: Day) returns (deleted: nat, ghost victims: seq<Row>)
      modifies this
      ensures deleted == |victims| == Least(CountExpired(old(rows), cutoff), SWEEP_BATCH)
      ensures CountExpired(rows, cutoff) == CountExpired(old(rows), cutoff) - deleted
      ensures Kept(rows, cutoff) == Kept(old(rows), cutoff)
      ensures OldestOf(victims, rows, cutoff) && Splits(old(rows), rows, victims)
    {
      deleted, victims := 0, [];
      var i: nat := OldestExpired(cutoff);
      while deleted < SWEEP_BATCH && i < |rows|
        invariant deleted == |victims| <= SWEEP_BATCH && i <= |rows|
        invariant i == |rows| <==> CountExpired(rows, cutoff) == 0
        invariant i < |rows| ==> rows[i].day < cutoff && forall k :: 0 <= k < |rows| ==> rows[i].day <= rows[k].day
        invariant CountExpired(rows, cutoff) + deleted == CountExpired(old(rows), cutoff)
        invariant Kept(rows, cutoff) == Kept(old(rows), cutoff)
        invariant OldestOf(victims, rows, cutoff) && Splits(old(rows), rows, victims)
        decreases SWEEP_BATCH - deleted
      {
        KeptWithout(rows, i, cutoff);
        ExpiredWithout(rows, i, cutoff);
        OldestTaken(victims, rows, i, cutoff);
        SplitMoves(old(rows), rows, victims, i);
        victims := victims + [rows[i]];
        rows := rows[..i] + rows[i + 1..];
        deleted := deleted + 1;
        i := OldestExpired(cutoff);
      }
    }

    /** What other transactions record between two sweeps. */
    method RecordAll(amounts: seq<Row>)
      requires AllAcceptable(amounts)
      modifies this
      ensures forall q :: Total(rows, q) == Total(old(rows), q) + Total(amounts, q)
      ensures forall c :: Between(CountExpired(rows, c), CountExpired(old(rows), c), CountExpired(amounts, c))
    {
      for i := 0 to |amounts|
        invariant forall q :: Total(rows, q) == Total(old(rows), q) + Total(amounts[..i], q)
        invariant forall c :: Between(CountExpired(rows, c), CountExpired(old(rows), c), CountExpired(amounts[..i], c))
      {
        assert amounts[..i + 1] == amounts[..i] + [amounts[i]];
        forall c ensures Between(CountExpired(Upserted(rows, amounts[i]), c), CountExpired(old(rows), c),
                                 CountExpired(amounts[..i + 1], c))
        {
          UpsertExpires(rows, amounts[i], c);
          ExpiredAppend(amounts[..i], amounts[i], c);
        }
        forall q ensures Total(amounts[..i + 1], q) == Total(amounts[..i], q) + Share(q, amounts[i]) {
          TotalAppend(amounts[..i], amounts[i], q);
        }
        var _ := Record(amounts[i]);
      }
      assert amounts[..|amounts|] == amounts;
    }

    /** What is recorded before a sweep and the sweep itself, seen from an earlier and a later cutoff. */
    method SweepOnce(cutoff: Day, amounts: seq<Row>, ghost first: Day, ghost last: Day)
      returns (deleted: nat, ghost gone: seq<Row>)
      requires first <= cutoff <= last
      requires AllAcceptable(amounts)
      modifies this
      ensures deleted == |gone| <= SWEEP_BATCH && (CountExpired(rows, first) > 0 ==> deleted == SWEEP_BATCH)
      ensures CountExpired(old(rows), first) <= CountExpired(rows, first) + deleted
      ensures Between(CountExpired(rows, last) + deleted, CountExpired(old(rows), last), CountExpired(amounts, last))
      ensures AllBefore(gone, last) && Accounts(old(rows), amounts, rows, gone)
    {
      RecordAll(amounts);
      ghost var before := rows;
      deleted, gone := PurgeExpired(cutoff);
      SweepCounted(before, rows, gone, first, cutoff, last);
    }

    /** One more sweep of a drain. */
    method SweepNext(cutoffs: seq<Day>, arrivals: seq<seq<Row>>, i: nat, ghost was: seq<Row>, ghost victims: seq<Row>)
      returns (deleted: nat, ghost gone: seq<Row>)
      requires DrainInputs(cutoffs, arrivals) && i < MAX_DRAIN_BATCHES
      requires Drained(was, arrivals, i, rows, victims, cutoffs[0], cutoffs[|cutoffs| - 1])
      modifies this
      ensures deleted == |gone|
      ensures Drained(was, arrivals, i + 1, rows, victims + gone, cutoffs[0], cutoffs[|cutoffs| - 1])
      ensures deleted == 0 ==> CountExpired(was, cutoffs[0]) <= |victims|
    {
      ghost var before := rows;
      ghost var first, last := cutoffs[0], cutoffs[|cutoffs| - 1];
      deleted, gone := SweepOnce(cutoffs[i], arrivals[i], first, last);
      DrainTurn(was, arrivals, i, before, victims, rows, gone, first, last);
    }

    /**
     Sweep until nothing is left to delete, or the cap on sweeps is met. Each sweep has the cutoff
     of its own moment, and others record between the sweeps, for any day. What the first cutoff
     expires goes unless it exceeds the cap; nothing goes that the last cutoff keeps, and no more
     than was expired or was recorded for an expired day meanwhile.
     */
    method Drain(cutoffs: seq<Day>, arrivals: seq<seq<Row>>)
      returns (total: nat, ghost sweeps: nat, ghost victims: seq<Row>)
      requires DrainInputs(cutoffs, arrivals)
      modifies this
      ensures sweeps <= MAX_DRAIN_BATCHES && Accounts(old(rows), Flat(arrivals[..sweeps]), rows, victims)
      ensures var first, last := cutoffs[0], cutoffs[|cutoffs| - 1];
              var came := CountExpired(Flat(arrivals[..sweeps]), last);
              && Least(CountExpired(old(rows), first), MAX_DRAIN_BATCHES * SWEEP_BATCH) <= total
              && total <= Least(CountExpired(old(rows), last) + came, MAX_DRAIN_BATCHES * SWEEP_BATCH)
              && total == |victims| && AllBefore(victims, last)
              && Between(CountExpired(rows, last) + total, CountExpired(old(rows), last), came)
    {
      total, sweeps, victims := 0, 0, [];
      ghost var first, last := cutoffs[0], cutoffs[|cutoffs| - 1];
      for i := 0 to MAX_DRAIN_BATCHES
        invariant sweeps == i && total == |victims| && Drained(old(rows), arrivals, i, rows, victims, first, last)
      {
        var deleted, gone := SweepNext(cutoffs, arrivals, i, old(rows), victims);
        sweeps, victims := i + 1, victims + gone;
        total := total + deleted;
        if deleted == 0 {
          break;
        }
      }
    }
  }

  /** Where a drain stands after `i` sweeps. */
  ghost predicate Drained(was: seq<Row>, arrivals: seq<seq<Row>>, i: nat, rows: seq<Row>, victims: seq<Row>,
                          first: Day, last: Day)
    requires i <= |arrivals|
  {
    && Least(CountExpired(was, first), i * SWEEP_BATCH) <= |victims| <= i * SWEEP_BATCH
    && CountExpired(was, first) <= CountExpired(rows, first) + |victims|
    && Between(CountExpired(rows, last) + |victims|, CountExpired(was, last), CountExpired(Flat(arrivals[..i]), last))
    && AllBefore(victims, last)
    && Accounts(was, Flat(arrivals[..i]), rows, victims)
  }

  ghost predicate AllAcceptable(rows: seq<Row>) {
    forall i :: 0 <= i < |rows| ==> Acceptable(rows[i])
  }

  predicate Between(n: int, least: int, more: int) {
    least <= n <= least + more
  }

  /** Cutoffs that never move back, and recordings that the service accepts. */
  ghost predicate DrainInputs(cutoffs: seq<Day>, arrivals: seq<seq<Row>>) {
    && |cutoffs| == |arrivals| == MAX_DRAIN_BATCHES
    && (forall i, j :: 0 <= i <= j < |cutoffs| ==> cutoffs[i] <= cutoffs[j])
    && (forall i :: 0 <= i < |arrivals| ==> AllAcceptable(arrivals[i]))
  }

  function Flat(arrivals: seq<seq<Row>>): seq<Row> {
    if arrivals == [] then [] else Flat(arrivals[..|arrivals| - 1]) + arrivals[|arrivals| - 1]
  }

  lemma UpsertExpires(rows: seq<Row>, r: Row, cutoff: Day)
    ensures Between(CountExpired(Upserted(rows, r), cutoff), CountExpired(rows, cutoff),
                    if r.day < cutoff then 1 else 0)
  {
    var i := IndexOf(rows, r);
    if i < |rows| {
      ExpiredUpdate(rows, i, rows[i].(value := rows[i].value + r.value), cutoff);
    } else {
      ExpiredAppend(rows, r, cutoff);
    }
  }

  lemma {:induction false} ExpiredConcat(a: seq<Row>, b: seq<Row>, cutoff: Day)
    ensures CountExpired(a + b, cutoff) == CountExpired(a, cutoff) + CountExpired(b, cutoff)
  {
    if b == [] {
      assert a + b == a;
    } else {
      var n := |b| - 1;
      ExpiredConcat(a, b[..n], cutoff);
      assert b == b[..n] + [b[n]];
      assert a + b == a + b[..n] + [b[n]];
      ExpiredAppend(a + b[..n], b[n], cutoff);
    }
  }

  lemma {:induction false} TotalConcat(a: seq<Row>, b: seq<Row>, q: Query)
    ensures Total(a + b, q) == Total(a, q) + Total(b, q)
  {
    if b == [] {
      assert a + b == a;
    } else {
      var n := |b| - 1;
      TotalConcat(a, b[..n], q);
      assert a + b == a + b[..n] + [b[n]];
      TotalAppend(a + b[..n], b[n], q);
    }
  }

  ghost predicate AllBefore(rows: seq<Row>, cutoff: Day) {
    forall i :: 0 <= i < |rows| ==> rows[i].day < cutoff
  }

  /** What was there and what came in is what is there and what went out, for every query. */
  ghost predicate Accounts(was: seq<Row>, came: seq<Row>, now: seq<Row>, gone: seq<Row>) {
    forall q :: Total(was, q) + Total(came, q) == Total(now, q) + Total(gone, q)
  }

  lemma AccountsMore(was: seq<Row>, came: seq<Row>, mid: seq<Row>, gone: seq<Row>, more: seq<Row>, now: seq<Row>,
                     lost: seq<Row>)
    requires Accounts(was, came, mid, gone) && Accounts(mid, more, now, lost)
    ensures Accounts(was, came + more, now, gone + lost)
  {
    forall q ensures Total(was, q) + Total(came + more, q) == Total(now, q) + Total(gone + lost, q) {
      TotalConcat(came, more, q);
      TotalConcat(gone, lost, q);
      assert Total(was, q) + Total(came, q) == Total(mid, q) + Total(gone, q);
      assert Total(mid, q) + Total(more, q) == Total(now, q) + Total(lost, q);
    }
  }

  lemma DrainTurn(was: seq<Row>, arrivals: seq<seq<Row>>, i: nat, mid: seq<Row>, victims: seq<Row>, rows: seq<Row>,
                  gone: seq<Row>, first: Day, last: Day)
    requires i < |arrivals| && Drained(was, arrivals, i, mid, victims, first, last)
    requires |gone| <= SWEEP_BATCH && (CountExpired(rows, first) > 0 ==> |gone| == SWEEP_BATCH)
    requires CountExpired(mid, first) <= CountExpired(rows, first) + |gone|
    requires Between(CountExpired(rows, last) + |gone|, CountExpired(mid, last), CountExpired(arrivals[i], last))
    requires AllBefore(gone, last) && Accounts(mid, arrivals[i], rows, gone)
    ensures Drained(was, arrivals, i + 1, rows, victims + gone, first, last)
    ensures gone == [] ==> CountExpired(was, first) <= |victims|
  {
    assert arrivals[..i + 1][..i] == arrivals[..i];
    AccountsMore(was, Flat(arrivals[..i]), mid, victims, arrivals[i], rows, gone);
    ExpiredConcat(Flat(arrivals[..i]), arrivals[i], last);
  }

  /** One sweep, seen from an earlier and from a later cutoff. */
  lemma SweepCounted(before: seq<Row>, rows: seq<Row>, gone: seq<Row>, first: Day, cutoff: Day, last: Day)
    requires first <= cutoff <= last && Splits(before, rows, gone)
    requires forall v :: 0 <= v < |gone| ==> gone[v].day < cutoff
    ensures CountExpired(rows, first) <= CountExpired(before, first) <= CountExpired(rows, first) + |gone|
    ensures CountExpired(rows, last) + |gone| == CountExpired(before, last)
    ensures CountExpired(rows, first) <= CountExpired(rows, cutoff)
  {
    ExpiredAll(gone, first);
    ExpiredAll(gone, last);
    ExpiredMonotone(rows, first, cutoff);
  }
}
