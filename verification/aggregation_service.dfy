/** The operations of `PartnerAggregationService` as functions from the log
    table and the aggregation table to what the call returns and the
    aggregation table it leaves behind. */
module AggregationService {
  import opened Common
  import opened UserLog
  import opened Aggregation
  import opened AggregationRepository

  /** What a service call returns, and the aggregation table afterwards. */
  datatype Outcome = Outcome(returned: seq<AggRow>, table: Table)

  // ---------------------------------------------------------------------------
  // aggregateByPartnerId

  /** Delete the rows dated `date`, then save and return one row per
      non-NULL partner. */
  function AggregateByPartnerId(logs: seq<LogRow>, table: Table, date: int): (o: Outcome)
    ensures FindByAggregationDate(o.table, date) == o.returned
    ensures DeleteByAggregationDate(o.table, date) == DeleteByAggregationDate(table, date)
  {
    var rows := QueryByPartner(logs, date);
    var after := SaveAll(DeleteByAggregationDate(table, date), rows);
    QueryByPartnerDated(logs, date);
    FindByDateAfterSave(DeleteByAggregationDate(table, date), rows, date);
    FindAfterDelete(table, date);
    DeleteByDateAfterSave(DeleteByAggregationDate(table, date), rows, date);
    DeleteByDateIdempotent(table, date);
    Outcome(rows, after)
  }

  /** Running `aggregateByPartnerId` twice over unchanged logs returns the same
      rows and leaves the same table as running it once. */
  lemma AggregateByPartnerIdIdempotent(logs: seq<LogRow>, table: Table, date: int)
    ensures var once := AggregateByPartnerId(logs, table, date);
      AggregateByPartnerId(logs, once.table, date) == once
  {
    var once := AggregateByPartnerId(logs, table, date);
    var rows := QueryByPartner(logs, date);
    QueryByPartnerDated(logs, date);
    DeleteByDateAfterSave(DeleteByAggregationDate(table, date), rows, date);
    DeleteByDateIdempotent(table, date);
  }

  // ---------------------------------------------------------------------------
  // aggregateByPartnerIdAndDateRange

  /** Delete the partner's rows dated in [start, end), then save and return
      the partner's row for the window, if it has log rows there. */
  function AggregateByPartnerIdAndDateRange(logs: seq<LogRow>, table: Table, pid: string, start: int, end: int): (o: Outcome)
    ensures |o.returned| <= 1
    ensures forall i :: 0 <= i < |o.returned| ==> o.returned[i].partnerId == Some(pid) && o.returned[i].aggregationDate == start
    ensures o.table == DeleteByPartnerIdAndAggregationDateBetween(table, pid, start, end) + o.returned
  {
    var rows := QueryByPartnerInRange(logs, pid, start, end);
    QueryByPartnerInRangeShape(logs, pid, start, end);
    Outcome(rows, SaveAll(DeleteByPartnerIdAndAggregationDateBetween(table, pid, start, end), rows))
  }

  /** Running the partner/range aggregation twice over unchanged logs returns
      the same rows and leaves the same table as running it once: the saved
      row is dated `start`, inside the deleted window, and when the window is
      empty nothing is saved at all. */
  lemma AggregateByPartnerIdAndDateRangeIdempotent(logs: seq<LogRow>, table: Table, pid: string, start: int, end: int)
    ensures var once := AggregateByPartnerIdAndDateRange(logs, table, pid, start, end);
      AggregateByPartnerIdAndDateRange(logs, once.table, pid, start, end) == once
  {
    var rows := QueryByPartnerInRange(logs, pid, start, end);
    var cleared := DeleteByPartnerIdAndAggregationDateBetween(table, pid, start, end);
    QueryByPartnerInRangeShape(logs, pid, start, end);
    DeleteByPartnerDatesIdempotent(table, pid, start, end);
    if start < end {
      DeleteByPartnerDatesAfterSave(cleared, rows, pid, start, end);
    } else {
      QueryByPartnerInRangeEmptyWindow(logs, pid, start, end);
      assert SaveAll(cleared, rows) == cleared;
    }
  }

  // ---------------------------------------------------------------------------
  // aggregateByDateRange, saveBatchData

  /** Build the rows of every partner_id value in the window, dated `start`;
      the aggregation table is not touched. */
  function AggregateByDateRange(logs: seq<LogRow>, table: Table, start: int, end: int): (o: Outcome)
    ensures o.table == table
    ensures forall i :: 0 <= i < |o.returned| ==> o.returned[i].aggregationDate == start
  {
    QueryByRangeDated(logs, start, end);
    Outcome(QueryByRange(logs, start, end), table)
  }

  /** Save each row in turn and count the non-null results of `save`. */
  method SaveBatchData(table: Table, aggregations: seq<AggRow>) returns (savedCount: nat, after: Table)
    ensures savedCount == |aggregations|
    ensures after == table + aggregations
  {
    savedCount := 0;
    after := table;
    var i := 0;
    while i < |aggregations|
      invariant 0 <= i <= |aggregations|
      invariant savedCount == i
      invariant after == table + aggregations[..i]
    {
      var saved := Save(after, aggregations[i]);
      after := saved.table;
      if saved.result.Some? {
        savedCount := savedCount + 1;
      }
      assert aggregations[..i + 1] == aggregations[..i] + [aggregations[i]];
      i := i + 1;
    }
    assert aggregations[..i] == aggregations;
  }

  /** `getAggregationsByDate` */
  function GetAggregationsByDate(table: Table, date: int): Table {
    FindByAggregationDate(table, date)
  }

  /** `getTotalAggregationCount` */
  function GetTotalAggregationCount(table: Table): nat {
    CountAllData(table)
  }

  /** After `aggregateByPartnerId`, reading the date back gives the returned
      rows, and the total count changed by the returned rows minus the rows
      the date held before. */
  lemma AggregateThenRead(logs: seq<LogRow>, table: Table, date: int)
    ensures var o := AggregateByPartnerId(logs, table, date);
      && GetAggregationsByDate(o.table, date) == o.returned
      && GetTotalAggregationCount(o.table) + |GetAggregationsByDate(table, date)|
         == GetTotalAggregationCount(table) + |o.returned|
  {
    DeleteFindPartition(table, date);
  }

  // ---------------------------------------------------------------------------
  // aggregateByPartnerAndPeriod

  /** Save one row per period of the partner's window; nothing is deleted
      first. The rows kept are the old table; the rows appended are the
      partner's, typed and dated by the request, one per period key, and every
      partner row created in the window has its period's row among them. */
  function AggregateByPartnerAndPeriod(logs: seq<LogRow>, table: Table, pid: string, start: int, end: int,
                                       t: AggregationType, dateFormat: (string, int) -> string): (after: Table)
    ensures |after| == |table| + |QueryByPeriod(logs, pid, start, end, t, dateFormat)|
    ensures after[..|table|] == table
    ensures forall i :: |table| <= i < |after| ==>
      && after[i].partnerId == Some(pid)
      && after[i].aggregationType == Some(t.Name())
      && after[i].aggregationKey.Some?
      && after[i].aggregationDate == start
    ensures forall i, j :: |table| <= i < j < |after| ==> after[i].aggregationKey != after[j].aggregationKey
    ensures forall j :: 0 <= j < |logs| && CreatedInPartnerWindow(pid, start, end)(logs[j]) ==>
      exists i :: |table| <= i < |after| && after[i].aggregationKey == Some(dateFormat(GroupByFormat(t), logs[j].createdAt))
  {
    PeriodRowsAppended(logs, table, pid, start, end, t, dateFormat);
    SaveAll(table, QueryByPeriod(logs, pid, start, end, t, dateFormat))
  }

  /** What saving the period rows adds to the table: the period query's
      partner, key and coverage facts, shifted past the old rows. */
  lemma PeriodRowsAppended(logs: seq<LogRow>, table: Table, pid: string, start: int, end: int,
                           t: AggregationType, dateFormat: (string, int) -> string)
    ensures var after := SaveAll(table, QueryByPeriod(logs, pid, start, end, t, dateFormat));
      && (forall i :: |table| <= i < |after| ==>
            && after[i].partnerId == Some(pid)
            && after[i].aggregationType == Some(t.Name())
            && after[i].aggregationKey.Some?
            && after[i].aggregationDate == start)
      && (forall i, j :: |table| <= i < j < |after| ==> after[i].aggregationKey != after[j].aggregationKey)
      && (forall j :: 0 <= j < |logs| && CreatedInPartnerWindow(pid, start, end)(logs[j]) ==>
            exists i :: |table| <= i < |after| && after[i].aggregationKey == Some(dateFormat(GroupByFormat(t), logs[j].createdAt)))
  {
    var rs := QueryByPeriod(logs, pid, start, end, t, dateFormat);
    var after := SaveAll(table, rs);
    QueryByPeriodRows(logs, pid, start, end, t, dateFormat);
    QueryByPeriodKeysDistinct(logs, pid, start, end, t, dateFormat);
    QueryByPeriodCoversRows(logs, pid, start, end, t, dateFormat);
    assert forall i :: |table| <= i < |after| ==> after[i] == rs[i - |table|];
    forall j | 0 <= j < |logs| && CreatedInPartnerWindow(pid, start, end)(logs[j])
      ensures exists i :: |table| <= i < |after| && after[i].aggregationKey == Some(dateFormat(GroupByFormat(t), logs[j].createdAt))
    {
      var i :| 0 <= i < |rs| && rs[i].aggregationKey == Some(dateFormat(GroupByFormat(t), logs[j].createdAt));
      assert after[|table| + i] == rs[i];
    }
  }

  /** A second run over unchanged logs appends the same period rows again:
      the period aggregation is not idempotent whenever it produces a row. */
  lemma PeriodRerunAppends(logs: seq<LogRow>, table: Table, pid: string, start: int, end: int,
                           t: AggregationType, dateFormat: (string, int) -> string)
    ensures var rows := QueryByPeriod(logs, pid, start, end, t, dateFormat);
      var once := AggregateByPartnerAndPeriod(logs, table, pid, start, end, t, dateFormat);
      var twice := AggregateByPartnerAndPeriod(logs, once, pid, start, end, t, dateFormat);
      && twice == table + rows + rows
      && (|rows| > 0 <==> twice != once)
  {
    var rows := QueryByPeriod(logs, pid, start, end, t, dateFormat);
    var once := AggregateByPartnerAndPeriod(logs, table, pid, start, end, t, dateFormat);
    var twice := AggregateByPartnerAndPeriod(logs, once, pid, start, end, t, dateFormat);
    assert |twice| == |once| + |rows|;
  }
}
