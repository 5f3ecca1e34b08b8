/** The `partner_aggregation` table and the queries of
    `PartnerAggregationRepository`, over the table as a sequence of rows in
    insertion order. Generated primary keys are not modelled, so `save` is an
    append. */
module AggregationRepository {
  import opened Common
  import opened Aggregation

  type Table = seq<AggRow>

  /** `aggregation_date = d` */
  function DatedOn(d: int): AggRow -> bool {
    (r: AggRow) => r.aggregationDate == d
  }

  function NotDatedOn(d: int): AggRow -> bool {
    (r: AggRow) => r.aggregationDate != d
  }

  /** NOT (`partner_id = p AND aggregation_date >= s AND aggregation_date < e`);
      a NULL partner_id never matches the condition. */
  function NotInPartnerDates(pid: string, s: int, e: int): AggRow -> bool {
    (r: AggRow) => !(r.partnerId == Some(pid) && s <= r.aggregationDate < e)
  }

  /** `aggregation_type = ty AND aggregation_key = k` */
  function TypedKey(ty: string, k: string): AggRow -> bool {
    (r: AggRow) => r.aggregationType == Some(ty) && r.aggregationKey == Some(k)
  }

  /** NOT (`partner_id = p AND aggregation_type = ty AND aggregation_key = k`) */
  function NotPartnerTypedKey(pid: string, ty: string, k: string): AggRow -> bool {
    (r: AggRow) => !(r.partnerId == Some(pid) && r.aggregationType == Some(ty) && r.aggregationKey == Some(k))
  }

  /** `deleteByAggregationDate`: exactly the rows dated `d` disappear, every
      other row stays with its multiplicity. */
  function DeleteByAggregationDate(t: Table, d: int): (r: Table)
    ensures forall x :: multiset(r)[x] == if x.aggregationDate == d then 0 else multiset(t)[x]
  {
    FilterMultiset(t, NotDatedOn(d));
    Filter(t, NotDatedOn(d))
  }

  /** `findByAggregationDate`: exactly the rows dated `d`, each as often as
      the table holds it. */
  function FindByAggregationDate(t: Table, d: int): (r: Table)
    ensures forall x :: multiset(r)[x] == if x.aggregationDate == d then multiset(t)[x] else 0
  {
    FilterMultiset(t, DatedOn(d));
    Filter(t, DatedOn(d))
  }

  /** `countAllData`: SELECT COUNT(*). */
  function CountAllData(t: Table): (n: nat)
    ensures n == |multiset(t)|
  {
    |t|
  }

  /** `deleteByPartnerIdAndAggregationDateBetween`: exactly the rows of `pid`
      dated in [s, e) disappear. */
  function DeleteByPartnerIdAndAggregationDateBetween(t: Table, pid: string, s: int, e: int): (r: Table)
    ensures forall x :: multiset(r)[x] ==
                        (if x.partnerId == Some(pid) && s <= x.aggregationDate < e then 0 else multiset(t)[x])
  {
    FilterMultiset(t, NotInPartnerDates(pid, s, e));
    Filter(t, NotInPartnerDates(pid, s, e))
  }

  /** `findByAggregationTypeAndAggregationKey`: exactly the rows with that type
      and key. */
  function FindByAggregationTypeAndAggregationKey(t: Table, ty: string, k: string): (r: Table)
    ensures forall x :: multiset(r)[x] ==
                        (if x.aggregationType == Some(ty) && x.aggregationKey == Some(k) then multiset(t)[x] else 0)
  {
    FilterMultiset(t, TypedKey(ty, k));
    Filter(t, TypedKey(ty, k))
  }

  /** `deleteByPartnerIdAndAggregationTypeAndAggregationKey`: exactly the rows
      matching all three columns disappear. */
  function DeleteByPartnerIdAndAggregationTypeAndAggregationKey(t: Table, pid: string, ty: string, k: string): (r: Table)
    ensures forall x :: multiset(r)[x] ==
                        (if x.partnerId == Some(pid) && x.aggregationType == Some(ty) && x.aggregationKey == Some(k)
                         then 0 else multiset(t)[x])
  {
    FilterMultiset(t, NotPartnerTypedKey(pid, ty, k));
    Filter(t, NotPartnerTypedKey(pid, ty, k))
  }

  /** `save` of a new entity: the row is added, and the saved entity (never
      null) is returned. */
  datatype Saved = Saved(table: Table, result: Option<AggRow>)

  function Save(t: Table, row: AggRow): (s: Saved)
    ensures multiset(s.table) == multiset(t) + multiset{row}
    ensures s.result == Some(row)
  {
    Saved(t + [row], Some(row))
  }

  /** Saving rows one after the other. */
  function SaveAll(t: Table, rows: seq<AggRow>): (r: Table)
    ensures multiset(r) == multiset(t) + multiset(rows)
    ensures |r| == |t| + |rows|
  {
    t + rows
  }

  /** After deleting the rows dated `d`, none is found. */
  lemma FindAfterDelete(t: Table, d: int)
    ensures FindByAggregationDate(DeleteByAggregationDate(t, d), d) == []
  {
    var r := FindByAggregationDate(DeleteByAggregationDate(t, d), d);
    assert multiset(r) == multiset{};
  }

  /** Deleting the rows dated `d` and counting what remains accounts for every
      row: the deleted ones are exactly the ones `findByAggregationDate` finds. */
  lemma DeleteFindPartition(t: Table, d: int)
    ensures CountAllData(DeleteByAggregationDate(t, d)) + |FindByAggregationDate(t, d)| == CountAllData(t)
  {
    CountDisjointUnion(t, NotDatedOn(d), DatedOn(d), (r: AggRow) => true);
    FilterAll(t, (r: AggRow) => true);
  }

  /** Deleting twice deletes nothing more. */
  lemma {:induction false} DeleteByDateIdempotent(t: Table, d: int)
    ensures DeleteByAggregationDate(DeleteByAggregationDate(t, d), d) == DeleteByAggregationDate(t, d)
  {
    FilterFilter(t, NotDatedOn(d), NotDatedOn(d), NotDatedOn(d));
  }

  /** Rows saved with date `d` are removed again by deleting date `d`: the
      delete undoes the save and leaves the rest as it was. */
  lemma DeleteByDateAfterSave(t: Table, rows: seq<AggRow>, d: int)
    requires forall i :: 0 <= i < |rows| ==> rows[i].aggregationDate == d
    ensures DeleteByAggregationDate(SaveAll(t, rows), d) == DeleteByAggregationDate(t, d)
  {
    FilterAppend(t, rows, NotDatedOn(d));
    FilterNone(rows, NotDatedOn(d));
  }

  lemma DeleteByPartnerDatesIdempotent(t: Table, pid: string, s: int, e: int)
    ensures DeleteByPartnerIdAndAggregationDateBetween(DeleteByPartnerIdAndAggregationDateBetween(t, pid, s, e), pid, s, e)
         == DeleteByPartnerIdAndAggregationDateBetween(t, pid, s, e)
  {
    FilterFilter(t, NotInPartnerDates(pid, s, e), NotInPartnerDates(pid, s, e), NotInPartnerDates(pid, s, e));
  }

  /** Rows of `pid` saved with a date inside [s, e) are removed again by the
      partner/window delete. */
  lemma DeleteByPartnerDatesAfterSave(t: Table, rows: seq<AggRow>, pid: string, s: int, e: int)
    requires forall i :: 0 <= i < |rows| ==> rows[i].partnerId == Some(pid) && s <= rows[i].aggregationDate < e
    ensures DeleteByPartnerIdAndAggregationDateBetween(SaveAll(t, rows), pid, s, e)
         == DeleteByPartnerIdAndAggregationDateBetween(t, pid, s, e)
  {
    FilterAppend(t, rows, NotInPartnerDates(pid, s, e));
    FilterNone(rows, NotInPartnerDates(pid, s, e));
  }

  /** Saved rows dated `d` are found by date, after what was there before. */
  lemma FindByDateAfterSave(t: Table, rows: seq<AggRow>, d: int)
    requires forall i :: 0 <= i < |rows| ==> rows[i].aggregationDate == d
    ensures FindByAggregationDate(SaveAll(t, rows), d) == FindByAggregationDate(t, d) + rows
  {
    FilterAppend(t, rows, DatedOn(d));
    FilterAll(rows, DatedOn(d));
  }
}
