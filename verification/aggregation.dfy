/** The aggregation SQL of `PartnerAggregationService` as pure functions over
    a log table: WHERE is a `Filter`, GROUP BY is the list of distinct keys
    with the rows of each key, and each group becomes one `AggRow`. */
module Aggregation {
  import opened Common
  import opened UserLog

  /** The measures of one aggregated group. */
  datatype Totals = Totals(
    totalUv: int,
    totalPv: int,
    totalPlaytime: int,
    totalChatCount: int,
    totalLikeCount: int,
    totalProductClickCount: int,
    totalProductOrderCount: int,
    totalProductOrderAmount: int,
    totalProductOrderQuantity: int,
    totalProductOrderCancelCount: int,
    totalBannerClickCount: int,
    totalCouponClickCount: int,
    totalRewardNewCount: int,
    totalRewardCompleteCount: int,
    totalPurchaseVerifyingCount: int,
    totalQuizNewCount: int,
    totalShareClickCount: int
  )

  /** A row of `partner_aggregation` (entity `PartnerAggregation`), with the
      `aggregation_type`/`aggregation_key` columns the repository queries use.
      The measures are grouped in `totals`; the generated primary key and the
      `created_at` stamp are not modelled. */
  datatype AggRow = AggRow(
    partnerId: Option<string>,
    aggregationType: Option<string>,
    aggregationKey: Option<string>,
    totals: Totals,
    aggregationDate: int
  )

  /** The SQL text a query uses for its per-action counters. */
  datatype CounterForm =
    | FilterForm   // COUNT(*) FILTER (WHERE action = 'a'); PV counts 'pageView'
    | CaseForm     // COUNT(CASE WHEN action = 'a' THEN 1 END); PV counts 'pageView'
    | SumCaseForm  // SUM(CASE WHEN action = 'a' THEN 1 ELSE 0 END); PV is COUNT(*)

  // ---------------------------------------------------------------------------
  // Counting by action

  /** SQL `action = 'a'`: false when action is NULL. */
  function ActionIs(a: string): LogRow -> bool {
    (r: LogRow) => r.action == Some(a)
  }

  /** COUNT(*) FILTER (WHERE action = 'a') */
  function CountFilter(g: seq<LogRow>, a: string): nat {
    Count(g, ActionIs(a))
  }

  /** CASE WHEN action = 'a' THEN 1 END */
  function CaseOne(a: string): LogRow -> Option<int> {
    (r: LogRow) => if r.action == Some(a) then Some(1) else None
  }

  function IsPresent(): Option<int> -> bool {
    (v: Option<int>) => v.Some?
  }

  /** COUNT(CASE WHEN action = 'a' THEN 1 END): COUNT of an expression skips NULLs. */
  function CountCase(g: seq<LogRow>, a: string): nat {
    Count(Map(g, CaseOne(a)), IsPresent())
  }

  /** CASE WHEN action = 'a' THEN 1 ELSE 0 END */
  function CaseOneElseZero(a: string): LogRow -> int {
    (r: LogRow) => if r.action == Some(a) then 1 else 0
  }

  /** SUM(CASE WHEN action = 'a' THEN 1 ELSE 0 END) over a non-empty group. */
  function SumCase(g: seq<LogRow>, a: string): int {
    Sum(Map(g, CaseOneElseZero(a)))
  }

  /** The three SQL spellings of "rows with this action" count the same rows. */
  lemma {:induction false} CountFormsAgree(g: seq<LogRow>, a: string)
    ensures CountCase(g, a) == CountFilter(g, a)
    ensures SumCase(g, a) == CountFilter(g, a)
  {
    if |g| > 0 {
      CountFormsAgree(g[1..], a);
      FilterHead(g, ActionIs(a));
      var cases := Map(g, CaseOne(a));
      MapTail(g, CaseOne(a));
      FilterHead(cases, IsPresent());
      MapTail(g, CaseOneElseZero(a));
    }
  }

  /** The counter a query of the given form reports for action `a`. */
  function ActionCounter(form: CounterForm, g: seq<LogRow>, a: string): int {
    match form
    case FilterForm => CountFilter(g, a)
    case CaseForm => CountCase(g, a)
    case SumCaseForm => SumCase(g, a)
  }

  /** Whatever the SQL spelling, a counter is the number of rows of the group
      whose action is `a`. */
  lemma ActionCounterCounts(form: CounterForm, g: seq<LogRow>, a: string)
    ensures ActionCounter(form, g, a) == Count(g, ActionIs(a))
  {
    CountFormsAgree(g, a);
  }

  // ---------------------------------------------------------------------------
  // Distinct members and null-aware sums

  /** The non-NULL member ids of a group; COUNT(DISTINCT member_id) is its size. */
  function MemberIds(g: seq<LogRow>): set<string> {
    set r | r in g && r.memberId.Some? :: r.memberId.value
  }

  lemma {:induction false} DistinctMembersAtMostRows(g: seq<LogRow>)
    ensures |MemberIds(g)| <= |g|
  {
    if |g| > 0 {
      DistinctMembersAtMostRows(g[1..]);
      var extra: set<string> := if g[0].memberId.Some? then {g[0].memberId.value} else {};
      assert g == [g[0]] + g[1..];
      assert MemberIds(g) == MemberIds(g[1..]) + extra;
    }
  }

  /** SQL SUM over a nullable column: NULL when there is no non-NULL value,
      otherwise the sum of the non-NULL values. */
  function SqlSum(vs: seq<Option<int>>): Option<int> {
    if |vs| == 0 then None
    else
      match (vs[0], SqlSum(vs[1..]))
      case (None, rest) => rest
      case (Some(v), None) => Some(v)
      case (Some(v), Some(w)) => Some(v + w)
  }

  function NullAsZero(): Option<int> -> int {
    (v: Option<int>) => v.GetOr(0)
  }

  predicate NonNegativeValues(vs: seq<Option<int>>) {
    forall i :: 0 <= i < |vs| && vs[i].Some? ==> vs[i].value >= 0
  }

  /** COALESCE(SUM(col), 0) reads every NULL as 0, and is non-negative when
      the non-NULL values are. */
  lemma {:induction false} SqlSumNullAsZero(vs: seq<Option<int>>)
    ensures CoalescedSum(vs) == Sum(Map(vs, NullAsZero()))
    ensures NonNegativeValues(vs) ==> CoalescedSum(vs) >= 0
  {
    if |vs| > 0 {
      SqlSumNullAsZero(vs[1..]);
      MapTail(vs, NullAsZero());
      assert NonNegativeValues(vs) ==> NonNegativeValues(vs[1..]) by {
        if NonNegativeValues(vs) {
          forall i | 0 <= i < |vs[1..]| && vs[1..][i].Some?
            ensures vs[1..][i].value >= 0
          {
            assert vs[1..][i] == vs[i + 1];
          }
        }
      }
    }
  }

  /** COALESCE(SUM(col), 0) */
  function CoalescedSum(vs: seq<Option<int>>): int {
    SqlSum(vs).GetOr(0)
  }

  function Playtimes(g: seq<LogRow>): seq<Option<int>> {
    Map(g, (r: LogRow) => r.playtime)
  }

  function LikeCounts(g: seq<LogRow>): seq<Option<int>> {
    Map(g, (r: LogRow) => r.likeCount)
  }

  function OrderAmounts(g: seq<LogRow>): seq<Option<int>> {
    Map(g, (r: LogRow) => r.productOrderAmount)
  }

  function OrderQuantities(g: seq<LogRow>): seq<Option<int>> {
    Map(g, (r: LogRow) => r.productOrderQuantity)
  }

  // ---------------------------------------------------------------------------
  // One group to one row

  /** The measures of the SELECT list, applied to one group. */
  function GroupTotals(g: seq<LogRow>, form: CounterForm): Totals {
    Totals(
      totalUv := |MemberIds(g)|,
      totalPv := if form == SumCaseForm then |g| else ActionCounter(form, g, "pageView"),
      totalPlaytime := CoalescedSum(Playtimes(g)),
      totalChatCount := ActionCounter(form, g, "chat"),
      totalLikeCount := CoalescedSum(LikeCounts(g)),
      totalProductClickCount := ActionCounter(form, g, "productClick"),
      totalProductOrderCount := ActionCounter(form, g, "productOrder"),
      totalProductOrderAmount := CoalescedSum(OrderAmounts(g)),
      totalProductOrderQuantity := CoalescedSum(OrderQuantities(g)),
      totalProductOrderCancelCount := ActionCounter(form, g, "productOrderCancel"),
      totalBannerClickCount := ActionCounter(form, g, "bannerClick"),
      totalCouponClickCount := ActionCounter(form, g, "couponClick"),
      totalRewardNewCount := ActionCounter(form, g, "joinReward"),
      totalRewardCompleteCount := ActionCounter(form, g, "rewardComplete"),
      totalPurchaseVerifyingCount := ActionCounter(form, g, "purchaseVerifying"),
      totalQuizNewCount := ActionCounter(form, g, "joinQuiz"),
      totalShareClickCount := ActionCounter(form, g, "shareClick")
    )
  }

  /** One output row of a grouped query: the group's key columns and measures. */
  function Summarize(g: seq<LogRow>, form: CounterForm, partner: Option<string>,
                     aggType: Option<string>, aggKey: Option<string>, date: int): AggRow
  {
    AggRow(partner, aggType, aggKey, GroupTotals(g, form), date)
  }

  /** The twelve per-action counters of a row, in the order of `Actions`. */
  function ActionCounters(t: Totals): seq<int> {
    [t.totalPv, t.totalChatCount, t.totalProductClickCount,
     t.totalProductOrderCount, t.totalProductOrderCancelCount,
     t.totalBannerClickCount, t.totalCouponClickCount, t.totalRewardNewCount,
     t.totalRewardCompleteCount, t.totalPurchaseVerifyingCount,
     t.totalQuizNewCount, t.totalShareClickCount]
  }

  /** Row has one of the given actions. */
  function ActionIn(names: seq<string>): LogRow -> bool {
    (r: LogRow) => r.action.Some? && r.action.value in names
  }

  function CounterOf(g: seq<LogRow>): string -> int {
    (a: string) => Count(g, ActionIs(a))
  }

  /** Counting each of several distinct actions separately and adding up gives
      the number of rows whose action is one of them. */
  lemma {:induction false} ActionCountsAddUp(g: seq<LogRow>, names: seq<string>)
    requires NoDuplicates(names)
    ensures Sum(Map(names, CounterOf(g))) == Count(g, ActionIn(names))
  {
    if |names| == 0 {
      FilterNone(g, ActionIn(names));
    } else {
      var rest := names[1..];
      assert NoDuplicates(rest) by {
        forall i, j | 0 <= i < j < |rest| ensures rest[i] != rest[j] {
          assert rest[i] == names[i + 1] && rest[j] == names[j + 1];
        }
      }
      ActionCountsAddUp(g, rest);
      MapTail(names, CounterOf(g));
      assert names[0] !in rest by {
        forall k | 0 <= k < |rest| ensures rest[k] != names[0] {
          assert rest[k] == names[k + 1];
        }
      }
      CountDisjointUnion(g, ActionIs(names[0]), ActionIn(rest), ActionIn(names));
    }
  }

  /** COUNT(DISTINCT member_id) never exceeds the group's row count. */
  lemma UvAtMostRows(g: seq<LogRow>, form: CounterForm)
    ensures GroupTotals(g, form).totalUv <= |g|
  {
    DistinctMembersAtMostRows(g);
  }

  /** With the FILTER and COUNT(CASE) spellings the twelve counters add up to
      the number of rows whose action is one of the twelve names, so to at
      most the group's row count. */
  lemma CountersAddUp(g: seq<LogRow>, form: CounterForm)
    requires form != SumCaseForm
    ensures Sum(ActionCounters(GroupTotals(g, form))) == Count(g, ActionIn(Actions))
    ensures Sum(ActionCounters(GroupTotals(g, form))) <= |g|
  {
    var t := GroupTotals(g, form);
    forall k | 0 <= k < |Actions|
      ensures ActionCounter(form, g, Actions[k]) == CounterOf(g)(Actions[k])
    {
      ActionCounterCounts(form, g, Actions[k]);
    }
    assert ActionCounters(t) == Map(Actions, CounterOf(g));
    ActionsAreDistinct();
    ActionCountsAddUp(g, Actions);
  }

  /** The period query's PV is COUNT(*), so UV never exceeds it. */
  lemma PeriodPvIsRowCount(g: seq<LogRow>)
    ensures GroupTotals(g, SumCaseForm).totalPv == |g|
    ensures GroupTotals(g, SumCaseForm).totalUv <= GroupTotals(g, SumCaseForm).totalPv
  {
    DistinctMembersAtMostRows(g);
  }

  /** With the FILTER and COUNT(CASE) spellings PV counts only 'pageView'
      rows, so UV can exceed it: a member whose only row is a chat gives a
      group with UV 1 and PV 0. */
  lemma UvMayExceedPageViews(form: CounterForm, r: LogRow)
    requires form != SumCaseForm
    requires r.memberId.Some? && r.action == Some("chat")
    ensures GroupTotals([r], form).totalUv == 1
    ensures GroupTotals([r], form).totalPv == 0
  {
    assert MemberIds([r]) == {r.memberId.value};
    ActionCounterCounts(form, [r], "pageView");
    assert Filter([r][1..], ActionIs("pageView")) == [];
  }

  /** The COALESCE'd sums are non-negative when the summed columns are. */
  lemma SumsNonNegative(g: seq<LogRow>, form: CounterForm)
    ensures NonNegativeValues(Playtimes(g)) ==> GroupTotals(g, form).totalPlaytime >= 0
    ensures NonNegativeValues(LikeCounts(g)) ==> GroupTotals(g, form).totalLikeCount >= 0
    ensures NonNegativeValues(OrderAmounts(g)) ==> GroupTotals(g, form).totalProductOrderAmount >= 0
    ensures NonNegativeValues(OrderQuantities(g)) ==> GroupTotals(g, form).totalProductOrderQuantity >= 0
  {
    SqlSumNullAsZero(Playtimes(g));
    SqlSumNullAsZero(LikeCounts(g));
    SqlSumNullAsZero(OrderAmounts(g));
    SqlSumNullAsZero(OrderQuantities(g));
  }

  // ---------------------------------------------------------------------------
  // GROUP BY

  /** The distinct keys of a table, in order of first appearance. */
  function GroupKeys<K(==)>(rows: seq<LogRow>, key: LogRow -> K): (ks: seq<K>)
    ensures NoDuplicates(ks)
  {
    Distinct(Map(rows, key))
  }

  /** A key is listed iff some row carries it. */
  lemma GroupKeysMember<K>(rows: seq<LogRow>, key: LogRow -> K, k: K)
    ensures k in GroupKeys(rows, key) <==> exists j :: 0 <= j < |rows| && key(rows[j]) == k
  {
    var ks := Map(rows, key);
    DistinctMember(ks, k);
    if k in ks {
      var j :| 0 <= j < |ks| && ks[j] == k;
      assert key(rows[j]) == k;
    }
  }

  function HasKey<K(==)>(key: LogRow -> K, k: K): LogRow -> bool {
    (r: LogRow) => key(r) == k
  }

  /** The rows of one group. */
  function GroupRows<K(==)>(rows: seq<LogRow>, key: LogRow -> K, k: K): seq<LogRow> {
    Filter(rows, HasKey(key, k))
  }

  function GroupOf<K(==), R>(rows: seq<LogRow>, key: LogRow -> K, summarize: (K, seq<LogRow>) -> R): K -> R {
    (k: K) => summarize(k, GroupRows(rows, key, k))
  }

  /** GROUP BY `key`: one result per distinct key, made by `summarize` from
      the key and the rows carrying it. */
  function GroupBy<K(==), R>(rows: seq<LogRow>, key: LogRow -> K, summarize: (K, seq<LogRow>) -> R): seq<R> {
    Map(GroupKeys(rows, key), GroupOf(rows, key, summarize))
  }

  /** GROUP BY yields, in key order, one result per distinct key, made by
      `summarize` from the key and the rows carrying it; `keyOf` reads a
      result's key back. */
  lemma GroupByShape<K, R>(rows: seq<LogRow>, key: LogRow -> K, summarize: (K, seq<LogRow>) -> R, keyOf: R -> K)
    requires forall k, g :: keyOf(summarize(k, g)) == k
    ensures var rs := GroupBy(rows, key, summarize);
      && |rs| == |GroupKeys(rows, key)|
      && forall i :: 0 <= i < |rs| ==>
           && keyOf(rs[i]) == GroupKeys(rows, key)[i]
           && rs[i] == summarize(keyOf(rs[i]), GroupRows(rows, key, keyOf(rs[i])))
  {
    var ks := GroupKeys(rows, key);
    var rs := GroupBy(rows, key, summarize);
    forall i | 0 <= i < |rs|
      ensures keyOf(rs[i]) == ks[i]
      ensures rs[i] == summarize(keyOf(rs[i]), GroupRows(rows, key, keyOf(rs[i])))
    {
      assert rs[i] == GroupOf(rows, key, summarize)(ks[i]);
      assert rs[i] == summarize(ks[i], GroupRows(rows, key, ks[i]));
    }
  }

  /** No key has two results. */
  lemma GroupByKeysDistinct<K, R>(rows: seq<LogRow>, key: LogRow -> K, summarize: (K, seq<LogRow>) -> R, keyOf: R -> K)
    requires forall k, g :: keyOf(summarize(k, g)) == k
    ensures var rs := GroupBy(rows, key, summarize);
      forall i, j :: 0 <= i < j < |rs| ==> keyOf(rs[i]) != keyOf(rs[j])
  {
    GroupByShape(rows, key, summarize, keyOf);
  }

  /** Every result's key is the key of some row. */
  lemma GroupByKeysFromRows<K, R>(rows: seq<LogRow>, key: LogRow -> K, summarize: (K, seq<LogRow>) -> R, keyOf: R -> K)
    requires forall k, g :: keyOf(summarize(k, g)) == k
    ensures var rs := GroupBy(rows, key, summarize);
      forall i :: 0 <= i < |rs| ==> exists j :: 0 <= j < |rows| && key(rows[j]) == keyOf(rs[i])
  {
    var ks := GroupKeys(rows, key);
    var rs := GroupBy(rows, key, summarize);
    GroupByShape(rows, key, summarize, keyOf);
    forall i | 0 <= i < |rs|
      ensures exists j :: 0 <= j < |rows| && key(rows[j]) == keyOf(rs[i])
    {
      GroupKeysMember(rows, key, ks[i]);
    }
  }

  /** Every row's key has a result. */
  lemma GroupByCoversRows<K, R>(rows: seq<LogRow>, key: LogRow -> K, summarize: (K, seq<LogRow>) -> R, keyOf: R -> K)
    requires forall k, g :: keyOf(summarize(k, g)) == k
    ensures var rs := GroupBy(rows, key, summarize);
      forall j :: 0 <= j < |rows| ==> exists i :: 0 <= i < |rs| && keyOf(rs[i]) == key(rows[j])
  {
    var ks := GroupKeys(rows, key);
    var rs := GroupBy(rows, key, summarize);
    GroupByShape(rows, key, summarize, keyOf);
    forall j | 0 <= j < |rows|
      ensures exists i :: 0 <= i < |rs| && keyOf(rs[i]) == key(rows[j])
    {
      GroupKeysMember(rows, key, key(rows[j]));
      var i :| 0 <= i < |ks| && ks[i] == key(rows[j]);
      assert keyOf(rs[i]) == key(rows[j]);
    }
  }

  /** A property every summary has, every result of GROUP BY has. */
  lemma GroupByAll<K, R>(rows: seq<LogRow>, key: LogRow -> K, summarize: (K, seq<LogRow>) -> R, P: R -> bool)
    requires forall k, g :: P(summarize(k, g))
    ensures var rs := GroupBy(rows, key, summarize);
      forall i :: 0 <= i < |rs| ==> P(rs[i])
  {
    var ks := GroupKeys(rows, key);
    var rs := GroupBy(rows, key, summarize);
    forall i | 0 <= i < |rs| ensures P(rs[i]) {
      assert rs[i] == GroupOf(rows, key, summarize)(ks[i]);
      assert rs[i] == summarize(ks[i], GroupRows(rows, key, ks[i]));
    }
  }

  /** Grouping no rows gives no results. */
  lemma GroupByEmpty<K, R>(key: LogRow -> K, summarize: (K, seq<LogRow>) -> R)
    ensures GroupBy([], key, summarize) == []
  {
    assert Map([], key) == [];
  }

  // ---------------------------------------------------------------------------
  // GROUP BY partner_id

  function PartnerKey(): LogRow -> Option<string> {
    (r: LogRow) => r.partnerId
  }

  function AggPartner(): AggRow -> Option<string> {
    (a: AggRow) => a.partnerId
  }

  /** The SELECT list of the partner queries: the group's partner_id, its
      measures, and the given aggregation date. */
  function PartnerSummary(form: CounterForm, date: int): (Option<string>, seq<LogRow>) -> AggRow {
    (k: Option<string>, g: seq<LogRow>) => Summarize(g, form, k, None, None, date)
  }

  lemma PartnerSummaryKeepsKey(form: CounterForm, date: int)
    ensures forall k, g :: AggPartner()(PartnerSummary(form, date)(k, g)) == k
  {
  }

  function HasDate(date: int): AggRow -> bool {
    (a: AggRow) => a.aggregationDate == date
  }

  /** Every row of a partner query carries the given date. */
  lemma PartnerQueryDated(logs: seq<LogRow>, where: LogRow -> bool, form: CounterForm, date: int)
    ensures var rs := PartnerQuery(logs, where, form, date);
      forall i :: 0 <= i < |rs| ==> rs[i].aggregationDate == date
  {
    var rs := PartnerQuery(logs, where, form, date);
    assert forall k, g :: HasDate(date)(PartnerSummary(form, date)(k, g));
    GroupByAll(Filter(logs, where), PartnerKey(), PartnerSummary(form, date), HasDate(date));
    assert forall i :: 0 <= i < |rs| ==> HasDate(date)(rs[i]);
  }

  /** A row passes the WHERE clause and belongs to the group of `p`. */
  function WhereAndPartner(where: LogRow -> bool, p: Option<string>): LogRow -> bool {
    (r: LogRow) => where(r) && r.partnerId == p
  }

  /** SELECT ... WHERE `where` GROUP BY partner_id: the shape shared by the
      first three queries. */
  function PartnerQuery(logs: seq<LogRow>, where: LogRow -> bool, form: CounterForm, date: int): seq<AggRow> {
    GroupBy(Filter(logs, where), PartnerKey(), PartnerSummary(form, date))
  }

  /** Each result row summarizes exactly the rows of its partner_id that pass
      the WHERE clause, and carries the given date. */
  lemma PartnerQueryRows(logs: seq<LogRow>, where: LogRow -> bool, form: CounterForm, date: int)
    ensures var rs := PartnerQuery(logs, where, form, date);
      forall i :: 0 <= i < |rs| ==>
        && rs[i].aggregationDate == date
        && rs[i] == Summarize(Filter(logs, WhereAndPartner(where, rs[i].partnerId)), form, rs[i].partnerId, None, None, date)
  {
    var kept := Filter(logs, where);
    var rs := PartnerQuery(logs, where, form, date);
    PartnerSummaryKeepsKey(form, date);
    GroupByShape(kept, PartnerKey(), PartnerSummary(form, date), AggPartner());
    forall i | 0 <= i < |rs|
      ensures rs[i].aggregationDate == date
      ensures rs[i] == Summarize(Filter(logs, WhereAndPartner(where, rs[i].partnerId)), form, rs[i].partnerId, None, None, date)
    {
      var p := rs[i].partnerId;
      FilterFilter(logs, where, HasKey(PartnerKey(), p), WhereAndPartner(where, p));
      assert GroupRows(kept, PartnerKey(), p) == Filter(logs, WhereAndPartner(where, p));
    }
  }

  /** No partner_id has two result rows. */
  lemma PartnerQueryDistinct(logs: seq<LogRow>, where: LogRow -> bool, form: CounterForm, date: int)
    ensures var rs := PartnerQuery(logs, where, form, date);
      forall i, j :: 0 <= i < j < |rs| ==> rs[i].partnerId != rs[j].partnerId
  {
    PartnerSummaryKeepsKey(form, date);
    GroupByKeysDistinct(Filter(logs, where), PartnerKey(), PartnerSummary(form, date), AggPartner());
  }

  /** Some row passing the WHERE clause has partner_id `p`. */
  predicate PartnerOfSomeRow(logs: seq<LogRow>, where: LogRow -> bool, p: Option<string>) {
    exists j :: 0 <= j < |logs| && where(logs[j]) && logs[j].partnerId == p
  }

  /** Every result row is for the partner_id of some row passing the WHERE clause. */
  lemma PartnerQueryFromRows(logs: seq<LogRow>, where: LogRow -> bool, form: CounterForm, date: int)
    ensures var rs := PartnerQuery(logs, where, form, date);
      forall i :: 0 <= i < |rs| ==> PartnerOfSomeRow(logs, where, rs[i].partnerId)
  {
    var kept := Filter(logs, where);
    var rs := PartnerQuery(logs, where, form, date);
    PartnerSummaryKeepsKey(form, date);
    GroupByKeysFromRows(kept, PartnerKey(), PartnerSummary(form, date), AggPartner());
    forall i | 0 <= i < |rs|
      ensures exists j :: 0 <= j < |logs| && where(logs[j]) && logs[j].partnerId == rs[i].partnerId
    {
      var k :| 0 <= k < |kept| && PartnerKey()(kept[k]) == AggPartner()(rs[i]);
      FilterMember(logs, where, kept[k]);
      var j :| 0 <= j < |logs| && logs[j] == kept[k];
      assert where(logs[j]) && logs[j].partnerId == rs[i].partnerId;
    }
  }

  /** Every row passing the WHERE clause has its partner_id's result row. */
  lemma PartnerQueryCoversRows(logs: seq<LogRow>, where: LogRow -> bool, form: CounterForm, date: int)
    ensures var rs := PartnerQuery(logs, where, form, date);
      forall j :: 0 <= j < |logs| && where(logs[j]) ==>
        exists i :: 0 <= i < |rs| && rs[i].partnerId == logs[j].partnerId
  {
    var kept := Filter(logs, where);
    var rs := PartnerQuery(logs, where, form, date);
    PartnerSummaryKeepsKey(form, date);
    GroupByCoversRows(kept, PartnerKey(), PartnerSummary(form, date), AggPartner());
    forall j | 0 <= j < |logs| && where(logs[j])
      ensures exists i :: 0 <= i < |rs| && rs[i].partnerId == logs[j].partnerId
    {
      FilterMember(logs, where, logs[j]);
      var k :| 0 <= k < |kept| && kept[k] == logs[j];
      var i :| 0 <= i < |rs| && AggPartner()(rs[i]) == PartnerKey()(kept[k]);
    }
  }

  /** A row failing the WHERE clause does not change the result. */
  lemma PartnerQueryIgnores(a: seq<LogRow>, r: LogRow, b: seq<LogRow>, where: LogRow -> bool, form: CounterForm, date: int)
    requires !where(r)
    ensures PartnerQuery(a + [r] + b, where, form, date) == PartnerQuery(a + b, where, form, date)
  {
    FilterAppend(a + [r], b, where);
    FilterAppend(a, [r], where);
    FilterAppend(a, b, where);
    FilterHead([r], where);
    assert Filter(a + [r] + b, where) == Filter(a + b, where);
  }

  // ---------------------------------------------------------------------------
  // aggregateByPartnerId

  function HasPartner(): LogRow -> bool {
    (r: LogRow) => r.partnerId.Some?
  }

  /** The rows of one partner, from the whole log. */
  function PartnerRows(logs: seq<LogRow>, p: Option<string>): seq<LogRow> {
    Filter(logs, HasKey(PartnerKey(), p))
  }

  /** WHERE partner_id IS NOT NULL GROUP BY partner_id, FILTER counters, every
      row dated `date`. */
  function QueryByPartner(logs: seq<LogRow>, date: int): seq<AggRow> {
    PartnerQuery(logs, HasPartner(), FilterForm, date)
  }

  /** Each row of `aggregateByPartnerId` is a non-NULL partner's summary over
      all of that partner's log rows, dated `date`. */
  lemma QueryByPartnerRows(logs: seq<LogRow>, date: int)
    ensures var rs := QueryByPartner(logs, date);
      forall i :: 0 <= i < |rs| ==>
        && rs[i].partnerId.Some?
        && rs[i].aggregationDate == date
        && rs[i] == Summarize(PartnerRows(logs, rs[i].partnerId), FilterForm, rs[i].partnerId, None, None, date)
  {
    var rs := QueryByPartner(logs, date);
    PartnerQueryRows(logs, HasPartner(), FilterForm, date);
    PartnerQueryFromRows(logs, HasPartner(), FilterForm, date);
    forall i | 0 <= i < |rs|
      ensures rs[i].partnerId.Some?
      ensures Filter(logs, WhereAndPartner(HasPartner(), rs[i].partnerId)) == PartnerRows(logs, rs[i].partnerId)
    {
      var p := rs[i].partnerId;
      assert PartnerOfSomeRow(logs, HasPartner(), p);
      FilterSame(logs, WhereAndPartner(HasPartner(), p), HasKey(PartnerKey(), p));
    }
  }

  /** `aggregateByPartnerId` yields exactly one row per distinct non-NULL
      partner_id of the log. */
  lemma QueryByPartnerOnePerPartner(logs: seq<LogRow>, date: int)
    ensures var rs := QueryByPartner(logs, date);
      && (forall i, j :: 0 <= i < j < |rs| ==> rs[i].partnerId != rs[j].partnerId)
      && (forall i :: 0 <= i < |rs| ==> PartnerOfSomeRow(logs, HasPartner(), rs[i].partnerId))
      && (forall j :: 0 <= j < |logs| && logs[j].partnerId.Some? ==>
            exists i :: 0 <= i < |rs| && rs[i].partnerId == logs[j].partnerId)
  {
    PartnerQueryDistinct(logs, HasPartner(), FilterForm, date);
    PartnerQueryFromRows(logs, HasPartner(), FilterForm, date);
    PartnerQueryCoversRows(logs, HasPartner(), FilterForm, date);
  }

  lemma QueryByPartnerDated(logs: seq<LogRow>, date: int)
    ensures var rs := QueryByPartner(logs, date);
      forall i :: 0 <= i < |rs| ==> rs[i].aggregationDate == date
  {
    PartnerQueryDated(logs, HasPartner(), FilterForm, date);
  }

  /** Rows whose partner_id is NULL do not change the result. */
  lemma QueryByPartnerIgnoresNullPartner(a: seq<LogRow>, r: LogRow, b: seq<LogRow>, date: int)
    requires r.partnerId.None?
    ensures QueryByPartner(a + [r] + b, date) == QueryByPartner(a + b, date)
  {
    PartnerQueryIgnores(a, r, b, HasPartner(), FilterForm, date);
  }

  // ---------------------------------------------------------------------------
  // aggregateByPartnerIdAndDateRange

  /** WHERE partner_id = ? AND __time >= ? AND __time < ? */
  function InPartnerWindow(pid: string, start: int, end: int): LogRow -> bool {
    (r: LogRow) => r.partnerId == Some(pid) && InWindow(r.time, start, end)
  }

  /** COUNT(CASE) counters, every row dated `start`. */
  function QueryByPartnerInRange(logs: seq<LogRow>, pid: string, start: int, end: int): seq<AggRow> {
    PartnerQuery(logs, InPartnerWindow(pid, start, end), CaseForm, start)
  }

  /** The partner/range query returns at most one row, for `pid`, dated `start`. */
  lemma QueryByPartnerInRangeShape(logs: seq<LogRow>, pid: string, start: int, end: int)
    ensures var rs := QueryByPartnerInRange(logs, pid, start, end);
      && |rs| <= 1
      && forall i :: 0 <= i < |rs| ==> rs[i].partnerId == Some(pid) && rs[i].aggregationDate == start
  {
    var where := InPartnerWindow(pid, start, end);
    var rs := QueryByPartnerInRange(logs, pid, start, end);
    PartnerQueryDated(logs, where, CaseForm, start);
    PartnerQueryDistinct(logs, where, CaseForm, start);
    PartnerQueryFromRows(logs, where, CaseForm, start);
    forall i | 0 <= i < |rs| ensures rs[i].partnerId == Some(pid) {
      assert PartnerOfSomeRow(logs, where, rs[i].partnerId);
    }
    var ids := Map(rs, AggPartner());
    AllEqualAtMostOne(ids, Some(pid));
  }

  /** The partner/range query returns a row exactly when the partner has a log
      row in the half-open window, and that row counts exactly those rows. */
  lemma QueryByPartnerInRangeRow(logs: seq<LogRow>, pid: string, start: int, end: int)
    ensures var rs := QueryByPartnerInRange(logs, pid, start, end);
      && (|rs| == 1 <==> exists j :: 0 <= j < |logs| && logs[j].partnerId == Some(pid) && InWindow(logs[j].time, start, end))
      && (|rs| == 1 ==> rs[0] == Summarize(Filter(logs, InPartnerWindow(pid, start, end)), CaseForm, Some(pid), None, None, start))
  {
    var where := InPartnerWindow(pid, start, end);
    var rs := QueryByPartnerInRange(logs, pid, start, end);
    QueryByPartnerInRangeShape(logs, pid, start, end);
    PartnerQueryRows(logs, where, CaseForm, start);
    PartnerQueryFromRows(logs, where, CaseForm, start);
    PartnerQueryCoversRows(logs, where, CaseForm, start);
    if |rs| == 1 {
      assert PartnerOfSomeRow(logs, where, rs[0].partnerId);
      FilterSame(logs, WhereAndPartner(where, Some(pid)), where);
    }
  }

  /** An empty window (`start >= end`) gives no row. */
  lemma QueryByPartnerInRangeEmptyWindow(logs: seq<LogRow>, pid: string, start: int, end: int)
    requires end <= start
    ensures QueryByPartnerInRange(logs, pid, start, end) == []
  {
    FilterNone(logs, InPartnerWindow(pid, start, end));
    GroupByEmpty(PartnerKey(), PartnerSummary(CaseForm, start));
  }

  // ---------------------------------------------------------------------------
  // aggregateByDateRange

  /** WHERE __time >= ? AND __time < ? */
  function InTimeWindow(start: int, end: int): LogRow -> bool {
    (r: LogRow) => InWindow(r.time, start, end)
  }

  /** No partner filter: a NULL partner_id forms a group of its own, as in SQL.
      COUNT(CASE) counters, every row dated `start`. */
  function QueryByRange(logs: seq<LogRow>, start: int, end: int): seq<AggRow> {
    PartnerQuery(logs, InTimeWindow(start, end), CaseForm, start)
  }

  /** One row per partner_id value (NULL included) among the rows of the
      half-open window, each summarizing exactly that value's rows in the
      window and dated `start`. */
  lemma QueryByRangeRows(logs: seq<LogRow>, start: int, end: int)
    ensures var rs := QueryByRange(logs, start, end);
      && (forall i :: 0 <= i < |rs| ==>
            && rs[i].aggregationDate == start
            && rs[i] == Summarize(Filter(logs, WhereAndPartner(InTimeWindow(start, end), rs[i].partnerId)),
                                  CaseForm, rs[i].partnerId, None, None, start))
      && (forall i, j :: 0 <= i < j < |rs| ==> rs[i].partnerId != rs[j].partnerId)
      && (forall i :: 0 <= i < |rs| ==> PartnerOfSomeRow(logs, InTimeWindow(start, end), rs[i].partnerId))
      && (forall j :: 0 <= j < |logs| && InWindow(logs[j].time, start, end) ==>
            exists i :: 0 <= i < |rs| && rs[i].partnerId == logs[j].partnerId)
  {
    var where := InTimeWindow(start, end);
    PartnerQueryRows(logs, where, CaseForm, start);
    PartnerQueryDistinct(logs, where, CaseForm, start);
    PartnerQueryFromRows(logs, where, CaseForm, start);
    PartnerQueryCoversRows(logs, where, CaseForm, start);
  }

  lemma QueryByRangeDated(logs: seq<LogRow>, start: int, end: int)
    ensures var rs := QueryByRange(logs, start, end);
      forall i :: 0 <= i < |rs| ==> rs[i].aggregationDate == start
  {
    PartnerQueryDated(logs, InTimeWindow(start, end), CaseForm, start);
  }

  /** Rows outside the window do not change the result of `aggregateByDateRange`. */
  lemma QueryByRangeIgnoresOutsideRows(a: seq<LogRow>, r: LogRow, b: seq<LogRow>, start: int, end: int)
    requires !InWindow(r.time, start, end)
    ensures QueryByRange(a + [r] + b, start, end) == QueryByRange(a + b, start, end)
  {
    PartnerQueryIgnores(a, r, b, InTimeWindow(start, end), CaseForm, start);
  }

  // ---------------------------------------------------------------------------
  // aggregateByPartnerAndPeriod

  datatype AggregationType = Daily | Hourly | Minutely {
    /** `aggregationType.name()` */
    function Name(): string {
      match this
      case Daily => "DAILY"
      case Hourly => "HOURLY"
      case Minutely => "MINUTELY"
    }
  }

  /** The DATE_FORMAT pattern chosen by the switch in `aggregateByPartnerAndPeriod`:
      all three start with the day, and only DAILY stops there. */
  function GroupByFormat(t: AggregationType): (f: string)
    ensures |f| >= 8 && f[..8] == "%Y-%m-%d"
    ensures t == Daily <==> |f| == 8
  {
    match t
    case Daily => "%Y-%m-%d"
    case Hourly => "%Y-%m-%d %H"
    case Minutely => "%Y-%m-%d %H:%i"
  }

  /** WHERE partner_id = ? AND created_at >= ? AND created_at < ? */
  function CreatedInPartnerWindow(pid: string, start: int, end: int): LogRow -> bool {
    (r: LogRow) => r.partnerId == Some(pid) && start <= r.createdAt < end
  }

  /** GROUP BY partner_id, DATE_FORMAT(created_at, pattern). The rendering of
      a timestamp under a pattern is a parameter. */
  function PeriodKey(pattern: string, dateFormat: (string, int) -> string): LogRow -> (Option<string>, string) {
    (r: LogRow) => (r.partnerId, dateFormat(pattern, r.createdAt))
  }

  /** The SELECT list of the period query: partner_id, the type's name, the
      formatted period as key, the measures with PV = COUNT(*), dated `start`. */
  function PeriodSummary(t: AggregationType, start: int): ((Option<string>, string), seq<LogRow>) -> AggRow {
    (k: (Option<string>, string), g: seq<LogRow>) => Summarize(g, SumCaseForm, k.0, Some(t.Name()), Some(k.1), start)
  }

  function AggPeriodKey(): AggRow -> (Option<string>, string) {
    (a: AggRow) => (a.partnerId, a.aggregationKey.GetOr(""))
  }

  lemma PeriodSummaryKeepsKey(t: AggregationType, start: int)
    ensures forall k, g :: AggPeriodKey()(PeriodSummary(t, start)(k, g)) == k
  {
  }

  function QueryByPeriod(logs: seq<LogRow>, pid: string, start: int, end: int,
                         t: AggregationType, dateFormat: (string, int) -> string): seq<AggRow> {
    GroupBy(Filter(logs, CreatedInPartnerWindow(pid, start, end)), PeriodKey(GroupByFormat(t), dateFormat), PeriodSummary(t, start))
  }

  /** The partner's rows created in the window whose period key is `k`. */
  function PeriodRowsOf(pid: string, start: int, end: int, t: AggregationType,
                        dateFormat: (string, int) -> string, k: string): LogRow -> bool {
    (r: LogRow) => r.partnerId == Some(pid) && start <= r.createdAt < end
                   && dateFormat(GroupByFormat(t), r.createdAt) == k
  }

  /** Each row of the period query is for `pid`, typed by the aggregation
      type's name, keyed by a period, dated `start`, and summarizes exactly
      the partner's rows created in the window within that period. */
  lemma QueryByPeriodRows(logs: seq<LogRow>, pid: string, start: int, end: int,
                          t: AggregationType, dateFormat: (string, int) -> string)
    ensures var rs := QueryByPeriod(logs, pid, start, end, t, dateFormat);
      forall i :: 0 <= i < |rs| ==>
        && rs[i].partnerId == Some(pid)
        && rs[i].aggregationType == Some(t.Name())
        && rs[i].aggregationKey.Some?
        && rs[i].aggregationDate == start
        && rs[i] == Summarize(Filter(logs, PeriodRowsOf(pid, start, end, t, dateFormat, rs[i].aggregationKey.value)),
                              SumCaseForm, Some(pid), Some(t.Name()), rs[i].aggregationKey, start)
  {
    var kept := Filter(logs, CreatedInPartnerWindow(pid, start, end));
    var key := PeriodKey(GroupByFormat(t), dateFormat);
    var rs := QueryByPeriod(logs, pid, start, end, t, dateFormat);
    PeriodSummaryKeepsKey(t, start);
    GroupByShape(kept, key, PeriodSummary(t, start), AggPeriodKey());
    GroupByKeysFromRows(kept, key, PeriodSummary(t, start), AggPeriodKey());
    forall i | 0 <= i < |rs|
      ensures rs[i].partnerId == Some(pid)
      ensures rs[i].aggregationKey.Some?
      ensures GroupRows(kept, key, AggPeriodKey()(rs[i]))
           == Filter(logs, PeriodRowsOf(pid, start, end, t, dateFormat, rs[i].aggregationKey.value))
    {
      var k := AggPeriodKey()(rs[i]);
      var j :| 0 <= j < |kept| && key(kept[j]) == k;
      FilterMember(logs, CreatedInPartnerWindow(pid, start, end), kept[j]);
      FilterFilter(logs, CreatedInPartnerWindow(pid, start, end), HasKey(key, k),
                   PeriodRowsOf(pid, start, end, t, dateFormat, k.1));
    }
  }

  /** PV is the size of the period's group, which is never empty, and UV never
      exceeds it. */
  lemma QueryByPeriodUvAtMostPv(logs: seq<LogRow>, pid: string, start: int, end: int,
                                t: AggregationType, dateFormat: (string, int) -> string)
    ensures var rs := QueryByPeriod(logs, pid, start, end, t, dateFormat);
      forall i :: 0 <= i < |rs| ==>
        && rs[i].totals.totalPv == Count(logs, PeriodRowsOf(pid, start, end, t, dateFormat, rs[i].aggregationKey.GetOr("")))
        && 0 < rs[i].totals.totalPv
        && rs[i].totals.totalUv <= rs[i].totals.totalPv
  {
    var kept := Filter(logs, CreatedInPartnerWindow(pid, start, end));
    var key := PeriodKey(GroupByFormat(t), dateFormat);
    var rs := QueryByPeriod(logs, pid, start, end, t, dateFormat);
    QueryByPeriodRows(logs, pid, start, end, t, dateFormat);
    PeriodSummaryKeepsKey(t, start);
    GroupByKeysFromRows(kept, key, PeriodSummary(t, start), AggPeriodKey());
    forall i | 0 <= i < |rs|
      ensures rs[i].totals.totalPv == Count(logs, PeriodRowsOf(pid, start, end, t, dateFormat, rs[i].aggregationKey.GetOr("")))
      ensures 0 < rs[i].totals.totalPv
      ensures rs[i].totals.totalUv <= rs[i].totals.totalPv
    {
      var k := rs[i].aggregationKey.value;
      var g := Filter(logs, PeriodRowsOf(pid, start, end, t, dateFormat, k));
      PeriodPvIsRowCount(g);
      var j :| 0 <= j < |kept| && key(kept[j]) == AggPeriodKey()(rs[i]);
      FilterMember(logs, CreatedInPartnerWindow(pid, start, end), kept[j]);
      FilterMember(logs, PeriodRowsOf(pid, start, end, t, dateFormat, k), kept[j]);
    }
  }

  /** Every row of the period query is for `pid` and has a key. */
  lemma QueryByPeriodPartner(logs: seq<LogRow>, pid: string, start: int, end: int,
                             t: AggregationType, dateFormat: (string, int) -> string)
    ensures var rs := QueryByPeriod(logs, pid, start, end, t, dateFormat);
      forall i :: 0 <= i < |rs| ==> AggPeriodKey()(rs[i]).0 == Some(pid) && rs[i].aggregationKey.Some?
  {
    var where := CreatedInPartnerWindow(pid, start, end);
    var kept := Filter(logs, where);
    var key := PeriodKey(GroupByFormat(t), dateFormat);
    var rs := QueryByPeriod(logs, pid, start, end, t, dateFormat);
    PeriodSummaryKeepsKey(t, start);
    GroupByShape(kept, key, PeriodSummary(t, start), AggPeriodKey());
    GroupByKeysFromRows(kept, key, PeriodSummary(t, start), AggPeriodKey());
    forall i | 0 <= i < |rs|
      ensures AggPeriodKey()(rs[i]).0 == Some(pid) && rs[i].aggregationKey.Some?
    {
      var j :| 0 <= j < |kept| && key(kept[j]) == AggPeriodKey()(rs[i]);
      FilterMember(logs, where, kept[j]);
    }
  }

  /** No period key has two rows. */
  lemma QueryByPeriodKeysDistinct(logs: seq<LogRow>, pid: string, start: int, end: int,
                                  t: AggregationType, dateFormat: (string, int) -> string)
    ensures var rs := QueryByPeriod(logs, pid, start, end, t, dateFormat);
      forall i, j :: 0 <= i < j < |rs| ==> rs[i].aggregationKey != rs[j].aggregationKey
  {
    var kept := Filter(logs, CreatedInPartnerWindow(pid, start, end));
    var key := PeriodKey(GroupByFormat(t), dateFormat);
    var rs := QueryByPeriod(logs, pid, start, end, t, dateFormat);
    QueryByPeriodPartner(logs, pid, start, end, t, dateFormat);
    PeriodSummaryKeepsKey(t, start);
    GroupByKeysDistinct(kept, key, PeriodSummary(t, start), AggPeriodKey());
    forall a, b | 0 <= a < b < |rs| ensures rs[a].aggregationKey != rs[b].aggregationKey {
      assert AggPeriodKey()(rs[a]) != AggPeriodKey()(rs[b]);
    }
  }

  /** Every row of the partner created in the window has its period's row. */
  lemma QueryByPeriodCoversRows(logs: seq<LogRow>, pid: string, start: int, end: int,
                                t: AggregationType, dateFormat: (string, int) -> string)
    ensures var rs := QueryByPeriod(logs, pid, start, end, t, dateFormat);
      forall j :: 0 <= j < |logs| && CreatedInPartnerWindow(pid, start, end)(logs[j]) ==>
        exists i :: 0 <= i < |rs| && rs[i].aggregationKey == Some(dateFormat(GroupByFormat(t), logs[j].createdAt))
  {
    var where := CreatedInPartnerWindow(pid, start, end);
    var kept := Filter(logs, where);
    var key := PeriodKey(GroupByFormat(t), dateFormat);
    var rs := QueryByPeriod(logs, pid, start, end, t, dateFormat);
    QueryByPeriodPartner(logs, pid, start, end, t, dateFormat);
    PeriodSummaryKeepsKey(t, start);
    GroupByCoversRows(kept, key, PeriodSummary(t, start), AggPeriodKey());
    forall j | 0 <= j < |logs| && where(logs[j])
      ensures exists i :: 0 <= i < |rs| && rs[i].aggregationKey == Some(dateFormat(GroupByFormat(t), logs[j].createdAt))
    {
      FilterMember(logs, where, logs[j]);
      var k :| 0 <= k < |kept| && kept[k] == logs[j];
      var i :| 0 <= i < |rs| && AggPeriodKey()(rs[i]) == key(kept[k]);
      assert rs[i].aggregationKey == Some(dateFormat(GroupByFormat(t), logs[j].createdAt));
    }
  }
}
