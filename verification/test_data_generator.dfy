/** `TestDataGeneratorService`: the batch partition of `generateJpaTestData`
    and `generateJdbcTestData`, and the field rules of `createRandomLog`.
    `java.util.Random` is replaced by a record of draws, each inside the
    bound its `nextInt` call is given; the clock is a parameter. */
module TestDataGenerator {
  import opened Common
  import opened Digits
  import opened UserLog

  const BatchSize: int := 10000

  /** Thirty days in seconds: the bound of the time offset. */
  const TimeSpan: int := 30 * 24 * 60 * 60

  const PartnerIds: seq<string> := ["partner_001", "partner_002", "partner_003", "partner_004", "partner_005"]

  const BroadcastStateCodes: seq<string> :=
    ["cancel", "standby", "accepted", "ready", "onair", "warning", "error", "converting"]

  // ---------------------------------------------------------------------------
  // Batch partition

  /** `(int) Math.ceil((double) totalCount / batchSize)`. For an `int` count the
      double quotient is never rounded across an integer, so this is the exact
      ceiling, for negative counts too. */
  function TotalBatches(totalCount: int): (b: int)
    ensures BatchSize * (b - 1) < totalCount <= BatchSize * b
  {
    -((-totalCount) / BatchSize)
  }

  /** `Math.min(batchSize, totalCount - (batch * batchSize))` */
  function BatchSizeAt(totalCount: int, batch: int): int {
    if BatchSize <= totalCount - batch * BatchSize then BatchSize else totalCount - batch * BatchSize
  }

  /** Every batch the loop runs holds between 1 and 10000 records, and only
      the last one can hold fewer than 10000. */
  lemma BatchSizeBounds(totalCount: int, batch: int)
    requires 0 <= batch < TotalBatches(totalCount)
    ensures 1 <= BatchSizeAt(totalCount, batch) <= BatchSize
    ensures BatchSizeAt(totalCount, batch) < BatchSize ==> batch == TotalBatches(totalCount) - 1
  {
    var b := TotalBatches(totalCount);
    assert BatchSize * batch <= BatchSize * (b - 1) < totalCount;
    if BatchSizeAt(totalCount, batch) < BatchSize {
      assert totalCount < BatchSize * (batch + 1);
      assert BatchSize * (b - 1) < BatchSize * (batch + 1);
    }
  }

  /** The sizes of the batches the loop runs, in order. */
  function BatchSizes(totalCount: int): seq<int> {
    var b := TotalBatches(totalCount);
    seq(if b < 0 then 0 else b, batch requires 0 <= batch => BatchSizeAt(totalCount, batch))
  }

  /** Records saved by the first `k` batches: `k * 10000`, or all of them. */
  function SavedAfter(totalCount: int, k: nat): int {
    if k == 0 || BatchSize * k <= totalCount then BatchSize * k else totalCount
  }

  /** The first `k` batches hold `k * 10000` records, or all of them. */
  lemma {:induction false} BatchPrefixSum(totalCount: int, k: nat)
    requires k <= |BatchSizes(totalCount)|
    ensures Sum(BatchSizes(totalCount)[..k]) == SavedAfter(totalCount, k)
  {
    var sizes := BatchSizes(totalCount);
    if k > 0 {
      BatchPrefixSum(totalCount, k - 1);
      assert sizes[..k] == sizes[..k - 1] + [sizes[k - 1]];
      SumAppend(sizes[..k - 1], [sizes[k - 1]]);
      assert Sum([sizes[k - 1]]) == sizes[k - 1];
      BatchSizeBounds(totalCount, k - 1);
    } else {
      assert sizes[..0] == [];
    }
  }

  /** The batch sizes add up to the requested count (none when it is not positive). */
  lemma BatchSizesSum(totalCount: int)
    ensures Sum(BatchSizes(totalCount)) == if totalCount > 0 then totalCount else 0
  {
    var sizes := BatchSizes(totalCount);
    BatchPrefixSum(totalCount, |sizes|);
    assert sizes[..|sizes|] == sizes;
  }

  // ---------------------------------------------------------------------------
  // One random record

  /** The values `random.nextInt` returned while building one record. */
  datatype Draw = Draw(
    action: int,      // nextInt(ACTIONS.length)
    timeOffset: int,  // nextInt(30 * 24 * 60 * 60)
    partner: int,     // nextInt(PARTNER_IDS.length)
    state: int,       // nextInt(BROADCAST_STATE_CODES.length)
    broadcast: int,   // nextInt(1000000)
    member: int,      // nextInt(100000000)
    playtime: int,    // nextInt(3600), drawn for pageView only
    likes: int,       // nextInt(10), drawn for pageView only
    amount: int,      // nextInt(100000), drawn for productOrder only
    quantity: int     // nextInt(5), drawn for productOrder only
  )

  /** Each draw lies in `[0, bound)` for the bound it was drawn with. */
  predicate ValidDraw(d: Draw) {
    && 0 <= d.action < |Actions|
    && 0 <= d.timeOffset < TimeSpan
    && 0 <= d.partner < |PartnerIds|
    && 0 <= d.state < |BroadcastStateCodes|
    && 0 <= d.broadcast < 1000000
    && 0 <= d.member < 100000000
    && 0 <= d.playtime < 3600
    && 0 <= d.likes < 10
    && 0 <= d.amount < 100000
    && 0 <= d.quantity < 5
  }

  /** `member_` followed by eight digits. */
  predicate IsMemberId(s: string) {
    |s| == 15 && s[..7] == "member_" && AllDigits(s[7..])
  }

  /** `broadcast_` followed by six digits. */
  predicate IsBroadcastId(s: string) {
    |s| == 16 && s[..10] == "broadcast_" && AllDigits(s[10..])
  }

  /** `createRandomLog`. The method leaves `created_at` unset; `createdAt` is
      the creation time the record is stamped with on insertion (by the JPA
      creation timestamp or by the column default), so it is a parameter. */
  function CreateRandomLog(d: Draw, startTime: int, createdAt: int): (r: LogRow)
    requires ValidDraw(d)
    ensures r.action.Some? && r.action.value in Actions
    ensures r.time.Some? && startTime <= r.time.value < startTime + TimeSpan
    ensures r.partnerId.Some? && r.partnerId.value in PartnerIds
    ensures r.broadcastStateCode.Some? && r.broadcastStateCode.value in BroadcastStateCodes
    ensures r.memberId.Some? && IsMemberId(r.memberId.value)
    ensures r.broadcastId.Some? && IsBroadcastId(r.broadcastId.value)
    ensures r.broadcastTypeCode == Some("live")
    ensures (r.playtime.Some? <==> r.action == Some("pageView")) && (r.likeCount.Some? <==> r.action == Some("pageView"))
    ensures r.playtime.Some? ==> 0 <= r.playtime.value < 3600
    ensures r.likeCount.Some? ==> 0 <= r.likeCount.value < 10
    ensures (r.productOrderAmount.Some? <==> r.action == Some("productOrder"))
         && (r.productOrderQuantity.Some? <==> r.action == Some("productOrder"))
    ensures r.productOrderAmount.Some? ==> 1000 <= r.productOrderAmount.value < 101000
    ensures r.productOrderQuantity.Some? ==> 1 <= r.productOrderQuantity.value <= 5
  {
    var action := Actions[d.action];
    var member := "member_" + ZeroPadded(d.member, 8);
    var broadcast := "broadcast_" + ZeroPadded(d.broadcast, 6);
    assert member[..7] == "member_" && member[7..] == ZeroPadded(d.member, 8);
    assert broadcast[..10] == "broadcast_" && broadcast[10..] == ZeroPadded(d.broadcast, 6);
    LogRow(
      time := Some(startTime + d.timeOffset),
      partnerId := Some(PartnerIds[d.partner]),
      broadcastStateCode := Some(BroadcastStateCodes[d.state]),
      broadcastId := Some(broadcast),
      memberId := Some(member),
      action := Some(action),
      playtime := if action == "pageView" then Some(d.playtime) else None,
      likeCount := if action == "pageView" then Some(d.likes) else None,
      productOrderAmount := if action == "productOrder" then Some(d.amount + 1000) else None,
      productOrderQuantity := if action == "productOrder" then Some(d.quantity + 1) else None,
      broadcastTypeCode := Some("live"),
      createdAt := createdAt
    )
  }

  /** Every member id of the form `member_` + eight digits is produced by some
      draw, and the draw is the number the digits denote. */
  lemma EveryMemberIdReachable(d: Draw, startTime: int, createdAt: int, s: string)
    requires ValidDraw(d) && IsMemberId(s)
    ensures var d' := d.(member := ParseDigits(s[7..]));
      ValidDraw(d') && CreateRandomLog(d', startTime, createdAt).memberId == Some(s)
  {
    var digits := s[7..];
    ZeroPaddedParse(digits);
    assert Pow10(8) == 100000000;
    assert s == "member_" + digits;
  }

  /** Every broadcast id of the form `broadcast_` + six digits is produced by
      some draw. */
  lemma EveryBroadcastIdReachable(d: Draw, startTime: int, createdAt: int, s: string)
    requires ValidDraw(d) && IsBroadcastId(s)
    ensures var d' := d.(broadcast := ParseDigits(s[10..]));
      ValidDraw(d') && CreateRandomLog(d', startTime, createdAt).broadcastId == Some(s)
  {
    var digits := s[10..];
    ZeroPaddedParse(digits);
    assert Pow10(6) == 1000000;
    assert s == "broadcast_" + digits;
  }

  // ---------------------------------------------------------------------------
  // The generation loop

  /** The inner loop: `size` records built from the draws after `offset`,
      each with its own creation stamp. */
  method CreateBatch(draws: seq<Draw>, offset: nat, size: nat, stamps: seq<int>, startTime: int)
    returns (batchData: seq<LogRow>)
    requires forall i :: 0 <= i < |draws| ==> ValidDraw(draws[i])
    requires offset + size <= |draws| && |draws| <= |stamps|
    ensures |batchData| == size
    ensures forall k :: 0 <= k < size ==> batchData[k] == CreateRandomLog(draws[offset + k], startTime, stamps[offset + k])
  {
    batchData := [];
    var i := 0;
    while i < size
      invariant 0 <= i <= size
      invariant |batchData| == i
      invariant forall k :: 0 <= k < i ==> batchData[k] == CreateRandomLog(draws[offset + k], startTime, stamps[offset + k])
    {
      batchData := batchData + [CreateRandomLog(draws[offset + i], startTime, stamps[offset + i])];
      i := i + 1;
    }
  }

  /** One more batch saves its size on top of what the earlier ones saved;
      after the last batch every record is saved. */
  lemma SavedAfterStep(totalCount: int, batch: nat)
    requires batch < TotalBatches(totalCount)
    ensures SavedAfter(totalCount, batch) == BatchSize * batch
    ensures SavedAfter(totalCount, batch + 1) == SavedAfter(totalCount, batch) + BatchSizeAt(totalCount, batch)
    ensures batch + 1 == TotalBatches(totalCount) ==> SavedAfter(totalCount, batch + 1) == totalCount
  {
    var b := TotalBatches(totalCount);
    assert BatchSize * batch <= BatchSize * (b - 1) < totalCount;
  }

  /** The records saved so far are the ones built from the first draws. */
  predicate BuiltFrom(table: seq<LogRow>, draws: seq<Draw>, stamps: seq<int>, startTime: int)
    requires forall i :: 0 <= i < |draws| ==> ValidDraw(draws[i])
    requires |draws| <= |stamps|
  {
    && |table| <= |draws|
    && forall i :: 0 <= i < |table| ==> table[i] == CreateRandomLog(draws[i], startTime, stamps[i])
  }

  /** Saving a batch built from the next draws keeps the records in draw order. */
  lemma BuiltFromAppend(table: seq<LogRow>, batchData: seq<LogRow>, draws: seq<Draw>, stamps: seq<int>, startTime: int)
    requires forall i :: 0 <= i < |draws| ==> ValidDraw(draws[i])
    requires |draws| <= |stamps|
    requires BuiltFrom(table, draws, stamps, startTime) && |table| + |batchData| <= |draws|
    requires forall k :: 0 <= k < |batchData| ==> batchData[k] == CreateRandomLog(draws[|table| + k], startTime, stamps[|table| + k])
    ensures BuiltFrom(table + batchData, draws, stamps, startTime)
  {
    var t := table + batchData;
    forall i | |table| <= i < |t| ensures t[i] == CreateRandomLog(draws[i], startTime, stamps[i]) {
      assert t[i] == batchData[i - |table|];
    }
  }

  /** One pass of the outer loop: build batch `batch` and save it. */
  method SaveBatch(table: seq<LogRow>, totalCount: int, batch: nat, draws: seq<Draw>, stamps: seq<int>, startTime: int)
    returns (table': seq<LogRow>)
    requires forall i :: 0 <= i < |draws| ==> ValidDraw(draws[i])
    requires totalCount <= |draws| && |draws| <= |stamps| && batch < TotalBatches(totalCount)
    requires |table| == SavedAfter(totalCount, batch) && BuiltFrom(table, draws, stamps, startTime)
    ensures |table'| == SavedAfter(totalCount, batch + 1) && BuiltFrom(table', draws, stamps, startTime)
    ensures batch + 1 == TotalBatches(totalCount) ==> |table'| == totalCount
  {
    SavedAfterStep(totalCount, batch);
    BatchSizeBounds(totalCount, batch);
    var currentBatchSize := BatchSizeAt(totalCount, batch);
    var batchData := CreateBatch(draws, |table|, currentBatchSize, stamps, startTime);
    BuiltFromAppend(table, batchData, draws, stamps, startTime);
    table' := table + batchData;
  }

  /** `generateJpaTestData` / `generateJdbcTestData`: empty the table, then save
      `totalCount` records batch by batch; record `i` is built from `draws[i]`
      and carries `stamps[i]`, the creation time stamped on it when it was
      inserted. The stamps come from the clock, so nothing is promised about
      them: rows may share a stamp or not. */
  method GenerateTestData(totalCount: int, draws: seq<Draw>, stamps: seq<int>, startTime: int)
    returns (table: seq<LogRow>)
    requires forall i :: 0 <= i < |draws| ==> ValidDraw(draws[i])
    requires totalCount <= |draws| && |draws| <= |stamps|
    ensures |table| == if totalCount > 0 then totalCount else 0
    ensures forall i :: 0 <= i < |table| ==> table[i] == CreateRandomLog(draws[i], startTime, stamps[i])
  {
    table := [];
    var totalBatches := TotalBatches(totalCount);
    var batch := 0;
    while batch < totalBatches
      invariant 0 <= batch && (totalBatches >= 0 ==> batch <= totalBatches)
      invariant |table| == SavedAfter(totalCount, batch)
      invariant batch == 0 || batch < totalBatches || |table| == totalCount
      invariant BuiltFrom(table, draws, stamps, startTime)
    {
      table := SaveBatch(table, totalCount, batch, draws, stamps, startTime);
      batch := batch + 1;
    }
  }
}
