/** A row of the `player_userlog` table (entity `PlayerUserLog`). Every
    nullable column is an `Option`; timestamps are whole seconds. */
module UserLog {
  import opened Common

  datatype LogRow = LogRow(
    time: Option<int>,                 // column __time
    partnerId: Option<string>,
    broadcastStateCode: Option<string>,
    broadcastId: Option<string>,
    memberId: Option<string>,
    action: Option<string>,
    playtime: Option<int>,
    likeCount: Option<int>,
    productOrderAmount: Option<int>,
    productOrderQuantity: Option<int>,
    broadcastTypeCode: Option<string>,
    createdAt: int                     // column created_at, set on insert
  )

  /** The twelve action names the aggregation queries count, in the order of
      the generator's ACTIONS array. */
  const Actions: seq<string> := [
    "pageView", "chat", "productClick", "productOrder", "productOrderCancel",
    "bannerClick", "couponClick", "joinReward", "rewardComplete",
    "purchaseVerifying", "joinQuiz", "shareClick"
  ]

  lemma ActionsAreDistinct()
    ensures |Actions| == 12 && NoDuplicates(Actions)
  {
  }

  /** SQL `t >= start AND t < end`: false when `t` is NULL. */
  predicate InWindow(t: Option<int>, start: int, end: int) {
    t.Some? && start <= t.value < end
  }
}
