/**
 Properties of a whole reward cycle: what every reported winner satisfies,
 the degenerate cases, and independence from the order in which the
 snapshots happen to be enumerated.
 */
module RewardProperties {
  import opened Options
  import opened Sorting
  import opened Sampling
  import opened Rewards

  /** A wallet returned by `_weighted_choice` is the wallet of some entry of its list. */
  lemma WinnerIsParticipant(ps: seq<Participant>, stream: Stream, used: nat)
    ensures var d := WeightedChoice(ps, stream, used);
      d.winner.Some? ==> exists p :: p in ps && p.wallet == d.winner.value
  {
    var d := WeightedChoice(ps, stream, used);
    if d.winner.Some? {
      var i :| 0 <= i < |ps| && ps[i].wallet == d.winner.value;
      assert ps[i] in ps;
    }
  }

  /**
   A Power Buyer record names an eligible trader with a positive largest buy,
   carries that buy and its transaction, and reports the buy's share of the
   pool's total weight.
   */
  lemma PowerBuyerRecordIsSound(
    holders: seq<TokenHolder>, stats: map<string, CycleStat>, initial: map<string, real>,
    stream: Stream, rules: RewardRules)
    ensures var res := CalculateAllRewards(holders, stats, initial, stream, rules);
      var pool := BuildPools(holders, stats, initial, rules).powerBuyer;
      res.powerBuyer.Some? ==>
        var rec := res.powerBuyer.value;
        && IsEligible(FinalBalances(holders), rules, rec.wallet)
        && rec.wallet in stats
        && rec.metric == stats[rec.wallet].largestBuy > 0.0
        && rec.txSignature == stats[rec.wallet].largestBuyTx
        && Participant(rec.wallet, rec.metric) in pool
        && rec.winChancePercent == WinChance(rec.metric, Total(pool))
  {
    var pools := BuildPools(holders, stats, initial, rules);
    WinnerIsParticipant(pools.powerBuyer, stream, 0);
  }

  /**
   A Volume King record names an eligible trader whose volume reaches the
   minimum, carries its volume, buys and sells, and reports the volume's share
   of the pool's total weight.
   */
  lemma VolumeKingRecordIsSound(
    holders: seq<TokenHolder>, stats: map<string, CycleStat>, initial: map<string, real>,
    stream: Stream, rules: RewardRules)
    ensures var res := CalculateAllRewards(holders, stats, initial, stream, rules);
      var pool := BuildPools(holders, stats, initial, rules).volumeKing;
      res.volumeKing.Some? ==>
        var rec := res.volumeKing.value;
        && IsEligible(FinalBalances(holders), rules, rec.wallet)
        && rec.wallet in stats
        && rec.metric == stats[rec.wallet].totalVolume >= rules.minTradeVolume
        && rec.buys == stats[rec.wallet].buys
        && rec.sells == stats[rec.wallet].sells
        && Participant(rec.wallet, rec.metric) in pool
        && rec.winChancePercent == WinChance(rec.metric, Total(pool))
  {
    var pools := BuildPools(holders, stats, initial, rules);
    WinnerIsParticipant(pools.volumeKing, stream, DrawsFor(pools.powerBuyer));
  }

  /**
   An Active Holder record names an eligible holder whose balance did not
   shrink, carries its final and starting balances, and reports the share of
   its weight `net_change + 0.25 * start` in the pool's total.
   */
  lemma ActiveHolderRecordIsSound(
    holders: seq<TokenHolder>, stats: map<string, CycleStat>, initial: map<string, real>,
    stream: Stream, rules: RewardRules)
    ensures var res := CalculateAllRewards(holders, stats, initial, stream, rules);
      var balances := FinalBalances(holders);
      var pool := BuildPools(holders, stats, initial, rules).activeHolder;
      res.activeHolder.Some? ==>
        var rec := res.activeHolder.value;
        var weight := WeightIn(pool, rec.wallet);
        && IsEligible(balances, rules, rec.wallet)
        && rec.metric == rec.finalBalance == balances[rec.wallet]
        && rec.startBalance == StartBalance(initial, rec.wallet)
        && rec.finalBalance - rec.startBalance >= 0.0
        && weight == (rec.finalBalance - rec.startBalance) + 0.25 * rec.startBalance
        && weight > 0.0
        && Participant(rec.wallet, weight) in pool
        && rec.winChancePercent == WinChance(weight, Total(pool))
  {
    var balances := FinalBalances(holders);
    var pools := BuildPools(holders, stats, initial, rules);
    var pool := pools.activeHolder;
    var winners := DrawWinners(pools, stream);
    var res := CalculateAllRewards(holders, stats, initial, stream, rules);
    assert res.activeHolder == ActiveHolderResult(winners.activeHolder, pool, balances, initial);
    if res.activeHolder.Some? {
      WinnerIsParticipant(pool, stream, DrawsFor(pools.powerBuyer) + DrawsFor(pools.volumeKing));
    }
    ActiveHolderEntry(winners.activeHolder, pool, balances, initial, rules);
  }

  /** The Active Holder entry for a winner drawn from a pool built as the Active Holder pool is. */
  lemma ActiveHolderEntry(winner: Option<string>, pool: seq<Participant>, balances: map<string, real>, initial: map<string, real>, rules: RewardRules)
    requires SortedBy(pool, WalletOf)
    requires forall p :: p in pool <==>
      && IsEligible(balances, rules, p.wallet)
      && balances[p.wallet] - StartBalance(initial, p.wallet) >= 0.0
      && p.weight == (balances[p.wallet] - StartBalance(initial, p.wallet)) + 0.25 * StartBalance(initial, p.wallet)
      && p.weight > 0.0
    requires winner.Some? ==> exists p :: p in pool && p.wallet == winner.value
    ensures var r := ActiveHolderResult(winner, pool, balances, initial);
      r.Some? ==>
        var rec := r.value;
        var weight := WeightIn(pool, rec.wallet);
        && IsEligible(balances, rules, rec.wallet)
        && rec.metric == rec.finalBalance == balances[rec.wallet]
        && rec.startBalance == StartBalance(initial, rec.wallet)
        && rec.finalBalance - rec.startBalance >= 0.0
        && weight == (rec.finalBalance - rec.startBalance) + 0.25 * rec.startBalance
        && weight > 0.0
        && Participant(rec.wallet, weight) in pool
        && rec.winChancePercent == WinChance(weight, Total(pool))
  {
    if Reported(winner) {
      var p :| p in pool && p.wallet == winner.value;
      SortedIsDistinct(pool, WalletOf);
      assert WeightIn(pool, winner.value) == p.weight;
    }
  }

  /**
   A Lottery record names an eligible wallet, carries its final balance, and
   reports one chance in the number of eligible wallets.
   */
  lemma LotteryRecordIsSound(
    holders: seq<TokenHolder>, stats: map<string, CycleStat>, initial: map<string, real>,
    stream: Stream, rules: RewardRules)
    ensures var res := CalculateAllRewards(holders, stats, initial, stream, rules);
      var pool := BuildPools(holders, stats, initial, rules).lottery;
      res.lottery.Some? ==>
        var rec := res.lottery.value;
        && IsEligible(FinalBalances(holders), rules, rec.wallet)
        && rec.metric == FinalBalances(holders)[rec.wallet]
        && rec.winChancePercent == LotteryChance(|pool|)
        && |pool| > 0
  {
    var balances := FinalBalances(holders);
    var pools := BuildPools(holders, stats, initial, rules);
    var winners := DrawWinners(pools, stream);
    var res := CalculateAllRewards(holders, stats, initial, stream, rules);
    assert res.lottery == LotteryResult(winners.lottery, pools.lottery, balances);
    if res.lottery.Some? {
      var w := winners.lottery.value;
      assert w in pools.lottery;
      assert res.lottery.value == LotteryRecord(w, balances[w], LotteryChance(|pools.lottery|));
    }
  }

  /** The sentinel key of the starting balances never wins a category. */
  lemma SentinelNeverWins(
    holders: seq<TokenHolder>, stats: map<string, CycleStat>, initial: map<string, real>,
    stream: Stream, rules: RewardRules)
    ensures var res := CalculateAllRewards(holders, stats, initial, stream, rules);
      && (res.powerBuyer.Some? ==> res.powerBuyer.value.wallet != StartSignature)
      && (res.volumeKing.Some? ==> res.volumeKing.value.wallet != StartSignature)
      && (res.activeHolder.Some? ==> res.activeHolder.value.wallet != StartSignature)
      && (res.lottery.Some? ==> res.lottery.value.wallet != StartSignature)
  {
    PowerBuyerRecordIsSound(holders, stats, initial, stream, rules);
    VolumeKingRecordIsSound(holders, stats, initial, stream, rules);
    ActiveHolderRecordIsSound(holders, stats, initial, stream, rules);
    LotteryRecordIsSound(holders, stats, initial, stream, rules);
  }

  lemma HeadIsMember<T>(s: seq<T>)
    ensures |s| > 0 ==> s[0] in s
  {
  }

  /** Without any eligible wallet every category reports no winner, and nothing fails. */
  lemma NoEligibleWalletNoWinner(
    holders: seq<TokenHolder>, stats: map<string, CycleStat>, initial: map<string, real>,
    stream: Stream, rules: RewardRules)
    requires forall w :: !IsEligible(FinalBalances(holders), rules, w)
    ensures CalculateAllRewards(holders, stats, initial, stream, rules) == Results(None, None, None, None)
  {
    var pools := BuildPools(holders, stats, initial, rules);
    HeadIsMember(pools.powerBuyer);
    HeadIsMember(pools.volumeKing);
    HeadIsMember(pools.activeHolder);
    HeadIsMember(pools.lottery);
  }

  /**
   When no eligible address is the empty string, a category has a record
   exactly when its pool is non-empty (Python's `if winner:` then never hides a
   winner).
   */
  lemma NonEmptyPoolsAreReported(
    holders: seq<TokenHolder>, stats: map<string, CycleStat>, initial: map<string, real>,
    stream: Stream, rules: RewardRules)
    requires !IsEligible(FinalBalances(holders), rules, "")
    ensures var res := CalculateAllRewards(holders, stats, initial, stream, rules);
      var pools := BuildPools(holders, stats, initial, rules);
      && (res.powerBuyer.Some? <==> |pools.powerBuyer| > 0)
      && (res.volumeKing.Some? <==> |pools.volumeKing| > 0)
      && (res.activeHolder.Some? <==> |pools.activeHolder| > 0)
      && (res.lottery.Some? <==> |pools.lottery| > 0)
  {
    var pools := BuildPools(holders, stats, initial, rules);
    var pb := DrawsFor(pools.powerBuyer);
    var vk := DrawsFor(pools.volumeKing);
    ReportedIffNonEmpty(pools.powerBuyer, stream, 0);
    ReportedIffNonEmpty(pools.volumeKing, stream, pb);
    ReportedIffNonEmpty(pools.activeHolder, stream, pb + vk);
  }

  /** A weighted draw from a list without the empty address is reported exactly when the list is non-empty. */
  lemma ReportedIffNonEmpty(ps: seq<Participant>, stream: Stream, used: nat)
    requires forall p :: p in ps ==> p.wallet != ""
    ensures Reported(WeightedChoice(ps, stream, used).winner) <==> |ps| > 0
  {
    WinnerIsParticipant(ps, stream, used);
  }

  /** A wallet holding less than the minimum is in no pool, so it cannot win anything. */
  lemma BelowMinimumExcluded(
    holders: seq<TokenHolder>, stats: map<string, CycleStat>, initial: map<string, real>,
    rules: RewardRules, w: string)
    requires w in FinalBalances(holders) && FinalBalances(holders)[w] < rules.minEligibleHoldingAmount
    ensures var pools := BuildPools(holders, stats, initial, rules);
      && w !in pools.lottery
      && (forall p :: p in pools.powerBuyer ==> p.wallet != w)
      && (forall p :: p in pools.volumeKing ==> p.wallet != w)
      && (forall p :: p in pools.activeHolder ==> p.wallet != w)
  {
  }

  /** Raising the minimum holding only removes participants from every pool, never adds any. */
  lemma RaisingMinimumShrinksPools(
    holders: seq<TokenHolder>, stats: map<string, CycleStat>, initial: map<string, real>,
    rules: RewardRules, stricter: RewardRules)
    requires stricter.minTradeVolume == rules.minTradeVolume
    requires stricter.minEligibleHoldingAmount >= rules.minEligibleHoldingAmount
    ensures var small := BuildPools(holders, stats, initial, stricter);
      var large := BuildPools(holders, stats, initial, rules);
      && (forall w :: w in small.lottery ==> w in large.lottery)
      && (forall p :: p in small.powerBuyer ==> p in large.powerBuyer)
      && (forall p :: p in small.volumeKing ==> p in large.volumeKing)
      && (forall p :: p in small.activeHolder ==> p in large.activeHolder)
  {
  }

  /** Sorting the participants found along a distinct enumeration gives the address-sorted pool, whatever that enumeration's order. */
  lemma SortedSelectionIsPool(order: seq<string>, weightOf: string -> Option<real>, pool: seq<Participant>)
    requires DistinctBy(order, Id)
    requires SortedBy(pool, WalletOf)
    requires forall p :: p in pool <==> p.wallet in order && weightOf(p.wallet) == Some(p.weight)
    ensures SortBy(Select(order, weightOf), WalletOf) == pool
  {
    var selected := Select(order, weightOf);
    SortBySorted(selected, WalletOf);
    SortedUnique(SortBy(selected, WalletOf), pool, WalletOf);
  }

  /**
   The pools equal what `verify_cycle.py` builds: `sorted` applied to the list
   comprehension over the cycle stats (Power Buyer, Volume King) or over the
   eligible set (Active Holder, Lottery), for ANY iteration order of that dict
   or set. So the dict's and the set's iteration orders never affect a draw.
   */
  lemma PoolsFollowSourceConstruction(
    holders: seq<TokenHolder>, stats: map<string, CycleStat>, initial: map<string, real>,
    rules: RewardRules, statsOrder: seq<string>, eligibleOrder: seq<string>)
    requires DistinctBy(statsOrder, Id) && forall w :: w in statsOrder <==> w in stats
    requires DistinctBy(eligibleOrder, Id)
    requires forall w :: w in eligibleOrder <==> IsEligible(FinalBalances(holders), rules, w)
    ensures var balances := FinalBalances(holders);
      var pools := BuildPools(holders, stats, initial, rules);
      && pools.powerBuyer == SortBy(Select(statsOrder, w => PowerBuyerWeight(balances, stats, rules, w)), WalletOf)
      && pools.volumeKing == SortBy(Select(statsOrder, w => VolumeKingWeight(balances, stats, rules, w)), WalletOf)
      && pools.activeHolder == SortBy(Select(eligibleOrder, w => ActiveHolderWeight(balances, initial, rules, w)), WalletOf)
      && pools.lottery == SortBy(eligibleOrder, Id)
  {
    var balances := FinalBalances(holders);
    var pools := BuildPools(holders, stats, initial, rules);
    SortedSelectionIsPool(statsOrder, w => PowerBuyerWeight(balances, stats, rules, w), pools.powerBuyer);
    SortedSelectionIsPool(statsOrder, w => VolumeKingWeight(balances, stats, rules, w), pools.volumeKing);
    SortedSelectionIsPool(eligibleOrder, w => ActiveHolderWeight(balances, initial, rules, w), pools.activeHolder);
    SortBySorted(eligibleOrder, Id);
    SortedUnique(SortBy(eligibleOrder, Id), pools.lottery, Id);
  }

  /**
   The order and the duplicates of the holder rows do not matter: two
   snapshots with the same final-balance map yield the same results.
   */
  lemma SameBalancesSameResults(
    holders: seq<TokenHolder>, others: seq<TokenHolder>, stats: map<string, CycleStat>,
    initial: map<string, real>, stream: Stream, rules: RewardRules)
    requires FinalBalances(holders) == FinalBalances(others)
    ensures CalculateAllRewards(holders, stats, initial, stream, rules)
         == CalculateAllRewards(others, stats, initial, stream, rules)
  {
    SortedUnique(EligibleWallets(holders, rules), EligibleWallets(others, rules), Id);
    assert BuildPools(holders, stats, initial, rules) == BuildPools(others, stats, initial, rules);
  }
}
