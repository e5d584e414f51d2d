/**
 The reward calculation of one Pump Pot cycle
 (`calculate_all_rewards_from_package`): the universally eligible wallets, the
 four address-sorted participant pools, the four draws from one seeded stream
 in the fixed order Power Buyer, Volume King, Active Holder, Lottery, and the
 winner records with their win chances.
 */
module Rewards {
  import opened Options
  import opened Sorting
  import opened Sampling

  /** The key the loader adds to the starting balances to carry the cycle's start signature; it is never a wallet. */
  const StartSignature: string := "_start_signature"

  /** One row of the final-balance snapshot. */
  datatype TokenHolder = TokenHolder(address: string, amount: real)

  /** A wallet's trading activity during the cycle. */
  datatype CycleStat = CycleStat(
    totalVolume: real,
    largestBuy: real,
    largestBuyTx: Option<string>,
    buys: real,
    sells: real)

  /** The thresholds of the package's rules. */
  datatype RewardRules = RewardRules(minEligibleHoldingAmount: real, minTradeVolume: real)

  /** Position `i` holds the last row for its address, so its amount is the one a dict comprehension keeps. */
  ghost predicate IsLastOccurrence(holders: seq<TokenHolder>, i: int) {
    && 0 <= i < |holders|
    && forall j :: i < j < |holders| ==> holders[j].address != holders[i].address
  }

  /** The final balance of every address in the holder rows; a later row for an address overwrites an earlier one. */
  function FinalBalances(holders: seq<TokenHolder>): map<string, real>
    decreases |holders|
  {
    if |holders| == 0 then map[]
    else
      var last := holders[|holders| - 1];
      FinalBalances(holders[..|holders| - 1])[last.address := last.amount]
  }

  /** The final-balance map has exactly the addresses of the holder rows as keys. */
  lemma {:induction false} FinalBalancesKeys(holders: seq<TokenHolder>)
    ensures forall w :: w in FinalBalances(holders) <==> exists i :: 0 <= i < |holders| && holders[i].address == w
    decreases |holders|
  {
    if |holders| > 0 {
      var init := holders[..|holders| - 1];
      FinalBalancesKeys(init);
      assert forall i :: 0 <= i < |init| ==> init[i] == holders[i];
    }
  }

  /** Each address maps to the amount of its last row. */
  lemma {:induction false} FinalBalancesLastRowWins(holders: seq<TokenHolder>, i: int)
    requires IsLastOccurrence(holders, i)
    ensures holders[i].address in FinalBalances(holders)
    ensures FinalBalances(holders)[holders[i].address] == holders[i].amount
    decreases |holders|
  {
    var init := holders[..|holders| - 1];
    if i < |init| {
      assert IsLastOccurrence(init, i);
      FinalBalancesLastRowWins(init, i);
    }
  }

  /** The keys of the final-balance map in insertion order: every address once, at its first row. */
  function HolderAddresses(holders: seq<TokenHolder>): (ws: seq<string>)
    ensures DistinctBy(ws, Id)
    ensures forall w :: w in ws <==> exists i :: 0 <= i < |holders| && holders[i].address == w
    decreases |holders|
  {
    if |holders| == 0 then []
    else
      var ws := HolderAddresses(holders[..|holders| - 1]);
      var a := holders[|holders| - 1].address;
      if a in ws then ws else ws + [a]
  }

  /** Universal eligibility: a holder that is not the sentinel key and holds at least the minimum. */
  predicate IsEligible(balances: map<string, real>, rules: RewardRules, w: string) {
    && w in balances
    && w != StartSignature
    && balances[w] >= rules.minEligibleHoldingAmount
  }

  /** The eligible addresses among `ws`, in their order. */
  function EligibleAmong(ws: seq<string>, balances: map<string, real>, rules: RewardRules): (es: seq<string>)
    ensures forall w :: w in es <==> w in ws && IsEligible(balances, rules, w)
    ensures DistinctBy(ws, Id) ==> DistinctBy(es, Id)
    decreases |ws|
  {
    if |ws| == 0 then []
    else
      var rest := EligibleAmong(ws[1..], balances, rules);
      if IsEligible(balances, rules, ws[0]) then [ws[0]] + rest else rest
  }

  /**
   The universally eligible wallets listed in ascending address order. This
   is the Lottery pool and the base of every other pool.
   */
  function EligibleWallets(holders: seq<TokenHolder>, rules: RewardRules): (ws: seq<string>)
    ensures SortedBy(ws, Id)
    ensures forall w :: w in ws <==> IsEligible(FinalBalances(holders), rules, w)
  {
    FinalBalancesKeys(holders);
    var candidates := EligibleAmong(HolderAddresses(holders), FinalBalances(holders), rules);
    SortBySorted(candidates, Id);
    SortBy(candidates, Id)
  }

  /** The balance `w` held at the start of the cycle, 0 when it is not in the starting snapshot. */
  function StartBalance(initial: map<string, real>, w: string): real {
    if w in initial then initial[w] else 0.0
  }

  /** Power Buyer weight: the largest buy of an eligible trader whose largest buy is positive. */
  function PowerBuyerWeight(balances: map<string, real>, stats: map<string, CycleStat>, rules: RewardRules, w: string): Option<real> {
    if IsEligible(balances, rules, w) && w in stats && stats[w].largestBuy > 0.0 then Some(stats[w].largestBuy) else None
  }

  /** Volume King weight: the volume of an eligible trader who traded at least the minimum volume. */
  function VolumeKingWeight(balances: map<string, real>, stats: map<string, CycleStat>, rules: RewardRules, w: string): Option<real> {
    if IsEligible(balances, rules, w) && w in stats && stats[w].totalVolume >= rules.minTradeVolume then Some(stats[w].totalVolume) else None
  }

  /** Active Holder weight: net gain plus a quarter of the starting balance, for an eligible holder that did not shrink. */
  function ActiveHolderWeight(balances: map<string, real>, initial: map<string, real>, rules: RewardRules, w: string): Option<real> {
    if !IsEligible(balances, rules, w) then None
    else
      var finalBalance := balances[w];
      var startBalance := StartBalance(initial, w);
      var netChange := finalBalance - startBalance;
      if netChange < 0.0 then None
      else
        var weight := 1.0 * netChange + 0.25 * startBalance;
        if weight > 0.0 then Some(weight) else None
  }

  /** The participants among `ws`, in their order: each address that has a weight, paired with it. */
  function Select(ws: seq<string>, weightOf: string -> Option<real>): (ps: seq<Participant>)
    ensures forall p :: p in ps <==> p.wallet in ws && weightOf(p.wallet) == Some(p.weight)
    ensures SortedBy(ws, Id) ==> SortedBy(ps, WalletOf)
    ensures DistinctBy(ws, Id) ==> DistinctBy(ps, WalletOf)
    decreases |ws|
  {
    if |ws| == 0 then []
    else
      var rest := Select(ws[1..], weightOf);
      match weightOf(ws[0])
      case Some(x) => [Participant(ws[0], x)] + rest
      case None => rest
  }

  /** The sorted eligible wallets of `balances`. */
  ghost predicate IsEligibleListing(eligible: seq<string>, balances: map<string, real>, rules: RewardRules) {
    && SortedBy(eligible, Id)
    && forall w :: w in eligible <==> IsEligible(balances, rules, w)
  }

  /** The Power Buyer pool: sorted `(wallet, largest_buy)` for eligible traders with a positive largest buy. */
  function PowerBuyerPool(eligible: seq<string>, balances: map<string, real>, stats: map<string, CycleStat>, rules: RewardRules): (ps: seq<Participant>)
    requires IsEligibleListing(eligible, balances, rules)
    ensures SortedBy(ps, WalletOf)
    ensures forall p :: p in ps <==>
      && IsEligible(balances, rules, p.wallet)
      && p.wallet in stats
      && stats[p.wallet].largestBuy > 0.0
      && p.weight == stats[p.wallet].largestBuy
  {
    Select(eligible, w => PowerBuyerWeight(balances, stats, rules, w))
  }

  /** The Volume King pool: sorted `(wallet, total_volume)` for eligible traders reaching the minimum volume. */
  function VolumeKingPool(eligible: seq<string>, balances: map<string, real>, stats: map<string, CycleStat>, rules: RewardRules): (ps: seq<Participant>)
    requires IsEligibleListing(eligible, balances, rules)
    ensures SortedBy(ps, WalletOf)
    ensures forall p :: p in ps <==>
      && IsEligible(balances, rules, p.wallet)
      && p.wallet in stats
      && stats[p.wallet].totalVolume >= rules.minTradeVolume
      && p.weight == stats[p.wallet].totalVolume
  {
    Select(eligible, w => VolumeKingWeight(balances, stats, rules, w))
  }

  /**
   The Active Holder pool: sorted `(wallet, net_change + 0.25 * start)` for
   eligible holders whose balance did not shrink and whose weight is positive.
   */
  function ActiveHolderPool(eligible: seq<string>, balances: map<string, real>, initial: map<string, real>, rules: RewardRules): (ps: seq<Participant>)
    requires IsEligibleListing(eligible, balances, rules)
    ensures SortedBy(ps, WalletOf)
    ensures forall p :: p in ps <==>
      && IsEligible(balances, rules, p.wallet)
      && balances[p.wallet] - StartBalance(initial, p.wallet) >= 0.0
      && p.weight == (balances[p.wallet] - StartBalance(initial, p.wallet)) + 0.25 * StartBalance(initial, p.wallet)
      && p.weight > 0.0
  {
    Select(eligible, w => ActiveHolderWeight(balances, initial, rules, w))
  }

  /** The Lottery pool and the three weighted pools, each ascending by address. */
  datatype Pools = Pools(
    lottery: seq<string>,
    powerBuyer: seq<Participant>,
    volumeKing: seq<Participant>,
    activeHolder: seq<Participant>)

  function BuildPools(
    holders: seq<TokenHolder>,
    stats: map<string, CycleStat>,
    initial: map<string, real>,
    rules: RewardRules): (pools: Pools)
    ensures SortedBy(pools.lottery, Id)
    ensures SortedBy(pools.powerBuyer, WalletOf)
    ensures SortedBy(pools.volumeKing, WalletOf)
    ensures SortedBy(pools.activeHolder, WalletOf)
    ensures var balances := FinalBalances(holders);
      forall w :: w in pools.lottery <==> IsEligible(balances, rules, w)
    ensures var balances := FinalBalances(holders);
      forall p :: p in pools.powerBuyer <==>
        && IsEligible(balances, rules, p.wallet)
        && p.wallet in stats
        && stats[p.wallet].largestBuy > 0.0
        && p.weight == stats[p.wallet].largestBuy
    ensures var balances := FinalBalances(holders);
      forall p :: p in pools.volumeKing <==>
        && IsEligible(balances, rules, p.wallet)
        && p.wallet in stats
        && stats[p.wallet].totalVolume >= rules.minTradeVolume
        && p.weight == stats[p.wallet].totalVolume
    ensures var balances := FinalBalances(holders);
      forall p :: p in pools.activeHolder <==>
        && IsEligible(balances, rules, p.wallet)
        && balances[p.wallet] - StartBalance(initial, p.wallet) >= 0.0
        && p.weight == (balances[p.wallet] - StartBalance(initial, p.wallet)) + 0.25 * StartBalance(initial, p.wallet)
        && p.weight > 0.0
  {
    var balances := FinalBalances(holders);
    var eligible := EligibleWallets(holders, rules);
    Pools(
      eligible,
      PowerBuyerPool(eligible, balances, stats, rules),
      VolumeKingPool(eligible, balances, stats, rules),
      ActiveHolderPool(eligible, balances, initial, rules))
  }

  /** How many draws a selection from `s` consumes: one, unless `s` is empty. */
  function DrawsFor<T>(s: seq<T>): nat {
    if |s| == 0 then 0 else 1
  }

  /** The wallets drawn in the four categories, before result assembly. */
  datatype Winners = Winners(
    powerBuyer: Option<string>,
    volumeKing: Option<string>,
    activeHolder: Option<string>,
    lottery: Option<string>)

  /**
   The four draws from the freshly seeded stream, in the fixed order. Each
   category's draw sits at the position given by how many earlier pools were
   non-empty.
   */
  function DrawWinners(pools: Pools, stream: Stream): (w: Winners)
    ensures w.powerBuyer == WeightedChoice(pools.powerBuyer, stream, 0).winner
    ensures w.volumeKing == WeightedChoice(pools.volumeKing, stream, DrawsFor(pools.powerBuyer)).winner
    ensures w.activeHolder ==
      WeightedChoice(pools.activeHolder, stream, DrawsFor(pools.powerBuyer) + DrawsFor(pools.volumeKing)).winner
    ensures w.lottery ==
      UniformChoice(pools.lottery, stream,
        DrawsFor(pools.powerBuyer) + DrawsFor(pools.volumeKing) + DrawsFor(pools.activeHolder)).winner
  {
    var pb := WeightedChoice(pools.powerBuyer, stream, 0);
    var vk := WeightedChoice(pools.volumeKing, stream, pb.used);
    var ah := WeightedChoice(pools.activeHolder, stream, vk.used);
    var lottery := UniformChoice(pools.lottery, stream, ah.used);
    Winners(pb.winner, vk.winner, ah.winner, lottery.winner)
  }

  datatype PowerBuyerRecord = PowerBuyerRecord(wallet: string, metric: real, txSignature: Option<string>, winChancePercent: real)
  datatype VolumeKingRecord = VolumeKingRecord(wallet: string, metric: real, buys: real, sells: real, winChancePercent: real)
  datatype ActiveHolderRecord = ActiveHolderRecord(wallet: string, metric: real, finalBalance: real, startBalance: real, winChancePercent: real)
  datatype LotteryRecord = LotteryRecord(wallet: string, metric: real, winChancePercent: real)

  /** The result of a cycle: one record per category, `None` when the category has no winner. */
  datatype Results = Results(
    powerBuyer: Option<PowerBuyerRecord>,
    volumeKing: Option<VolumeKingRecord>,
    activeHolder: Option<ActiveHolderRecord>,
    lottery: Option<LotteryRecord>)

  /** Python's `if winner:` on an `Optional[str]`: present and not the empty string. */
  predicate Reported(winner: Option<string>) {
    winner.Some? && winner.value != ""
  }

  /** The weight of the first entry of `ps` for `w`, or 0 when no entry names `w`. */
  function WeightIn(ps: seq<Participant>, w: string): (x: real)
    ensures (forall p :: p in ps ==> p.wallet != w) ==> x == 0.0
    ensures DistinctBy(ps, WalletOf) ==> forall p :: p in ps && p.wallet == w ==> x == p.weight
    decreases |ps|
  {
    if |ps| == 0 then 0.0
    else if ps[0].wallet == w then ps[0].weight
    else WeightIn(ps[1..], w)
  }

  /** The Power Buyer entry of the results. */
  function PowerBuyerResult(winner: Option<string>, pool: seq<Participant>, stats: map<string, CycleStat>): (r: Option<PowerBuyerRecord>)
    requires Reported(winner) ==> winner.value in stats
    ensures r.Some? <==> Reported(winner)
    ensures r.Some? ==> r.value.wallet == winner.value && r.value.txSignature == stats[winner.value].largestBuyTx
  {
    if Reported(winner) then
      var w := winner.value;
      var weight := stats[w].largestBuy;
      Some(PowerBuyerRecord(w, weight, stats[w].largestBuyTx, WinChance(weight, Total(pool))))
    else None
  }

  /** The Volume King entry of the results. */
  function VolumeKingResult(winner: Option<string>, pool: seq<Participant>, stats: map<string, CycleStat>): (r: Option<VolumeKingRecord>)
    requires Reported(winner) ==> winner.value in stats
    ensures r.Some? <==> Reported(winner)
    ensures r.Some? ==> r.value.wallet == winner.value
    ensures r.Some? ==> r.value.buys == stats[winner.value].buys && r.value.sells == stats[winner.value].sells
  {
    if Reported(winner) then
      var w := winner.value;
      var weight := stats[w].totalVolume;
      Some(VolumeKingRecord(w, weight, stats[w].buys, stats[w].sells, WinChance(weight, Total(pool))))
    else None
  }

  /** The Active Holder entry of the results; the winner's weight is looked up in the pool. */
  function ActiveHolderResult(winner: Option<string>, pool: seq<Participant>, balances: map<string, real>, initial: map<string, real>): (r: Option<ActiveHolderRecord>)
    ensures r.Some? <==> Reported(winner)
    ensures r.Some? ==> r.value.wallet == winner.value && r.value.metric == r.value.finalBalance
  {
    if Reported(winner) then
      var w := winner.value;
      var weight := WeightIn(pool, w);
      var finalBalance := if w in balances then balances[w] else 0.0;
      Some(ActiveHolderRecord(w, finalBalance, finalBalance, StartBalance(initial, w), WinChance(weight, Total(pool))))
    else None
  }

  /** The Lottery win chance: each of `n` wallets holds an equal share of 100 percent, and 100 when there are none. */
  function LotteryChance(n: nat): (chance: real)
    ensures n > 0 ==> chance * n as real == 100.0
  {
    if n > 0 then 1.0 / n as real * 100.0 else 100.0
  }

  /** The Lottery entry of the results: one chance in the number of eligible wallets. */
  function LotteryResult(winner: Option<string>, pool: seq<string>, balances: map<string, real>): (r: Option<LotteryRecord>)
    ensures r.Some? <==> Reported(winner)
    ensures r.Some? ==> r.value.wallet == winner.value
  {
    if Reported(winner) then
      var w := winner.value;
      Some(LotteryRecord(w, if w in balances then balances[w] else 0.0, LotteryChance(|pool|)))
    else None
  }

  /** A wallet drawn from a Power Buyer or Volume King pool has a cycle stat. */
  lemma DrawnFromPoolHasStat(ps: seq<Participant>, stats: map<string, CycleStat>, stream: Stream, used: nat)
    requires forall p :: p in ps ==> p.wallet in stats
    ensures var d := WeightedChoice(ps, stream, used);
      d.winner.Some? ==> d.winner.value in stats
  {
    var d := WeightedChoice(ps, stream, used);
    if d.winner.Some? {
      var i :| 0 <= i < |ps| && ps[i].wallet == d.winner.value;
      assert ps[i] in ps;
    }
  }

  /**
   The reward calculation of one cycle. `stream` is the generator freshly
   seeded with the cycle's verification seed; it is seeded once and read by
   the four categories in order. A category has a record exactly when its
   draw produced a non-empty wallet address, and that record names the
   drawn wallet.
   */
  function CalculateAllRewards(
    holders: seq<TokenHolder>,
    stats: map<string, CycleStat>,
    initial: map<string, real>,
    stream: Stream,
    rules: RewardRules): (res: Results)
    ensures var winners := DrawWinners(BuildPools(holders, stats, initial, rules), stream);
      && (res.powerBuyer.Some? <==> Reported(winners.powerBuyer))
      && (res.volumeKing.Some? <==> Reported(winners.volumeKing))
      && (res.activeHolder.Some? <==> Reported(winners.activeHolder))
      && (res.lottery.Some? <==> Reported(winners.lottery))
      && (res.powerBuyer.Some? ==> res.powerBuyer.value.wallet == winners.powerBuyer.value)
      && (res.volumeKing.Some? ==> res.volumeKing.value.wallet == winners.volumeKing.value)
      && (res.activeHolder.Some? ==> res.activeHolder.value.wallet == winners.activeHolder.value)
      && (res.lottery.Some? ==> res.lottery.value.wallet == winners.lottery.value)
  {
    var balances := FinalBalances(holders);
    var pools := BuildPools(holders, stats, initial, rules);
    var winners := DrawWinners(pools, stream);
    DrawnFromPoolHasStat(pools.powerBuyer, stats, stream, 0);
    DrawnFromPoolHasStat(pools.volumeKing, stats, stream, DrawsFor(pools.powerBuyer));
    Results(
      PowerBuyerResult(winners.powerBuyer, pools.powerBuyer, stats),
      VolumeKingResult(winners.volumeKing, pools.volumeKing, stats),
      ActiveHolderResult(winners.activeHolder, pools.activeHolder, balances, initial),
      LotteryResult(winners.lottery, pools.lottery, balances))
  }
}
