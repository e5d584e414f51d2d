/**
 Worked cycles, checked against the model: the address sort decides the
 winner for a fixed draw, and a small cycle's four results.
 */
module Scenarios {
  import opened Options
  import opened Sorting
  import opened Sampling
  import opened Rewards

  /**
   The scan consumes the list in address order, not insertion order: for the
   draw 0.25 over weights 1 and 3 the point is 1.0, so the address-sorted list
   picks "a" while the unsorted list picks "b", because `upto + weight >= r`
   already holds at "b" (with `>` it would not).
   */
  lemma AddressOrderDecidesWinner()
    ensures var unsorted := [Participant("b", 1.0), Participant("a", 3.0)];
      var sorted := SortBy(unsorted, WalletOf);
      var stream: Stream := _ => 0.25;
      && sorted == [Participant("a", 3.0), Participant("b", 1.0)]
      && WeightedChoice(sorted, stream, 0).winner == Some("a")
      && WeightedChoice(unsorted, stream, 0).winner == Some("b")
  {
    var unsorted := [Participant("b", 1.0), Participant("a", 3.0)];
    assert Less("a", "b");
    assert SortBy(unsorted[..1], WalletOf) == [Participant("b", 1.0)];
    var sorted := SortBy(unsorted, WalletOf);
    assert sorted == [Participant("a", 3.0), Participant("b", 1.0)];
    assert Total(unsorted) == 4.0 by {
      assert unsorted[..1] == [Participant("b", 1.0)];
      assert unsorted[..1][..0] == [];
    }
    assert Total(sorted) == 4.0 by {
      assert sorted[..1] == [Participant("a", 3.0)];
      assert sorted[..1][..0] == [];
    }
    assert sorted[..0] == [] && unsorted[..0] == [];
    assert FirstHit(sorted, 1.0, 0, 0.0) == Some(0);
    assert FirstHit(unsorted, 1.0, 0, 0.0) == Some(0);
  }

  lemma LotteryChanceOfTwo()
    ensures LotteryChance(2) == 50.0
  {
    assert 1.0 / 2.0 == 0.5;
  }

  /**
   A small cycle: holders A (100), B (50) and C (0) with a minimum holding of
   10, so A and B are eligible; A bought at most 5 and traded 20, B bought
   nothing and traded 30, against a minimum volume of 25; both started with
   80. Every draw is 0.75.
   */
  const smallHolders: seq<TokenHolder> := [TokenHolder("A", 100.0), TokenHolder("B", 50.0), TokenHolder("C", 0.0)]
  const smallStats: map<string, CycleStat> :=
    map["A" := CycleStat(20.0, 5.0, Some("txA"), 12.0, 8.0),
        "B" := CycleStat(30.0, 0.0, None, 10.0, 20.0)]
  const smallInitial: map<string, real> := map["A" := 80.0, "B" := 80.0]
  const smallRules: RewardRules := RewardRules(10.0, 25.0)
  const smallStream: Stream := _ => 0.75

  lemma SmallCycleBalances()
    ensures FinalBalances(smallHolders) == map["A" := 100.0, "B" := 50.0, "C" := 0.0]
  {
    var holders := smallHolders;
    assert holders[..0] == [];
    assert holders[..1] == [TokenHolder("A", 100.0)];
    assert holders[..2] == [TokenHolder("A", 100.0), TokenHolder("B", 50.0)];
    assert holders[..2][..1] == holders[..1] && holders[..1][..0] == holders[..0];
    assert FinalBalances(holders[..0]) == map[];
    assert FinalBalances(holders[..1]) == map["A" := 100.0];
    assert FinalBalances(holders[..2]) == map["A" := 100.0, "B" := 50.0];
  }

  /** The small cycle's pools are built from the final balances A 100, B 50, C 0. */
  function SmallPools(): Pools {
    BuildPools(smallHolders, smallStats, smallInitial, smallRules)
  }

  /** A and B are the small cycle's eligible wallets; C holds nothing. */
  lemma SmallEligible(balances: map<string, real>)
    requires balances == map["A" := 100.0, "B" := 50.0, "C" := 0.0]
    ensures forall w :: IsEligible(balances, smallRules, w) <==> w == "A" || w == "B"
  {
  }

  lemma SmallLotteryPool()
    ensures SmallPools().lottery == ["A", "B"]
  {
    SmallCycleBalances();
    var pool := SmallPools().lottery;
    var balances := FinalBalances(smallHolders);
    SmallEligible(balances);
    assert forall w :: w in pool <==> w in ["A", "B"];
    assert SortedBy(["A", "B"], Id) by {
      assert Less("A", "B");
    }
    SortedUnique(pool, ["A", "B"], Id);
  }

  /** Of A and B only A bought: its largest buy is 5, B's is 0. */
  lemma SmallPowerBuyers(balances: map<string, real>)
    requires balances == map["A" := 100.0, "B" := 50.0, "C" := 0.0]
    ensures forall p: Participant ::
      (&& IsEligible(balances, smallRules, p.wallet)
       && p.wallet in smallStats
       && smallStats[p.wallet].largestBuy > 0.0
       && p.weight == smallStats[p.wallet].largestBuy)
      <==> p == Participant("A", 5.0)
  {
    SmallEligible(balances);
  }

  /** Power Buyer is A alone: B's largest buy is 0. */
  lemma SmallPowerBuyerPool()
    ensures SmallPools().powerBuyer == [Participant("A", 5.0)]
  {
    SmallCycleBalances();
    SmallPowerBuyers(FinalBalances(smallHolders));
    var pool := SmallPools().powerBuyer;
    assert forall p :: p in pool <==> p in [Participant("A", 5.0)];
    SortedUnique(pool, [Participant("A", 5.0)], WalletOf);
  }

  /** Of A and B only B traded the minimum volume of 25. */
  lemma SmallVolumeKings(balances: map<string, real>)
    requires balances == map["A" := 100.0, "B" := 50.0, "C" := 0.0]
    ensures forall p: Participant ::
      (&& IsEligible(balances, smallRules, p.wallet)
       && p.wallet in smallStats
       && smallStats[p.wallet].totalVolume >= smallRules.minTradeVolume
       && p.weight == smallStats[p.wallet].totalVolume)
      <==> p == Participant("B", 30.0)
  {
    SmallEligible(balances);
  }

  /** Volume King is B alone: A traded less than 25. */
  lemma SmallVolumeKingPool()
    ensures SmallPools().volumeKing == [Participant("B", 30.0)]
  {
    SmallCycleBalances();
    SmallVolumeKings(FinalBalances(smallHolders));
    var pool := SmallPools().volumeKing;
    assert forall p :: p in pool <==> p in [Participant("B", 30.0)];
    SortedUnique(pool, [Participant("B", 30.0)], WalletOf);
  }

  /** Of A and B only A kept its balance: 100 against a start of 80, weight 20 + 0.25 * 80. */
  lemma SmallActiveHolders(balances: map<string, real>)
    requires balances == map["A" := 100.0, "B" := 50.0, "C" := 0.0]
    ensures forall p: Participant ::
      (&& IsEligible(balances, smallRules, p.wallet)
       && balances[p.wallet] - StartBalance(smallInitial, p.wallet) >= 0.0
       && p.weight == (balances[p.wallet] - StartBalance(smallInitial, p.wallet)) + 0.25 * StartBalance(smallInitial, p.wallet)
       && p.weight > 0.0)
      <==> p == Participant("A", 40.0)
  {
    SmallEligible(balances);
  }

  /** Active Holder is A alone with weight 20 + 0.25 * 80: B's balance shrank from 80 to 50. */
  lemma SmallActiveHolderPool()
    ensures SmallPools().activeHolder == [Participant("A", 40.0)]
  {
    SmallCycleBalances();
    SmallActiveHolders(FinalBalances(smallHolders));
    var pool := SmallPools().activeHolder;
    assert forall p :: p in pool <==> p in [Participant("A", 40.0)];
    SortedUnique(pool, [Participant("A", 40.0)], WalletOf);
  }

  /** One-participant pools always yield their participant; the Lottery's draw 0.75 over two wallets is index 1. */
  lemma SmallCycleWinners()
    ensures DrawWinners(Pools(["A", "B"], [Participant("A", 5.0)], [Participant("B", 30.0)], [Participant("A", 40.0)]), smallStream)
      == Winners(Some("A"), Some("B"), Some("A"), Some("B"))
  {
    UniformIndexInterval(0.75, 2, 1);
  }

  /** The entries reported for the small cycle's winners: sole participants win with 100 percent. */
  lemma SmallCycleEntries()
    ensures PowerBuyerResult(Some("A"), [Participant("A", 5.0)], smallStats)
      == Some(PowerBuyerRecord("A", 5.0, Some("txA"), 100.0))
    ensures VolumeKingResult(Some("B"), [Participant("B", 30.0)], smallStats)
      == Some(VolumeKingRecord("B", 30.0, 10.0, 20.0, 100.0))
    ensures ActiveHolderResult(Some("A"), [Participant("A", 40.0)], map["A" := 100.0, "B" := 50.0, "C" := 0.0], smallInitial)
      == Some(ActiveHolderRecord("A", 100.0, 100.0, 80.0, 100.0))
    ensures LotteryResult(Some("B"), ["A", "B"], map["A" := 100.0, "B" := 50.0, "C" := 0.0])
      == Some(LotteryRecord("B", 50.0, 50.0))
  {
    assert Total([Participant("A", 5.0)]) == 5.0;
    assert Total([Participant("B", 30.0)]) == 30.0;
    assert Total([Participant("A", 40.0)]) == 40.0;
    assert WeightIn([Participant("A", 40.0)], "A") == 40.0;
    LotteryChanceOfTwo();
  }

  /** The four results of the small cycle: A, B and A at 100 percent, then B at 50 percent. */
  lemma SmallCycle()
    ensures CalculateAllRewards(smallHolders, smallStats, smallInitial, smallStream, smallRules)
      == Results(
           Some(PowerBuyerRecord("A", 5.0, Some("txA"), 100.0)),
           Some(VolumeKingRecord("B", 30.0, 10.0, 20.0, 100.0)),
           Some(ActiveHolderRecord("A", 100.0, 100.0, 80.0, 100.0)),
           Some(LotteryRecord("B", 50.0, 50.0)))
  {
    SmallCycleBalances();
    SmallLotteryPool();
    SmallPowerBuyerPool();
    SmallVolumeKingPool();
    SmallActiveHolderPool();
    assert SmallPools() == Pools(["A", "B"], [Participant("A", 5.0)], [Participant("B", 30.0)], [Participant("A", 40.0)]);
    SmallCycleWinners();
    SmallCycleEntries();
  }
}
