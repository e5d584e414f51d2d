# Pump Pot reward-cycle verification, modelled in Dafny

This project models the calculation at the heart of the Pump Pot stand-alone
verification script `verify_cycle.py`. It does not model the script's loading
and printing around that calculation.

Given the materialised data package, the calculation does the following:

- it keeps the final token-holder balances;
- it derives the universally eligible wallets, which must hold at least the
  minimum and must not be the `_start_signature` sentinel key;
- it builds four address-sorted participant pools:
  - Power Buyer, weighted by largest buy;
  - Volume King, weighted by trade volume;
  - Active Holder, weighted by `net_change + 0.25 * start_balance`;
  - Lottery, which is unweighted;
- it draws one winner per category from a single seeded pseudo-random
  stream, in the fixed order Power Buyer, Volume King, Active Holder,
  Lottery;
- it reports each winner with its metric and its win chance in percent.

The modules follow that structure:

| file | module | contents |
|---|---|---|
| `options.dfy` | `Options` | `Option` (Python's `None` / value) |
| `sorting.dfy` | `Sorting` | Python's string order on addresses, stable sorting by key, and the uniqueness of a sorted listing |
| `sampling.dfy` | `Sampling` | `_weighted_choice`, `random.uniform`, `random.choice`, and win-chance figures |
| `rewards.dfy` | `Rewards` | `calculate_all_rewards_from_package`: balances, eligibility, pools, draws, records |
| `properties.dfy` | `RewardProperties` | cycle-wide properties: soundness of each record, degenerate cycles, independence from enumeration order |
| `scenarios.dfy` | `Scenarios` | worked cycles proved against the model |

## How randomness is modelled

The generator is an explicit input, `Stream = nat -> Unit`. Its value at
position `k` is an abstract value in [0, 1) standing for the `k`-th draw
call made on the generator after it is seeded with the cycle's verification
seed. A cursor counts the draws used so far.
Every non-empty category uses exactly one draw, and an empty category uses
none.

Each draw is modelled as follows:

- `random.uniform(0, total)` is Python's `0 + (total - 0) * u`.
- `random.choice` over `n` items is abstracted as the index `floor(u * n)`.
  The lemma `UniformIndexInterval` states that this makes the pick uniform.

Weights are exact `real` numbers.

## Behaviour modelled as written

- **Falsy winner.** Results are assembled under Python's `if winner:`. A
  winner whose address is the empty string is therefore reported as no
  winner (`Rewards.Reported`). The model keeps this behaviour.
  `RewardProperties.NonEmptyPoolsAreReported` states when the quirk cannot
  arise.
- **Zero versus positive total.** `_weighted_choice` switches to the
  uniform pick only when the total weight is exactly `0`. The assembly
  reports `100.0` whenever the total is not positive. Both tests are
  modelled as written.
  - The two differ for a negative total. That can happen only for Volume
    King, with a non-positive minimum volume and negative volumes. The scan
    is used there, yet the reported chance is `100.0`.
  - So the `100.0` case is taken whenever the total is not positive,
    not only when it is zero.
- **Chances summing to 100.** The win chances of all participants, each
  computed the way a winner's is, sum to 100 only when the total is
  positive. `Sampling.ChancesSumToHundred` is stated with that condition.
- **Scan fallback.** The fallback to the last participant after the scan is
  modelled. With exact arithmetic it is never reached when the total is
  positive; `Sampling.ScanHitsWhenTotalPositive` proves this.

## Model

| member | source | states |
|---|---|---|
| Sampling.WeightedChoice | verify_cycle.py:30-43 | an empty list gives no winner and uses no draw. Otherwise exactly one draw is used and the winner is the wallet at some position of the list. For a zero total that position is the uniform pick; otherwise it is the scan's winner for `random.uniform(0, total)` |
| Sampling.ChooseIndex | verify_cycle.py:32-43 | the chosen position lies in the list. It is the uniform index when the total is 0. Otherwise it is the first position whose running sum plus its own weight reaches the point (`>=`), or the last position when no position reaches it |
| Sampling.FirstHit | verify_cycle.py:38-42 | the scan loop returns the first position at or after the start that reaches `r`, with no earlier position reaching it. It returns nothing exactly when no position from the start on reaches `r` |
| Sampling.ScanWinnerInterval | verify_cycle.py:37-43 | for non-negative weights and a point no larger than the total, participant `i` wins iff the point lies in its slice `(Prefix(i), Prefix(i+1)]` of the running sums. The first slice also includes 0 |
| Sampling.WeightedPickInterval | verify_cycle.py:30-43 | for non-negative weights and a positive total, `_weighted_choice` picks participant `i` iff the draw `u` lies in `(Prefix(i)/total, Prefix(i+1)/total]`, the first slice also holding 0. The slice's width is the participant's weight over the total, so the pick from the stream is proportional to weight |
| Sampling.SliceInDraw | verify_cycle.py:37 | a slice condition on the point `random.uniform(0, t)` for the draw `u` is the same condition on `u` with both ends divided by `t`, which ties the point to the draw |
| Sampling.ScanHitsUpToTotal | verify_cycle.py:39-43 | every point no larger than the total is reached by some position, so the scan never falls through to the fallback |
| Sampling.ScanHitsWhenTotalPositive | verify_cycle.py:37-43 | for a positive total, the point `random.uniform(0, total)` always yields a hit in the scan |
| Sampling.UniformPoint | verify_cycle.py:37 | `random.uniform(0, total)` lies in `[0, total)` for a positive total and in `(total, 0]` for a negative one; `SliceInDraw` and `WeightedPickInterval` relate it to the draw |
| Sampling.UniformIndex | verify_cycle.py:35 | `random.choice` over `n` items yields an index below `n` |
| Sampling.UniformIndexInterval | verify_cycle.py:35 | index `i` is picked exactly for the draws in `[i/n, (i+1)/n)`, so every index has the same chance |
| Sampling.UniformChoice | verify_cycle.py:91 | the Lottery pick gives no winner and uses no draw iff `ws` is empty. Otherwise it uses one draw, and the winner is the member of `ws` at the uniformly drawn index (`UniformIndex`), so each wallet has the same chance |
| Sampling.ChanceSumIsShare | verify_cycle.py:96-98 | the win chances of a list's participants, each computed against the same positive total, add up to the list's share of that total in percent |
| Sampling.WinChanceIsShare | verify_cycle.py:98 | against a positive total the chance times the total is 100 times the weight, so it lies in [0, 100] for a weight between 0 and the total; against any other total it is 100 |
| Sampling.Total | verify_cycle.py:32 | the total of non-negative weights is non-negative, and the total of all-zero weights is 0, which selects the uniform pick |
| Sampling.ChancesSumToHundred | verify_cycle.py:98 | computed against the list's own positive total, the win chances of all participants sum to exactly 100 |
| Sorting.Less | verify_cycle.py:66 | the address order compares character by character, and a proper prefix sorts before the longer address |
| Sorting.LessIrreflexive | verify_cycle.py:66 | no address sorts before itself |
| Sorting.LessAsymmetric | verify_cycle.py:66 | two addresses never sort before each other |
| Sorting.LessTransitive | verify_cycle.py:66 | the address order used by `sorted` is transitive |
| Sorting.LessTotal | verify_cycle.py:66 | any two distinct addresses are ordered one way or the other |
| Sorting.SortedIsDistinct | verify_cycle.py:64-67 | a list strictly ascending by address repeats no address |
| Sorting.SortedUnique | verify_cycle.py:64-67 | two strictly ascending lists with the same members are equal, so the sorted listing of a collection does not depend on how it was enumerated |
| Sorting.InsertBy | verify_cycle.py:64-67 | inserting by key adds exactly one copy of the new element and keeps every old one: the result's multiset is the input's plus the element |
| Sorting.InsertBySorted | verify_cycle.py:64-67 | inserting an element with a new key into an ascending list keeps it ascending |
| Sorting.SortBy | verify_cycle.py:64-67 | sorting by key permutes its input: the same multiset of elements, so the same length and members |
| Sorting.SortBySorted | verify_cycle.py:64-67 | sorting a list with distinct keys yields a list strictly ascending by key |
| Rewards.FinalBalances | verify_cycle.py:57 | the final-balance map of the holder rows. It has no contract of its own: `FinalBalancesKeys` and `FinalBalancesLastRowWins` state its keys and values |
| Rewards.IsEligible | verify_cycle.py:58-61 | universal eligibility, a definition: a final-balance key, not `_start_signature`, holding at least the minimum. `EligibleWallets` and `SentinelNeverWins` state what follows from it |
| Rewards.PowerBuyerWeight | verify_cycle.py:65 | the Power Buyer filter and weight for one wallet, a definition. `PowerBuyerPool` states the pool it yields |
| Rewards.VolumeKingWeight | verify_cycle.py:72 | the Volume King filter and weight for one wallet, a definition. `VolumeKingPool` states the pool it yields |
| Rewards.ActiveHolderWeight | verify_cycle.py:79-85 | the Active Holder filter and weight for one wallet, a definition. `ActiveHolderPool` states the pool it yields |
| Rewards.Reported | verify_cycle.py:95 | Python's truthiness test on the winner, a definition. `NonEmptyPoolsAreReported` states when it is no restriction |
| Rewards.FinalBalancesKeys | verify_cycle.py:57 | the final-balance map has exactly the addresses of the holder rows as keys |
| Rewards.FinalBalancesLastRowWins | verify_cycle.py:57 | an address maps to the amount of its last row, because later duplicates overwrite earlier ones |
| Rewards.HolderAddresses | verify_cycle.py:57-59 | the keys of the final-balance map, listed once each: no repeats, and exactly the addresses of the rows |
| Rewards.EligibleAmong | verify_cycle.py:58-61 | filtering keeps exactly the eligible members of the input and keeps it free of repeats |
| Rewards.EligibleWallets | verify_cycle.py:58-61 | the Lottery list is strictly ascending. A wallet is on it iff it is a final-balance key, is not `_start_signature`, and holds at least `min_eligible_holding_amount` |
| Rewards.Select | verify_cycle.py:65 | the participants picked from a list of wallets are exactly the wallets with a weight, paired with that weight. Ascending and repeat-free inputs give ascending and repeat-free outputs |
| Rewards.PowerBuyerPool | verify_cycle.py:64-67 | the Power Buyer list is ascending by address. Its entries are exactly the eligible wallets with a cycle stat and `largest_buy > 0`, each weighted by that largest buy |
| Rewards.VolumeKingPool | verify_cycle.py:71-74 | the Volume King list is ascending by address. Its entries are exactly the eligible wallets with a cycle stat and `total_volume >= min_trade_volume`, each weighted by that volume |
| Rewards.ActiveHolderPool | verify_cycle.py:78-86 | the Active Holder list is ascending by address. Its entries are exactly the eligible wallets whose balance did not shrink (start defaults to 0), weighted by `net_change + 0.25 * start`, and only when that weight is positive |
| Rewards.BuildPools | verify_cycle.py:57-90 | all four pools are ascending by address. Each has exactly the members its category's filter admits, over the final balances built from the holder rows |
| Rewards.DrawWinners | verify_cycle.py:68-91 | the four winners are drawn in the fixed order. Each category draws at the stream position given by how many earlier pools were non-empty |
| Rewards.WeightIn | verify_cycle.py:111 | the lookup gives 0.0 when no entry has the wallet. In a repeat-free list it gives that wallet's weight |
| Rewards.LotteryChance | verify_cycle.py:119-120 | for `n > 0` wallets the Lottery chance times `n` is exactly 100 |
| Rewards.DrawnFromPoolHasStat | verify_cycle.py:97-104 | a wallet drawn from a pool whose wallets all have cycle stats also has one, so looking up its stat cannot fail |
| Rewards.CalculateAllRewards | verify_cycle.py:93-123 | each category has a record exactly when its draw from the seeded stream produced a truthy wallet, and that record names the drawn wallet |
| Rewards.PowerBuyerResult | verify_cycle.py:95-100 | a Power Buyer record exists iff the winner is truthy. It names the winner and carries the winner's largest-buy transaction |
| Rewards.VolumeKingResult | verify_cycle.py:102-107 | a Volume King record exists iff the winner is truthy. It names the winner and carries the winner's buys and sells |
| Rewards.ActiveHolderResult | verify_cycle.py:109-116 | an Active Holder record exists iff the winner is truthy. It names the winner, and its metric is the final balance it reports |
| Rewards.LotteryResult | verify_cycle.py:118-122 | a Lottery record exists iff the winner is truthy, and it names the winner |
| RewardProperties.WinnerIsParticipant | verify_cycle.py:30-43 | `_weighted_choice` never returns a wallet outside its list |
| RewardProperties.PowerBuyerRecordIsSound | verify_cycle.py:95-99 | a Power Buyer record names an eligible trader whose positive largest buy is the metric, whose largest-buy transaction is carried over, and whose chance is its share of the pool's total |
| RewardProperties.VolumeKingRecordIsSound | verify_cycle.py:102-106 | a Volume King record names an eligible trader with at least the minimum volume, carries its volume, buys and sells, and reports its share of the pool's total |
| RewardProperties.ActiveHolderRecordIsSound | verify_cycle.py:109-115 | an Active Holder record names an eligible holder whose balance did not shrink. It carries the final and start balances, and its weight in the pool is `net_change + 0.25 * start > 0`. The chance is that weight's share of the pool's total |
| RewardProperties.ActiveHolderEntry | verify_cycle.py:109-115 | for a winner drawn from a pool built by the Active Holder filter, the record's weight read back from the pool is the winner's formula weight |
| RewardProperties.LotteryRecordIsSound | verify_cycle.py:118-121 | a Lottery record names an eligible wallet, carries its final balance, and reports one chance in the (non-zero) number of eligible wallets |
| RewardProperties.SentinelNeverWins | verify_cycle.py:58-61 | no category's record ever names `_start_signature` |
| RewardProperties.NoEligibleWalletNoWinner | verify_cycle.py:91-122 | without an eligible wallet all four results are `None` |
| RewardProperties.NonEmptyPoolsAreReported | verify_cycle.py:95-118 | when the empty address is not eligible, a category has a record exactly when its pool is non-empty |
| RewardProperties.ReportedIffNonEmpty | verify_cycle.py:30-43 | a weighted draw from a list without the empty address is reported exactly when the list is non-empty |
| RewardProperties.BelowMinimumExcluded | verify_cycle.py:60 | a wallet below the minimum holding is in no pool |
| RewardProperties.RaisingMinimumShrinksPools | verify_cycle.py:60 | raising the minimum holding never adds a participant to any pool |
| RewardProperties.SortedSelectionIsPool | verify_cycle.py:64-67 | sorting the participants selected along any repeat-free enumeration gives the address-sorted pool |
| RewardProperties.PoolsFollowSourceConstruction | verify_cycle.py:64-90 | each pool equals `sorted` applied to its comprehension, over any iteration order of the cycle-stats dict or the eligible set. Those orders never influence a draw |
| RewardProperties.SameBalancesSameResults | verify_cycle.py:57 | holder snapshots with the same final-balance map yield the same results, whatever their row order and duplicates |
| Scenarios.AddressOrderDecidesWinner | verify_cycle.py:37-42 | for the draw 0.25 over weights `b:1, a:3`, the sorted list picks `a` and the unsorted one picks `b`, because `>=` already holds at `b` |
| Scenarios.LotteryChanceOfTwo | verify_cycle.py:119-120 | two eligible wallets give each a Lottery chance of 50 percent |
| Scenarios.SmallCycleBalances | verify_cycle.py:57 | holders `A:100, B:50, C:0` give that final-balance map |
| Scenarios.SmallLotteryPool | verify_cycle.py:58-61 | with a minimum of 10 the Lottery list is `[A, B]` |
| Scenarios.SmallPowerBuyerPool | verify_cycle.py:64-67 | only A, with largest buy 5, enters Power Buyer |
| Scenarios.SmallVolumeKingPool | verify_cycle.py:71-74 | only B, with volume 30 against a minimum of 25, enters Volume King |
| Scenarios.SmallActiveHolderPool | verify_cycle.py:78-86 | only A enters Active Holder, with weight `20 + 0.25 * 80 = 40`; B's balance shrank |
| Scenarios.SmallCycleWinners | verify_cycle.py:68-91 | one-participant pools return their participant, and the Lottery draw 0.75 over two wallets picks the second |
| Scenarios.SmallCycleEntries | verify_cycle.py:95-122 | the four records of the small cycle's winners, with chances 100, 100, 100 and 50 |
| Scenarios.SmallCycle | verify_cycle.py:45-123 | the whole small cycle yields A, B and A at 100 percent and B at 50 percent |

## Left out

- `load_verification_package`, `prepare_data_for_calculation`, `print_winner_report` and `main` (verify_cycle.py:127-200) are left out. They check that files exist, read JSON and parquet through pandas, coerce rows and print; the model starts from already materialised inputs.
- The catch-all exception handler (verify_cycle.py:183-197) is left out. It wraps the calculation as well as the I/O, so it also reports errors the calculation raises on malformed input.
- Missing and ill-typed fields are excluded by typing, so the model has no counterpart for the errors the calculation raises on them. `TokenHolder`, `CycleStat` and `RewardRules` always carry every field, and every amount is a number. The calculation raises in these cases:
  - a `KeyError` for a holder row without `address` or `amount` (verify_cycle.py:57);
  - a `KeyError` for rules without `min_eligible_holding_amount`, and a `TypeError` for a `None` amount, once some holder address is not the sentinel, since the sentinel test comes first (verify_cycle.py:60);
  - a `KeyError` for a stat without `largest_buy` or `total_volume`, only when that stat belongs to an eligible wallet, since eligibility is tested first (verify_cycle.py:65, 72);
  - a `KeyError` for rules without `min_trade_volume` once an eligible wallet has a stat (verify_cycle.py:72);
  - a `KeyError` when the drawn winner's stat lacks `largest_buy_tx` (verify_cycle.py:99), or `buys` or `sells` (verify_cycle.py:106).
- The Mersenne Twister is left out, as is how `random.seed` hashes the seed string. The stream is an input; see "How randomness is modelled".
- The bits `random.choice` and `random.uniform` consume are left out for the same reason: each call is one position of the stream.
- Sampling.UniformIndex: abstracts `random.choice` as `floor(u * n)` over one stream value. Python actually draws `getrandbits` with rejection. The contract states uniformity of this abstraction, not of CPython's bit-level algorithm.
- float64 rounding is left out: weights, totals and chances are exact reals. Under floating point, the fallback to the last participant can be reached with a positive total, and the chances may sum to slightly more or less than 100.
- The sentinel's value in the starting-balance map is left out. The package stores the start signature string there; the map is modelled as `map<string, real>`. The sentinel is excluded from eligibility, so its value is never read for a winner.
- Shapes of the stats records other than the fields read are left out. Only `total_volume`, `largest_buy`, `largest_buy_tx`, `buys` and `sells` are modelled, and `largest_buy_tx` may be `None`.
- Key order of the result dictionary and the JSON shape are left out. The results are modelled as a record with one optional entry per category.
