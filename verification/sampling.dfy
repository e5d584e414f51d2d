/**
 The seeded draws of one reward cycle: the linear-scan weighted sampler
 (`_weighted_choice`), the uniform pick (`random.choice`) and the win-chance
 figures reported next to each winner.

 The pseudo-random generator is an explicit input. A `Stream` gives, for each
 position, the value in [0, 1) that the generator seeded with the cycle's
 verification seed produces at that position; a cursor counts the draws used so
 far, so the draws of the four categories come from one stream in a fixed order.
 */
module Sampling {
  import opened Options

  /** One entry of a participant list: a wallet address and its weight in the draw. */
  datatype Participant = Participant(wallet: string, weight: real)

  function WalletOf(p: Participant): string { p.wallet }

  /** A value of `random.random()`. */
  type Unit = u: real | 0.0 <= u < 1.0

  /** The generator after `random.seed(seed)`: its value at every position. */
  type Stream = nat -> Unit

  /** The outcome of one selection step: the winner, and the draws used so far afterwards. */
  datatype Drawn = Drawn(winner: Option<string>, used: nat)

  /** The sum of the weights of a participant list. */
  function Total(ps: seq<Participant>): (t: real)
    ensures (forall i :: 0 <= i < |ps| ==> ps[i].weight >= 0.0) ==> t >= 0.0
    ensures (forall i :: 0 <= i < |ps| ==> ps[i].weight == 0.0) ==> t == 0.0
    decreases |ps|
  {
    if |ps| == 0 then 0.0 else Total(ps[..|ps| - 1]) + ps[|ps| - 1].weight
  }

  /** The running sum `upto` just before the scan looks at `ps[i]`. */
  function Prefix(ps: seq<Participant>, i: nat): real
    requires i <= |ps|
  {
    Total(ps[..i])
  }

  lemma PrefixStep(ps: seq<Participant>, i: nat)
    requires i < |ps|
    ensures Prefix(ps, i + 1) == Prefix(ps, i) + ps[i].weight
  {
    assert ps[..i + 1][..i] == ps[..i];
  }

  lemma PrefixAll(ps: seq<Participant>)
    ensures Prefix(ps, |ps|) == Total(ps)
  {
    assert ps[..|ps|] == ps;
  }

  /** The scan's test `upto + weight >= r` at position `k`. */
  predicate Reaches(ps: seq<Participant>, k: nat, r: real)
    requires k < |ps|
  {
    Prefix(ps, k) + ps[k].weight >= r
  }

  /**
   Position `i` is what the scan returns for the point `r`: the first position
   whose running sum reaches `r`, or the last position when none does.
   */
  ghost predicate IsScanWinner(ps: seq<Participant>, r: real, i: nat) {
    && i < |ps|
    && (|| (Reaches(ps, i, r) && forall k :: 0 <= k < i ==> !Reaches(ps, k, r))
        || (i == |ps| - 1 && forall k :: 0 <= k < |ps| ==> !Reaches(ps, k, r)))
  }

  /**
   The scan loop from position `i` on, `upto` being the running sum so far:
   the first position at or after `i` that reaches `r`, or `None` when the
   loop runs off the end.
   */
  function FirstHit(ps: seq<Participant>, r: real, i: nat, upto: real): (hit: Option<nat>)
    requires i <= |ps| && upto == Prefix(ps, i)
    ensures hit.Some? ==> i <= hit.value < |ps| && Reaches(ps, hit.value, r)
    ensures hit.Some? ==> forall k :: i <= k < hit.value ==> !Reaches(ps, k, r)
    ensures hit.None? ==> forall k :: i <= k < |ps| ==> !Reaches(ps, k, r)
    decreases |ps| - i
  {
    if i == |ps| then None
    else if upto + ps[i].weight >= r then Some(i)
    else
      PrefixStep(ps, i);
      FirstHit(ps, r, i + 1, upto + ps[i].weight)
  }

  /**
   `random.choice` over `n` items, abstracted as the index whose slice
   [i/n, (i+1)/n) of the unit interval holds the draw.
   */
  function UniformIndex(u: Unit, n: nat): (i: nat)
    requires n > 0
    ensures i < n
  {
    var f := (u * n as real).Floor;
    assert f as real <= u * n as real < n as real;
    f
  }

  /** Every index is picked by a slice of width 1/n: the pick is uniform. */
  lemma UniformIndexInterval(u: Unit, n: nat, i: nat)
    requires i < n
    ensures UniformIndex(u, n) == i <==> i as real / n as real <= u < (i + 1) as real / n as real
  {
    var x := u * n as real;
    assert x.Floor == i <==> i as real <= x < (i + 1) as real;
    ScaleBound(i as real, u, n as real);
    ScaleBound((i + 1) as real, u, n as real);
  }

  /** Dividing by a positive `n` keeps the order of `a` and `b * n`. */
  lemma ScaleBound(a: real, b: real, n: real)
    requires n > 0.0
    ensures a <= b * n <==> a / n <= b
    ensures b * n < a <==> b < a / n
  {
    assert a / n * n == a;
    if a <= b * n {
      assert a / n * n <= b * n;
    } else {
      assert b * n < a / n * n;
    }
  }

  /**
   The uniform point between 0 and `total` for the draw `u`: the draw scaled
   by the total, so a point of [0, total) for a positive total and of
   (total, 0] for a negative one.
   */
  function UniformPoint(total: real, u: Unit): (r: real)
    ensures total > 0.0 ==> 0.0 <= r < total
    ensures total < 0.0 ==> total < r <= 0.0
  {
    ScaledDrawBounds(total, u);
    total * u
  }

  /** A draw scaled by `total` stays strictly short of `total` and on the same side of 0. */
  lemma ScaledDrawBounds(total: real, u: Unit)
    ensures total > 0.0 ==> 0.0 <= total * u < total
    ensures total < 0.0 ==> total < total * u <= 0.0
  {
    assert total - total * u == total * (1.0 - u);
    if total > 0.0 {
      assert total * (1.0 - u) > 0.0;
      assert total * u >= 0.0;
    } else if total < 0.0 {
      assert (-total) * (1.0 - u) > 0.0;
      assert (-total) * u >= 0.0;
    }
  }

  /**
   The position `_weighted_choice` picks for the draw `u`: uniform when the
   weights sum to zero, otherwise the scan over `random.uniform(0, total)`,
   falling back to the last participant.
   */
  function ChooseIndex(ps: seq<Participant>, u: Unit): (i: nat)
    requires |ps| > 0
    ensures i < |ps|
    ensures Total(ps) == 0.0 ==> i == UniformIndex(u, |ps|)
    ensures Total(ps) != 0.0 ==> IsScanWinner(ps, UniformPoint(Total(ps), u), i)
  {
    var total := Total(ps);
    if total == 0.0 then UniformIndex(u, |ps|)
    else
      var r := UniformPoint(total, u);
      match FirstHit(ps, r, 0, 0.0)
      case Some(i) => i
      case None => |ps| - 1
  }

  /**
   `_weighted_choice(ps)` with the generator at position `used`: no winner and
   no draw for an empty list, otherwise one draw and a participant's wallet.
   */
  function WeightedChoice(ps: seq<Participant>, stream: Stream, used: nat): (d: Drawn)
    ensures d.winner.None? <==> |ps| == 0
    ensures d.used == used + (if |ps| == 0 then 0 else 1)
    ensures d.winner.Some? ==>
      exists i :: 0 <= i < |ps| && ps[i].wallet == d.winner.value &&
        if Total(ps) == 0.0 then i == UniformIndex(stream(used), |ps|)
        else IsScanWinner(ps, UniformPoint(Total(ps), stream(used)), i)
  {
    if |ps| == 0 then Drawn(None, used)
    else
      var i := ChooseIndex(ps, stream(used));
      Drawn(Some(ps[i].wallet), used + 1)
  }

  /**
   The Lottery pick with the generator at position `used`: no winner and no
   draw for an empty list, otherwise one draw and the wallet at the uniformly
   picked index.
   */
  function UniformChoice(ws: seq<string>, stream: Stream, used: nat): (d: Drawn)
    ensures d.winner.None? <==> |ws| == 0
    ensures d.used == used + (if |ws| == 0 then 0 else 1)
    ensures d.winner.Some? ==> d.winner.value in ws
    ensures |ws| > 0 ==> d.winner == Some(ws[UniformIndex(stream(used), |ws|)])
  {
    if |ws| == 0 then Drawn(None, used)
    else Drawn(Some(ws[UniformIndex(stream(used), |ws|)]), used + 1)
  }

  /** The scan finds a hit for every point no larger than the total: the fallback is never needed there. */
  lemma {:induction false} ScanHitsUpToTotal(ps: seq<Participant>, r: real)
    requires |ps| > 0 && r <= Total(ps)
    ensures FirstHit(ps, r, 0, 0.0).Some?
  {
    var n := |ps|;
    PrefixStep(ps, n - 1);
    PrefixAll(ps);
    assert Reaches(ps, n - 1, r);
    assert ps[..0] == [];
  }

  /**
   With exact arithmetic the fallback to the last participant is reached only
   when the total is not positive: a positive total always yields a hit.
   */
  lemma ScanHitsWhenTotalPositive(ps: seq<Participant>, u: Unit)
    requires Total(ps) > 0.0
    ensures FirstHit(ps, UniformPoint(Total(ps), u), 0, 0.0).Some?
  {
    ScanHitsUpToTotal(ps, UniformPoint(Total(ps), u));
  }

  lemma {:induction false} PrefixMonotone(ps: seq<Participant>, j: nat, k: nat)
    requires forall m :: 0 <= m < |ps| ==> ps[m].weight >= 0.0
    requires j <= k <= |ps|
    ensures Prefix(ps, j) <= Prefix(ps, k)
    decreases k - j
  {
    if j < k {
      PrefixMonotone(ps, j, k - 1);
      PrefixStep(ps, k - 1);
    }
  }

  /**
   With non-negative weights and a point `r` no larger than the total,
   participant `i` wins exactly when `r` lies in its slice
   (Prefix(i), Prefix(i + 1)] of the running sums (the first slice also
   holding its left end): the scan is proportional sampling.
   */
  lemma {:induction false} ScanWinnerInterval(ps: seq<Participant>, r: real, i: nat)
    requires forall m :: 0 <= m < |ps| ==> ps[m].weight >= 0.0
    requires i < |ps| && r <= Total(ps)
    ensures IsScanWinner(ps, r, i) <==> (i == 0 || Prefix(ps, i) < r) && r <= Prefix(ps, i + 1)
  {
    PrefixStep(ps, i);
    if (i == 0 || Prefix(ps, i) < r) && r <= Prefix(ps, i + 1) {
      forall k | 0 <= k < i
        ensures !Reaches(ps, k, r)
      {
        PrefixStep(ps, k);
        PrefixMonotone(ps, k + 1, i);
      }
    }
    if IsScanWinner(ps, r, i) {
      var n := |ps|;
      PrefixStep(ps, n - 1);
      PrefixAll(ps);
      assert Reaches(ps, n - 1, r);
      if i > 0 {
        PrefixStep(ps, i - 1);
        assert !Reaches(ps, i - 1, r);
      }
    }
  }

  /** The scan has one winner for each point. */
  lemma ScanWinnerUnique(ps: seq<Participant>, r: real, i: nat, j: nat)
    requires IsScanWinner(ps, r, i) && IsScanWinner(ps, r, j)
    ensures i == j
  {
  }

  /** Dividing by a positive `n` keeps the order of `b * n` and `a`, the strict and the non-strict one. */
  lemma ScaleStrict(a: real, b: real, n: real)
    requires n > 0.0
    ensures a < b * n <==> a / n < b
    ensures b * n <= a <==> b <= a / n
  {
    assert a / n * n == a;
    if b * n <= a {
      assert b * n <= a / n * n;
    } else {
      assert a / n * n < b * n;
    }
  }

  /** A slice condition on the point `t * u` is the same condition on `u` with both ends divided by `t`. */
  lemma SliceInDraw(p0: real, p1: real, t: real, u: Unit, first: bool)
    requires t > 0.0
    ensures ((first || p0 < UniformPoint(t, u)) && UniformPoint(t, u) <= p1)
        <==> ((first || p0 / t < u) && u <= p1 / t)
  {
    assert UniformPoint(t, u) == u * t;
    ScaleStrict(p0, u, t);
    ScaleStrict(p1, u, t);
  }

  /**
   With non-negative weights and a positive total, `_weighted_choice` picks
   participant `i` exactly for the draws `u` in its slice
   (Prefix(i) / total, Prefix(i + 1) / total] of the unit interval (the first
   slice also holding 0), whose width is the participant's share of the total:
   the pick is proportional to weight.
   */
  lemma WeightedPickInterval(ps: seq<Participant>, u: Unit, i: nat)
    requires forall m :: 0 <= m < |ps| ==> ps[m].weight >= 0.0
    requires Total(ps) > 0.0 && i < |ps|
    ensures ChooseIndex(ps, u) == i <==>
      (i == 0 || Prefix(ps, i) / Total(ps) < u) && u <= Prefix(ps, i + 1) / Total(ps)
  {
    var t := Total(ps);
    var r := UniformPoint(t, u);
    var c := ChooseIndex(ps, u);
    assert IsScanWinner(ps, r, c);
    if IsScanWinner(ps, r, i) {
      ScanWinnerUnique(ps, r, c, i);
    }
    ScanWinnerInterval(ps, r, i);
    SliceInDraw(Prefix(ps, i), Prefix(ps, i + 1), t, u, i == 0);
  }

  /**
   The win chance reported for a winner of weight `weight` in a list whose
   weights sum to `total`: its share in percent, or 100 when the total is not
   positive.
   */
  function WinChance(weight: real, total: real): real {
    if total > 0.0 then weight / total * 100.0 else 100.0
  }

  /**
   Against a positive total a win chance is the weight's share in percent, so
   it lies between 0 and 100 for a weight between 0 and the total; against
   any other total it is 100.
   */
  lemma WinChanceIsShare(weight: real, total: real)
    ensures total > 0.0 ==> WinChance(weight, total) * total == weight * 100.0
    ensures total > 0.0 && 0.0 <= weight <= total ==> 0.0 <= WinChance(weight, total) <= 100.0
    ensures total <= 0.0 ==> WinChance(weight, total) == 100.0
  {
    if total > 0.0 {
      var share := weight / total;
      assert share * total == weight;
      if 0.0 <= weight <= total {
        ScaleBound(weight, 1.0, total);
        assert share <= 1.0;
      }
    }
  }

  /** The win chances of all participants of `ps` against `total`, added up. */
  function ChanceSum(ps: seq<Participant>, total: real): real
    decreases |ps|
  {
    if |ps| == 0 then 0.0 else ChanceSum(ps[..|ps| - 1], total) + WinChance(ps[|ps| - 1].weight, total)
  }

  lemma {:induction false} ChanceSumIsShare(ps: seq<Participant>, total: real)
    requires total > 0.0
    ensures ChanceSum(ps, total) == Total(ps) / total * 100.0
    decreases |ps|
  {
    if |ps| > 0 {
      var init := ps[..|ps| - 1];
      var w := ps[|ps| - 1].weight;
      ChanceSumIsShare(init, total);
      SharesAdd(Total(init), w, total);
    }
  }

  /** Shares of one positive total add up. */
  lemma SharesAdd(a: real, b: real, total: real)
    requires total > 0.0
    ensures a / total * 100.0 + b / total * 100.0 == (a + b) / total * 100.0
  {
    assert a / total + b / total == (a + b) / total;
  }

  /** Win chances computed for every participant of a list with a positive total add up to 100 percent. */
  lemma ChancesSumToHundred(ps: seq<Participant>)
    requires Total(ps) > 0.0
    ensures ChanceSum(ps, Total(ps)) == 100.0
  {
    var t := Total(ps);
    ChanceSumIsShare(ps, t);
    assert t / t == 1.0;
  }
}
